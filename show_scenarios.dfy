/**
  The two runs of tests/test_show.py, with the working set and the package
  index answers written out as inputs.
 */
module ShowScenarios {
  import opened PyValues
  import opened Report
  import opened ShowCommand
  import opened ShowProperties

  const INITOOLS_SUMMARY := "Tools for parsing and using INI-style files"

  /** The PKG-INFO lines of the installed INITools 0.2 that come before its summary. */
  const INITOOLS_HEAD := ["Metadata-Version: 1.0", "Name: INITools", "Version: 0.2"]
  /** The PKG-INFO lines that follow it. */
  const INITOOLS_TAIL := ["Home-page: http://pythonpaste.org/initools/", "Author: Ian Bicking", "License: MIT"]

  /** The PKG-INFO text of the installed INITools 0.2. */
  function InitoolsPkgInfo(): string
  {
    Join(INITOOLS_HEAD + [SUMMARY_PREFIX + INITOOLS_SUMMARY] + INITOOLS_TAIL, '\n')
  }

  /** The index's release data for INITools 0.3.1. */
  function InitoolsRecord(): map<string, PyValue>
  {
    map[
      NAME_KEY := Str("INITools"),
      SUMMARY_KEY := Str(INITOOLS_SUMMARY),
      AUTHOR_KEY := Str("Ian Bicking"),
      DOCS_URL_KEY := Str(""),
      HOME_PAGE_KEY := Str("http://pythonpaste.org/initools/"),
      LICENSE_KEY := Str("MIT")]
  }

  function InitoolsEnv(): Env
  {
    Env([Dist("INITools", "0.2", Some(InitoolsPkgInfo()), [])],
        Registry(["0.3.1"], map["0.3.1" := InitoolsRecord()]),
        None)
  }

  /** None of the PKG-INFO lines around the summary is a summary line or holds a line break. */
  lemma InitoolsLinesPlain()
    ensures forall i :: 0 <= i < |INITOOLS_HEAD| ==> '\n' !in INITOOLS_HEAD[i] && !StartsWith(INITOOLS_HEAD[i], SUMMARY_PREFIX)
    ensures forall i :: 0 <= i < |INITOOLS_TAIL| ==> '\n' !in INITOOLS_TAIL[i]
    ensures '\n' !in INITOOLS_SUMMARY
  {
    assert INITOOLS_HEAD[0][0] != SUMMARY_PREFIX[0];
    assert INITOOLS_HEAD[1][0] != SUMMARY_PREFIX[0];
    assert INITOOLS_HEAD[2][0] != SUMMARY_PREFIX[0];
  }

  /** The installed PKG-INFO yields the same summary as the index. */
  lemma InitoolsInstalledSummary()
    ensures InstalledSummary(Some(InitoolsPkgInfo())) == Some(INITOOLS_SUMMARY)
  {
    InitoolsLinesPlain();
    InstalledSummaryRoundTrip(INITOOLS_HEAD, INITOOLS_SUMMARY, INITOOLS_TAIL);
  }

  /** The six variables once the index has answered for INITools. */
  function InitoolsVars(): Vars
  {
    Vars(Str("INITools"), Str("0.2"), Str("0.3.1"), Some(InitoolsRecord()), Str(INITOOLS_SUMMARY), List([]))
  }

  /**
    INITools is installed, so its name and version stay; the first release
    becomes latest_version and the record's summary replaces the local one.
   */
  lemma InitoolsResolved()
    ensures Resolve(Options(false), "INITools", InitoolsEnv()) == Resolved(InitoolsVars())
  {
    var env := InitoolsEnv();
    assert FirstMatch(env.workingSet, "INITools") == Some(env.workingSet[0]);
    var record := InitoolsRecord();
    assert RecordOf(env.registry, "0.3.1") == record;
    assert record[SUMMARY_KEY] == Str(INITOOLS_SUMMARY);
    assert REQUIRES_KEY !in record;
  }

  /** What the INITools variables show: every field but Documentation, and no requirements. */
  lemma InitoolsDisplayed()
    ensures Display(InitoolsVars())
            == Shown("INITools", Some(INITOOLS_SUMMARY), Some("0.2"), Some("0.3.1"), Some("Ian Bicking"), None,
                     Some("http://pythonpaste.org/initools/"), Some("MIT"), [])
  {
    var record := InitoolsRecord();
    assert MetadataLine(Some(record), AUTHOR_KEY) == Some("Ian Bicking");
    assert MetadataLine(Some(record), DOCS_URL_KEY) == None;
    assert MetadataLine(Some(record), HOME_PAGE_KEY) == Some("http://pythonpaste.org/initools/");
    assert MetadataLine(Some(record), LICENSE_KEY) == Some("MIT");
  }

  /** The INITools variables render as the seven expected lines. */
  lemma InitoolsRendered()
    ensures Render(InitoolsVars())
            == [PACKAGE_LABEL + "INITools",
                SUMMARY_LABEL + INITOOLS_SUMMARY,
                VERSION_LABEL + "0.2",
                LATEST_LABEL + "0.3.1",
                AUTHOR_LABEL + "Ian Bicking",
                HOMEPAGE_LABEL + "http://pythonpaste.org/initools/",
                LICENSE_LABEL + "MIT"]
  {
    InitoolsDisplayed();
    var sh := Display(InitoolsVars());
    assert ReportLines(sh)
           == [PACKAGE_LABEL + "INITools"] + [SUMMARY_LABEL + INITOOLS_SUMMARY] + [VERSION_LABEL + "0.2"]
              + [LATEST_LABEL + "0.3.1"] + [AUTHOR_LABEL + "Ian Bicking"] + [] + [HOMEPAGE_LABEL + sh.homepage.value]
              + [LICENSE_LABEL + "MIT"] + [];
  }

  /**
    `pip show INITools` with INITools 0.2 installed: Package, Summary,
    Version, Latest Version, Author, Homepage and License (the test strips
    the Latest Version line before comparing).
   */
  lemma ShowInstalledPackage()
    ensures ShowOutcome(Options(false), ["INITools"], InitoolsEnv())
            == Written([
                 PACKAGE_LABEL + "INITools",
                 SUMMARY_LABEL + "Tools for parsing and using INI-style files",
                 VERSION_LABEL + "0.2",
                 LATEST_LABEL + "0.3.1",
                 AUTHOR_LABEL + "Ian Bicking",
                 HOMEPAGE_LABEL + "http://pythonpaste.org/initools/",
                 LICENSE_LABEL + "MIT"])
  {
    InitoolsResolved();
    InitoolsRendered();
  }

  const PYPI_SUMMARY := "PyPI is the Python Package Index at http://pypi.python.org/"

  /** The index's release data for pypi 2005-08-01. */
  function PypiRecord(): map<string, PyValue>
  {
    map[
      NAME_KEY := Str("pypi"),
      SUMMARY_KEY := Str(PYPI_SUMMARY),
      AUTHOR_KEY := Str("Richard Jones"),
      DOCS_URL_KEY := Str(""),
      HOME_PAGE_KEY := Str("http://wiki.python.org/moin/CheeseShopDev"),
      LICENSE_KEY := Str("UNKNOWN")]
  }

  function PypiEnv(): Env
  {
    Env([], Registry(["2005-08-01"], map["2005-08-01" := PypiRecord()]), None)
  }

  /** The six variables once the index has answered for pypi. */
  function PypiVars(): Vars
  {
    Vars(Str("pypi"), PyNone, Str("2005-08-01"), Some(PypiRecord()), Str(PYPI_SUMMARY), PyNone)
  }

  /** Nothing is installed, so the name and summary come from the record and there is no version. */
  lemma PypiResolved()
    ensures Resolve(Options(false), "pypi", PypiEnv()) == Resolved(PypiVars())
  {
    var env := PypiEnv();
    var record := PypiRecord();
    assert RecordOf(env.registry, "2005-08-01") == record;
    assert record[NAME_KEY] == Str("pypi") && record[SUMMARY_KEY] == Str(PYPI_SUMMARY);
    assert REQUIRES_KEY !in record;
  }

  /** What the pypi variables show: no Version and no Documentation line, no requirements. */
  lemma PypiDisplayed()
    ensures Display(PypiVars())
            == Shown("pypi", Some(PYPI_SUMMARY), None, Some("2005-08-01"), Some("Richard Jones"), None,
                     Some("http://wiki.python.org/moin/CheeseShopDev"), Some("UNKNOWN"), [])
  {
    var record := PypiRecord();
    assert MetadataLine(Some(record), AUTHOR_KEY) == Some("Richard Jones");
    assert MetadataLine(Some(record), DOCS_URL_KEY) == None;
    assert MetadataLine(Some(record), HOME_PAGE_KEY) == Some("http://wiki.python.org/moin/CheeseShopDev");
    assert MetadataLine(Some(record), LICENSE_KEY) == Some("UNKNOWN");
  }

  /** The pypi variables render as the six expected lines. */
  lemma PypiRendered()
    ensures Render(PypiVars())
            == [PACKAGE_LABEL + "pypi",
                SUMMARY_LABEL + PYPI_SUMMARY,
                LATEST_LABEL + "2005-08-01",
                AUTHOR_LABEL + "Richard Jones",
                HOMEPAGE_LABEL + "http://wiki.python.org/moin/CheeseShopDev",
                LICENSE_LABEL + "UNKNOWN"]
  {
    PypiDisplayed();
    var sh := Display(PypiVars());
    assert ReportLines(sh)
           == [PACKAGE_LABEL + "pypi"] + [SUMMARY_LABEL + PYPI_SUMMARY] + [] + [LATEST_LABEL + "2005-08-01"]
              + [AUTHOR_LABEL + "Richard Jones"] + [] + [HOMEPAGE_LABEL + sh.homepage.value]
              + [LICENSE_LABEL + "UNKNOWN"] + [];
  }

  /**
    `pip show pypi` with nothing installed: the index's record fills
    Package, Summary, Latest Version, Author, Homepage and License, and there
    is no Version line.
   */
  lemma ShowPublishedPackage()
    ensures ShowOutcome(Options(false), ["pypi"], PypiEnv())
            == Written([
                 PACKAGE_LABEL + "pypi",
                 SUMMARY_LABEL + "PyPI is the Python Package Index at http://pypi.python.org/",
                 LATEST_LABEL + "2005-08-01",
                 AUTHOR_LABEL + "Richard Jones",
                 HOMEPAGE_LABEL + "http://wiki.python.org/moin/CheeseShopDev",
                 LICENSE_LABEL + "UNKNOWN"])
  {
    PypiResolved();
    PypiRendered();
  }

  /**
    A package that is not installed, whose index lists `1.0` then `1.1`
    and has a record only for `1.1`: the first listed release is the one
    looked up, its record is empty, and the run ends in KeyError for `name`.
   */
  lemma FirstListedRelease()
    ensures var env := Env([], Registry(["1.0", "1.1"], map["1.1" := map[NAME_KEY := Str("Beta")]]), None);
            ShowOutcome(Options(false), ["Beta"], env) == Raised(KeyError(NAME_KEY))
  {
    var env := Env([], Registry(["1.0", "1.1"], map["1.1" := map[NAME_KEY := Str("Beta")]]), None);
    assert RecordOf(env.registry, "1.0") == map[];
    PublishedWithoutName(Options(false), "Beta", env);
  }
}

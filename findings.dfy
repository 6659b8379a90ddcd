/**
  Two places where pip/commands/show.py does not do what it evidently
  means to. ShowCommand models both as written; this module states the
  evidently intended behaviour beside it, exhibits an input on which the
  two differ, and proves what the intended form promises.
 */
module Findings {
  import opened PyValues
  import opened Report
  import opened ShowCommand

  const NOT_INSTALLED := " is not installed"

  /**
    Resolution as intended: with `--no-index` and nothing installed, the
    ShowError names the requested package; every other case is unchanged.
   */
  function ResolveIntended(opts: Options, pkgName: string, env: Env): Resolution
  {
    if opts.noIndex && FirstMatch(env.workingSet, pkgName).None? then Failed(ShowError(pkgName + NOT_INSTALLED))
    else Resolve(opts, pkgName, env)
  }

  /**
    `pip show --no-index INITools` with nothing installed: as written the
    run ends in NameError for `arg`; as intended it reports the package.
   */
  lemma NotInstalledAsWritten()
    ensures Resolve(Options(true), "INITools", Env([], Registry([], map[]), None))
            == Failed(NameError("arg"))
    ensures ResolveIntended(Options(true), "INITools", Env([], Registry([], map[]), None))
            == Failed(ShowError("INITools" + NOT_INSTALLED))
  {
  }

  /**
    As intended, a `--no-index` run for a package that is not installed
    fails with ShowError "<name> is not installed" (as written it is always
    NameError), and every other run resolves exactly as written.
   */
  lemma NotInstalledIntended(opts: Options, pkgName: string, env: Env)
    ensures opts.noIndex && (forall i :: 0 <= i < |env.workingSet| ==> env.workingSet[i].projectName != pkgName)
            ==> && ResolveIntended(opts, pkgName, env) == Failed(ShowError(pkgName + NOT_INSTALLED))
                && Resolve(opts, pkgName, env) == Failed(NameError("arg"))
    ensures !opts.noIndex || (exists i :: 0 <= i < |env.workingSet| && env.workingSet[i].projectName == pkgName)
            ==> ResolveIntended(opts, pkgName, env) == Resolve(opts, pkgName, env)
  {
  }

  /** What the writes would make visible with the Documentation line showing `docs_url`. */
  function DisplayIntended(v: Vars): Shown
  {
    Display(v).(documentation := MetadataLine(v.metadata, DOCS_URL_KEY))
  }

  /** A record with a documentation URL and no home page. */
  function DocsOnlyRecord(): map<string, PyValue>
  {
    map[NAME_KEY := Str("INITools"), DOCS_URL_KEY := Str("http://docs.example/initools")]
  }

  /**
    As written, a record with `docs_url` and no `home_page` writes
    `Documentation:  None`; as intended it writes the documentation URL.
   */
  lemma DocumentationAsWritten()
    ensures var v := Vars(Str("INITools"), PyNone, Str("1.0"), Some(DocsOnlyRecord()), PyNone, PyNone);
            && OptionalLine(DOCUMENTATION_LABEL, Display(v).documentation) == [DOCUMENTATION_LABEL + "None"]
            && OptionalLine(DOCUMENTATION_LABEL, DisplayIntended(v).documentation)
               == [DOCUMENTATION_LABEL + "http://docs.example/initools"]
  {
    var record := DocsOnlyRecord();
    assert record[DOCS_URL_KEY] == Str("http://docs.example/initools");
    assert HOME_PAGE_KEY !in record;
  }

  /**
    As intended, the written report has a Documentation line exactly when
    the metadata is a non-empty dict with a truthy `docs_url`, that line
    reads back as the `docs_url` value, and every other line is as written.
   */
  lemma DocumentationShowsDocsUrl(v: Vars)
    ensures ParseReport(ReportLines(DisplayIntended(v))).Some?
    ensures var shown := ParseReport(ReportLines(DisplayIntended(v))).value;
            && (shown.documentation.Some? <==> v.metadata.Some? && |v.metadata.value| > 0
                                               && Truthy(Get(v.metadata.value, DOCS_URL_KEY, PyNone)))
            && (shown.documentation.Some? ==> shown.documentation.value == Format(v.metadata.value[DOCS_URL_KEY]))
            && shown.(documentation := None) == Display(v).(documentation := None)
  {
    ParseReportLines(DisplayIntended(v));
  }
}

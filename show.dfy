/**
  The `pip show PACKAGE_NAME` command (pip/commands/show.py): find the
  installed distribution, read its PKG-INFO summary, ask the package index
  for its releases and the record of the first one, merge the local and
  index values into six variables and write a fixed-order report.

  The working set, the PKG-INFO text, the two index answers and the
  optional `pkginfo` metadata are inputs; the written lines are the result.
 */
module ShowCommand {
  import opened PyValues
  import opened Report

  const MISSING_ARGUMENT := "Missing required argument (package name)."
  const TOO_MANY_ARGUMENTS := "Too many arguments."
  const NOT_AVAILABLE := " is not installed and not available on PyPi"
  const SUMMARY_PREFIX := "Summary: "

  // keys of a release record or of the pkginfo attribute dictionary
  const NAME_KEY := "name"
  const SUMMARY_KEY := "summary"
  const REQUIRES_KEY := "requires"
  const AUTHOR_KEY := "author"
  const DOCS_URL_KEY := "docs_url"
  const HOME_PAGE_KEY := "home_page"
  const LICENSE_KEY := "license"

  /**
    An installed distribution: its project name, its version, the text of
    its PKG-INFO file (None when reading it raises IOError) and the string
    form of each requirement `requires()` returns, in order.
   */
  datatype Dist = Dist(projectName: string, version: string, pkgInfo: Option<string>, requirements: seq<string>)

  /**
    What the package index answers for the requested name: the list
    `package_releases` returns, and for each version the record
    `release_data` returns. A version without a record answers `{}`.
   */
  datatype Registry = Registry(releases: seq<string>, records: map<string, map<string, PyValue>>)

  /** The command-line options the command reads. */
  datatype Options = Options(noIndex: bool)

  /**
    The world the command looks at: the working set in iteration order, the
    package index, and the attribute dictionary `pkginfo.Installed` gives
    (None when the pkginfo library cannot be imported).
   */
  datatype Env = Env(workingSet: seq<Dist>, registry: Registry, pkginfo: Option<map<string, PyValue>>)

  /** A call made to the package index. */
  datatype Call = PackageReleases(name: string) | ReleaseData(name: string, version: string)

  /** The exception a run ends with. */
  datatype Failure =
    | CommandError(msg: string)
    | ShowError(msg: string)
    | NameError(name: string)
    | KeyError(key: string)

  /** A run either writes its lines or raises before writing anything. */
  datatype Outcome = Written(lines: seq<string>) | Raised(error: Failure)

  /** The six variables `run` fills in before it writes. */
  datatype Vars = Vars(
    projectName: PyValue,
    installedVersion: PyValue,
    latestVersion: PyValue,
    metadata: Option<map<string, PyValue>>,
    summary: PyValue,
    requirements: PyValue)

  datatype Resolution = Resolved(vars: Vars) | Failed(error: Failure)

  /** The record the index returns for one version. */
  function RecordOf(registry: Registry, version: string): map<string, PyValue>
  {
    if version in registry.records then registry.records[version] else map[]
  }

  /** The first distribution of the working set whose project name is exactly `pkgName`. */
  function FirstMatch(workingSet: seq<Dist>, pkgName: string): (found: Option<Dist>)
    ensures found.None? <==> forall i :: 0 <= i < |workingSet| ==> workingSet[i].projectName != pkgName
    ensures found.Some? ==>
              exists k :: 0 <= k < |workingSet| && workingSet[k] == found.value
                          && found.value.projectName == pkgName
                          && forall j :: 0 <= j < k ==> workingSet[j].projectName != pkgName
  {
    if workingSet == [] then None
    else if pkgName == workingSet[0].projectName then Some(workingSet[0])
    else
      var found := FirstMatch(workingSet[1..], pkgName);
      assert forall i :: 1 <= i < |workingSet| ==> workingSet[i] == workingSet[1..][i - 1];
      found
  }

  /** `installed_package`: scan the working set and stop at the first exact match. */
  method InstalledPackage(workingSet: seq<Dist>, pkgName: string) returns (localPackage: Option<Dist>)
    ensures localPackage == FirstMatch(workingSet, pkgName)
  {
    localPackage := None;
    var i := 0;
    while i < |workingSet|
      invariant 0 <= i <= |workingSet|
      invariant FirstMatch(workingSet, pkgName) == FirstMatch(workingSet[i..], pkgName)
    {
      if pkgName == workingSet[i].projectName {
        localPackage := Some(workingSet[i]);
        break;
      }
      assert workingSet[i..][1..] == workingSet[i + 1..];
      i := i + 1;
    }
  }

  /**
    The summary of the first line that starts with `Summary: `: the text
    after the first occurrence of that prefix, which for such a line is
    everything after it.
   */
  function SummaryLine(lines: seq<string>): (summary: Option<string>)
    ensures summary.None? <==> forall i :: 0 <= i < |lines| ==> !StartsWith(lines[i], SUMMARY_PREFIX)
    ensures summary.Some? ==>
              exists k :: 0 <= k < |lines| && lines[k] == SUMMARY_PREFIX + summary.value
                          && forall j :: 0 <= j < k ==> !StartsWith(lines[j], SUMMARY_PREFIX)
  {
    if lines == [] then None
    else if StartsWith(lines[0], SUMMARY_PREFIX) then
      assert lines[0] == SUMMARY_PREFIX + lines[0][|SUMMARY_PREFIX|..];
      Some(lines[0][|SUMMARY_PREFIX|..])
    else
      var summary := SummaryLine(lines[1..]);
      assert forall i :: 1 <= i < |lines| ==> lines[i] == lines[1..][i - 1];
      summary
  }

  /** `installed_summary`: None when PKG-INFO cannot be read or has no summary line. */
  function InstalledSummary(pkgInfo: Option<string>): Option<string>
  {
    match pkgInfo
    case None => None
    case Some(text) => SummaryLine(Split(text, '\n'))
  }

  /** The six variables after the local lookup: all None, or the installed distribution's values. */
  function LocalVars(localPackage: Option<Dist>): Vars
  {
    match localPackage
    case None => Vars(PyNone, PyNone, PyNone, None, PyNone, PyNone)
    case Some(dist) =>
      Vars(Str(dist.projectName), Str(dist.version), PyNone, None,
           FromOption(InstalledSummary(dist.pkgInfo)), List(dist.requirements))
  }

  /**
    The index branch: an empty release list fails when nothing is installed
    and otherwise leaves the (empty) list as latest_version; a non-empty
    one makes its first element latest_version and merges that version's
    record into the variables.
   */
  function MergeRegistry(pkgName: string, installed: bool, local: Vars, registry: Registry): Resolution
  {
    var releases := registry.releases;
    if releases == [] then
      if !installed then Failed(ShowError(pkgName + NOT_AVAILABLE))
      else Resolved(local.(latestVersion := List(releases)))
    else
      var latest := releases[0];
      var record := RecordOf(registry, latest);
      if !Truthy(local.projectName) && NAME_KEY !in record then Failed(KeyError(NAME_KEY))
      else
        Resolved(local.(
          projectName := if Truthy(local.projectName) then local.projectName else record[NAME_KEY],
          latestVersion := Str(latest),
          metadata := Some(record),
          summary := Get(record, SUMMARY_KEY, local.summary),
          requirements := Get(record, REQUIRES_KEY, local.requirements)))
  }

  /** Everything `run` does between the argument checks and the first write. */
  function Resolve(opts: Options, pkgName: string, env: Env): Resolution
  {
    var localPackage := FirstMatch(env.workingSet, pkgName);
    if opts.noIndex && localPackage.None? then Failed(NameError("arg"))
    else
      var local := LocalVars(localPackage);
      if !opts.noIndex then MergeRegistry(pkgName, localPackage.Some?, local, env.registry)
      else if env.pkginfo.Some? then Resolved(local.(metadata := env.pkginfo))
      else Resolved(local)
  }

  /** The text of a line guarded by `if value:`. */
  function ShowIf(value: PyValue): Option<string>
  {
    if Truthy(value) then Some(Format(value)) else None
  }

  /** A metadata entry guarded by `if metadata:` and then by its own truthiness. */
  function MetadataLine(metadata: Option<map<string, PyValue>>, key: string): Option<string>
  {
    if metadata.Some? && |metadata.value| > 0 then ShowIf(Get(metadata.value, key, PyNone)) else None
  }

  /**
    What the writes make visible. The Documentation line is guarded by
    `docs_url` but shows `home_page`.
   */
  function Display(v: Vars): Shown
  {
    Shown(
      Format(v.projectName),
      ShowIf(v.summary),
      ShowIf(v.installedVersion),
      ShowIf(v.latestVersion),
      MetadataLine(v.metadata, AUTHOR_KEY),
      DocumentationLine(v.metadata),
      MetadataLine(v.metadata, HOME_PAGE_KEY),
      MetadataLine(v.metadata, LICENSE_KEY),
      ShownRequirements(v.requirements))
  }

  /** The Documentation line: guarded by `docs_url`, showing `home_page` (`None` when it is absent). */
  function DocumentationLine(metadata: Option<map<string, PyValue>>): Option<string>
  {
    if MetadataLine(metadata, DOCS_URL_KEY).Some?
    then Some(Format(Get(metadata.value, HOME_PAGE_KEY, PyNone)))
    else None
  }

  /** The lines written for the six variables. */
  function Render(v: Vars): seq<string>
  {
    ReportLines(Display(v))
  }

  /** What `pip show` with these options and arguments does. */
  function ShowOutcome(opts: Options, args: seq<string>, env: Env): Outcome
  {
    if |args| == 0 then Raised(CommandError(MISSING_ARGUMENT))
    else if |args| > 1 then Raised(CommandError(TOO_MANY_ARGUMENTS))
    else
      match Resolve(opts, args[0], env)
      case Failed(e) => Raised(e)
      case Resolved(v) => Written(Render(v))
  }

  /**
    `run`: checks the arguments, fills the six variables step by step from
    the working set, the package index or pkginfo, then writes the report.
    `calls` lists the package-index calls in the order they are made.
   */
  method Run(opts: Options, args: seq<string>, env: Env) returns (outcome: Outcome, calls: seq<Call>)
    ensures outcome == ShowOutcome(opts, args, env)
    ensures |args| == 0 ==> outcome == Raised(CommandError(MISSING_ARGUMENT))
    ensures |args| > 1 ==> outcome == Raised(CommandError(TOO_MANY_ARGUMENTS))
    ensures |args| != 1 || opts.noIndex ==> calls == []
    ensures |args| == 1 && !opts.noIndex ==>
              calls == [PackageReleases(args[0])]
                       + (if env.registry.releases == [] then []
                          else [ReleaseData(args[0], env.registry.releases[0])])
  {
    calls := [];
    if |args| == 0 {
      return Raised(CommandError(MISSING_ARGUMENT)), calls;
    }
    if |args| > 1 {
      return Raised(CommandError(TOO_MANY_ARGUMENTS)), calls;
    }
    var pkgName := args[0];

    var projectName, installedVersion, latestVersion := PyNone, PyNone, PyNone;
    var metadata: Option<map<string, PyValue>> := None;
    var summary, requirements := PyNone, PyNone;

    var localPackage := InstalledPackage(env.workingSet, pkgName);
    if opts.noIndex && localPackage.None? {
      // the message is formatted with a name `run` never binds, so the raise itself fails
      return Raised(NameError("arg")), calls;
    }

    if localPackage.Some? {
      var dist := localPackage.value;
      projectName := Str(dist.projectName);
      installedVersion := Str(dist.version);
      summary := FromOption(InstalledSummary(dist.pkgInfo));
      requirements := List(dist.requirements);
    }

    if !opts.noIndex {
      var releases := env.registry.releases;
      calls := calls + [PackageReleases(pkgName)];
      latestVersion := List(releases);
      if releases == [] && localPackage.None? {
        return Raised(ShowError(pkgName + NOT_AVAILABLE)), calls;
      }
      // an empty list makes `latest_version[0]` raise IndexError, which is swallowed
      if releases != [] {
        latestVersion := Str(releases[0]);
        var record := RecordOf(env.registry, releases[0]);
        calls := calls + [ReleaseData(pkgName, releases[0])];
        metadata := Some(record);
        if !Truthy(projectName) {
          if NAME_KEY !in record {
            return Raised(KeyError(NAME_KEY)), calls;
          }
          projectName := record[NAME_KEY];
        }
        summary := Get(record, SUMMARY_KEY, summary);
        requirements := Get(record, REQUIRES_KEY, requirements);
      }
    } else if env.pkginfo.Some? {
      metadata := env.pkginfo;
    }

    ghost var v := Vars(projectName, installedVersion, latestVersion, metadata, summary, requirements);
    assert Resolve(opts, pkgName, env) == Resolved(v);
    var out := WriteReport(projectName, installedVersion, latestVersion, metadata, summary, requirements);
    outcome := Written(out);
  }

  /** The Package line and the lines guarded by the summary and the two versions. */
  function HeadLines(v: Vars): seq<string>
  {
    [PACKAGE_LABEL + Format(v.projectName)]
    + OptionalLine(SUMMARY_LABEL, ShowIf(v.summary))
    + OptionalLine(VERSION_LABEL, ShowIf(v.installedVersion))
    + OptionalLine(LATEST_LABEL, ShowIf(v.latestVersion))
  }

  /** The lines written under `if metadata:`. */
  function MetadataLines(metadata: Option<map<string, PyValue>>): seq<string>
  {
    OptionalLine(AUTHOR_LABEL, MetadataLine(metadata, AUTHOR_KEY))
    + OptionalLine(DOCUMENTATION_LABEL, DocumentationLine(metadata))
    + OptionalLine(HOMEPAGE_LABEL, MetadataLine(metadata, HOME_PAGE_KEY))
    + OptionalLine(LICENSE_LABEL, MetadataLine(metadata, LICENSE_KEY))
  }

  /** The dependencies listed under `Requires:`, empty when `requirements` is falsy. */
  function ShownRequirements(requirements: PyValue): seq<string>
  {
    if Truthy(requirements) then Iterate(requirements) else []
  }

  /** A report is its head, its metadata lines and its `Requires:` section, in that order. */
  lemma RenderParts(v: Vars)
    ensures Render(v) == HeadLines(v) + MetadataLines(v.metadata) + RequiresLines(ShownRequirements(v.requirements))
  {
    var head := HeadLines(v);
    var a := OptionalLine(AUTHOR_LABEL, MetadataLine(v.metadata, AUTHOR_KEY));
    var d := OptionalLine(DOCUMENTATION_LABEL, DocumentationLine(v.metadata));
    var h := OptionalLine(HOMEPAGE_LABEL, MetadataLine(v.metadata, HOME_PAGE_KEY));
    var l := OptionalLine(LICENSE_LABEL, MetadataLine(v.metadata, LICENSE_KEY));
    assert Render(v) == head + a + d + h + l + RequiresLines(ShownRequirements(v.requirements));
    Associate(head, a, d);
    Associate(head, a + d, h);
    Associate(head, a + d + h, l);
  }

  /** The writes before `if metadata:`. */
  method WriteHead(projectName: PyValue, installedVersion: PyValue, latestVersion: PyValue, summary: PyValue)
    returns (out: seq<string>)
    ensures out == HeadLines(Vars(projectName, installedVersion, latestVersion, None, summary, PyNone))
  {
    out := [PACKAGE_LABEL + Format(projectName)];
    if Truthy(summary) {
      out := out + [SUMMARY_LABEL + Format(summary)];
    }
    if Truthy(installedVersion) {
      out := out + [VERSION_LABEL + Format(installedVersion)];
    }
    if Truthy(latestVersion) {
      out := out + [LATEST_LABEL + Format(latestVersion)];
    }
  }

  /**
    The writes inside `if metadata:`: Author, Documentation (showing
    `home_page`), Homepage and License, each only when its guard is truthy.
   */
  method WriteMetadata(metadata: Option<map<string, PyValue>>) returns (out: seq<string>)
    ensures out == MetadataLines(metadata)
  {
    out := [];
    if metadata.Some? && |metadata.value| > 0 {
      var author := Get(metadata.value, AUTHOR_KEY, PyNone);
      var docsUrl := Get(metadata.value, DOCS_URL_KEY, PyNone);
      var homePage := Get(metadata.value, HOME_PAGE_KEY, PyNone);
      var license := Get(metadata.value, LICENSE_KEY, PyNone);
      if Truthy(author) {
        out := out + [AUTHOR_LABEL + Format(author)];
      }
      ghost var withAuthor := out;
      assert withAuthor == OptionalLine(AUTHOR_LABEL, MetadataLine(metadata, AUTHOR_KEY));
      if Truthy(docsUrl) {
        out := out + [DOCUMENTATION_LABEL + Format(homePage)];
      }
      ghost var withDocs := out;
      assert withDocs == withAuthor + OptionalLine(DOCUMENTATION_LABEL, DocumentationLine(metadata));
      if Truthy(homePage) {
        out := out + [HOMEPAGE_LABEL + Format(homePage)];
      }
      ghost var withHome := out;
      assert withHome == withDocs + OptionalLine(HOMEPAGE_LABEL, MetadataLine(metadata, HOME_PAGE_KEY));
      if Truthy(license) {
        out := out + [LICENSE_LABEL + Format(license)];
      }
    }
  }

  /** The `Requires:` section: a blank line, the heading, then one tab-indented line per dependency. */
  method WriteRequires(requirements: PyValue) returns (out: seq<string>)
    ensures out == RequiresLines(ShownRequirements(requirements))
  {
    out := [];
    if Truthy(requirements) {
      out := out + ["", REQUIRES_HEADING];
      var deps := Iterate(requirements);
      for i := 0 to |deps|
        invariant out == ["", REQUIRES_HEADING] + Indented(deps[..i])
      {
        IndentedAppend(deps, i);
        Associate(["", REQUIRES_HEADING], Indented(deps[..i]), ["\t" + deps[i]]);
        out := out + ["\t" + deps[i]];
      }
      assert deps[..|deps|] == deps;
    }
  }

  /**
    The writes at the end of `run`: the Package line, then each guarded
    line in turn, then the `Requires:` section with one line per dependency.
   */
  method WriteReport(projectName: PyValue, installedVersion: PyValue, latestVersion: PyValue,
                     metadata: Option<map<string, PyValue>>, summary: PyValue, requirements: PyValue)
    returns (out: seq<string>)
    ensures out == Render(Vars(projectName, installedVersion, latestVersion, metadata, summary, requirements))
  {
    out := WriteHead(projectName, installedVersion, latestVersion, summary);
    var metadataLines := WriteMetadata(metadata);
    out := out + metadataLines;
    var requiresLines := WriteRequires(requirements);
    out := out + requiresLines;
    RenderParts(Vars(projectName, installedVersion, latestVersion, metadata, summary, requirements));
  }
}

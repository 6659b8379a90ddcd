/**
  What `pip show` promises, stated over ShowOutcome and Resolve: the
  failure paths, the merge of installed and index values, and the shape
  of the written report.
 */
module ShowProperties {
  import opened PyValues
  import opened Report
  import opened ShowCommand

  /** A working set in which `k` is the first distribution named `pkgName`. */
  predicate FirstNamed(workingSet: seq<Dist>, pkgName: string, k: int)
  {
    && 0 <= k < |workingSet|
    && workingSet[k].projectName == pkgName
    && forall j :: 0 <= j < k ==> workingSet[j].projectName != pkgName
  }

  /** The lookup returns exactly the first distribution with that name. */
  lemma FirstMatchIsFirst(workingSet: seq<Dist>, pkgName: string, k: int)
    requires FirstNamed(workingSet, pkgName, k)
    ensures FirstMatch(workingSet, pkgName) == Some(workingSet[k])
  {
    var found := FirstMatch(workingSet, pkgName);
    assert found.Some?;
    var m :| 0 <= m < |workingSet| && workingSet[m] == found.value
             && found.value.projectName == pkgName
             && forall j :: 0 <= j < m ==> workingSet[j].projectName != pkgName;
    assert workingSet[k].projectName == pkgName && workingSet[m].projectName == pkgName;
  }

  /**
    A PKG-INFO text whose first `Summary: ` line is `Summary: ` + s yields s,
    whatever lines come before (none of them a summary line) or after.
   */
  lemma {:induction false} InstalledSummaryRoundTrip(before: seq<string>, s: string, after: seq<string>)
    requires forall i :: 0 <= i < |before| ==> '\n' !in before[i] && !StartsWith(before[i], SUMMARY_PREFIX)
    requires forall i :: 0 <= i < |after| ==> '\n' !in after[i]
    requires '\n' !in s
    ensures InstalledSummary(Some(Join(before + [SUMMARY_PREFIX + s] + after, '\n'))) == Some(s)
  {
    var lines := before + [SUMMARY_PREFIX + s] + after;
    forall i | 0 <= i < |lines| ensures '\n' !in lines[i] {
      if i < |before| {
        assert lines[i] == before[i];
      } else if i == |before| {
        assert '\n' !in SUMMARY_PREFIX;
      } else {
        assert lines[i] == after[i - |before| - 1];
      }
    }
    SplitJoin(lines, '\n');
    var k := |before|;
    assert lines[k] == SUMMARY_PREFIX + s;
    assert lines[k][..|SUMMARY_PREFIX|] == SUMMARY_PREFIX;
    var summary := SummaryLine(lines);
    assert summary.Some?;
    var m :| 0 <= m < |lines| && lines[m] == SUMMARY_PREFIX + summary.value
             && forall j :: 0 <= j < m ==> !StartsWith(lines[j], SUMMARY_PREFIX);
    assert StartsWith(lines[m], SUMMARY_PREFIX) by {
      assert (SUMMARY_PREFIX + summary.value)[..|SUMMARY_PREFIX|] == SUMMARY_PREFIX;
    }
    assert forall j :: 0 <= j < k ==> lines[j] == before[j];
    assert m == k;
    assert summary.value == (SUMMARY_PREFIX + summary.value)[|SUMMARY_PREFIX|..];
  }

  /**
    With `--no-index` and nothing installed the run fails before writing.
    As written the failure is a NameError for `arg`, whatever the package.
   */
  lemma NoIndexNotInstalled(opts: Options, pkgName: string, env: Env)
    requires opts.noIndex
    requires forall i :: 0 <= i < |env.workingSet| ==> env.workingSet[i].projectName != pkgName
    ensures ShowOutcome(opts, [pkgName], env) == Raised(NameError("arg"))
  {
  }

  /**
    With `--no-index` and the package installed, the report shows the local
    name, summary, version and requirements, no Latest Version line, and
    the metadata lines from pkginfo when it is available.
   */
  lemma NoIndexInstalled(opts: Options, pkgName: string, env: Env, k: int)
    requires opts.noIndex
    requires FirstNamed(env.workingSet, pkgName, k)
    ensures var dist := env.workingSet[k];
            var outcome := ShowOutcome(opts, [pkgName], env);
            && outcome.Written?
            && ParseReport(outcome.lines)
               == Some(Shown(
                    dist.projectName,
                    ShowIf(FromOption(InstalledSummary(dist.pkgInfo))),
                    ShowIf(Str(dist.version)),
                    None,
                    MetadataLine(env.pkginfo, AUTHOR_KEY),
                    DocumentationLine(env.pkginfo),
                    MetadataLine(env.pkginfo, HOME_PAGE_KEY),
                    MetadataLine(env.pkginfo, LICENSE_KEY),
                    dist.requirements))
  {
    FirstMatchIsFirst(env.workingSet, pkgName, k);
    var v := Resolve(opts, pkgName, env).vars;
    ParseReportLines(Display(v));
  }

  /** Neither installed nor published: ShowError naming the package, nothing written. */
  lemma NotPublishedNotInstalled(opts: Options, pkgName: string, env: Env)
    requires !opts.noIndex && env.registry.releases == []
    requires forall i :: 0 <= i < |env.workingSet| ==> env.workingSet[i].projectName != pkgName
    ensures ShowOutcome(opts, [pkgName], env) == Raised(ShowError(pkgName + NOT_AVAILABLE))
  {
  }

  /**
    Installed but with an empty release list: the swallowed IndexError
    leaves local values only, with no Latest Version line and no metadata lines.
   */
  lemma NotPublishedButInstalled(opts: Options, pkgName: string, env: Env, k: int)
    requires !opts.noIndex && env.registry.releases == []
    requires FirstNamed(env.workingSet, pkgName, k)
    ensures var dist := env.workingSet[k];
            var outcome := ShowOutcome(opts, [pkgName], env);
            && outcome.Written?
            && ParseReport(outcome.lines)
               == Some(Shown(
                    dist.projectName,
                    ShowIf(FromOption(InstalledSummary(dist.pkgInfo))),
                    ShowIf(Str(dist.version)),
                    None, None, None, None, None,
                    dist.requirements))
  {
    FirstMatchIsFirst(env.workingSet, pkgName, k);
    var v := Resolve(opts, pkgName, env).vars;
    ParseReportLines(Display(v));
  }

  /**
    A non-empty release list: the first release is latest_version, its
    record is the metadata, the installed name is kept when it is non-empty
    (else the record's `name`), and `summary` / `requires` come from the
    record whenever it has the key, from the installed distribution otherwise.
   */
  lemma PublishedMerge(opts: Options, pkgName: string, env: Env)
    requires !opts.noIndex && env.registry.releases != []
    requires var local := FirstMatch(env.workingSet, pkgName);
             (local.Some? && local.value.projectName != "")
             || NAME_KEY in RecordOf(env.registry, env.registry.releases[0])
    ensures var local := FirstMatch(env.workingSet, pkgName);
            var record := RecordOf(env.registry, env.registry.releases[0]);
            var r := Resolve(opts, pkgName, env);
            && r.Resolved?
            && r.vars.latestVersion == Str(env.registry.releases[0])
            && r.vars.metadata == Some(record)
            && r.vars.projectName
               == (if local.Some? && local.value.projectName != "" then Str(local.value.projectName)
                   else record[NAME_KEY])
            && r.vars.installedVersion == (if local.Some? then Str(local.value.version) else PyNone)
            && r.vars.summary
               == (if SUMMARY_KEY in record then record[SUMMARY_KEY]
                   else if local.Some? then FromOption(InstalledSummary(local.value.pkgInfo))
                   else PyNone)
            && r.vars.requirements
               == (if REQUIRES_KEY in record then record[REQUIRES_KEY]
                   else if local.Some? then List(local.value.requirements)
                   else PyNone)
  {
  }

  /** A non-empty release list whose record has no `name`, with no usable local name: KeyError. */
  lemma PublishedWithoutName(opts: Options, pkgName: string, env: Env)
    requires !opts.noIndex && env.registry.releases != []
    requires var local := FirstMatch(env.workingSet, pkgName);
             local.None? || local.value.projectName == ""
    requires NAME_KEY !in RecordOf(env.registry, env.registry.releases[0])
    ensures ShowOutcome(opts, [pkgName], env) == Raised(KeyError(NAME_KEY))
  {
  }

  /**
    Not installed but published: the report reads back with the record's
    name and summary, the first release as Latest Version, the record's
    metadata lines, and no Version line.
   */
  lemma PublishedNotInstalled(opts: Options, pkgName: string, env: Env)
    requires !opts.noIndex && env.registry.releases != []
    requires forall i :: 0 <= i < |env.workingSet| ==> env.workingSet[i].projectName != pkgName
    requires NAME_KEY in RecordOf(env.registry, env.registry.releases[0])
    ensures var record := RecordOf(env.registry, env.registry.releases[0]);
            var latest := env.registry.releases[0];
            var outcome := ShowOutcome(opts, [pkgName], env);
            && outcome.Written?
            && ParseReport(outcome.lines)
               == Some(Shown(
                    Format(record[NAME_KEY]),
                    ShowIf(Get(record, SUMMARY_KEY, PyNone)),
                    None,
                    if latest != "" then Some(latest) else None,
                    MetadataLine(Some(record), AUTHOR_KEY),
                    DocumentationLine(Some(record)),
                    MetadataLine(Some(record), HOME_PAGE_KEY),
                    MetadataLine(Some(record), LICENSE_KEY),
                    ShownRequirements(Get(record, REQUIRES_KEY, PyNone))))
  {
    var v := Resolve(opts, pkgName, env).vars;
    ParseReportLines(Display(v));
  }

  /**
    The written block always reads back into what the six variables show:
    the Package line first, each guarded line only when its value is truthy,
    then the `Requires:` section in the variables' order.
   */
  lemma RenderReadsBack(v: Vars)
    ensures Render(v)[0] == PACKAGE_LABEL + Format(v.projectName)
    ensures ParseReport(Render(v)) == Some(Display(v))
  {
    ParseReportLines(Display(v));
  }

  /** No metadata (None or an empty dict): no Author, Documentation, Homepage or License line. */
  lemma MetadataGuard(v: Vars)
    requires v.metadata.None? || v.metadata.value == map[]
    ensures var sh := Display(v);
            sh.author.None? && sh.documentation.None? && sh.homepage.None? && sh.license.None?
  {
  }
}

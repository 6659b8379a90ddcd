# pip show, modelled in Dafny

A model of pip's `show` command (`pip show PACKAGE_NAME`, in
`pip/commands/show.py`). The command first looks for an installed
distribution with exactly that project name, reading the summary from its
PKG-INFO text. Unless `--no-index` is given, it then asks the package index
for the package's releases and for the record of the first one listed. The
local and index values are merged into six variables: project name,
installed version, latest version, metadata, summary and requirements. The
command then writes a fixed-order report: Package, Summary, Version, Latest
Version, Author, Documentation, Homepage and License, followed by a
`Requires:` section.

Modules:

- `PyValues` (`py_values.dfy`) covers the Python value semantics the
  command depends on:
  - `None`, `str` and lists of `str`, with their truthiness and their
    `'%s'` formatting;
  - `for` iteration (a `str` iterates its characters) and `dict.get`;
  - `str.startswith` and `str.split("\n")`, with `Join` as the inverse of
    `Split`.
- `Report` (`report.dfy`) covers the report layout:
  - `ReportLines` lays out what the writes make visible (`Shown`);
  - `ParseReport` is an independent reader of such a block;
  - `ParseReportLines` proves that reading a written report gives back
    what was shown.
- `ShowCommand` (`show.dfy`) holds the command.
  - Its data: the working set, the index as `Registry`, the `pkginfo`
    metadata, the outcome, and the trace of index calls.
  - Its specification functions: `FirstMatch`, `SummaryLine`,
    `InstalledSummary`, `Resolve`, `Display`, `Render` and `ShowOutcome`.
  - Its imperative methods follow the source step by step, including the
    two defects listed under Findings, and are proved
    against those functions: `InstalledPackage` (the scan with `break`),
    `Run`, and the writers `WriteHead`, `WriteMetadata`, `WriteRequires`
    and `WriteReport`.
- `ShowProperties` (`show_properties.dfy`) states what the command promises
  on every path: each failure, the merge of installed
  and index values, and the shape of the written report.
- `ShowScenarios` (`show_scenarios.dfy`) covers the two runs in
  `tests/test_show.py`, with the installed distribution and the index
  answers written out as inputs.
- `Findings` (`findings.dfy`) states the evidently intended behaviour at
  two places where the code does something else (see below), next to the
  as-written behaviour that `ShowCommand` models.

Three behaviours of the code worth knowing, all modelled as written:

- The latest version is the *first* element of the list `package_releases`
  returns (line 92).
- `summary` and `requires` from the index record *replace* the installed
  values whenever the record has those keys (lines 99-100).
- Two cases raise before anything is written: a `--no-index` run for a
  package that is not installed (line 78), and a package that is not
  installed whose index record has no `name` (line 98).

## Model

| member | source | states |
|---|---|---|
| ShowCommand.FirstMatch | pip/commands/show.py:39-47 | None exactly when no distribution carries the name; otherwise the distribution at the first index with that exact name |
| ShowCommand.InstalledPackage | pip/commands/show.py:39-47 | the loop that stops at the first exact match returns the same distribution as `FirstMatch` |
| ShowProperties.FirstMatchIsFirst | pip/commands/show.py:42-45 | if `k` is the first index with the name, the lookup returns `workingSet[k]` |
| ShowCommand.SummaryLine | pip/commands/show.py:55-58 | None exactly when no line starts with `Summary: `; otherwise the text after the prefix on the first such line |
| PyValues.SplitJoin | pip/commands/show.py:55 | splitting a newline-join of newline-free lines gives back those lines |
| PyValues.JoinSplit | pip/commands/show.py:55 | joining the pieces of a split gives back the text |
| ShowCommand.InstalledSummary | pip/commands/show.py:49-59 | no contract of its own: None when PKG-INFO cannot be read (IOError), otherwise `SummaryLine` of its newline-split lines; pinned by `InstalledSummaryRoundTrip` and `SummaryLine`'s contract |
| ShowProperties.InstalledSummaryRoundTrip | pip/commands/show.py:49-59 | a PKG-INFO text whose first summary line is `Summary: ` + s yields s, whatever lines surround it |
| ShowCommand.Run | pip/commands/show.py:61-133 | the outcome equals `ShowOutcome`; no argument, or more than one, raises CommandError with the source's message; wrong argument counts and `--no-index` make no index call; otherwise `package_releases` is called, then `release_data` for the first release when there is one |
| ShowCommand.Resolve | pip/commands/show.py:67-105 | no contract of its own: the six variables, or the exception, that `run` reaches before writing; pinned by `NoIndexNotInstalled`, `NoIndexInstalled`, `NotPublished*`, `Published*` |
| ShowCommand.MergeRegistry | pip/commands/show.py:86-100 | no contract of its own: the index branch of `run`; pinned by `PublishedMerge`, `PublishedWithoutName`, `NotPublishedNotInstalled`, `NotPublishedButInstalled` |
| ShowCommand.Display | pip/commands/show.py:109-133 | no contract of its own: what each guarded write makes visible, the Documentation line showing `home_page` under the `docs_url` guard; pinned by `RenderReadsBack`, `MetadataGuard` and `WriteReport` |
| ShowProperties.NoIndexNotInstalled | pip/commands/show.py:77-78 | `--no-index` with nothing installed raises before writing; as written the failure is NameError for `arg`, whatever the package |
| ShowProperties.NoIndexInstalled | pip/commands/show.py:80-105 | `--no-index` with the package installed: the report reads back with the local name, summary, version and requirements, no Latest Version line, and the pkginfo metadata lines (Documentation showing `home_page` under the `docs_url` guard) |
| ShowProperties.NotPublishedNotInstalled | pip/commands/show.py:89-91 | an empty release list with nothing installed raises ShowError "<name> is not installed and not available on PyPi" |
| ShowProperties.NotPublishedButInstalled | pip/commands/show.py:88-94 | an empty release list with the package installed: the IndexError is swallowed and the report shows local values only, with no Latest Version and no metadata lines |
| ShowProperties.PublishedMerge | pip/commands/show.py:86-100 | a non-empty release list: the first release is the latest version and its record is the metadata; a non-empty installed name is kept, otherwise the record's `name` is used; summary and requires come from the record when it has the key, and from the installed values otherwise |
| ShowProperties.PublishedWithoutName | pip/commands/show.py:96-98 | no usable installed name and a record without `name` raises KeyError('name') |
| ShowProperties.PublishedNotInstalled | pip/commands/show.py:86-100 | not installed but published: the report reads back with the record's name, summary and metadata, the first release as Latest Version, no Version line, and Documentation showing `home_page` under the `docs_url` guard |
| ShowCommand.WriteHead | pip/commands/show.py:109-115 | writes the Package line, then the Summary, Version and Latest Version lines, each only when its value is truthy |
| ShowCommand.WriteMetadata | pip/commands/show.py:116-128 | under truthy metadata, writes the Author, Documentation, Homepage and License lines, each only when its guard is truthy; the Documentation line carries `home_page` |
| ShowCommand.WriteRequires | pip/commands/show.py:130-133 | for truthy requirements, writes a blank line, `Requires:`, then one tab-indented line per dependency in order |
| ShowCommand.WriteReport | pip/commands/show.py:107-133 | the lines written equal `Render` of the six variables |
| ShowCommand.RenderParts | pip/commands/show.py:109-133 | a report is its head, then its metadata lines, then its Requires section |
| Report.ParseReportLines | pip/commands/show.py:109-133 | reading a written report gives back exactly the shown fields and requirements: the written block determines what was shown |
| ShowProperties.RenderReadsBack | pip/commands/show.py:109-133 | the first line is always the Package line, and the report reads back into what the six variables show |
| ShowProperties.MetadataGuard | pip/commands/show.py:116 | no metadata, or an empty dict, gives no Author, Documentation, Homepage or License line |
| ShowScenarios.InitoolsInstalledSummary | pip/commands/show.py:49-59 | the installed INITools PKG-INFO yields the summary "Tools for parsing and using INI-style files" |
| ShowScenarios.ShowInstalledPackage | tests/test_show.py:38-55 | `pip show INITools` with 0.2 installed writes the Package, Summary, Version, Latest Version, Author, Homepage and License lines the test expects |
| ShowScenarios.ShowPublishedPackage | tests/test_show.py:58-71 | `pip show pypi` with nothing installed writes the six lines the test expects, with no Version line |
| ShowScenarios.FirstListedRelease | pip/commands/show.py:92-98 | with releases `1.0` then `1.1` and a record only for `1.1`, the empty record of `1.0` is used and the run raises KeyError('name') |
| Findings.NotInstalledAsWritten | pip/commands/show.py:77-78 | as written, `pip show --no-index INITools` with nothing installed raises NameError for `arg`; the intended resolution raises ShowError "INITools is not installed" |
| Findings.NotInstalledIntended | pip/commands/show.py:77-78 | intended: a `--no-index` run for a package that is not installed raises ShowError "<name> is not installed" where the code raises NameError; every other run resolves exactly as the code does |
| Findings.DocumentationAsWritten | pip/commands/show.py:118-124 | as written, a record with `docs_url` and no `home_page` writes `Documentation:  None`; the intended line writes the `docs_url` value |
| Findings.DocumentationShowsDocsUrl | pip/commands/show.py:118-124 | intended: a Documentation line appears exactly when the metadata is non-empty with a truthy `docs_url`, it reads back as that value, and every other line reads back as written |

## Left out

- The XML-RPC transport, the `--index` URL and network failures are left out. The index is modelled as a `Registry` value holding the release list and the records. A version without a record answers `{}`.
- `pkg_resources.working_set` is an input sequence of `Dist` values. `local_package.requires()` is the string form of each requirement.
- `pkginfo.Installed` is an input: None when the library cannot be imported. Otherwise it is the attribute dictionary, passed in already built. Suppressing warnings around it has no effect on the result and is not modelled.
- Option parsing, the `ShowCommand()` registration and the `Command` base class are left out, because they are framework plumbing.
- Writing to `sys.stdout` is modelled as the list of lines written. A value that itself contains a newline stays inside its line.
- `PyValues.Format` renders a list as its items in single quotes without escaping, so `repr` of strings that contain quotes or backslashes is not modelled. Index values other than `None`, `str` and lists of `str` are not modelled.
- Exceptions other than the ones the code raises or swallows itself are not modelled, such as an index fault.
- The test helpers' output scrubbing is not part of this model. This covers the regular expressions that remove `Latest Version` and `distribute` lines, and the Windows case fix. The scenarios state the full output before any scrubbing.

## Findings

| source | as written | input that shows it | evidently intended | confidence | as-written member | corrected member |
|---|---|---|---|---|---|---|
| pip/commands/show.py:78 | the message is formatted with `arg`, which `run` never defines, so the raise fails with NameError | `pip show --no-index INITools` with nothing installed raises NameError | raise ShowError "INITools is not installed", formatted with `pkg_name` | high, not executed | Findings.NotInstalledAsWritten | Findings.NotInstalledIntended |
| pip/commands/show.py:124 | the Documentation line is guarded by `docs_url` but prints `home_page` | a record with `docs_url` = "http://docs.example/initools" and no `home_page` prints `Documentation:  None` | print the `docs_url` value | medium, not executed | Findings.DocumentationAsWritten | Findings.DocumentationShowsDocsUrl |

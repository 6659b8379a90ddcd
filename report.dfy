/**
  The block of lines `pip show` writes: a fixed-order sequence of
  `Label: value` lines, each label padded to sixteen characters, then an
  optional `Requires:` section. `Shown` is what the block makes visible;
  `ReportLines` lays it out and `ParseReport` reads it back, so the layout
  is proved unambiguous.
 */
module Report {
  import opened PyValues

  const LABEL_WIDTH := 16
  const PACKAGE_LABEL := "Package:        "
  const SUMMARY_LABEL := "Summary:        "
  const VERSION_LABEL := "Version:        "
  const LATEST_LABEL := "Latest Version: "
  const AUTHOR_LABEL := "Author:         "
  const DOCUMENTATION_LABEL := "Documentation:  "
  const HOMEPAGE_LABEL := "Homepage:       "
  const LICENSE_LABEL := "License:        "
  const REQUIRES_HEADING := "Requires:"

  /** The optional labels, in the order the command writes them. */
  const FIELD_LABELS: seq<string> :=
    [SUMMARY_LABEL, VERSION_LABEL, LATEST_LABEL, AUTHOR_LABEL,
     DOCUMENTATION_LABEL, HOMEPAGE_LABEL, LICENSE_LABEL]

  /**
    What one run of the command shows: the package line's text, the text
    of each optional line that is written (None for a line left out), and
    the dependencies listed under `Requires:`.
   */
  datatype Shown = Shown(
    package: string,
    summary: Option<string>,
    version: Option<string>,
    latest: Option<string>,
    author: Option<string>,
    documentation: Option<string>,
    homepage: Option<string>,
    license: Option<string>,
    requirements: seq<string>)

  /** The optional values of a report, in the order of FIELD_LABELS. */
  function FieldValues(sh: Shown): (vs: seq<Option<string>>)
    ensures |vs| == |FIELD_LABELS|
  {
    [sh.summary, sh.version, sh.latest, sh.author, sh.documentation, sh.homepage, sh.license]
  }

  /** One line `name + value` when the value is present, none otherwise. */
  function OptionalLine(name: string, value: Option<string>): seq<string>
  {
    if value.Some? then [name + value.value] else []
  }

  /** The tab-indented dependency lines. */
  function Indented(deps: seq<string>): (ls: seq<string>)
    ensures |ls| == |deps|
    ensures forall i :: 0 <= i < |deps| ==> ls[i] == "\t" + deps[i]
  {
    seq(|deps|, i requires 0 <= i < |deps| => "\t" + deps[i])
  }

  /** Indenting one more dependency adds one line at the end. */
  lemma IndentedAppend(deps: seq<string>, i: nat)
    requires i < |deps|
    ensures Indented(deps[..i + 1]) == Indented(deps[..i]) + ["\t" + deps[i]]
  {
    assert deps[..i + 1][..i] == deps[..i];
  }

  /** A blank line, `Requires:` and one indented line per dependency; nothing when there are none. */
  function RequiresLines(deps: seq<string>): seq<string>
  {
    if deps == [] then [] else ["", REQUIRES_HEADING] + Indented(deps)
  }

  /** The lines written for a report, in the command's fixed order. */
  function ReportLines(sh: Shown): seq<string>
  {
    [PACKAGE_LABEL + sh.package]
    + OptionalLine(SUMMARY_LABEL, sh.summary)
    + OptionalLine(VERSION_LABEL, sh.version)
    + OptionalLine(LATEST_LABEL, sh.latest)
    + OptionalLine(AUTHOR_LABEL, sh.author)
    + OptionalLine(DOCUMENTATION_LABEL, sh.documentation)
    + OptionalLine(HOMEPAGE_LABEL, sh.homepage)
    + OptionalLine(LICENSE_LABEL, sh.license)
    + RequiresLines(sh.requirements)
  }

  /** The optional lines for a list of labels and values, in order, followed by `tail`. */
  function FieldLines(labels: seq<string>, values: seq<Option<string>>, tail: seq<string>): seq<string>
    requires |labels| == |values|
  {
    if labels == [] then tail
    else OptionalLine(labels[0], values[0]) + FieldLines(labels[1..], values[1..], tail)
  }

  /** Reads, for each label in turn, the line carrying it if it comes next. */
  function ReadFields(labels: seq<string>, lines: seq<string>): (r: (seq<Option<string>>, seq<string>))
    ensures |r.0| == |labels|
  {
    if labels == [] then ([], lines)
    else
      var present := lines != [] && StartsWith(lines[0], labels[0]);
      var value := if present then Some(lines[0][|labels[0]|..]) else None;
      var after := if present then lines[1..] else lines;
      var more := ReadFields(labels[1..], after);
      ([value] + more.0, more.1)
  }

  /** Reads the `Requires:` section back into its dependencies; None when it is malformed. */
  function ReadRequires(rest: seq<string>): Option<seq<string>>
  {
    if rest == [] then Some([])
    else if |rest| >= 3 && rest[0] == "" && rest[1] == REQUIRES_HEADING
            && forall i :: 2 <= i < |rest| ==> StartsWith(rest[i], "\t")
    then Some(seq(|rest| - 2, i requires 0 <= i < |rest| - 2 => rest[i + 2][1..]))
    else None
  }

  /** Reads a block of lines back into the report it shows; None when it is not such a block. */
  function ParseReport(lines: seq<string>): Option<Shown>
  {
    if lines == [] || !StartsWith(lines[0], PACKAGE_LABEL) then None
    else
      var fields := ReadFields(FIELD_LABELS, lines[1..]);
      var vs := fields.0;
      var deps := ReadRequires(fields.1);
      if deps.None? then None
      else Some(Shown(lines[0][LABEL_WIDTH..], vs[0], vs[1], vs[2], vs[3], vs[4], vs[5], vs[6], deps.value))
  }

  /** Every label is LABEL_WIDTH wide and no two are equal. */
  predicate DistinctLabels(labels: seq<string>)
  {
    && (forall i :: 0 <= i < |labels| ==> |labels[i]| == LABEL_WIDTH)
    && (forall i, j :: 0 <= i < j < |labels| ==> labels[i] != labels[j])
  }

  lemma FieldLabelsDistinct()
    ensures DistinctLabels(FIELD_LABELS)
    ensures forall i :: 0 <= i < |FIELD_LABELS| ==> FIELD_LABELS[i] != PACKAGE_LABEL
  {
    assert SUMMARY_LABEL[0] == 'S' && VERSION_LABEL[0] == 'V' && LATEST_LABEL[1] == 'a';
    assert AUTHOR_LABEL[0] == 'A' && DOCUMENTATION_LABEL[0] == 'D' && HOMEPAGE_LABEL[0] == 'H';
    assert LICENSE_LABEL[1] == 'i' && PACKAGE_LABEL[0] == 'P';
  }

  /** A line carrying label `b` does not start with a different label `a` of the same width. */
  lemma OtherLabel(a: string, b: string, value: string)
    requires |a| == |b| && a != b
    ensures !StartsWith(b + value, a)
  {
    assert (b + value)[..|a|] == b;
  }

  /** The first of the lines is the tail's first, or carries one of the labels. */
  lemma {:induction false} FieldLinesHead(labels: seq<string>, values: seq<Option<string>>, tail: seq<string>)
    requires |labels| == |values|
    ensures var lines := FieldLines(labels, values, tail);
            || lines == tail
            || exists k :: 0 <= k < |labels| && values[k].Some? && |lines| > 0 && lines[0] == labels[k] + values[k].value
  {
    if labels != [] && values[0].None? {
      var lines := FieldLines(labels, values, tail);
      var rest := FieldLines(labels[1..], values[1..], tail);
      assert lines == rest;
      FieldLinesHead(labels[1..], values[1..], tail);
      if rest != tail {
        var k :| 0 <= k < |labels[1..]| && values[1..][k].Some? && |rest| > 0 && rest[0] == labels[1..][k] + values[1..][k].value;
        assert lines[0] == labels[k + 1] + values[k + 1].value;
      }
    }
  }

  /** ReadFields undoes FieldLines, whatever follows as long as it carries no label. */
  lemma {:induction false} ReadFieldLines(labels: seq<string>, values: seq<Option<string>>, tail: seq<string>)
    requires |labels| == |values|
    requires DistinctLabels(labels)
    requires tail == [] || |tail[0]| < LABEL_WIDTH
    ensures ReadFields(labels, FieldLines(labels, values, tail)) == (values, tail)
  {
    if labels != [] {
      var lines := FieldLines(labels, values, tail);
      var rest := FieldLines(labels[1..], values[1..], tail);
      assert DistinctLabels(labels[1..]) by {
        forall i, j | 0 <= i < j < |labels[1..]| ensures labels[1..][i] != labels[1..][j] {
          assert labels[1..][i] == labels[i + 1] && labels[1..][j] == labels[j + 1];
        }
      }
      ReadFieldLines(labels[1..], values[1..], tail);
      if values[0].Some? {
        assert lines == [labels[0] + values[0].value] + rest;
        assert lines[0][..|labels[0]|] == labels[0];
        assert lines[0][|labels[0]|..] == values[0].value;
        assert lines[1..] == rest;
      } else {
        assert lines == rest;
        FieldLinesHead(labels[1..], values[1..], tail);
        if rest != tail {
          var k :| 0 <= k < |labels[1..]| && values[1..][k].Some? && |rest| > 0 && rest[0] == labels[1..][k] + values[1..][k].value;
          OtherLabel(labels[0], labels[k + 1], values[k + 1].value);
        }
      }
      assert [values[0]] + values[1..] == values;
    }
  }

  /** Seven optional lines in a row, followed by a tail. */
  lemma FieldLinesSeven(ls: seq<string>, vs: seq<Option<string>>, tail: seq<string>)
    requires |ls| == |vs| == 7
    ensures FieldLines(ls, vs, tail)
            == OptionalLine(ls[0], vs[0]) + (OptionalLine(ls[1], vs[1]) + (OptionalLine(ls[2], vs[2])
             + (OptionalLine(ls[3], vs[3]) + (OptionalLine(ls[4], vs[4]) + (OptionalLine(ls[5], vs[5])
             + (OptionalLine(ls[6], vs[6]) + tail))))))
  {
    assert ls[6..][1..] == [] && vs[6..][1..] == [];
    assert ls[5..][1..] == ls[6..] && vs[5..][1..] == vs[6..];
    assert ls[4..][1..] == ls[5..] && vs[4..][1..] == vs[5..];
    assert ls[3..][1..] == ls[4..] && vs[3..][1..] == vs[4..];
    assert ls[2..][1..] == ls[3..] && vs[2..][1..] == vs[3..];
    assert ls[1..][1..] == ls[2..] && vs[1..][1..] == vs[2..];
    assert FieldLines(ls[6..], vs[6..], tail) == OptionalLine(ls[6], vs[6]) + tail;
    assert FieldLines(ls[5..], vs[5..], tail) == OptionalLine(ls[5], vs[5]) + FieldLines(ls[6..], vs[6..], tail);
    assert FieldLines(ls[4..], vs[4..], tail) == OptionalLine(ls[4], vs[4]) + FieldLines(ls[5..], vs[5..], tail);
    assert FieldLines(ls[3..], vs[3..], tail) == OptionalLine(ls[3], vs[3]) + FieldLines(ls[4..], vs[4..], tail);
    assert FieldLines(ls[2..], vs[2..], tail) == OptionalLine(ls[2], vs[2]) + FieldLines(ls[3..], vs[3..], tail);
    assert FieldLines(ls[1..], vs[1..], tail) == OptionalLine(ls[1], vs[1]) + FieldLines(ls[2..], vs[2..], tail);
  }

  lemma Associate(a: seq<string>, b: seq<string>, c: seq<string>)
    ensures a + b + c == a + (b + c)
  {
  }

  /** The report's fixed layout written with the generic field lines. */
  lemma ReportLinesByFields(sh: Shown)
    ensures ReportLines(sh) == [PACKAGE_LABEL + sh.package] + FieldLines(FIELD_LABELS, FieldValues(sh), RequiresLines(sh.requirements))
  {
    var p := [PACKAGE_LABEL + sh.package];
    var o1, o2, o3 := OptionalLine(SUMMARY_LABEL, sh.summary), OptionalLine(VERSION_LABEL, sh.version), OptionalLine(LATEST_LABEL, sh.latest);
    var o4, o5 := OptionalLine(AUTHOR_LABEL, sh.author), OptionalLine(DOCUMENTATION_LABEL, sh.documentation);
    var o6, o7 := OptionalLine(HOMEPAGE_LABEL, sh.homepage), OptionalLine(LICENSE_LABEL, sh.license);
    var r := RequiresLines(sh.requirements);
    FieldLinesSeven(FIELD_LABELS, FieldValues(sh), r);
    assert ReportLines(sh) == p + o1 + o2 + o3 + o4 + o5 + o6 + o7 + r;
    Associate(p + o1 + o2 + o3 + o4 + o5 + o6, o7, r);
    Associate(p + o1 + o2 + o3 + o4 + o5, o6, o7 + r);
    Associate(p + o1 + o2 + o3 + o4, o5, o6 + (o7 + r));
    Associate(p + o1 + o2 + o3, o4, o5 + (o6 + (o7 + r)));
    Associate(p + o1 + o2, o3, o4 + (o5 + (o6 + (o7 + r))));
    Associate(p + o1, o2, o3 + (o4 + (o5 + (o6 + (o7 + r)))));
    Associate(p, o1, o2 + (o3 + (o4 + (o5 + (o6 + (o7 + r))))));
  }

  /** The `Requires:` section reads back into the dependencies it lists. */
  lemma ReadRequiresLines(deps: seq<string>)
    ensures ReadRequires(RequiresLines(deps)) == Some(deps)
  {
    var tail := RequiresLines(deps);
    if deps != [] {
      forall i | 2 <= i < |tail| ensures StartsWith(tail[i], "\t") {
        assert tail[i] == "\t" + deps[i - 2];
        assert tail[i][..1] == "\t";
      }
      var read := seq(|tail| - 2, i requires 0 <= i < |tail| - 2 => tail[i + 2][1..]);
      forall i | 0 <= i < |read| ensures read[i] == deps[i] {
        assert tail[i + 2] == "\t" + deps[i];
      }
      assert read == deps;
    }
  }

  /** The layout is unambiguous: the written lines read back into exactly the report shown. */
  lemma {:induction false} ParseReportLines(sh: Shown)
    ensures ParseReport(ReportLines(sh)) == Some(sh)
  {
    var tail := RequiresLines(sh.requirements);
    var vs := FieldValues(sh);
    var fieldLines := FieldLines(FIELD_LABELS, vs, tail);
    var lines := [PACKAGE_LABEL + sh.package] + fieldLines;
    ReportLinesByFields(sh);
    assert ReportLines(sh) == lines;
    FieldLabelsDistinct();
    ReadFieldLines(FIELD_LABELS, vs, tail);
    ReadRequiresLines(sh.requirements);
    assert lines[1..] == fieldLines;
    assert lines[0][..LABEL_WIDTH] == PACKAGE_LABEL;
    assert lines[0][LABEL_WIDTH..] == sh.package;
  }
}

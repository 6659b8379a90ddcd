/**
  The slice of Python's value semantics that the show command relies on:
  `None`, strings and lists of strings, their truthiness (`if x:`), their
  `'%s' % x` formatting, `for y in x` iteration, `dict.get`, and
  `str.startswith` / `str.split` with a one-character separator.
 */
module PyValues {

  datatype Option<+T> = None | Some(value: T)

  /** A Python value as the command sees it: `None`, a `str` or a list of `str`. */
  datatype PyValue = PyNone | Str(s: string) | List(items: seq<string>)

  /** Python truthiness: `None`, `''` and `[]` are false, everything else true. */
  predicate Truthy(v: PyValue)
  {
    match v
    case PyNone => false
    case Str(s) => s != ""
    case List(items) => items != []
  }

  /** Lifts an optional string into a Python value, `None` staying `None`. */
  function FromOption(o: Option<string>): (v: PyValue)
    ensures o.None? <==> v.PyNone?
    ensures o.Some? ==> v == Str(o.value)
  {
    match o
    case None => PyNone
    case Some(s) => Str(s)
  }

  /** `item1', 'item2` without the outer quotes: the inside of a list's repr. */
  function QuotedItems(items: seq<string>): string
  {
    if items == [] then ""
    else if |items| == 1 then "'" + items[0] + "'"
    else "'" + items[0] + "', " + QuotedItems(items[1..])
  }

  /** What `'%s' % v` produces for `v`. */
  function Format(v: PyValue): string
  {
    match v
    case PyNone => "None"
    case Str(s) => s
    case List(items) => "[" + QuotedItems(items) + "]"
  }

  /** The elements `for y in v` visits: the one-character strings of a `str`, the items of a list. */
  function Iterate(v: PyValue): (ys: seq<string>)
    requires !v.PyNone?
    ensures ys != [] <==> Truthy(v)
  {
    match v
    case Str(s) => seq(|s|, i requires 0 <= i < |s| => [s[i]])
    case List(items) => items
  }

  /** `d.get(key, default)`. */
  function Get(d: map<string, PyValue>, key: string, default: PyValue): (v: PyValue)
    ensures key in d ==> v == d[key]
    ensures key !in d ==> v == default
  {
    if key in d then d[key] else default
  }

  /** `s.startswith(prefix)`. */
  predicate StartsWith(s: string, prefix: string)
  {
    |prefix| <= |s| && s[..|prefix|] == prefix
  }

  /** `s.split(sep)` for a one-character separator `sep`. */
  function Split(s: string, sep: char): (parts: seq<string>)
    ensures |parts| >= 1
    ensures forall i :: 0 <= i < |parts| ==> sep !in parts[i]
  {
    if s == [] then [""]
    else
      var rest := Split(s[1..], sep);
      if s[0] == sep then [""] + rest
      else [[s[0]] + rest[0]] + rest[1..]
  }

  /** `sep.join(parts)` for a one-character separator `sep`. */
  function Join(parts: seq<string>, sep: char): string
  {
    if parts == [] then ""
    else if |parts| == 1 then parts[0]
    else parts[0] + [sep] + Join(parts[1..], sep)
  }

  /** Joining the pieces of a split gives back the original string. */
  lemma {:induction false} JoinSplit(s: string, sep: char)
    ensures Join(Split(s, sep), sep) == s
  {
    if s != [] {
      var rest := Split(s[1..], sep);
      JoinSplit(s[1..], sep);
      if s[0] == sep {
        assert Split(s, sep) == [""] + rest;
        assert ([""] + rest)[1..] == rest;
      } else {
        var parts := Split(s, sep);
        assert parts == [[s[0]] + rest[0]] + rest[1..];
        if |rest| == 1 {
          assert Join(parts, sep) == [s[0]] + rest[0];
        } else {
          assert parts[1..] == rest[1..];
          assert Join(rest, sep) == rest[0] + [sep] + Join(rest[1..], sep);
          assert Join(parts, sep) == [s[0]] + rest[0] + [sep] + Join(rest[1..], sep);
        }
      }
    }
  }

  /** A string without the separator splits into itself alone. */
  lemma {:induction false} SplitWithoutSeparator(a: string, sep: char)
    requires sep !in a
    ensures Split(a, sep) == [a]
  {
    if a != [] {
      SplitWithoutSeparator(a[1..], sep);
      assert [a[0]] + a[1..] == a;
    }
  }

  /** Splitting stops at the first separator. */
  lemma {:induction false} SplitAtSeparator(a: string, t: string, sep: char)
    requires sep !in a
    ensures Split(a + [sep] + t, sep) == [a] + Split(t, sep)
  {
    var s := a + [sep] + t;
    if a == [] {
      assert s[1..] == t;
    } else {
      assert s[1..] == a[1..] + [sep] + t;
      SplitAtSeparator(a[1..], t, sep);
      assert [a[0]] + a[1..] == a;
    }
  }

  /** Splitting a join of separator-free pieces gives back the pieces. */
  lemma {:induction false} SplitJoin(parts: seq<string>, sep: char)
    requires |parts| >= 1
    requires forall i :: 0 <= i < |parts| ==> sep !in parts[i]
    ensures Split(Join(parts, sep), sep) == parts
  {
    if |parts| == 1 {
      SplitWithoutSeparator(parts[0], sep);
    } else {
      SplitAtSeparator(parts[0], Join(parts[1..], sep), sep);
      SplitJoin(parts[1..], sep);
    }
  }
}

/**
  The "thing" argument of the record operations: a plain string, a record
  reference (RecordID) or a table reference (Table), and the one place where
  the connection interprets it: `create` turns a "table:id" string into a
  record reference.
*/
module Things {
  import opened Values

  datatype Thing = Str(s: string) | Rec(table: string, ident: string) | Tbl(name: string)

  /** How a thing is carried in a request message. */
  function ThingValue(t: Thing): Value {
    match t
    case Str(s) => Text(s)
    case Rec(table, ident) => Record(table, ident)
    case Tbl(name) => TableRef(name)
  }

  /** Python's `s.split(sep)` for a one-character separator. */
  function Split(s: string, sep: char): (parts: seq<string>)
    ensures |parts| >= 1
    ensures forall i :: 0 <= i < |parts| ==> sep !in parts[i]
    ensures sep in s <==> |parts| >= 2
    decreases |s|
  {
    if s == [] then [""]
    else
      var rest := Split(s[1..], sep);
      assert s == [s[0]] + s[1..];
      if s[0] == sep then [""] + rest
      else [[s[0]] + rest[0]] + rest[1..]
  }

  /** Python's `sep.join(parts)`. */
  function Join(parts: seq<string>, sep: char): string
    decreases |parts|
  {
    if parts == [] then ""
    else if |parts| == 1 then parts[0]
    else parts[0] + [sep] + Join(parts[1..], sep)
  }

  /** Splitting loses nothing: joining the parts back gives the string. */
  lemma {:induction false} JoinSplit(s: string, sep: char)
    ensures Join(Split(s, sep), sep) == s
    decreases |s|
  {
    if s != [] {
      var rest := Split(s[1..], sep);
      JoinSplit(s[1..], sep);
      var parts := Split(s, sep);
      if s[0] == sep {
        assert parts[1..] == rest;
      } else if |rest| == 1 {
        assert parts == [[s[0]] + rest[0]];
      } else {
        assert parts[1..] == rest[1..];
        assert Join(rest, sep) == rest[0] + [sep] + Join(rest[1..], sep);
        assert Join(parts, sep) == [s[0]] + (rest[0] + [sep] + Join(rest[1..], sep));
      }
    }
  }

  /** A string without the separator splits into itself. */
  lemma {:induction false} SplitNoSep(s: string, sep: char)
    requires sep !in s
    ensures Split(s, sep) == [s]
    decreases |s|
  {
    if s != [] {
      assert sep !in s[1..];
      SplitNoSep(s[1..], sep);
      assert [s[0]] + s[1..] == s;
    }
  }

  /** Splitting `a + [sep] + b` with no separator in `a` yields `a` followed by the parts of `b`. */
  lemma {:induction false} SplitAtSep(a: string, b: string, sep: char)
    requires sep !in a
    ensures Split(a + [sep] + b, sep) == [a] + Split(b, sep)
    decreases |a|
  {
    if a == [] {
      assert a + [sep] + b == [sep] + b;
      assert ([sep] + b)[1..] == b;
    } else {
      var s := a + [sep] + b;
      assert s[1..] == a[1..] + [sep] + b;
      assert sep !in a[1..];
      SplitAtSep(a[1..], b, sep);
      assert [a[0]] + a[1..] == a;
    }
  }

  /** Joining parts that contain no separator and splitting again gives the parts back. */
  lemma {:induction false} SplitJoin(parts: seq<string>, sep: char)
    requires |parts| >= 1
    requires forall i :: 0 <= i < |parts| ==> sep !in parts[i]
    ensures Split(Join(parts, sep), sep) == parts
    decreases |parts|
  {
    if |parts| == 1 {
      SplitNoSep(parts[0], sep);
    } else {
      SplitJoin(parts[1..], sep);
      SplitAtSep(parts[0], Join(parts[1..], sep), sep);
      assert [parts[0]] + parts[1..] == parts;
    }
  }

  /**
    The normalisation `create` applies to its argument: a string containing
    ':' becomes a record reference built from the first two pieces of
    `split(":")`; anything else passes through unchanged.
  */
  function Normalise(t: Thing): (r: Thing)
    ensures r.Rec? <==> t.Rec? || (t.Str? && ':' in t.s)
    ensures !(t.Str? && ':' in t.s) ==> r == t
  {
    if t.Str? && ':' in t.s then
      var pieces := Split(t.s, ':');
      Rec(pieces[0], pieces[1])
    else t
  }

  /**
    The record reference `create` builds from "table:id[:more...]": the table is
    the text before the first ':', the identifier the text between the first
    and the second ':' (or the end); whatever follows a second ':' is dropped.
  */
  lemma NormaliseSplitsAtFirstColons(s: string)
    requires ':' in s
    ensures var r := Normalise(Str(s));
      && r.Rec?
      && ':' !in r.table && ':' !in r.ident
      && r.table + [':'] + r.ident <= s
      && var n := |r.table| + 1 + |r.ident|;
         n == |s| || s[n] == ':'
  {
    var parts := Split(s, ':');
    JoinSplit(s, ':');
    var tail := Join(parts[1..], ':');
    assert s == parts[0] + [':'] + tail;
    if |parts| == 2 {
      assert tail == parts[1];
    } else {
      assert parts[1..][1..] == parts[2..];
      assert tail == parts[1] + [':'] + Join(parts[2..], ':');
      assert s == (parts[0] + [':'] + parts[1]) + [':'] + Join(parts[2..], ':');
    }
  }
}

// Splitting and joining byte strings on a separator, as `split`, `split_once` and `join` do.
module Splitting {
  import opened Percent

  function Split(s: Bytes, sep: byte): (parts: seq<Bytes>)
    ensures parts != []
  {
    if s == [] then [[]]
    else
      var rest := Split(s[1..], sep);
      if s[0] == sep then [[]] + rest else [[s[0]] + rest[0]] + rest[1..]
  }

  function Join(parts: seq<Bytes>, sep: byte): Bytes {
    if parts == [] then []
    else if |parts| == 1 then parts[0]
    else parts[0] + [sep] + Join(parts[1..], sep)
  }

  // Before and after the first separator; everything and nothing when there is none.
  function SplitOnce(s: Bytes, sep: byte): (Bytes, Bytes) {
    if s == [] then ([], [])
    else if s[0] == sep then ([], s[1..])
    else var (before, after) := SplitOnce(s[1..], sep); ([s[0]] + before, after)
  }

  predicate Lacks(s: Bytes, sep: byte) { sep !in s }

  ghost predicate AllLack(parts: seq<Bytes>, sep: byte) {
    forall i :: 0 <= i < |parts| ==> Lacks(parts[i], sep)
  }

  lemma {:induction false} SplitPart(s: Bytes, sep: byte, tail: Bytes)
    requires Lacks(s, sep)
    ensures Split(s, sep) == [s]
    ensures Split(s + [sep] + tail, sep) == [s] + Split(tail, sep)
  {
    var t := s + [sep] + tail;
    if s == [] {
      assert t[1..] == tail;
    } else {
      SplitPart(s[1..], sep, tail);
      assert t[1..] == s[1..] + [sep] + tail;
      assert s == [s[0]] + s[1..];
    }
  }

  // Splitting undoes joining.
  lemma {:induction false} SplitUndoesJoin(parts: seq<Bytes>, sep: byte)
    requires parts != [] && AllLack(parts, sep)
    ensures Split(Join(parts, sep), sep) == parts
  {
    if |parts| == 1 {
      SplitPart(parts[0], sep, []);
    } else {
      SplitPart(parts[0], sep, Join(parts[1..], sep));
      SplitUndoesJoin(parts[1..], sep);
      assert parts == [parts[0]] + parts[1..];
    }
  }

  // ...and joining undoes splitting.
  lemma {:induction false} JoinUndoesSplit(s: Bytes, sep: byte)
    ensures Join(Split(s, sep), sep) == s && AllLack(Split(s, sep), sep)
  {
    if s != [] {
      JoinUndoesSplit(s[1..], sep);
      var rest := Split(s[1..], sep);
      assert s == [s[0]] + s[1..];
      if s[0] == sep {
        assert ([[]] + rest)[1..] == rest;
      } else {
        assert ([[s[0]] + rest[0]] + rest[1..])[1..] == rest[1..];
        var tail := Join(rest[1..], sep);
        assert [s[0]] + (rest[0] + [sep] + tail) == ([s[0]] + rest[0]) + [sep] + tail;
      }
    }
  }

  lemma {:induction false} SplitOnceAt(s: Bytes, sep: byte, tail: Bytes)
    requires Lacks(s, sep)
    ensures SplitOnce(s + [sep] + tail, sep) == (s, tail)
    ensures SplitOnce(s, sep) == (s, [])
  {
    var t := s + [sep] + tail;
    if s == [] {
      assert t[1..] == tail;
    } else {
      SplitOnceAt(s[1..], sep, tail);
      assert t[1..] == s[1..] + [sep] + tail;
      assert s == [s[0]] + s[1..];
    }
  }

  // What is split off, and that nothing is lost.
  lemma {:induction false} SplitOnceParts(s: Bytes, sep: byte)
    ensures var (before, after) := SplitOnce(s, sep);
      Lacks(before, sep) && s == (if sep in s then before + [sep] + after else before) && (sep !in s ==> after == [])
  {
    if s != [] && s[0] != sep {
      SplitOnceParts(s[1..], sep);
      assert s == [s[0]] + s[1..];
    }
  }

  lemma {:induction false} JoinLacks(parts: seq<Bytes>, sep: byte, other: byte)
    requires AllLack(parts, other) && other != sep
    ensures Lacks(Join(parts, sep), other)
  {
    if |parts| > 1 {
      JoinLacks(parts[1..], sep, other);
    }
  }

  lemma JoinEmpty(parts: seq<Bytes>, sep: byte)
    requires parts != []
    ensures Join(parts, sep) == [] <==> parts == [[]]
  {
    if |parts| > 1 {
      assert sep in Join(parts, sep);
    }
  }
}

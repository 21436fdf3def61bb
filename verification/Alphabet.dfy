// The canonical form in terms of the standard alone: the characters themselves, written out, and what
// the encoder, the decoder and the canonicaliser make of them.
module Alphabet {
  import opened Wrappers
  import opened Percent
  import opened Splitting
  import opened QueryOrder
  import opened Canonical

  // The unreserved characters of section 2.3 of RFC 3986: A-Z, a-z, 0-9, '-', '.', '_' and '~'.
  const UPPER_LETTERS: Bytes := [
    65, 66, 67, 68, 69, 70, 71, 72, 73, 74, 75, 76, 77,
    78, 79, 80, 81, 82, 83, 84, 85, 86, 87, 88, 89, 90]
  const LOWER_LETTERS: Bytes := [
    97, 98, 99, 100, 101, 102, 103, 104, 105, 106, 107, 108, 109,
    110, 111, 112, 113, 114, 115, 116, 117, 118, 119, 120, 121, 122]
  const DIGITS: Bytes := [48, 49, 50, 51, 52, 53, 54, 55, 56, 57]
  const MARKS: Bytes := [45, 46, 95, 126]
  const ALPHABET: Bytes := UPPER_LETTERS + LOWER_LETTERS + DIGITS + MARKS

  // The hexadecimal digits of section 2.1, in upper and in lower case.
  const UPPER_DIGITS: Bytes := [48, 49, 50, 51, 52, 53, 54, 55, 56, 57, 65, 66, 67, 68, 69, 70]
  const LOWER_DIGITS: Bytes := [48, 49, 50, 51, 52, 53, 54, 55, 56, 57, 97, 98, 99, 100, 101, 102]

  predicate Plain(s: Bytes) { forall i :: 0 <= i < |s| ==> s[i] in ALPHABET }

  lemma AlphabetIsUnreserved(b: byte)
    ensures b in ALPHABET <==> Unreserved(b)
  {
    assert b in ALPHABET <==> b in UPPER_LETTERS || b in LOWER_LETTERS || b in DIGITS || b in MARKS;
    UpperLettersAre(b);
    LowerLettersAre(b);
    DigitsAre(b);
  }

  lemma UpperLettersAre(b: byte)
    ensures b in UPPER_LETTERS <==> 65 <= b <= 90
  {}

  lemma LowerLettersAre(b: byte)
    ensures b in LOWER_LETTERS <==> 97 <= b <= 122
  {}

  lemma DigitsAre(b: byte)
    ensures b in DIGITS <==> 48 <= b <= 57
  {}

  lemma NibblesAreUpper(n: int)
    requires 0 <= n < 16
    ensures Nibble(n) == UPPER_DIGITS[n]
  {}

  // ----- the encoder -----

  lemma EncodedByte(b: byte)
    ensures Encode([b]) == EncodeByte(b)
  {
    assert [b][1..] == [];
  }

  // Characters of the alphabet stay; any other byte becomes an escape with upper-case digits.
  lemma EncodesByAlphabet(b: byte)
    ensures Encode([b]) == [b] <==> b in ALPHABET
    ensures b !in ALPHABET ==> Encode([b]) == [37, UPPER_DIGITS[b / 16], UPPER_DIGITS[b % 16]]
  {
    AlphabetIsUnreserved(b);
    EncodedByte(b);
    NibblesAreUpper(b / 16);
    NibblesAreUpper(b % 16);
  }

  // The encoder looks at one byte at a time.
  lemma {:induction false} EncodesBytewise(s: Bytes, t: Bytes)
    ensures Encode(s + t) == Encode(s) + Encode(t)
  {
    if s == [] {
      assert s + t == t;
    } else {
      assert (s + t)[1..] == s[1..] + t;
      EncodesBytewise(s[1..], t);
    }
  }

  lemma {:induction false} EncodingGrows(s: Bytes)
    ensures |Encode(s)| >= |s|
  {
    if s != [] {
      EncodingGrows(s[1..]);
    }
  }

  // A string is its own encoding exactly when it is made of the alphabet.
  lemma {:induction false} OwnEncoding(s: Bytes)
    ensures Encode(s) == s <==> Plain(s)
  {
    if s != [] {
      OwnEncoding(s[1..]);
      AlphabetIsUnreserved(s[0]);
      EncodingGrows(s[1..]);
      assert s == [s[0]] + s[1..];
      assert Plain(s) <==> s[0] in ALPHABET && Plain(s[1..]);
    }
  }

  // ----- the decoder -----

  lemma DigitsAreHex(b: byte, n: int)
    ensures Digit(b) == Some(n) <==> 0 <= n < 16 && (b == UPPER_DIGITS[n] || b == LOWER_DIGITS[n])
  {}

  // An escape stands for one byte, in either case of its digits, and any other character for itself.
  lemma DecodesEscapes(high: byte, low: byte, m: int, n: int, rest: Bytes)
    requires 0 <= m < 16 && (high == UPPER_DIGITS[m] || high == LOWER_DIGITS[m])
    requires 0 <= n < 16 && (low == UPPER_DIGITS[n] || low == LOWER_DIGITS[n])
    ensures Decode([37, high, low] + rest) == After([16 * m + n], Decode(rest))
  {
    DigitsAreHex(high, m);
    DigitsAreHex(low, n);
    var s := [37, high, low] + rest;
    assert s[3..] == rest;
  }

  lemma {:induction false} DecodesCharacters(s: Bytes, rest: Bytes)
    requires 37 !in s
    ensures Decode(s + rest) == After(s, Decode(rest))
  {
    if s == [] {
      assert s + rest == rest;
      NothingDone(Decode(rest));
    } else {
      assert (s + rest)[1..] == s[1..] + rest;
      DecodesCharacters(s[1..], rest);
      if Decode(rest).Ok? {
        assert [s[0]] + (s[1..] + Decode(rest).value) == s + Decode(rest).value;
      }
    }
  }

  lemma PlainDecodes(s: Bytes)
    requires Plain(s)
    ensures Decode(s) == Ok(s)
  {
    OwnEncoding(s);
    DecodeUndoesEncode(s);
  }

  // ----- the canonical path -----

  predicate PlainPath(p: Bytes) { p != [] && forall i :: 0 <= i < |p| ==> p[i] in ALPHABET || p[i] == 47 }

  ghost predicate AllPlain(parts: seq<Bytes>) { forall i :: 0 <= i < |parts| ==> Plain(parts[i]) }

  lemma PlainCharacter(b: byte)
    requires b in ALPHABET
    ensures b !in [37, 38, 47, 61, 63]
  {
    AlphabetIsUnreserved(b);
  }

  lemma {:induction false} PlainParts(s: Bytes)
    requires forall i :: 0 <= i < |s| ==> s[i] in ALPHABET || s[i] == 47
    ensures AllPlain(Split(s, 47))
  {
    if s != [] {
      PlainParts(s[1..]);
    }
  }

  lemma PlainAllDecode(parts: seq<Bytes>)
    requires AllPlain(parts)
    ensures DecodeAll(parts) == Ok(parts)
  {
    PlainAllEncode(parts);
    DecodeAllUndoesEncodeAll(parts);
  }

  lemma PlainAllEncode(parts: seq<Bytes>)
    requires AllPlain(parts)
    ensures EncodeAll(parts) == parts
  {
    forall i | 0 <= i < |parts| ensures Encode(parts[i]) == parts[i] {
      OwnEncoding(parts[i]);
    }
  }

  // What a path over the alphabet and '/' shows: itself.
  lemma PlainPathShown(p: Bytes)
    requires PlainPath(p)
    ensures DecodeAll(Split(p, SLASH)).Ok? && ShownPath(DecodeAll(Split(p, SLASH)).value) == p
    ensures Lacks(p, QUESTION)
  {
    PlainParts(p);
    PlainAllDecode(Split(p, SLASH));
    PlainAllEncode(Split(p, SLASH));
    JoinUndoesSplit(p, SLASH);
    forall i | 0 <= i < |p| ensures p[i] != QUESTION {
      if p[i] in ALPHABET { PlainCharacter(p[i]); }
    }
  }

  lemma PlainPathStays(p: Bytes)
    requires PlainPath(p)
    ensures CanonicalPathAndQuery(p) == Ok((p, []))
  {
    PlainPathShown(p);
    SplitOnceAt(p, QUESTION, []);
    CanonicalShowsMeaning(p);
    assert Split([], AMPERSAND) == [[]];
    assert NonEmpty([[]]) == [];
  }

  // The empty path is shown as the root, and so is the root.
  lemma RootIsShown()
    ensures CanonicalPathAndQuery([]) == Ok(([47], [])) && CanonicalPathAndQuery([47]) == Ok(([47], []))
  {
    PlainPathStays([47]);
    CanonicalShowsMeaning([]);
    assert Split([], SLASH) == [[]] && Split([], AMPERSAND) == [[]];
    assert NonEmpty([[]]) == [];
    PlainAllDecode([[]]);
    PlainAllEncode([[]]);
  }

  // ----- the canonical query -----

  ghost predicate PlainPairs(ps: seq<Pair>) {
    forall i :: 0 <= i < |ps| ==> Plain(ps[i].0) && Plain(ps[i].1)
  }

  lemma PlainPairsEncode(ps: seq<Pair>)
    requires PlainPairs(ps)
    ensures EncodePairs(ps) == ps
  {
    forall i | 0 <= i < |ps| ensures EncodePair(ps[i]) == ps[i] {
      OwnEncoding(ps[i].0);
      OwnEncoding(ps[i].1);
    }
  }

  // A request over the alphabet: '/' in the path, '?' before the query, '&' between parameters and
  // '=' inside them. Its path is shown unchanged, and its parameters sorted.
  lemma PlainRequest(p: Bytes, ps: seq<Pair>)
    requires PlainPath(p) && PlainPairs(ps)
    ensures CanonicalPathAndQuery(p + [63] + Join(ShowAll(ps), 38)) == Ok((p, Join(ShowAll(SortPairs(ps)), 38)))
  {
    var x := p + [63] + Join(ShowAll(ps), 38);
    PlainPathShown(p);
    PlainPairsEncode(ps);
    JoinedPairsRead(ps);
    SplitOnceAt(p, QUESTION, Join(ShowAll(ps), 38));
    CanonicalShowsMeaning(x);
  }

  lemma OnePair(p: Pair)
    ensures SortPairs([p]) == [p] && Join(ShowAll([p]), 38) == p.0 + [61] + p.1
  {
    SortPairsPermutes([p]);
    assert |SortPairs([p])| == |multiset(SortPairs([p]))| == |multiset([p])| == 1;
    assert SortPairs([p])[0] in multiset([p]);
    assert ShowAll([p]) == [Show(p)];
  }

  lemma OneParameter(p: Bytes, k: Bytes, v: Bytes)
    requires PlainPath(p) && Plain(k) && Plain(v)
    ensures CanonicalPathAndQuery(p + [63] + k + [61] + v) == Ok((p, k + [61] + v))
  {
    var ps: seq<Pair> := [(k, v)];
    PlainRequest(p, ps);
    OnePair((k, v));
    hide CanonicalPathAndQuery, PlainPath, Plain, PlainPairs, SortPairs, Join, ShowAll;
    assert p + [63] + (k + [61] + v) == p + [63] + k + [61] + v;
  }

  // ----- the order of the parameters -----

  // Byte order: a prefix first, and otherwise the smaller byte at the first difference.
  lemma {:induction false} LexIsByteOrder(a: Bytes, b: Bytes)
    ensures LexLe(a, b) <==> a <= b || DiffersBelow(a, b)
  {
    if a != [] && b != [] {
      LexIsByteOrder(a[1..], b[1..]);
      if a[0] == b[0] {
        assert a <= b <==> a[1..] <= b[1..];
        BelowTail(a, b);
      } else if a[0] < b[0] {
        assert FirstDifference(a, b, 0);
      }
    }
  }

  predicate FirstDifference(a: Bytes, b: Bytes, i: nat) {
    i < |a| && i < |b| && a[i] != b[i] && forall j :: 0 <= j < i ==> a[j] == b[j]
  }

  ghost predicate DiffersBelow(a: Bytes, b: Bytes) {
    exists i: nat :: FirstDifference(a, b, i) && a[i] < b[i]
  }

  lemma BelowTail(a: Bytes, b: Bytes)
    requires a != [] && b != [] && a[0] == b[0]
    ensures DiffersBelow(a, b) <==> DiffersBelow(a[1..], b[1..])
  {
    if i: nat :| FirstDifference(a, b, i) && a[i] < b[i] {
      assert FirstDifference(a[1..], b[1..], i - 1);
    }
    if i: nat :| FirstDifference(a[1..], b[1..], i) && a[1..][i] < b[1..][i] {
      assert FirstDifference(a, b, i + 1) by {
        forall j | 0 <= j < i + 1 ensures a[j] == b[j] {
          assert j > 0 ==> a[j] == a[1..][j - 1] && b[j] == b[1..][j - 1];
        }
      }
    }
  }

  // The parameters of a canonical query, as it stands, are in order: keys first, then values.
  lemma ShownInOrder(x: Bytes, i: nat, j: nat)
    requires CanonicalPathAndQuery(x).Ok?
    requires i < j < |Split(CanonicalPathAndQuery(x).value.1, 38)|
    ensures var parts := Split(CanonicalPathAndQuery(x).value.1, 38);
      var (p, q) := (SplitOnce(parts[i], 61), SplitOnce(parts[j], 61));
      LexLe(p.0, q.0) && (p.0 == q.0 ==> LexLe(p.1, q.1))
  {
    CanonicalShowsMeaning(x);
    var query := Query(x).value;
    var sorted := SortPairs(EncodePairs(query));
    SortedEncoding(query);
    var qs := DecodedPairs(sorted);
    ShownPairsRead(qs);
    EmptySplit();
    SplitUndoesJoin(ShowAll(sorted), AMPERSAND);
    ShownPairSplits(qs[i]);
    ShownPairSplits(qs[j]);
    assert sorted[i] == EncodePair(qs[i]) && sorted[j] == EncodePair(qs[j]);
    SortedByKeyThenValue(EncodePairs(query), i, j);
  }

  lemma EmptySplit()
    ensures Split([], 38) == [[]] && Join(ShowAll([]), 38) == []
  {}

  lemma ShownPairSplits(p: Pair)
    ensures SplitOnce(Show(EncodePair(p)), EQUALS) == EncodePair(p)
  {
    EncodedLacks(p.0, EQUALS);
    SplitOnceAt(Encode(p.0), EQUALS, Encode(p.1));
  }
}

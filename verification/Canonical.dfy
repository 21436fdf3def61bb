// `canonical_path_and_query`: the form of a request path that a SigV4 signature covers. It is a
// decode, encode, split, sort and join pipeline; the lemmas show that it is a true normal form.
module Canonical {
  import opened Wrappers
  import opened Percent
  import opened Splitting
  import opened QueryOrder

  const QUESTION: byte := 63
  const SLASH: byte := 47
  const AMPERSAND: byte := 38
  const EQUALS: byte := 61

  // ----- the pipeline -----

  function Recode(part: Bytes): Result<Bytes, DecodeError> {
    match Decode(part)
    case Ok(bytes) => Ok(Encode(bytes))
    case Err(e) => Err(e)
  }

  function RecodeAll(parts: seq<Bytes>): Result<seq<Bytes>, DecodeError> {
    if parts == [] then Ok([])
    else
      match (Recode(parts[0]), RecodeAll(parts[1..]))
      case (Ok(p), Ok(rest)) => Ok([p] + rest)
      case _ => Err(InvalidPercentEncoding)
  }

  function RecodePair(part: Bytes): Result<Pair, DecodeError> {
    var (key, value) := SplitOnce(part, EQUALS);
    match (Recode(key), Recode(value))
    case (Ok(k), Ok(v)) => Ok((k, v))
    case _ => Err(InvalidPercentEncoding)
  }

  function RecodePairs(parts: seq<Bytes>): Result<seq<Pair>, DecodeError> {
    if parts == [] then Ok([])
    else
      match (RecodePair(parts[0]), RecodePairs(parts[1..]))
      case (Ok(p), Ok(rest)) => Ok([p] + rest)
      case _ => Err(InvalidPercentEncoding)
  }

  function NonEmpty(parts: seq<Bytes>): seq<Bytes> {
    if parts == [] then []
    else if parts[0] == [] then NonEmpty(parts[1..])
    else [parts[0]] + NonEmpty(parts[1..])
  }

  function Show(p: Pair): Bytes { p.0 + [EQUALS] + p.1 }

  function ShowAll(ps: seq<Pair>): seq<Bytes> {
    seq(|ps|, i requires 0 <= i < |ps| => Show(ps[i]))
  }

  function OrRoot(path: Bytes): Bytes { if path == [] then [SLASH] else path }

  function CanonicalPathAndQuery(path: Bytes): Result<(Bytes, Bytes), DecodeError> {
    var (rawPath, rawQuery) := SplitOnce(path, QUESTION);
    match (RecodeAll(Split(rawPath, SLASH)), RecodePairs(NonEmpty(Split(rawQuery, AMPERSAND))))
    case (Ok(segments), Ok(query)) => Ok((OrRoot(Join(segments, SLASH)), Join(ShowAll(SortPairs(query)), AMPERSAND)))
    case _ => Err(InvalidPercentEncoding)
  }

  // ----- what a request path means -----

  function DecodeAll(parts: seq<Bytes>): Result<seq<Bytes>, DecodeError> {
    if parts == [] then Ok([])
    else
      match (Decode(parts[0]), DecodeAll(parts[1..]))
      case (Ok(p), Ok(rest)) => Ok([p] + rest)
      case _ => Err(InvalidPercentEncoding)
  }

  function DecodePair(part: Bytes): Result<Pair, DecodeError> {
    var (key, value) := SplitOnce(part, EQUALS);
    match (Decode(key), Decode(value))
    case (Ok(k), Ok(v)) => Ok((k, v))
    case _ => Err(InvalidPercentEncoding)
  }

  function DecodePairs(parts: seq<Bytes>): Result<seq<Pair>, DecodeError> {
    if parts == [] then Ok([])
    else
      match (DecodePair(parts[0]), DecodePairs(parts[1..]))
      case (Ok(p), Ok(rest)) => Ok([p] + rest)
      case _ => Err(InvalidPercentEncoding)
  }

  // Decoded path segments and decoded query pairs of a request path.
  function Segments(path: Bytes): Result<seq<Bytes>, DecodeError> {
    DecodeAll(Split(SplitOnce(path, QUESTION).0, SLASH))
  }

  function Query(path: Bytes): Result<seq<Pair>, DecodeError> {
    DecodePairs(NonEmpty(Split(SplitOnce(path, QUESTION).1, AMPERSAND)))
  }

  // The empty path and "/" are the same resource.
  function Resource(segments: seq<Bytes>): seq<Bytes> {
    if segments == [[]] then [[], []] else segments
  }

  // ----- the pipeline encodes the meaning -----

  function EncodeAll(parts: seq<Bytes>): seq<Bytes> {
    seq(|parts|, i requires 0 <= i < |parts| => Encode(parts[i]))
  }

  function EncodePair(p: Pair): Pair { (Encode(p.0), Encode(p.1)) }

  function EncodePairs(ps: seq<Pair>): seq<Pair> {
    seq(|ps|, i requires 0 <= i < |ps| => EncodePair(ps[i]))
  }

  lemma {:induction false} RecodeAllEncodes(parts: seq<Bytes>)
    ensures RecodeAll(parts).Ok? <==> DecodeAll(parts).Ok?
    ensures DecodeAll(parts).Ok? ==> RecodeAll(parts).value == EncodeAll(DecodeAll(parts).value)
    ensures DecodeAll(parts).Ok? ==> |DecodeAll(parts).value| == |parts|
  {
    if parts != [] {
      RecodeAllEncodes(parts[1..]);
    }
  }

  lemma {:induction false} RecodePairsEncodes(parts: seq<Bytes>)
    ensures RecodePairs(parts).Ok? <==> DecodePairs(parts).Ok?
    ensures DecodePairs(parts).Ok? ==> RecodePairs(parts).value == EncodePairs(DecodePairs(parts).value)
  {
    if parts != [] {
      RecodePairsEncodes(parts[1..]);
    }
  }

  function ShownPath(segments: seq<Bytes>): Bytes {
    OrRoot(Join(EncodeAll(segments), SLASH))
  }

  function ShownQuery(query: seq<Pair>): Bytes {
    Join(ShowAll(SortPairs(EncodePairs(query))), AMPERSAND)
  }

  lemma CanonicalShowsMeaning(x: Bytes)
    ensures CanonicalPathAndQuery(x).Ok? <==> Segments(x).Ok? && Query(x).Ok?
    ensures CanonicalPathAndQuery(x).Ok? ==>
      CanonicalPathAndQuery(x).value == (ShownPath(Segments(x).value), ShownQuery(Query(x).value))
    ensures Segments(x).Ok? ==> Segments(x).value != []
  {
    var (rawPath, rawQuery) := SplitOnce(x, QUESTION);
    RecodeAllEncodes(Split(rawPath, SLASH));
    RecodePairsEncodes(NonEmpty(Split(rawQuery, AMPERSAND)));
  }

  // ----- the shown path determines the resource -----

  lemma EncodedLacks(value: Bytes, sep: byte)
    requires !Unreserved(sep) && sep != PERCENT
    ensures Lacks(Encode(value), sep)
  {
    EncodedAlphabet(value);
  }

  lemma EncodeAllLacks(parts: seq<Bytes>, sep: byte)
    requires !Unreserved(sep) && sep != PERCENT
    ensures AllLack(EncodeAll(parts), sep)
  {
    forall i | 0 <= i < |parts| ensures Lacks(EncodeAll(parts)[i], sep) {
      EncodedLacks(parts[i], sep);
    }
  }

  lemma {:induction false} DecodeAllUndoesEncodeAll(parts: seq<Bytes>)
    ensures DecodeAll(EncodeAll(parts)) == Ok(parts)
  {
    if parts != [] {
      DecodeUndoesEncode(parts[0]);
      DecodeAllUndoesEncodeAll(parts[1..]);
      assert EncodeAll(parts)[1..] == EncodeAll(parts[1..]);
      assert parts == [parts[0]] + parts[1..];
    }
  }

  // The shown path, read again, has the same resource: nothing of the path is lost in showing it.
  lemma ShownPathReads(segments: seq<Bytes>)
    requires segments != []
    ensures Lacks(ShownPath(segments), QUESTION)
    ensures DecodeAll(Split(ShownPath(segments), SLASH)) == Ok(Resource(segments))
  {
    var encoded := EncodeAll(segments);
    EncodeAllLacks(segments, SLASH);
    EncodeAllLacks(segments, QUESTION);
    JoinLacks(encoded, SLASH, QUESTION);
    JoinEmpty(encoded, SLASH);
    if encoded == [[]] {
      assert encoded[0] == Encode(segments[0]);
      EncodeKeepsEmptiness(segments[0]);
      assert segments == [[]];
      assert Split([SLASH], SLASH) == [[], []];
      assert EncodeAll([[], []]) == [[], []];
      DecodeAllUndoesEncodeAll([[], []]);
    } else {
      EncodeKeepsEmptiness(segments[0]);
      assert segments == [[]] ==> encoded == [[]];
      SplitUndoesJoin(encoded, SLASH);
      DecodeAllUndoesEncodeAll(segments);
    }
  }

  lemma ShownPathOfResource(segments: seq<Bytes>)
    requires segments != []
    ensures ShownPath(Resource(segments)) == ShownPath(segments)
  {
    if segments == [[]] {
      assert EncodeAll([[]]) == [[]];
      assert EncodeAll([[], []]) == [[], []];
      assert Join([[], []], SLASH) == [SLASH];
    }
  }

  // ----- the shown query determines the pairs -----

  lemma ShownPairReads(p: Pair)
    ensures DecodePair(Show(EncodePair(p))) == Ok(p) && Show(EncodePair(p)) != []
    ensures Lacks(Show(EncodePair(p)), AMPERSAND) && Lacks(Show(EncodePair(p)), QUESTION)
  {
    EncodedLacks(p.0, EQUALS);
    EncodedLacks(p.0, AMPERSAND);
    EncodedLacks(p.1, AMPERSAND);
    EncodedLacks(p.0, QUESTION);
    EncodedLacks(p.1, QUESTION);
    SplitOnceAt(Encode(p.0), EQUALS, Encode(p.1));
    DecodeUndoesEncode(p.0);
    DecodeUndoesEncode(p.1);
  }

  lemma {:induction false} ShownPairsRead(ps: seq<Pair>)
    ensures DecodePairs(ShowAll(EncodePairs(ps))) == Ok(ps)
    ensures NonEmpty(ShowAll(EncodePairs(ps))) == ShowAll(EncodePairs(ps))
    ensures AllLack(ShowAll(EncodePairs(ps)), AMPERSAND)
  {
    if ps != [] {
      var shown := ShowAll(EncodePairs(ps));
      ShownPairReads(ps[0]);
      ShownPairsRead(ps[1..]);
      assert shown[1..] == ShowAll(EncodePairs(ps[1..]));
      assert shown == [shown[0]] + shown[1..];
      assert ps == [ps[0]] + ps[1..];
      forall i | 0 <= i < |shown| ensures Lacks(shown[i], AMPERSAND) {
        assert i > 0 ==> shown[i] == shown[1..][i - 1];
      }
    }
  }

  lemma JoinedPairsRead(ps: seq<Pair>)
    ensures DecodePairs(NonEmpty(Split(Join(ShowAll(EncodePairs(ps)), AMPERSAND), AMPERSAND))) == Ok(ps)
  {
    var shown := ShowAll(EncodePairs(ps));
    ShownPairsRead(ps);
    if ps == [] {
      assert Split([], AMPERSAND) == [[]];
      assert NonEmpty([[]]) == [];
    } else {
      SplitUndoesJoin(shown, AMPERSAND);
    }
  }

  // The pairs of a sorted encoding are the encodings of a rearrangement of the pairs.
  function DecodedPair(p: Pair): Pair {
    match DecodePair(Show(p))
    case Ok(q) => q
    case Err(_) => p
  }

  function DecodedPairs(ps: seq<Pair>): seq<Pair> {
    seq(|ps|, i requires 0 <= i < |ps| => DecodedPair(ps[i]))
  }

  lemma SortedEncoding(ps: seq<Pair>)
    ensures var qs := DecodedPairs(SortPairs(EncodePairs(ps)));
      EncodePairs(qs) == SortPairs(EncodePairs(ps)) && multiset(qs) == multiset(ps)
  {
    var sorted := SortPairs(EncodePairs(ps));
    var qs := DecodedPairs(sorted);
    SortPairsPermutes(EncodePairs(ps));
    assert |sorted| == |multiset(sorted)| == |multiset(EncodePairs(ps))| == |ps|;
    forall i | 0 <= i < |sorted| ensures EncodePair(qs[i]) == sorted[i] {
      assert sorted[i] in multiset(EncodePairs(ps));
      var j :| 0 <= j < |ps| && EncodePairs(ps)[j] == sorted[i];
      ShownPairReads(ps[j]);
    }
    DecodedMultiset(EncodePairs(ps), sorted);
    DecodedEncoding(ps);
  }

  lemma DecodedEncoding(ps: seq<Pair>)
    ensures DecodedPairs(EncodePairs(ps)) == ps
  {
    forall i | 0 <= i < |ps| ensures DecodedPair(EncodePair(ps[i])) == ps[i] {
      ShownPairReads(ps[i]);
    }
  }

  lemma {:induction false} DecodedMultiset(a: seq<Pair>, b: seq<Pair>)
    requires multiset(a) == multiset(b)
    ensures multiset(DecodedPairs(a)) == multiset(DecodedPairs(b))
  {
    MapMultiset(a, b, DecodedPair);
    assert DecodedPairs(a) == Mapped(a, DecodedPair) && DecodedPairs(b) == Mapped(b, DecodedPair);
  }

  function Mapped(ps: seq<Pair>, f: Pair -> Pair): seq<Pair> {
    seq(|ps|, i requires 0 <= i < |ps| => f(ps[i]))
  }

  lemma MappedConcat(a: seq<Pair>, b: seq<Pair>, f: Pair -> Pair)
    ensures Mapped(a + b, f) == Mapped(a, f) + Mapped(b, f)
  {}

  lemma {:induction false} MapMultiset(a: seq<Pair>, b: seq<Pair>, f: Pair -> Pair)
    requires multiset(a) == multiset(b)
    ensures multiset(Mapped(a, f)) == multiset(Mapped(b, f))
  {
    if a == [] {
      assert |multiset(b)| == 0;
    } else {
      assert a[0] in multiset(b);
      var j :| 0 <= j < |b| && b[j] == a[0];
      TakeOut(a, 0);
      TakeOut(b, j);
      var rest := b[..j] + b[j + 1..];
      assert a[..0] + a[1..] == a[1..];
      MapMultiset(a[1..], rest, f);
      MappedTakeOut(a, 0, f);
      MappedTakeOut(b, j, f);
    }
  }

  lemma TakeOut(s: seq<Pair>, i: nat)
    requires i < |s|
    ensures multiset(s[..i] + s[i + 1..]) == multiset(s) - multiset{s[i]}
  {
    assert s == s[..i] + [s[i]] + s[i + 1..];
  }

  lemma MappedTakeOut(s: seq<Pair>, i: nat, f: Pair -> Pair)
    requires i < |s|
    ensures multiset(Mapped(s, f)) == multiset(Mapped(s[..i] + s[i + 1..], f)) + multiset{f(s[i])}
  {
    assert s == s[..i] + ([s[i]] + s[i + 1..]);
    MappedConcat(s[..i], [s[i]] + s[i + 1..], f);
    MappedConcat([s[i]], s[i + 1..], f);
    MappedConcat(s[..i], s[i + 1..], f);
    assert Mapped([s[i]], f) == [f(s[i])];
  }

  lemma EncodedMultiset(a: seq<Pair>, b: seq<Pair>)
    ensures multiset(EncodePairs(a)) == multiset(EncodePairs(b)) <==> multiset(a) == multiset(b)
  {
    if multiset(a) == multiset(b) {
      MapMultiset(a, b, EncodePair);
      assert EncodePairs(a) == Mapped(a, EncodePair) && EncodePairs(b) == Mapped(b, EncodePair);
    }
    if multiset(EncodePairs(a)) == multiset(EncodePairs(b)) {
      DecodedMultiset(EncodePairs(a), EncodePairs(b));
      DecodedEncoding(a);
      DecodedEncoding(b);
    }
  }

  // The shown query, read again, has the same pairs as a multiset.
  lemma ShownQueryReads(query: seq<Pair>)
    ensures var read := DecodePairs(NonEmpty(Split(ShownQuery(query), AMPERSAND)));
      read.Ok? && multiset(read.value) == multiset(query)
  {
    SortedEncoding(query);
    JoinedPairsRead(DecodedPairs(SortPairs(EncodePairs(query))));
  }

  lemma SameQueryShown(a: seq<Pair>, b: seq<Pair>)
    ensures ShownQuery(a) == ShownQuery(b) <==> multiset(a) == multiset(b)
  {
    EncodedMultiset(a, b);
    SameSort(EncodePairs(a), EncodePairs(b));
    ShownQueryReads(a);
    ShownQueryReads(b);
  }

  // ----- main results -----

  function Whole(p: Bytes, q: Bytes): Bytes { p + [QUESTION] + q }

  // Canonicalising a canonical request changes nothing.
  lemma CanonicalIsNormalForm(x: Bytes)
    requires CanonicalPathAndQuery(x).Ok?
    ensures var (p, q) := CanonicalPathAndQuery(x).value;
      CanonicalPathAndQuery(Whole(p, q)) == Ok((p, q))
  {
    CanonicalShowsMeaning(x);
    var (p, q) := CanonicalPathAndQuery(x).value;
    var segments, query := Segments(x).value, Query(x).value;
    ShownPathReads(segments);
    ShownPathOfResource(segments);
    ShownQueryReads(query);
    SplitOnceAt(p, QUESTION, q);
    CanonicalShowsMeaning(Whole(p, q));
    SameQueryShown(Query(Whole(p, q)).value, query);
  }

  // Two accepted requests have the same canonical form exactly when they mean the same: the same
  // decoded path, and the same decoded parameters with the same multiplicities, in any order.
  lemma CanonicalIsCompleteInvariant(x: Bytes, y: Bytes)
    requires CanonicalPathAndQuery(x).Ok? && CanonicalPathAndQuery(y).Ok?
    ensures Segments(x).Ok? && Query(x).Ok? && Segments(y).Ok? && Query(y).Ok?
    ensures CanonicalPathAndQuery(x) == CanonicalPathAndQuery(y) <==>
      Resource(Segments(x).value) == Resource(Segments(y).value) &&
      multiset(Query(x).value) == multiset(Query(y).value)
  {
    CanonicalShowsMeaning(x);
    CanonicalShowsMeaning(y);
    ShownPathReads(Segments(x).value);
    ShownPathReads(Segments(y).value);
    ShownPathOfResource(Segments(x).value);
    ShownPathOfResource(Segments(y).value);
    SameQueryShown(Query(x).value, Query(y).value);
  }

  // ----- acceptance -----

  // A separator is neither a percent sign nor part of an escape.
  lemma WellFormedAcross(a: Bytes, sep: byte, b: Bytes)
    requires sep != PERCENT && !IsHex(sep)
    ensures WellFormed(a + [sep] + b) <==> WellFormed(a) && WellFormed(b)
  {
    var s := a + [sep] + b;
    assert s[|a| + 1..] == b;
    if WellFormed(s) {
      forall i | 0 <= i < |a| && a[i] == PERCENT
        ensures i + 2 < |a| && IsHex(a[i + 1]) && IsHex(a[i + 2])
      {
        assert s[i] == PERCENT && s[|a|] == sep;
        assert IsHex(s[i + 1]) && IsHex(s[i + 2]);
        assert i + 1 != |a| && i + 2 != |a|;
        assert s[i + 1] == a[i + 1] && s[i + 2] == a[i + 2];
      }
      WellFormedTail(s, |a| + 1);
    }
    if WellFormed(a) && WellFormed(b) {
      WellFormedTail(s, |a| + 1);
    }
  }

  ghost predicate AllWellFormed(parts: seq<Bytes>) {
    forall i :: 0 <= i < |parts| ==> WellFormed(parts[i])
  }

  lemma {:induction false} JoinedWellFormed(parts: seq<Bytes>, sep: byte)
    requires parts != [] && sep != PERCENT && !IsHex(sep)
    ensures WellFormed(Join(parts, sep)) <==> AllWellFormed(parts)
  {
    if |parts| > 1 {
      WellFormedAcross(parts[0], sep, Join(parts[1..], sep));
      JoinedWellFormed(parts[1..], sep);
      assert parts == [parts[0]] + parts[1..];
      assert AllWellFormed(parts) <==> WellFormed(parts[0]) && AllWellFormed(parts[1..]);
    }
  }

  lemma {:induction false} DecodeAllAccepts(parts: seq<Bytes>)
    ensures DecodeAll(parts).Ok? <==> AllWellFormed(parts)
  {
    if parts != [] {
      DecodeAcceptsWellFormed(parts[0]);
      DecodeAllAccepts(parts[1..]);
      assert AllWellFormed(parts) <==> WellFormed(parts[0]) && AllWellFormed(parts[1..]);
    }
  }

  lemma SplitOnceWellFormed(s: Bytes, sep: byte)
    requires sep != PERCENT && !IsHex(sep)
    ensures WellFormed(s) <==> WellFormed(SplitOnce(s, sep).0) && WellFormed(SplitOnce(s, sep).1)
  {
    SplitOnceParts(s, sep);
    WellFormedAcross(SplitOnce(s, sep).0, sep, SplitOnce(s, sep).1);
  }

  lemma {:induction false} DecodePairsAccepts(parts: seq<Bytes>)
    ensures DecodePairs(NonEmpty(parts)).Ok? <==> AllWellFormed(parts)
  {
    if parts != [] {
      SplitOnceWellFormed(parts[0], EQUALS);
      DecodeAcceptsWellFormed(SplitOnce(parts[0], EQUALS).0);
      DecodeAcceptsWellFormed(SplitOnce(parts[0], EQUALS).1);
      DecodePairsAccepts(parts[1..]);
      assert AllWellFormed(parts) <==> WellFormed(parts[0]) && AllWellFormed(parts[1..]);
    }
  }

  // The canonicaliser rejects exactly the requests with a broken percent escape, wherever it is.
  lemma AcceptsExactlyWellFormed(x: Bytes)
    ensures CanonicalPathAndQuery(x).Ok? <==> WellFormed(x)
  {
    var (rawPath, rawQuery) := SplitOnce(x, QUESTION);
    CanonicalShowsMeaning(x);
    SplitOnceWellFormed(x, QUESTION);
    JoinUndoesSplit(rawPath, SLASH);
    JoinedWellFormed(Split(rawPath, SLASH), SLASH);
    DecodeAllAccepts(Split(rawPath, SLASH));
    JoinUndoesSplit(rawQuery, AMPERSAND);
    JoinedWellFormed(Split(rawQuery, AMPERSAND), AMPERSAND);
    DecodePairsAccepts(Split(rawQuery, AMPERSAND));
  }
}

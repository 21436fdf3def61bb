// Percent-encoding over bytes, as sections 2.1 and 2.3 of RFC 3986 define it: the encoder used for
// SigV4 canonical requests and the decoder that reads what clients sent.
module Percent {
  import opened Wrappers

  type byte = b: int | 0 <= b < 256
  type Bytes = seq<byte>

  const PERCENT: byte := 37

  // Letters, digits, '-', '.', '_' and '~'.
  predicate Unreserved(b: byte) {
    48 <= b <= 57 || 65 <= b <= 90 || 97 <= b <= 122 || b == 45 || b == 46 || b == 95 || b == 126
  }

  function Nibble(n: int): byte
    requires 0 <= n < 16
  {
    if n < 10 then 48 + n else 55 + n
  }

  function EncodeByte(b: byte): Bytes {
    if Unreserved(b) then [b] else [PERCENT, Nibble(b / 16), Nibble(b % 16)]
  }

  function Encode(value: Bytes): Bytes {
    if value == [] then [] else EncodeByte(value[0]) + Encode(value[1..])
  }

  // Value of a hexadecimal digit in either case.
  function Digit(b: byte): Option<int> {
    if 48 <= b <= 57 then Some(b - 48)
    else if 97 <= b <= 102 then Some(b - 87)
    else if 65 <= b <= 70 then Some(b - 55)
    else None
  }

  datatype DecodeError = InvalidPercentEncoding

  // The bytes a percent-encoded string stands for.
  function Decode(value: Bytes): Result<Bytes, DecodeError> {
    if value == [] then Ok([])
    else if value[0] != PERCENT then Prepend(value[0], Decode(value[1..]))
    else if |value| < 3 then Err(InvalidPercentEncoding)
    else
      match (Digit(value[1]), Digit(value[2]))
      case (Some(high), Some(low)) => Prepend(Joined(high, low), Decode(value[3..]))
      case _ => Err(InvalidPercentEncoding)
  }

  function Joined(high: int, low: int): byte {
    if 0 <= high < 16 && 0 <= low < 16 then high * 16 + low else 0
  }

  function Prepend(b: byte, rest: Result<Bytes, DecodeError>): Result<Bytes, DecodeError> {
    match rest
    case Ok(bytes) => Ok([b] + bytes)
    case Err(e) => Err(e)
  }

  // `percent_decode`: the scan with its index and growing buffer.
  method PercentDecode(value: Bytes) returns (r: Result<Bytes, DecodeError>)
    ensures r == Decode(value)
  {
    var decoded: Bytes := [];
    var index := 0;
    assert value[0..] == value;
    NothingDone(Decode(value));
    while index < |value|
      invariant 0 <= index <= |value|
      invariant Decode(value) == After(decoded, Decode(value[index..]))
    {
      if value[index] != PERCENT {
        Resume(decoded, value[index], Decode(value[index + 1..]));
        assert value[index..][1..] == value[index + 1..];
        decoded := decoded + [value[index]];
        index := index + 1;
        continue;
      }
      if index + 2 >= |value| {
        return Err(InvalidPercentEncoding);
      }
      match (Digit(value[index + 1]), Digit(value[index + 2])) {
        case (Some(high), Some(low)) =>
          Resume(decoded, Joined(high, low), Decode(value[index + 3..]));
          assert value[index..][3..] == value[index + 3..];
          decoded := decoded + [Joined(high, low)];
          index := index + 3;
        case _ =>
          return Err(InvalidPercentEncoding);
      }
    }
    assert value[index..] == [];
    assert decoded + [] == decoded;
    return Ok(decoded);
  }

  // Decoding continues after `done`.
  function After(done: Bytes, rest: Result<Bytes, DecodeError>): Result<Bytes, DecodeError> {
    match rest
    case Ok(bytes) => Ok(done + bytes)
    case Err(e) => Err(e)
  }

  lemma NothingDone(rest: Result<Bytes, DecodeError>)
    ensures After([], rest) == rest
  {
    if rest.Ok? {
      assert [] + rest.value == rest.value;
    }
  }

  lemma Resume(done: Bytes, b: byte, rest: Result<Bytes, DecodeError>)
    ensures After(done, Prepend(b, rest)) == After(done + [b], rest)
  {
    if rest.Ok? {
      assert done + ([b] + rest.value) == (done + [b]) + rest.value;
    }
  }

  // ----- round trip -----

  lemma NibblesRoundTrip(b: byte)
    ensures Digit(Nibble(b / 16)) == Some(b / 16) && Digit(Nibble(b % 16)) == Some(b % 16)
    ensures Joined(b / 16, b % 16) == b
  {}

  // Decoding undoes encoding, whatever follows.
  lemma DecodeEncodedByte(b: byte, rest: Bytes)
    ensures Decode(EncodeByte(b) + rest) == Prepend(b, Decode(rest))
  {
    NibblesRoundTrip(b);
    var s := EncodeByte(b) + rest;
    assert Unreserved(b) ==> s[1..] == rest;
    assert !Unreserved(b) ==> s[3..] == rest;
  }

  lemma {:induction false} DecodeUndoesEncode(value: Bytes)
    ensures Decode(Encode(value)) == Ok(value)
  {
    if value != [] {
      DecodeEncodedByte(value[0], Encode(value[1..]));
      DecodeUndoesEncode(value[1..]);
      assert [value[0]] + value[1..] == value;
    }
  }

  lemma EncodeIsInjective(a: Bytes, b: Bytes)
    requires Encode(a) == Encode(b)
    ensures a == b
  {
    DecodeUndoesEncode(a);
    DecodeUndoesEncode(b);
  }

  // ----- which strings are accepted -----

  predicate IsHex(b: byte) { Digit(b).Some? }

  // Every percent sign is followed by two hexadecimal digits.
  ghost predicate WellFormed(s: Bytes) {
    forall i :: 0 <= i < |s| && s[i] == PERCENT ==> i + 2 < |s| && IsHex(s[i + 1]) && IsHex(s[i + 2])
  }

  lemma {:induction false} DecodeAcceptsWellFormed(s: Bytes)
    ensures Decode(s).Ok? <==> WellFormed(s)
  {
    if s != [] {
      if s[0] != PERCENT {
        DecodeAcceptsWellFormed(s[1..]);
        WellFormedTail(s, 1);
      } else if |s| >= 3 && IsHex(s[1]) && IsHex(s[2]) {
        DecodeAcceptsWellFormed(s[3..]);
        WellFormedTail(s, 3);
      }
    }
  }

  lemma WellFormedTail(s: Bytes, k: nat)
    requires k <= |s|
    requires forall i :: 0 <= i < k && s[i] == PERCENT ==> i + 2 < |s| && IsHex(s[i + 1]) && IsHex(s[i + 2])
    ensures WellFormed(s) <==> WellFormed(s[k..])
  {
    if WellFormed(s[k..]) {
      forall i | 0 <= i < |s| && s[i] == PERCENT
        ensures i + 2 < |s| && IsHex(s[i + 1]) && IsHex(s[i + 2])
      {
        assert i >= k ==> s[k..][i - k] == PERCENT;
      }
    }
    if WellFormed(s) {
      forall i | 0 <= i < |s[k..]| && s[k..][i] == PERCENT
        ensures i + 2 < |s[k..]| && IsHex(s[k..][i + 1]) && IsHex(s[k..][i + 2])
      {
        assert s[k + i] == PERCENT;
      }
    }
  }

  // ----- the encoder's alphabet -----

  // Encoded text holds unreserved characters and percent signs only: none of the separators.
  lemma {:induction false} EncodedAlphabet(value: Bytes)
    ensures forall i :: 0 <= i < |Encode(value)| ==> Unreserved(Encode(value)[i]) || Encode(value)[i] == PERCENT
  {
    if value != [] {
      EncodedAlphabet(value[1..]);
    }
  }

  predicate UpperHex(b: byte) { 48 <= b <= 57 || 65 <= b <= 70 }

  // The normal form of sections 6.2.2.1 and 6.2.2.2 of RFC 3986, with everything but unreserved
  // characters escaped: upper-case escapes, and none of an unreserved character.
  ghost predicate Normalized(s: Bytes) {
    forall i :: 0 <= i < |s| ==> Unreserved(s[i]) || EscapeAt(s, i)
  }

  predicate EscapeAt(s: Bytes, i: nat) {
    && i + 2 < |s| && s[i] == PERCENT && UpperHex(s[i + 1]) && UpperHex(s[i + 2])
    && !Unreserved(Joined(Digit(s[i + 1]).value, Digit(s[i + 2]).value))
  }

  lemma NormalizedTail(s: Bytes, k: nat)
    requires k <= |s|
    requires forall i :: 0 <= i < k ==> Unreserved(s[i]) || EscapeAt(s, i)
    ensures Normalized(s) <==> Normalized(s[k..])
  {
    if Normalized(s) {
      forall i | 0 <= i < |s[k..]| ensures Unreserved(s[k..][i]) || EscapeAt(s[k..], i) {
        assert Unreserved(s[k + i]) || EscapeAt(s, k + i);
      }
    }
    if Normalized(s[k..]) {
      forall i | 0 <= i < |s| ensures Unreserved(s[i]) || EscapeAt(s, i) {
        if i >= k {
          assert Unreserved(s[k..][i - k]) || EscapeAt(s[k..], i - k);
        }
      }
    }
  }

  lemma EscapeRoundTrip(high: byte, low: byte)
    requires UpperHex(high) && UpperHex(low)
    ensures var b := Joined(Digit(high).value, Digit(low).value); Nibble(b / 16) == high && Nibble(b % 16) == low
  {}

  // Decoding and encoding again leaves exactly the normalised strings alone.
  lemma {:induction false} NormalizedExactly(s: Bytes)
    ensures Normalized(s) <==> Decode(s).Ok? && Encode(Decode(s).value) == s
  {
    if s != [] {
      if s[0] != PERCENT {
        FixedHead(s, s[0], 1);
        if Unreserved(s[0]) {
          NormalizedExactly(s[1..]);
          NormalizedTail(s, 1);
        } else {
          assert !EscapeAt(s, 0);
        }
      } else if |s| >= 3 && IsHex(s[1]) && IsHex(s[2]) {
        var b := Joined(Digit(s[1]).value, Digit(s[2]).value);
        FixedHead(s, b, 3);
        if EscapeAt(s, 0) {
          EscapeRoundTrip(s[1], s[2]);
          assert s[..3] == EncodeByte(b);
          NormalizedExactly(s[3..]);
          NormalizedTail(s, 3);
        }
      } else {
        assert !EscapeAt(s, 0);
      }
    }
  }

  // When the first `k` characters of `s` decode to `b`.
  lemma FixedHead(s: Bytes, b: byte, k: nat)
    requires 0 < k <= |s| && Decode(s) == Prepend(b, Decode(s[k..]))
    ensures Decode(s).Ok? && Encode(Decode(s).value) == s ==> EncodeByte(b) <= s
    ensures |EncodeByte(b)| == k && EncodeByte(b) == s[..k] ==>
      (Decode(s).Ok? && Encode(Decode(s).value) == s <==> Decode(s[k..]).Ok? && Encode(Decode(s[k..]).value) == s[k..])
  {
    if Decode(s[k..]).Ok? {
      var rest := Decode(s[k..]).value;
      assert ([b] + rest)[1..] == rest;
      assert Encode([b] + rest) == EncodeByte(b) + Encode(rest);
      assert s == s[..k] + s[k..];
    }
  }

  lemma EncodeKeepsEmptiness(value: Bytes)
    ensures Encode(value) == [] <==> value == []
  {}
}

/** Base16 (section 8 of RFC 4648), printed in lower case and read in either case, and the fixed-size
    hex fields of attestation/src/tcb_info.rs. A string is the sequence of its UTF-8 bytes. */
module Hex {
  import opened Common

  type Text = seq<byte>

  datatype HexError = OddLength | InvalidCharacter(c: byte, index: nat)

  function DigitValue(c: byte): Option<nat> {
    if 48 <= c <= 57 then Some(c - 48)
    else if 97 <= c <= 102 then Some(c - 97 + 10)
    else if 65 <= c <= 70 then Some(c - 65 + 10)
    else None
  }

  function Digit(n: nat): byte
    requires n < 16
  {
    if n < 10 then 48 + n else 97 + n - 10
  }

  function LowerChar(c: byte): byte { if 65 <= c <= 90 then c + 32 else c }

  function Lower(s: Text): (r: Text)
    ensures |r| == |s| && forall i :: 0 <= i < |s| ==> r[i] == LowerChar(s[i])
  {
    seq(|s|, i requires 0 <= i < |s| => LowerChar(s[i]))
  }

  predicate AllHex(s: Text) { forall i :: 0 <= i < |s| ==> DigitValue(s[i]).Some? }

  function Encode(b: seq<byte>): (s: Text)
    ensures |s| == 2 * |b|
  {
    if b == [] then [] else [Digit(b[0] / 16), Digit(b[0] % 16)] + Encode(b[1..])
  }

  /** Decodes pairs of digits; `at` is the position of the first one, for the error. */
  function DecodePairs(s: Text, at: nat): Result<seq<byte>, HexError>
    requires |s| % 2 == 0
  {
    if s == [] then Ok([])
    else
      var hi, lo := DigitValue(s[0]), DigitValue(s[1]);
      if hi.None? then Err(InvalidCharacter(s[0], at))
      else if lo.None? then Err(InvalidCharacter(s[1], at + 1))
      else
        var rest :- DecodePairs(s[2..], at + 2);
        Ok([16 * hi.value + lo.value] + rest)
  }

  function Decode(s: Text): Result<seq<byte>, HexError> {
    if |s| % 2 != 0 then Err(OddLength) else DecodePairs(s, 0)
  }

  // ---------- round trips ----------

  lemma DigitRoundTrip(n: nat)
    requires n < 16
    ensures DigitValue(Digit(n)) == Some(n)
  {
  }

  lemma {:induction false} DecodePairsOfEncode(b: seq<byte>, at: nat)
    ensures DecodePairs(Encode(b), at) == Ok(b)
  {
    if b != [] {
      var s := Encode(b);
      assert s[2..] == Encode(b[1..]);
      DecodePairsOfEncode(b[1..], at + 2);
      DigitRoundTrip(b[0] / 16);
      DigitRoundTrip(b[0] % 16);
      assert [b[0]] + b[1..] == b;
    }
  }

  /** Printing and reading back is the identity. */
  lemma {:induction false} DecodeOfEncode(b: seq<byte>)
    ensures Decode(Encode(b)) == Ok(b)
  {
    DecodePairsOfEncode(b, 0);
  }

  /** Reading succeeds exactly on hex digits, and printing the result only changes letter case. */
  lemma {:induction false} DecodePairsIff(s: Text, at: nat)
    requires |s| % 2 == 0
    ensures DecodePairs(s, at).Ok? <==> AllHex(s)
    ensures DecodePairs(s, at).Ok? ==> Encode(DecodePairs(s, at).value) == Lower(s)
  {
    if s != [] {
      DecodePairsIff(s[2..], at + 2);
      AllHexPair(s);
      if DecodePairs(s, at).Ok? {
        var b := DecodePairs(s, at).value;
        assert b[1..] == DecodePairs(s[2..], at + 2).value;
        DigitIsLower(s[0], s[1], b[0]);
        LowerPair(s);
      }
    } else {
      assert Lower(s) == [];
    }
  }

  lemma AllHexPair(s: Text)
    requires |s| >= 2
    ensures AllHex(s) <==> DigitValue(s[0]).Some? && DigitValue(s[1]).Some? && AllHex(s[2..])
  {
  }

  lemma LowerPair(s: Text)
    requires |s| >= 2
    ensures Lower(s) == [LowerChar(s[0]), LowerChar(s[1])] + Lower(s[2..])
  {
  }

  lemma DigitIsLower(c: byte, d: byte, b: byte)
    requires DigitValue(c).Some? && DigitValue(d).Some? && b == 16 * DigitValue(c).value + DigitValue(d).value
    ensures Digit(b / 16) == LowerChar(c) && Digit(b % 16) == LowerChar(d)
  {
  }

  lemma {:induction false} DecodeIff(s: Text)
    ensures Decode(s).Ok? <==> |s| % 2 == 0 && AllHex(s)
    ensures Decode(s).Ok? ==> Encode(Decode(s).value) == Lower(s) && 2 * |Decode(s).value| == |s|
  {
    if |s| % 2 == 0 {
      DecodePairsIff(s, 0);
    }
  }

  /** The reported character is the first one that is no digit. */
  lemma {:induction false} FirstBadCharacter(s: Text, at: nat)
    requires |s| % 2 == 0 && DecodePairs(s, at).Err?
    ensures var e := DecodePairs(s, at).error;
            && e.InvalidCharacter? && at <= e.index < at + |s| && e.c == s[e.index - at] && DigitValue(e.c).None?
            && AllHex(s[..e.index - at])
  {
    if DigitValue(s[0]).Some? && DigitValue(s[1]).Some? {
      FirstBadCharacter(s[2..], at + 2);
      var k := DecodePairs(s, at).error.index - at;
      forall i | 0 <= i < k ensures DigitValue(s[..k][i]).Some? {
        if i >= 2 { assert s[..k][i] == s[2..][..k - 2][i - 2]; }
      }
    }
  }

  /** Two readable strings read the same exactly when they differ at most in letter case. */
  lemma {:induction false} SameBytesIff(s: Text, t: Text)
    requires Decode(s).Ok? && Decode(t).Ok?
    ensures Decode(s) == Decode(t) <==> Lower(s) == Lower(t)
  {
    DecodeIff(s);
    DecodeIff(t);
    DecodeOfEncode(Decode(s).value);
    DecodeOfEncode(Decode(t).value);
  }

  // ---------- fixed-size fields ----------

  datatype ParsingError = WrongLength(length: nat) | UnexpectedHexCharacter(c: byte, index: nat)

  function ParseHexBytes(n: nat, s: Text): Result<seq<byte>, ParsingError> {
    if |s| != 2 * n then Err(WrongLength(|s|))
    else
      match Decode(s)
      case Ok(b) => if |b| == n then Ok(b) else Err(WrongLength(|s|))
      case Err(InvalidCharacter(c, i)) => Err(UnexpectedHexCharacter(c, i))
      case Err(OddLength) => Err(WrongLength(|s|))
  }

  /** A field is read back as written; what can be read has the right length and only hex digits; and
      writing it again only changes letter case. */
  lemma {:induction false} HexBytesRoundTrip(n: nat, s: Text, b: seq<byte>)
    requires |b| == n
    ensures ParseHexBytes(n, Encode(b)) == Ok(b)
    ensures ParseHexBytes(n, s).Ok? <==> |s| == 2 * n && AllHex(s)
    ensures ParseHexBytes(n, s).Ok? ==>
            |ParseHexBytes(n, s).value| == n && Encode(ParseHexBytes(n, s).value) == Lower(s)
  {
    DecodeOfEncode(b);
    DecodeIff(s);
  }

  /** A field that may be left out; written as the empty string then. */
  function PrintOrEmpty(b: Option<seq<byte>>): Text {
    match b
    case Some(x) => Encode(x)
    case None => []
  }
}

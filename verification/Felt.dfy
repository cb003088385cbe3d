/** Starknet field elements written as hex with leading zeros left out
    (foreign-chain-rpc-interfaces/src/starknet.rs, `parse_felt`). */
module Felt {
  import opened Common
  import opened Hex

  const ZERO: byte := 48
  const LETTER_X: byte := 120
  const WIDTH: nat := 64

  datatype FeltError = TooLong | NotHex

  function StripPrefix(s: Text): Text {
    if |s| >= 2 && s[0] == ZERO && s[1] == LETTER_X then s[2..] else s
  }

  function Zeros(n: nat): (r: Text)
    ensures |r| == n && forall i :: 0 <= i < n ==> r[i] == ZERO
  {
    seq(n, _ => ZERO)
  }

  function ParseFelt(s: Text): Result<seq<byte>, FeltError> {
    var stripped := StripPrefix(s);
    if |stripped| > WIDTH then Err(TooLong)
    else
      match Decode(Zeros(WIDTH - |stripped|) + stripped)
      case Ok(b) => Ok(b)
      case Err(_) => Err(NotHex)
  }

  // ---------- the number a string stands for ----------

  /** Big-endian value of hex digits. */
  function HexNumber(s: Text): nat
    requires AllHex(s)
  {
    if s == [] then 0 else 16 * HexNumber(s[..|s| - 1]) + DigitValue(s[|s| - 1]).value
  }

  /** Big-endian value of bytes. */
  function BytesNumber(b: seq<byte>): nat {
    if b == [] then 0 else 256 * BytesNumber(b[..|b| - 1]) + b[|b| - 1]
  }

  lemma {:induction false} PaddingKeepsNumber(n: nat, s: Text)
    requires AllHex(s)
    ensures AllHex(Zeros(n) + s) && HexNumber(Zeros(n) + s) == HexNumber(s)
    decreases n + |s|
  {
    var p := Zeros(n) + s;
    forall i | 0 <= i < |p| ensures DigitValue(p[i]).Some? { if i >= n { assert p[i] == s[i - n]; } }
    if s != [] {
      assert p[..|p| - 1] == Zeros(n) + s[..|s| - 1];
      PaddingKeepsNumber(n, s[..|s| - 1]);
    } else if n > 0 {
      assert p[..n - 1] == Zeros(n - 1) + s;
      PaddingKeepsNumber(n - 1, s);
    }
  }

  lemma {:induction false} DecodeAppend(s: Text, c: byte, d: byte, at: nat)
    requires |s| % 2 == 0 && AllHex(s) && DigitValue(c).Some? && DigitValue(d).Some?
    ensures DecodePairs(s, at).Ok?
    ensures DecodePairs(s + [c, d], at) ==
            Ok(DecodePairs(s, at).value + [16 * DigitValue(c).value + DigitValue(d).value])
  {
    var t := s + [c, d];
    if s != [] {
      AllHexPair(s);
      assert t[2..] == s[2..] + [c, d];
      DecodeAppend(s[2..], c, d, at + 2);
      var first, rest := 16 * DigitValue(s[0]).value + DigitValue(s[1]).value, DecodePairs(s[2..], at + 2).value;
      var last := 16 * DigitValue(c).value + DigitValue(d).value;
      assert t[0] == s[0] && t[1] == s[1];
      assert [first] + (rest + [last]) == ([first] + rest) + [last];
    } else {
      assert t == [c, d] && t[2..] == [];
      assert DecodePairs(t[2..], at + 2) == Ok([]);
      assert DecodePairs(s, at).value + [16 * DigitValue(c).value + DigitValue(d).value] ==
        [16 * DigitValue(c).value + DigitValue(d).value] + [];
    }
  }

  /** Decoding keeps the number. */
  lemma {:induction false} DecodeKeepsNumber(s: Text)
    requires |s| % 2 == 0 && AllHex(s)
    ensures DecodePairs(s, 0).Ok? && BytesNumber(DecodePairs(s, 0).value) == HexNumber(s)
    decreases |s|
  {
    if s != [] {
      var rest, c, d := LastPair(s);
      DecodeKeepsNumber(rest);
      DecodeAppend(rest, c, d, 0);
      BytesAppend(DecodePairs(rest, 0).value, 16 * DigitValue(c).value + DigitValue(d).value);
      HexAppend(rest, c, d);
    }
  }

  lemma LastPair(s: Text) returns (rest: Text, c: byte, d: byte)
    requires |s| % 2 == 0 && AllHex(s) && s != []
    ensures s == rest + [c, d] && |rest| % 2 == 0 && AllHex(rest) && DigitValue(c).Some? && DigitValue(d).Some?
  {
    rest, c, d := s[..|s| - 2], s[|s| - 2], s[|s| - 1];
  }

  lemma BytesAppend(b: seq<byte>, last: byte)
    ensures BytesNumber(b + [last]) == 256 * BytesNumber(b) + last
  {
    assert (b + [last])[..|b|] == b;
  }

  lemma HexAppend(s: Text, c: byte, d: byte)
    requires AllHex(s) && DigitValue(c).Some? && DigitValue(d).Some?
    ensures HexNumber(s + [c, d]) == 256 * HexNumber(s) + 16 * DigitValue(c).value + DigitValue(d).value
  {
    var longer := s + [c, d];
    assert longer[..|s| + 1] == s + [c] && (s + [c])[..|s|] == s;
  }

  /** A string is accepted exactly when, without its prefix, it is at most 64 hex digits; the 32 bytes
      then stand for the same number. */
  lemma ParsedNumber(s: Text)
    ensures var d := StripPrefix(s);
            ParseFelt(s).Ok? <==> |d| <= WIDTH && AllHex(d)
    ensures ParseFelt(s).Ok? ==>
            |ParseFelt(s).value| == 32 && BytesNumber(ParseFelt(s).value) == HexNumber(StripPrefix(s))
  {
    var d := StripPrefix(s);
    if |d| <= WIDTH {
      var p := Zeros(WIDTH - |d|) + d;
      DecodeIff(p);
      if AllHex(d) {
        PaddingKeepsNumber(WIDTH - |d|, d);
        DecodeKeepsNumber(p);
      } else {
        var i :| 0 <= i < |d| && DigitValue(d[i]).None?;
        assert p[WIDTH - |d| + i] == d[i];
      }
    }
  }

  // ---------- when two strings mean the same element ----------

  /** Lower case, without leading zeros. */
  function Canonical(s: Text): Text {
    if s != [] && s[0] == ZERO then Canonical(s[1..]) else Lower(s)
  }

  lemma {:induction false} PaddingKeepsCanonical(n: nat, s: Text)
    ensures Canonical(Zeros(n) + s) == Canonical(s)
  {
    if n == 0 {
      assert Zeros(n) + s == s;
    } else {
      assert (Zeros(n) + s)[1..] == Zeros(n - 1) + s;
      PaddingKeepsCanonical(n - 1, s);
    }
  }

  lemma {:induction false} CanonicalOfLower(s: Text)
    ensures Canonical(Lower(s)) == Canonical(s)
  {
    if s != [] && s[0] == ZERO {
      assert Lower(s)[1..] == Lower(s[1..]);
      CanonicalOfLower(s[1..]);
    } else {
      assert Lower(Lower(s)) == Lower(s);
    }
  }

  lemma {:induction false} CanonicalDetermines(s: Text, t: Text)
    requires |s| == |t| && Canonical(s) == Canonical(t)
    ensures Lower(s) == Lower(t)
  {
    CanonicalLength(s);
    CanonicalLength(t);
    if s != [] && s[0] == ZERO && t[0] == ZERO {
      CanonicalDetermines(s[1..], t[1..]);
      assert Lower(s) == [ZERO] + Lower(s[1..]) && Lower(t) == [ZERO] + Lower(t[1..]);
    }
  }

  lemma {:induction false} CanonicalLength(s: Text)
    ensures |Canonical(s)| <= |s| && (s != [] && s[0] == ZERO ==> |Canonical(s)| < |s|)
  {
    if s != [] && s[0] == ZERO {
      CanonicalLength(s[1..]);
    }
  }

  /** Two accepted strings are the same element exactly when they stand for the same number, that is,
      when they differ only in prefix, letter case and leading zeros. */
  lemma SameFeltIff(s: Text, t: Text)
    requires ParseFelt(s).Ok? && ParseFelt(t).Ok?
    ensures ParseFelt(s) == ParseFelt(t) <==> Canonical(StripPrefix(s)) == Canonical(StripPrefix(t))
    ensures ParseFelt(s) == ParseFelt(t) <==> NumberOf(StripPrefix(s)) == NumberOf(StripPrefix(t))
  {
    var d, e := StripPrefix(s), StripPrefix(t);
    var p, q := Zeros(WIDTH - |d|) + d, Zeros(WIDTH - |e|) + e;
    ParsedNumber(s);
    ParsedNumber(t);
    SameBytesIff(p, q);
    PaddingKeepsCanonical(WIDTH - |d|, d);
    PaddingKeepsCanonical(WIDTH - |e|, e);
    if Lower(p) == Lower(q) {
      CanonicalOfLower(p);
      CanonicalOfLower(q);
    }
    if Canonical(p) == Canonical(q) {
      CanonicalDetermines(p, q);
    }
    if BytesNumber(ParseFelt(s).value) == BytesNumber(ParseFelt(t).value) {
      NumberDetermines(ParseFelt(s).value, ParseFelt(t).value);
    }
  }

  ghost function NumberOf(s: Text): Option<nat> { if AllHex(s) then Some(HexNumber(s)) else None }

  lemma {:induction false} NumberDetermines(a: seq<byte>, b: seq<byte>)
    requires |a| == |b| && BytesNumber(a) == BytesNumber(b)
    ensures a == b
  {
    if a != [] {
      var n := |a| - 1;
      assert BytesNumber(a) % 256 == a[n] && BytesNumber(b) % 256 == b[n];
      NumberDetermines(a[..n], b[..n]);
      assert a == a[..n] + [a[n]] && b == b[..n] + [b[n]];
    }
  }
}

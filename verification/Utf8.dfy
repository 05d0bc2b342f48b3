/** UTF-8 as `str.encode()` and `bytes.decode(errors="replace")` compute it: section 3 of RFC 3629, with every
    maximal ill-formed subpart replaced by one U+FFFD (section 3.9 of the Unicode Standard). A Dafny `char` is a
    Unicode scalar value, so lone surrogates do not arise. */
module Utf8 {
  import opened Prelude

  type byte = x: int | 0 <= x < 256
  type Bytes = seq<byte>

  const REPLACEMENT: char := '\U{FFFD}'

  function EncodeChar(c: char): (bs: Bytes)
    ensures 1 <= |bs| <= 4
    ensures |bs| == Width(c)
  {
    var n := c as int;
    if n < 0x80 then [n]
    else if n < 0x800 then [0xC0 + n / 64, 0x80 + n % 64]
    else if n < 0x10000 then [0xE0 + n / 4096, 0x80 + n / 64 % 64, 0x80 + n % 64]
    else [0xF0 + n / 262144, 0x80 + n / 4096 % 64, 0x80 + n / 64 % 64, 0x80 + n % 64]
  }

  function Width(c: char): nat {
    var n := c as int;
    if n < 0x80 then 1 else if n < 0x800 then 2 else if n < 0x10000 then 3 else 4
  }

  function Encode(s: string): Bytes {
    if s == [] then [] else EncodeChar(s[0]) + Encode(s[1..])
  }

  /** Length of the sequence a lead byte announces; 0 for a byte that cannot lead one. */
  function Need(lead: byte): nat {
    if lead < 0x80 then 1
    else if 0xC2 <= lead < 0xE0 then 2
    else if 0xE0 <= lead < 0xF0 then 3
    else if 0xF0 <= lead < 0xF5 then 4
    else 0
  }

  predicate IsContinuation(b: byte) {
    0x80 <= b < 0xC0
  }

  /** The second byte is restricted after E0, ED, F0 and F4 (no overlong forms, no surrogates, no value above
      10FFFF). */
  predicate SecondOk(lead: byte, b: byte) {
    && IsContinuation(b)
    && (lead == 0xE0 ==> 0xA0 <= b)
    && (lead == 0xED ==> b < 0xA0)
    && (lead == 0xF0 ==> 0x90 <= b)
    && (lead == 0xF4 ==> b < 0x90)
  }

  /** How many of the leading bytes belong to one well-formed sequence or to one prefix of such a sequence. */
  function Subpart(bs: Bytes): (k: nat)
    requires bs != []
    ensures 1 <= k <= |bs|
  {
    var need := Need(bs[0]);
    if need <= 1 || |bs| < 2 || !SecondOk(bs[0], bs[1]) then 1
    else if need == 2 || |bs| < 3 || !IsContinuation(bs[2]) then 2
    else if need == 3 || |bs| < 4 || !IsContinuation(bs[3]) then 3
    else 4
  }

  function Scalar(bs: Bytes): (n: int)
    requires bs != [] && Subpart(bs) == Need(bs[0])
    ensures 0 <= n < 0xD800 || 0xE000 <= n < 0x110000
  {
    var b := seq(|bs|, i requires 0 <= i < |bs| => bs[i] as int);
    match Need(bs[0])
    case 1 => b[0]
    case 2 => 64 * (b[0] - 0xC0) + (b[1] - 0x80)
    case 3 => 4096 * (b[0] - 0xE0) + 64 * (b[1] - 0x80) + (b[2] - 0x80)
    case _ => 262144 * (b[0] - 0xF0) + 4096 * (b[1] - 0x80) + 64 * (b[2] - 0x80) + (b[3] - 0x80)
  }

  function FirstChar(bs: Bytes): char
    requires bs != []
  {
    if Subpart(bs) == Need(bs[0]) then Scalar(bs) as char else REPLACEMENT
  }

  /** `bs.decode(errors="replace")` */
  function Decode(bs: Bytes): string {
    if bs == [] then "" else [FirstChar(bs)] + Decode(bs[Subpart(bs)..])
  }

  lemma Digits(n: int)
    ensures n == n / 4096 * 4096 + n / 64 % 64 * 64 + n % 64
    ensures n == n / 262144 * 262144 + n / 4096 % 64 * 4096 + n / 64 % 64 * 64 + n % 64
  {
  }

  /** An encoded character is one complete subpart: its continuation bytes pass every check the decoder makes. */
  lemma SubpartOfEncoded(c: char, rest: Bytes)
    ensures var bs := EncodeChar(c) + rest;
            Subpart(bs) == Need(bs[0]) == Width(c)
  {
    var bs := EncodeChar(c) + rest;
    assert forall i :: 0 <= i < Width(c) ==> bs[i] == EncodeChar(c)[i];
  }

  lemma FirstOfEncoded(c: char, rest: Bytes)
    ensures var bs := EncodeChar(c) + rest;
            Subpart(bs) == Need(bs[0]) == Width(c) && FirstChar(bs) == c
  {
    var bs := EncodeChar(c) + rest;
    SubpartOfEncoded(c, rest);
    assert forall i :: 0 <= i < Width(c) ==> bs[i] == EncodeChar(c)[i];
    Digits(c as int);
    hide Subpart;
    assert Scalar(bs) == c as int;
  }

  /** A character cut short decodes to exactly one U+FFFD. */
  lemma DecodeCutChar(c: char, k: nat)
    requires 0 < k < Width(c)
    ensures Decode(EncodeChar(c)[..k]) == [REPLACEMENT]
  {
    var bs := EncodeChar(c)[..k];
    FirstOfEncoded(c, []);
    assert EncodeChar(c) + [] == EncodeChar(c);
    assert forall i :: 0 <= i < k ==> bs[i] == EncodeChar(c)[i];
    assert Subpart(bs) == k;
    assert bs[k..] == [];
  }

  lemma DecodeCons(c: char, rest: Bytes)
    ensures Decode(EncodeChar(c) + rest) == [c] + Decode(rest)
  {
    FirstOfEncoded(c, rest);
    assert (EncodeChar(c) + rest)[Width(c)..] == rest;
  }

  lemma {:induction false} EncodeAppend(s: string, t: string)
    ensures Encode(s + t) == Encode(s) + Encode(t)
  {
    if s == [] {
      assert s + t == t;
    } else {
      assert (s + t)[1..] == s[1..] + t;
      EncodeAppend(s[1..], t);
    }
  }

  /** Whole characters decode to themselves, whatever follows them. */
  lemma {:induction false} DecodeEncodedPrefix(s: string, rest: Bytes)
    ensures Decode(Encode(s) + rest) == s + Decode(rest)
  {
    hide EncodeChar, FirstChar, Subpart;
    if s == [] {
      assert Encode(s) + rest == rest;
    } else {
      assert Encode(s) + rest == EncodeChar(s[0]) + (Encode(s[1..]) + rest);
      DecodeCons(s[0], Encode(s[1..]) + rest);
      DecodeEncodedPrefix(s[1..], rest);
    }
  }

  lemma DecodeEncode(s: string)
    ensures Decode(Encode(s)) == s
  {
    DecodeEncodedPrefix(s, []);
    assert Encode(s) + [] == Encode(s);
    assert s + [] == s;
  }

  /** How many whole characters of `s` fit in `n` bytes. */
  function FittingChars(s: string, n: nat): (k: nat)
    ensures k <= |s|
    ensures |Encode(s[..k])| <= n
    ensures k < |s| ==> n < |Encode(s[..k])| + Width(s[k])
  {
    if s == [] || n < Width(s[0]) then 0
    else
      var k := FittingChars(s[1..], n - Width(s[0]));
      assert s[..k + 1] == [s[0]] + s[1..][..k];
      assert s[..k + 1][1..] == s[1..][..k];
      k + 1
  }

  /** `s.encode()[:n].decode(errors="replace")`: as many whole characters as fit, then one U+FFFD for the cut one. */
  function Truncated(s: string, n: nat): string {
    Decode(Encode(s)[..Min(n, |Encode(s)|)])
  }

  lemma TruncatedShape(s: string, n: nat)
    ensures |Encode(s)| <= n ==> Truncated(s, n) == s
    ensures n < |Encode(s)| ==>
              var k := FittingChars(s, n);
              k < |s| && Truncated(s, n) == s[..k] + (if |Encode(s[..k])| == n then [] else [REPLACEMENT])
  {
    hide EncodeChar, FirstChar, Subpart;
    if |Encode(s)| <= n {
      assert Encode(s)[..|Encode(s)|] == Encode(s);
      DecodeEncode(s);
    } else {
      var k := FittingChars(s, n);
      assert s[..|s|] == s;
      var whole := Encode(s[..k]);
      assert s == s[..k] + ([s[k]] + s[k + 1..]);
      EncodeAppend(s[..k], [s[k]] + s[k + 1..]);
      assert ([s[k]] + s[k + 1..])[1..] == s[k + 1..];
      assert Encode([s[k]] + s[k + 1..]) == EncodeChar(s[k]) + Encode(s[k + 1..]);
      var cut := n - |whole|;
      assert Encode(s)[..n] == whole + EncodeChar(s[k])[..cut];
      DecodeEncodedPrefix(s[..k], EncodeChar(s[k])[..cut]);
      if cut == 0 {
        assert EncodeChar(s[k])[..cut] == [];
        assert s[..k] + "" == s[..k];
      } else {
        DecodeCutChar(s[k], cut);
      }
    }
  }

  /** The text kept from an overflowing message never encodes to fewer than `n` bytes, nor to more than `n + 2`. */
  lemma TruncatedBytes(s: string, n: nat)
    requires n < |Encode(s)|
    ensures n <= |Encode(Truncated(s, n))| <= n + 2
  {
    TruncatedShape(s, n);
    var k := FittingChars(s, n);
    if |Encode(s[..k])| == n {
      assert s[..k] + [] == s[..k];
    } else {
      EncodeAppend(s[..k], [REPLACEMENT]);
      assert Encode([REPLACEMENT]) == EncodeChar(REPLACEMENT) + Encode([]);
      assert Width(REPLACEMENT) == 3;
    }
  }
}

/** UTF-8 byte sequences as section 4 of RFC 3629 defines them, and where they may be cut. */
module Utf8 {
  import opened Text

  predicate Within(b: byte, low: byte, high: byte) { low <= b <= high }

  predicate Tail(b: byte) { Within(b, 0x80, 0xBF) }

  /** `utf8.RuneStart`. */
  predicate RuneStart(b: byte) { !Tail(b) }

  /** Whether the second byte may follow the first in a sequence of three or four bytes. */
  predicate SecondOk(a: byte, b: byte) {
    if a == 0xE0 then Within(b, 0xA0, 0xBF)
    else if a == 0xED then Within(b, 0x80, 0x9F)
    else if a == 0xF0 then Within(b, 0x90, 0xBF)
    else if a == 0xF4 then Within(b, 0x80, 0x8F)
    else Tail(b)
  }

  /** The length a leading byte announces; 0 if it cannot lead. */
  function Announced(a: byte): nat {
    if a <= 0x7F then 1
    else if Within(a, 0xC2, 0xDF) then 2
    else if Within(a, 0xE0, 0xEF) then 3
    else if Within(a, 0xF0, 0xF4) then 4
    else 0
  }

  /** The length of the code point the bytes start with; 0 if they start with none. */
  function RuneLength(s: seq<byte>): (n: nat)
    ensures n <= |s| && n <= 4
    ensures forall i :: 0 < i < n ==> Tail(s[i])
    ensures n > 0 ==> RuneStart(s[0])
  {
    if s == [] then 0 else
      var n := Announced(s[0]);
      if n > |s| || (n >= 2 && !SecondOk(s[0], s[1])) || (n >= 3 && !Tail(s[2])) || (n >= 4 && !Tail(s[3])) then 0
      else n
  }

  /** `utf8.DecodeRuneInString`: the size of the first code point; one byte if there is none. */
  function DecodeSize(s: seq<byte>): nat {
    if s == [] then 0 else if RuneLength(s) == 0 then 1 else RuneLength(s)
  }

  predicate ValidUtf8(s: seq<byte>)
    decreases |s|
  {
    s == [] || (RuneLength(s) > 0 && ValidUtf8(s[RuneLength(s)..]))
  }

  lemma SameRune(s: seq<byte>, t: seq<byte>)
    requires RuneLength(s) > 0 && |t| >= RuneLength(s) && t[..RuneLength(s)] == s[..RuneLength(s)]
    ensures RuneLength(t) == RuneLength(s)
  {}

  /** Valid text may be cut in front of any byte that starts a rune. */
  lemma {:induction false} CutAtStart(s: seq<byte>, k: nat)
    requires ValidUtf8(s) && (k == |s| || (k < |s| && RuneStart(s[k])))
    ensures ValidUtf8(s[..k]) && ValidUtf8(s[k..])
    decreases |s|
  {
    hide RuneLength;
    if k == 0 {
      assert s[0..] == s;
    } else if k == |s| {
      assert s[..k] == s;
    } else {
      var n := RuneLength(s);
      assert k >= n;
      var rest := s[n..];
      assert k < |s| ==> rest[k - n] == s[k];
      CutAtStart(rest, k - n);
      SameRune(s, s[..k]);
      assert s[..k][n..] == rest[..k - n] && s[k..] == rest[k - n..];
    }
  }

  lemma {:induction false} ValidConcat(s: seq<byte>, t: seq<byte>)
    requires ValidUtf8(s) && ValidUtf8(t)
    ensures ValidUtf8(s + t)
    decreases |s|
  {
    hide RuneLength;
    if s == [] {
      assert s + t == t;
    } else {
      var n := RuneLength(s);
      ValidConcat(s[n..], t);
      SameRune(s, s + t);
      assert (s + t)[n..] == s[n..] + t;
    }
  }

  // ---- the encoding of section 3 -------------------------------------------------

  /** A code point that may be encoded: not beyond 10FFFF and not a surrogate. */
  predicate Scalar(c: int) { 0 <= c <= 0x10FFFF && !(0xD800 <= c <= 0xDFFF) }

  function Encode(c: int): seq<byte>
    requires Scalar(c)
  {
    if c < 0x80 then [c as byte]
    else if c < 0x800 then [(0xC0 + c / 64) as byte, (0x80 + c % 64) as byte]
    else if c < 0x10000 then [(0xE0 + c / 4096) as byte, (0x80 + c / 64 % 64) as byte, (0x80 + c % 64) as byte]
    else [(0xF0 + c / 262144) as byte, (0x80 + c / 4096 % 64) as byte, (0x80 + c / 64 % 64) as byte, (0x80 + c % 64) as byte]
  }

  /** Every encoded code point is recognised, with its length, whatever follows. */
  lemma EncodedIsRune(c: int, rest: seq<byte>)
    requires Scalar(c)
    ensures RuneLength(Encode(c) + rest) == |Encode(c)|
  {
    EncodeLeads(c);
    var e := Encode(c);
    hide Encode;
    assert e[..|e|] == e && (e + rest)[..|e|] == e;
    SameRune(e, e + rest);
  }

  lemma EncodeLeads(c: int)
    requires Scalar(c)
    ensures RuneLength(Encode(c)) == |Encode(c)| > 0
  {}

  lemma TwoBytes(a: int, b: int)
    requires 0xC2 <= a <= 0xDF && 0x80 <= b <= 0xBF
    ensures var c := (a - 0xC0) * 64 + (b - 0x80); Scalar(c) && Encode(c) == [a as byte, b as byte]
  {}

  lemma ThreeBytes(a: int, b: int, d: int)
    requires 0xE0 <= a <= 0xEF && 0x80 <= b <= 0xBF && 0x80 <= d <= 0xBF && SecondOk(a as byte, b as byte)
    ensures var c := (a - 0xE0) * 4096 + (b - 0x80) * 64 + (d - 0x80); Scalar(c) && Encode(c) == [a as byte, b as byte, d as byte]
  {
    var c := (a - 0xE0) * 4096 + (b - 0x80) * 64 + (d - 0x80);
    assert c / 64 == (a - 0xE0) * 64 + (b - 0x80) && c % 64 == d - 0x80;
    assert c / 4096 == a - 0xE0;
  }

  lemma FourBytes(a: int, b: int, d: int, e: int)
    requires 0xF0 <= a <= 0xF4 && 0x80 <= b <= 0xBF && 0x80 <= d <= 0xBF && 0x80 <= e <= 0xBF && SecondOk(a as byte, b as byte)
    ensures var c := (a - 0xF0) * 262144 + (b - 0x80) * 4096 + (d - 0x80) * 64 + (e - 0x80);
            Scalar(c) && Encode(c) == [a as byte, b as byte, d as byte, e as byte]
  {
    var c := (a - 0xF0) * 262144 + (b - 0x80) * 4096 + (d - 0x80) * 64 + (e - 0x80);
    assert c / 64 == (a - 0xF0) * 4096 + (b - 0x80) * 64 + (d - 0x80) && c % 64 == e - 0x80;
    assert c / 4096 == (a - 0xF0) * 64 + (b - 0x80);
    assert c / 262144 == a - 0xF0;
  }

  /** Nothing else is: what is recognised is the encoding of a code point. */
  lemma RuneIsEncoded(s: seq<byte>) returns (c: int)
    requires RuneLength(s) > 0
    ensures Scalar(c) && s[..RuneLength(s)] == Encode(c)
  {
    var n, a := RuneLength(s), s[0] as int;
    if n == 1 {
      c := a;
    } else if n == 2 {
      c := (a - 0xC0) * 64 + (s[1] as int - 0x80);
      TwoBytes(a, s[1] as int);
    } else if n == 3 {
      c := (a - 0xE0) * 4096 + (s[1] as int - 0x80) * 64 + (s[2] as int - 0x80);
      ThreeBytes(a, s[1] as int, s[2] as int);
    } else {
      c := (a - 0xF0) * 262144 + (s[1] as int - 0x80) * 4096 + (s[2] as int - 0x80) * 64 + (s[3] as int - 0x80);
      FourBytes(a, s[1] as int, s[2] as int, s[3] as int);
    }
  }

  ghost function EncodeAll(cs: seq<int>): seq<byte>
    requires forall i :: 0 <= i < |cs| ==> Scalar(cs[i])
  {
    if cs == [] then [] else Encode(cs[0]) + EncodeAll(cs[1..])
  }

  /** Valid text is exactly what encodes a sequence of code points. */
  lemma {:induction false} ValidIsEncoded(s: seq<byte>) returns (cs: seq<int>)
    requires ValidUtf8(s)
    ensures (forall i :: 0 <= i < |cs| ==> Scalar(cs[i])) && EncodeAll(cs) == s
    decreases |s|
  {
    hide Encode, RuneLength;
    if s == [] {
      cs := [];
    } else {
      var c := RuneIsEncoded(s);
      var rest := ValidIsEncoded(s[RuneLength(s)..]);
      cs := [c] + rest;
      assert cs[1..] == rest && s == s[..RuneLength(s)] + s[RuneLength(s)..];
    }
  }

  lemma {:induction false} EncodedIsValid(cs: seq<int>)
    requires forall i :: 0 <= i < |cs| ==> Scalar(cs[i])
    ensures ValidUtf8(EncodeAll(cs))
    decreases |cs|
  {
    if cs != [] {
      EncodedIsRune(cs[0], EncodeAll(cs[1..]));
      EncodedIsValid(cs[1..]);
      assert |Encode(cs[0])| > 0;
      hide Encode, RuneLength;
      var s := EncodeAll(cs);
      assert s[|Encode(cs[0])|..] == EncodeAll(cs[1..]);
    }
  }
}

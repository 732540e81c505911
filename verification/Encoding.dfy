/** The UTF-8 encoding of characters, written down from section 3 of RFC 3629, and the decoder of `Utf8`
    measured against it. */
module Encoding {
  import opened ByteSeqs
  import opened Utf8
  import opened Division

  /** What can be encoded: every number below 0x110000 that is no surrogate. */
  predicate IsScalar(c: nat) {
    c < 0xD800 || 0xE000 <= c < 0x11_0000
  }

  predicate AllScalars(text: seq<nat>) {
    forall i :: 0 <= i < |text| ==> IsScalar(text[i])
  }

  /** A byte that carries six bits of the character. */
  function Six(bits: nat): byte
    requires bits < 0x40
  {
    (0x80 + bits) as byte
  }

  /** The table of section 3 of RFC 3629. */
  function Encode(c: nat): Bytes
    requires IsScalar(c)
  {
    if c < 0x80 then [c as byte]
    else if c < 0x800 then [(0xC0 + c / 0x40) as byte, Six(c % 0x40)]
    else if c < 0x1_0000 then [(0xE0 + c / 0x1000) as byte, Six(c / 0x40 % 0x40), Six(c % 0x40)]
    else [(0xF0 + c / 0x4_0000) as byte, Six(c / 0x1000 % 0x40), Six(c / 0x40 % 0x40), Six(c % 0x40)]
  }

  function EncodeAll(text: seq<nat>): Bytes
    requires AllScalars(text)
    decreases |text|
  {
    if text == [] then [] else Encode(text[0]) + EncodeAll(text[1..])
  }

  // ----- One character -----

  lemma LastDigit(q: nat, r: nat)
    requires r < 0x40
    ensures (q * 0x40 + r) / 0x40 == q && (q * 0x40 + r) % 0x40 == r
  {
  }

  lemma HighDigits(n: nat)
    ensures n / 0x1000 == n / 0x40 / 0x40
    ensures n / 0x4_0000 == n / 0x40 / 0x40 / 0x40
  {
    DivideTwice(n, 0x40, 0x40);
    DivideTwice(n, 0x1000, 0x40);
  }

  /** Six-bit digits. */
  lemma Digits(a: nat, b: nat, c: nat, d: nat)
    requires b < 0x40 && c < 0x40 && d < 0x40
    ensures var n := a * 0x4_0000 + b * 0x1000 + c * 0x40 + d;
            n / 0x4_0000 == a && n / 0x1000 % 0x40 == b && n / 0x40 % 0x40 == c && n % 0x40 == d
  {
    var m2 := a * 0x40 + b;
    var m1 := m2 * 0x40 + c;
    HighDigits(m1 * 0x40 + d);
    LastDigit(a, b);
    LastDigit(m2, c);
    LastDigit(m1, d);
  }

  lemma FromDigits(n: nat)
    ensures n == n / 0x4_0000 * 0x4_0000 + n / 0x1000 % 0x40 * 0x1000 + n / 0x40 % 0x40 * 0x40 + n % 0x40
    ensures n < 0x4_0000 ==> n / 0x1000 % 0x40 == n / 0x1000
    ensures n < 0x1000 ==> n / 0x40 % 0x40 == n / 0x40
  {
    HighDigits(n);
    var m1, m2, m3 := n / 0x40, n / 0x1000, n / 0x4_0000;
    assert n == m1 * 0x40 + n % 0x40;
    assert m1 == m2 * 0x40 + m1 % 0x40;
    assert m2 == m3 * 0x40 + m2 % 0x40;
  }

  /** What the table of legal lead and second bytes says of a complete character. */
  lemma WholeShape(s: Bytes)
    requires StartsWhole(s)
    ensures var n, b := Consumed(s), s[0];
            && n <= |s|
            && (n == 1 ==> b < 0x80)
            && (n == 2 ==> 0xC2 <= b < 0xE0 && Continuation(s[1]))
            && (n == 3 ==> 0xE0 <= b < 0xF0 && Continuation(s[1]) && Continuation(s[2]))
            && (n == 3 && b == 0xE0 ==> s[1] >= 0xA0) && (n == 3 && b == 0xED ==> s[1] < 0xA0)
            && (n == 4 ==> 0xF0 <= b < 0xF5 && Continuation(s[1]) && Continuation(s[2]) && Continuation(s[3]))
            && (n == 4 && b == 0xF0 ==> s[1] >= 0x90) && (n == 4 && b == 0xF4 ==> s[1] < 0x90)
  {
  }

  lemma EncodedShort(c: nat, rest: Bytes)
    requires IsScalar(c) && c < 0x800
    ensures EncodedWhole(c, rest)
  {
    FromDigits(c);
    var s := Encode(c) + rest;
    assert s[0] == Encode(c)[0];
    if c >= 0x80 { assert s[1] == Encode(c)[1]; }
    assert s[|Encode(c)|..] == rest;
  }

  lemma EncodedMiddle(c: nat, rest: Bytes)
    requires IsScalar(c) && 0x800 <= c < 0x1_0000
    ensures EncodedWhole(c, rest)
  {
    FromDigits(c);
    var s := Encode(c) + rest;
    assert s[0] == Encode(c)[0] && s[1] == Encode(c)[1] && s[2] == Encode(c)[2];
    assert s[|Encode(c)|..] == rest;
  }

  lemma EncodedLong(c: nat, rest: Bytes)
    requires IsScalar(c) && 0x1_0000 <= c
    ensures EncodedWhole(c, rest)
  {
    FromDigits(c);
    var s := Encode(c) + rest;
    assert s[0] == Encode(c)[0] && s[1] == Encode(c)[1] && s[2] == Encode(c)[2] && s[3] == Encode(c)[3];
    assert s[|Encode(c)|..] == rest;
  }

  predicate EncodedWhole(c: nat, rest: Bytes)
    requires IsScalar(c)
  {
    var s := Encode(c) + rest;
    s != [] && StartsWhole(s) && Consumed(s) == |Encode(c)| && Scalar(s) == c && s[Consumed(s)..] == rest
  }

  /** An encoded character is complete and legal, whatever follows, and stands for itself. */
  lemma EncodedChar(c: nat, rest: Bytes)
    requires IsScalar(c)
    ensures EncodedWhole(c, rest)
  {
    hide EncodedWhole, Encode;
    if c < 0x800 {
      EncodedShort(c, rest);
    } else if c < 0x1_0000 {
      EncodedMiddle(c, rest);
    } else {
      EncodedLong(c, rest);
    }
  }

  lemma DecodedShort(s: Bytes)
    requires StartsWhole(s) && Consumed(s) <= 2
    ensures IsScalar(Scalar(s)) && Encode(Scalar(s)) == s[..Consumed(s)]
  {
    WholeShape(s);
    hide Consumed, StartsWhole;
    if Consumed(s) == 2 { Digits(0, 0, s[0] as nat - 0xC0, s[1] as nat - 0x80); }
  }

  lemma DecodedMiddle(s: Bytes)
    requires StartsWhole(s) && Consumed(s) == 3
    ensures IsScalar(Scalar(s)) && Encode(Scalar(s)) == s[..3]
  {
    WholeShape(s);
    hide Consumed, StartsWhole;
    Digits(0, s[0] as nat - 0xE0, s[1] as nat - 0x80, s[2] as nat - 0x80);
  }

  lemma DecodedLong(s: Bytes)
    requires StartsWhole(s) && Consumed(s) == 4
    ensures IsScalar(Scalar(s)) && Encode(Scalar(s)) == s[..4]
  {
    WholeShape(s);
    hide Consumed, StartsWhole;
    Digits(s[0] as nat - 0xF0, s[1] as nat - 0x80, s[2] as nat - 0x80, s[3] as nat - 0x80);
  }

  /** A complete and legal character is the encoding of the number that the decoder gives. */
  lemma DecodedChar(s: Bytes)
    requires StartsWhole(s)
    ensures IsScalar(Scalar(s)) && Encode(Scalar(s)) == s[..Consumed(s)]
  {
    var n := Consumed(s);
    hide StartsWhole, Scalar, Encode, IsScalar;
    if n <= 2 {
      DecodedShort(s);
    } else if n == 3 {
      DecodedMiddle(s);
    } else {
      DecodedLong(s);
    }
  }

  // ----- Whole strings -----

  /** The decoder gives back every text that was encoded. */
  lemma {:induction false} DecodeEncoded(text: seq<nat>)
    requires AllScalars(text)
    ensures WellFormed(EncodeAll(text)) && Decode(EncodeAll(text)) == text
    decreases |text|
  {
    if text != [] {
      hide Encode, StartsWhole, Consumed, Scalar;
      EncodedChar(text[0], EncodeAll(text[1..]));
      DecodeEncoded(text[1..]);
    }
  }

  lemma DecodeHead(s: Bytes)
    requires s != [] && StartsWhole(s)
    ensures Decode(s) == [Scalar(s)] + Decode(s[Consumed(s)..])
  {
    hide Scalar, Consumed, StartsWhole;
  }

  lemma EncodeCons(s: Bytes, n: nat, c: nat, text: seq<nat>)
    requires IsScalar(c) && AllScalars(text) && n <= |s|
    requires Encode(c) == s[..n] && EncodeAll(text) == s[n..]
    ensures AllScalars([c] + text) && EncodeAll([c] + text) == s
  {
    hide Encode, IsScalar;
    assert ([c] + text)[1..] == text;
    assert s == s[..n] + s[n..];
  }

  lemma WellFormedParts(s: Bytes)
    requires WellFormed(s) && s != []
    ensures StartsWhole(s) && WellFormed(s[Consumed(s)..]) && Decode(s) == [Scalar(s)] + Decode(s[Consumed(s)..])
    ensures IsScalar(Scalar(s)) && Encode(Scalar(s)) == s[..Consumed(s)]
  {
    WellFormedTail(s);
    DecodeHead(s);
    hide Encode, StartsWhole, Consumed, Scalar, WellFormed, Decode, IsScalar;
    DecodedChar(s);
  }

  /** Every well-formed string is the encoding of its decoded text. */
  lemma {:induction false} EncodeDecoded(s: Bytes)
    requires WellFormed(s)
    ensures AllScalars(Decode(s)) && EncodeAll(Decode(s)) == s
    decreases |s|
  {
    hide Encode, StartsWhole, Consumed, Scalar, WellFormed, IsScalar;
    if s == [] {
    } else {
      hide Decode, AllScalars, EncodeAll;
      WellFormedParts(s);
      EncodeDecoded(s[Consumed(s)..]);
      EncodeCons(s, Consumed(s), Scalar(s), Decode(s[Consumed(s)..]));
    }
  }

  /** The well-formed strings are exactly the encoded texts. */
  lemma WellFormedIff(s: Bytes)
    ensures WellFormed(s) <==> exists text :: AllScalars(text) && EncodeAll(text) == s
  {
    if WellFormed(s) {
      EncodeDecoded(s);
    }
    forall text | AllScalars(text) && EncodeAll(text) == s ensures WellFormed(s) {
      DecodeEncoded(text);
    }
  }

  // ----- The browser's decoder -----

  /** A text without the mark at its start. */
  function WithoutMark(text: seq<nat>): seq<nat> {
    if text != [] && text[0] == 0xFEFF then text[1..] else text
  }

  /** A fresh decoder given an encoded text shows it, but for a mark at its start. */
  lemma TextDecodeEncoded(text: seq<nat>)
    requires AllScalars(text)
    ensures TextDecode(EncodeAll(text)) == WithoutMark(text)
  {
    DecodeEncoded(text);
    if text != [] {
      MarkIff(text[0], EncodeAll(text[1..]));
      if text[0] == 0xFEFF { DecodeEncoded(text[1..]); }
    }
  }

  lemma MarkIff(c: nat, rest: Bytes)
    requires IsScalar(c)
    ensures StartsWithBom(Encode(c) + rest) <==> c == 0xFEFF
    ensures c == 0xFEFF ==> (Encode(c) + rest)[3..] == rest
  {
    var s := Encode(c) + rest;
    EncodedChar(c, rest);
    if StartsWithBom(s) {
      assert s[0] == 0xEF && s[1] == 0xBB && s[2] == 0xBF;
    }
    if c == 0xFEFF {
      assert Encode(c) == BOM;
    }
  }

  // ----- What is replaced as one unit -----

  /** The bytes are the beginning of a character, but not all of it. */
  ghost predicate Unfinished(front: Bytes) {
    exists c: nat :: IsScalar(c) && |front| < |Encode(c)| && front <= Encode(c)
  }

  /** Where no legal character starts, the decoder replaces the longest front that is the beginning of a
      character, or one byte if there is none. */
  lemma MaximalSubpart(s: Bytes, n: nat)
    requires s != [] && !StartsWhole(s) && 1 <= n <= |s|
    ensures Unfinished(s[..n]) ==> n <= Consumed(s)
    ensures Consumed(s) == 1 || Unfinished(s[..Consumed(s)])
  {
    if Unfinished(s[..n]) {
      var c: nat :| IsScalar(c) && n < |Encode(c)| && s[..n] <= Encode(c);
      UnfinishedFits(s, n, c);
    }
    if Consumed(s) > 1 { Completed(s); }
  }

  lemma UnfinishedFits(s: Bytes, n: nat, c: nat)
    requires s != [] && !StartsWhole(s) && 1 <= n <= |s|
    requires IsScalar(c) && n < |Encode(c)| && s[..n] <= Encode(c)
    ensures n <= Consumed(s)
  {
    var e := Encode(c);
    EncodedChar(c, []);
    assert e + [] == e;
    hide Encode, Scalar, IsScalar;
    assert e[..n] == s[..n];
    assert s[0] == s[..n][0] && e[0] == e[..n][0];
    if n > 1 { assert s[1] == s[..n][1] && e[1] == e[..n][1]; }
    if n > 2 { assert s[2] == s[..n][2] && e[2] == e[..n][2]; }
  }

  /** Continuation bytes finish the character. */
  lemma Completed(s: Bytes)
    requires s != [] && !StartsWhole(s) && Consumed(s) > 1
    ensures Unfinished(s[..Consumed(s)])
  {
    var n := Consumed(s);
    var pad: Bytes := [0x80, 0x80];
    var e := s[..n] + pad[..LeadOf(s[0]).len - n];
    assert StartsWhole(e) && Consumed(e) == |e|;
    hide StartsWhole, Consumed, Scalar;
    DecodedChar(e);
    assert e[..|e|] == e;
    assert s[..n] <= e;
  }
}

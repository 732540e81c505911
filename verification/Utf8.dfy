/** UTF-8 as the client and the browser see it: character boundaries, the decoder with
    replacement characters, and the browser's `TextDecoder`, which also drops a byte order mark. */
module Utf8 {
  import opened ByteSeqs

  predicate Continuation(b: byte) {
    0x80 <= b < 0xC0
  }

  /** `str::is_char_boundary` of the client's string type: the ends of the string, and every
      position that does not hold a continuation byte (section 3 of RFC 3629). */
  predicate IsCharBoundary(s: Bytes, i: nat) {
    i == 0 || i == |s| || (i < |s| && !Continuation(s[i]))
  }

  /** How a lead byte constrains what follows: the number of bytes of the character, and the range
      allowed for the second byte (section 4 of RFC 3629). Length 0 marks an illegal lead byte. */
  datatype Lead = Lead(len: nat, lo: byte, hi: byte)

  function LeadOf(b: byte): Lead {
    if b < 0x80 then Lead(1, 0x80, 0xBF)
    else if 0xC2 <= b <= 0xDF then Lead(2, 0x80, 0xBF)
    else if b == 0xE0 then Lead(3, 0xA0, 0xBF)
    else if b == 0xED then Lead(3, 0x80, 0x9F)
    else if 0xE1 <= b <= 0xEF then Lead(3, 0x80, 0xBF)
    else if b == 0xF0 then Lead(4, 0x90, 0xBF)
    else if b == 0xF4 then Lead(4, 0x80, 0x8F)
    else if 0xF1 <= b <= 0xF3 then Lead(4, 0x80, 0xBF)
    else Lead(0, 0x80, 0xBF)
  }

  /** Number of bytes a decoder consumes for the first character or, when that is ill-formed,
      for the part of it that is replaced as one unit. */
  function Consumed(s: Bytes): (n: nat)
    requires s != []
    ensures 1 <= n <= |s| && n <= 4
    ensures forall i :: 1 <= i < n ==> Continuation(s[i])
  {
    var l := LeadOf(s[0]);
    if l.len <= 1 || |s| < 2 || !(l.lo <= s[1] <= l.hi) then 1
    else if l.len == 2 || |s| < 3 || !Continuation(s[2]) then 2
    else if l.len == 3 || |s| < 4 || !Continuation(s[3]) then 3
    else 4
  }

  /** The string starts with a complete, legal character. */
  predicate StartsWhole(s: Bytes) {
    s != [] && Consumed(s) == LeadOf(s[0]).len
  }

  predicate WellFormed(s: Bytes) {
    s == [] || (StartsWhole(s) && WellFormed(s[Consumed(s)..]))
  }

  const REPLACEMENT: nat := 0xFFFD

  /** The scalar value of a complete character. */
  function Scalar(s: Bytes): nat
    requires StartsWhole(s)
  {
    var b0 := s[0] as nat;
    match Consumed(s)
    case 1 => b0
    case 2 => (b0 - 0xC0) * 0x40 + (s[1] as nat - 0x80)
    case 3 => (b0 - 0xE0) * 0x1000 + (s[1] as nat - 0x80) * 0x40 + (s[2] as nat - 0x80)
    case _ => (b0 - 0xF0) * 0x40000 + (s[1] as nat - 0x80) * 0x1000 + (s[2] as nat - 0x80) * 0x40 + (s[3] as nat - 0x80)
  }

  /** Decoding with U+FFFD in place of each ill-formed part. Every U+FEFF is kept, also at the start. */
  function Decode(s: Bytes): seq<nat> {
    if s == [] then []
    else [if StartsWhole(s) then Scalar(s) else REPLACEMENT] + Decode(s[Consumed(s)..])
  }

  const BOM: Bytes := [0xEF, 0xBB, 0xBF]

  predicate StartsWithBom(s: Bytes) {
    BOM <= s
  }

  /** `new TextDecoder().decode(s)`: a fresh decoder removes one leading byte order mark. */
  function TextDecode(s: Bytes): seq<nat> {
    if StartsWithBom(s) then Decode(s[3..]) else Decode(s)
  }

  /** The largest boundary at or before `i`. */
  function PrevCharBoundary(s: Bytes, i: nat): (r: nat)
    ensures r <= i && r <= |s| && IsCharBoundary(s, r)
    ensures forall j :: r < j <= i ==> !IsCharBoundary(s, j)
  {
    if IsCharBoundary(s, i) then i else PrevCharBoundary(s, i - 1)
  }

  // ----- Boundaries of well-formed strings -----

  /** A well-formed string never starts with a continuation byte. */
  lemma WellFormedHead(s: Bytes)
    requires WellFormed(s) && s != []
    ensures !Continuation(s[0])
  {
  }

  /** A complete first character stays the first character whatever follows it. */
  lemma StartsWholeAppend(a: Bytes, b: Bytes)
    requires StartsWhole(a)
    ensures StartsWhole(a + b) && Consumed(a + b) == Consumed(a) && Scalar(a + b) == Scalar(a)
  {
  }

  /** Well-formed strings concatenate, and so do their decodings. */
  lemma {:induction false} DecodeAppend(a: Bytes, b: Bytes)
    requires WellFormed(a)
    ensures Decode(a + b) == Decode(a) + Decode(b)
    ensures WellFormed(a + b) <==> WellFormed(b)
  {
    if a == [] {
      assert a + b == b;
    } else {
      StartsWholeAppend(a, b);
      var n := Consumed(a);
      assert (a + b)[n..] == a[n..] + b;
      DecodeAppend(a[n..], b);
    }
  }

  /** What the decoder sees at the front of a prefix: the same character, or the part that is left. */
  lemma ConsumedPrefix(s: Bytes, k: nat)
    requires s != [] && 0 < k <= |s|
    ensures k < Consumed(s) ==> Consumed(s[..k]) == k
    ensures k >= Consumed(s) && StartsWhole(s) ==> StartsWhole(s[..k]) && Consumed(s[..k]) == Consumed(s)
    ensures k < Consumed(s) && StartsWhole(s) ==> !StartsWhole(s[..k])
  {
  }

  lemma WellFormedTail(s: Bytes)
    requires WellFormed(s) && s != []
    ensures StartsWhole(s) && WellFormed(s[Consumed(s)..])
  {
  }

  lemma WellFormedStart(s: Bytes)
    requires s != []
    ensures WellFormed(s) <==> StartsWhole(s) && WellFormed(s[Consumed(s)..])
  {
  }

  /** Slices of a string behind its first `n` bytes. */
  lemma BehindFirst(s: Bytes, n: nat, k: nat)
    requires n <= k <= |s|
    ensures s[n..][k - n..] == s[k..]
    ensures s[..k][n..] == s[n..][..k - n]
  {
  }

  /** Inside the first character neither side of a cut is well-formed. */
  lemma CutInFirst(s: Bytes, k: nat)
    requires WellFormed(s) && 0 < k <= |s| && s != [] && k < Consumed(s)
    ensures !IsCharBoundary(s, k) && !WellFormed(s[..k]) && !WellFormed(s[k..])
  {
    WellFormedTail(s);
    ConsumedPrefix(s, k);
    assert Continuation(s[k]) && s[k..][0] == s[k];
    if WellFormed(s[k..]) { WellFormedHead(s[k..]); }
    hide Consumed, StartsWhole;
  }

  /** Behind the first character a boundary is one of the rest. */
  lemma BoundaryBehindFirst(s: Bytes, k: nat)
    requires WellFormed(s) && s != [] && Consumed(s) <= k < |s|
    ensures IsCharBoundary(s, k) <==> IsCharBoundary(s[Consumed(s)..], k - Consumed(s))
  {
    hide Consumed, StartsWhole, WellFormed;
    WellFormedTail(s);
    var n := Consumed(s);
    WellFormedHead(s[n..]);
    assert s[n..][k - n] == s[k];
  }

  lemma EndsAreBoundaries(s: Bytes, k: nat)
    requires WellFormed(s) && (k == 0 || k == |s|)
    ensures IsCharBoundary(s, k) && WellFormed(s[..k]) && WellFormed(s[k..])
  {
    assert s[0..] == s && s[..|s|] == s;
  }

  /** In a well-formed string the positions that are no continuation byte are exactly the positions
      at which both sides of a cut are well-formed. */
  lemma {:induction false} BoundaryIffWellFormedCut(s: Bytes, k: nat)
    requires WellFormed(s) && k <= |s|
    ensures IsCharBoundary(s, k) <==> WellFormed(s[..k])
    ensures IsCharBoundary(s, k) <==> WellFormed(s[k..])
    decreases |s|
  {
    hide Consumed, WellFormed, StartsWhole, IsCharBoundary;
    if k == 0 || k == |s| {
      EndsAreBoundaries(s, k);
    } else if k < Consumed(s) {
      CutInFirst(s, k);
    } else {
      var n := Consumed(s);
      WellFormedTail(s);
      BoundaryBehindFirst(s, k);
      BoundaryIffWellFormedCut(s[n..], k - n);
      BehindFirst(s, n, k);
      ConsumedPrefix(s, k);
      WellFormedStart(s[..k]);
    }
  }

  /** Bytes that are all continuation bytes decode to one replacement character each. */
  lemma {:induction false} DecodeContinuations(s: Bytes, k: nat)
    requires k <= |s| && forall i :: 0 <= i < k ==> Continuation(s[i])
    ensures |Decode(s)| == k + |Decode(s[k..])|
  {
    if k == 0 {
      assert s[0..] == s;
    } else {
      assert Consumed(s) == 1;
      hide Decode, Consumed;
      DecodeStep(s);
      DecodeContinuations(s[1..], k - 1);
      assert s[1..][k - 1..] == s[k..];
    }
  }

  lemma DecodeStep(s: Bytes)
    requires s != []
    ensures |Decode(s)| == 1 + |Decode(s[Consumed(s)..])|
  {
    hide Consumed, StartsWhole, Scalar;
  }

  /** Cutting inside a character produces more characters than the uncut string has. */
  lemma {:induction false} CutInsideCharacter(s: Bytes, k: nat)
    requires WellFormed(s) && k <= |s| && !IsCharBoundary(s, k)
    ensures |Decode(s[..k])| + |Decode(s[k..])| > |Decode(s)|
    decreases |s|
  {
    hide Decode, Consumed, WellFormed, StartsWhole;
    var n := Consumed(s);
    ConsumedPrefix(s, k);
    DecodeStep(s);
    DecodeStep(s[..k]);
    if k < n {
      assert s[..k][k..] == [];
      DecodeContinuations(s[k..], n - k);
      assert s[k..][n - k..] == s[n..];
    } else {
      WellFormedTail(s);
      BehindFirst(s, n, k);
      BoundaryBehindFirst(s, k);
      CutInsideCharacter(s[n..], k - n);
    }
  }

  /** Decoding the two sides of a cut apart gives the same text exactly when the cut falls on a
      character boundary. */
  lemma DecodeCutIff(s: Bytes, k: nat)
    requires WellFormed(s) && k <= |s|
    ensures Decode(s[..k]) + Decode(s[k..]) == Decode(s) <==> IsCharBoundary(s, k)
  {
    hide Decode, WellFormed, IsCharBoundary;
    if IsCharBoundary(s, k) {
      BoundaryIffWellFormedCut(s, k);
      DecodeAppend(s[..k], s[k..]);
      assert s[..k] + s[k..] == s;
    } else {
      CutInsideCharacter(s, k);
    }
  }

  /** A boundary lies within three bytes of any position. */
  lemma {:induction false} BoundaryNearby(s: Bytes, i: nat)
    requires WellFormed(s) && i <= |s|
    ensures PrevCharBoundary(s, i) + 3 >= i
  {
    if s != [] && 0 < i < |s| {
      var n := Consumed(s);
      if i >= n {
        BoundaryNearby(s[n..], i - n);
        var r := PrevCharBoundary(s[n..], i - n);
        if r == 0 && n < |s| { WellFormedHead(s[n..]); }
        assert IsCharBoundary(s, n + r);
      }
    }
  }

  /** Boundaries survive appending whole characters at the end. */
  lemma BoundaryAppend(s: Bytes, w: Bytes, i: nat)
    requires WellFormed(w) && i <= |s| && IsCharBoundary(s, i)
    ensures IsCharBoundary(s + w, i)
  {
    if w != [] { WellFormedHead(w); }
  }

  /** Between two boundaries of a well-formed string lies a well-formed string. */
  lemma BetweenBoundaries(s: Bytes, i: nat, j: nat)
    requires WellFormed(s) && i <= j <= |s| && IsCharBoundary(s, i) && IsCharBoundary(s, j)
    ensures WellFormed(s[i..j])
  {
    BoundaryIffWellFormedCut(s, j);
    assert IsCharBoundary(s[..j], i);
    BoundaryIffWellFormedCut(s[..j], i);
    assert s[..j][i..] == s[i..j];
  }

  // ----- Fresh decoders -----

  /** A fresh decoder loses exactly one character when the bytes start with a byte order mark. */
  lemma TextDecodeLength(s: Bytes)
    ensures |TextDecode(s)| == |Decode(s)| - (if StartsWithBom(s) then 1 else 0)
  {
    if StartsWithBom(s) {
      assert Consumed(s) == 3;
    }
  }

  /** What a fresh decoder for each piece gives. */
  function Texts(pieces: seq<Bytes>): (r: seq<seq<nat>>)
    ensures |r| == |pieces|
    ensures forall i :: 0 <= i < |pieces| ==> r[i] == TextDecode(pieces[i])
  {
    if pieces == [] then [] else [TextDecode(pieces[0])] + Texts(pieces[1..])
  }

  function DecodePieces(pieces: seq<Bytes>): seq<nat> {
    Flatten(Texts(pieces))
  }

  lemma DecodePiecesCons(pieces: seq<Bytes>)
    ensures pieces == [] ==> DecodePieces(pieces) == []
    ensures pieces != [] ==> DecodePieces(pieces) == TextDecode(pieces[0]) + DecodePieces(pieces[1..])
  {
    hide TextDecode;
    if pieces == [] {
    } else {
      assert Texts(pieces)[1..] == Texts(pieces[1..]);
    }
  }

  lemma {:induction false} DecodePiecesCompare(pieces: seq<Bytes>)
    requires forall p :: p in pieces ==> WellFormed(p)
    ensures WellFormed(Flatten(pieces))
    ensures |DecodePieces(pieces)| <= |Decode(Flatten(pieces))|
    ensures (forall p :: p in pieces ==> !StartsWithBom(p)) ==> DecodePieces(pieces) == Decode(Flatten(pieces))
    ensures (exists p :: p in pieces && StartsWithBom(p)) ==> |DecodePieces(pieces)| < |Decode(Flatten(pieces))|
  {
    DecodePiecesCons(pieces);
    hide DecodePieces;
    if pieces == [] {
    } else {
      DecodePiecesCompare(pieces[1..]);
      DecodeAppend(pieces[0], Flatten(pieces[1..]));
      TextDecodeLength(pieces[0]);
      assert forall p :: p in pieces ==> p == pieces[0] || p in pieces[1..];
    }
  }

  /** Decoding each whole-character piece with its own fresh decoder gives the text of the whole
      stream, with every U+FEFF in it, exactly when no piece starts with a byte order mark. */
  lemma FreshDecodersIff(pieces: seq<Bytes>)
    requires forall p :: p in pieces ==> WellFormed(p)
    ensures DecodePieces(pieces) == Decode(Flatten(pieces)) <==> forall p :: p in pieces ==> !StartsWithBom(p)
  {
    DecodePiecesCompare(pieces);
  }

  lemma MarkInFirst(f: Bytes, rest: Bytes)
    requires WellFormed(f) && f != []
    ensures StartsWithBom(f + rest) <==> StartsWithBom(f)
    ensures StartsWithBom(f) ==> WellFormed(f[3..]) && (f + rest)[3..] == f[3..] + rest
  {
    if StartsWithBom(f + rest) {
      assert (f + rest)[0] == f[0] && (f + rest)[1] == 0xBB && (f + rest)[2] == 0xBF;
      assert StartsWhole(f) && |f| >= 3;
      assert f[0] == 0xEF && f[1] == 0xBB && f[2] == 0xBF;
    }
    if StartsWithBom(f) {
      assert Consumed(f) == 3;
    }
  }

  lemma TextDecodeAppend(f: Bytes, rest: Bytes)
    requires WellFormed(f) && f != []
    ensures TextDecode(f + rest) == TextDecode(f) + Decode(rest)
  {
    MarkInFirst(f, rest);
    hide WellFormed, Decode, StartsWithBom;
    if StartsWithBom(f) { DecodeAppend(f[3..], rest); } else { DecodeAppend(f, rest); }
  }

  lemma SamePrefix<T>(a: seq<T>, b: seq<T>, c: seq<T>)
    ensures a + b == a + c <==> b == c
  {
    assert (a + b)[|a|..] == b && (a + c)[|a|..] == c;
  }

  /** Against one decoder for the whole stream, which drops a mark at the very start only: fresh decoders
      agree with it exactly when no piece after the first starts with a byte order mark. */
  lemma StreamDecoderIff(pieces: seq<Bytes>)
    requires pieces != [] && pieces[0] != [] && forall p :: p in pieces ==> WellFormed(p)
    ensures DecodePieces(pieces) == TextDecode(Flatten(pieces)) <==> forall p :: p in pieces[1..] ==> !StartsWithBom(p)
  {
    hide WellFormed, TextDecode, DecodePieces, Decode;
    var f, rest := pieces[0], pieces[1..];
    DecodePiecesCons(pieces);
    TextDecodeAppend(f, Flatten(rest));
    SamePrefix(TextDecode(f), DecodePieces(rest), Decode(Flatten(rest)));
    FreshDecodersIff(rest);
  }

  /** U+FEFF as the first character of a later piece is lost: the two pieces "a" and "<U+FEFF>b". */
  lemma FreshDecoderDropsBom()
    ensures var pieces: seq<Bytes> := [[0x61], [0xEF, 0xBB, 0xBF, 0x62]];
            && (forall p :: p in pieces ==> WellFormed(p))
            && Decode(Flatten(pieces)) == [0x61, 0xFEFF, 0x62]
            && DecodePieces(pieces) == [0x61, 0x62]
  {
    LetterDecodes();
    MarkedDecodes();
    var p0, p1: Bytes := [0x61], [0xEF, 0xBB, 0xBF, 0x62];
    hide Decode, WellFormed, TextDecode;
    DecodeAppend(p0, p1);
    FlattenTwo(p0, p1);
    TwoPieces(p0, p1);
  }

  lemma LetterDecodes()
    ensures var p: Bytes := [0x61];
            WellFormed(p) && Decode(p) == [0x61] && TextDecode(p) == [0x61]
  {
    var p: Bytes := [0x61];
    assert p[1..] == [];
  }

  lemma MarkedDecodes()
    ensures var p: Bytes := [0xEF, 0xBB, 0xBF, 0x62];
            WellFormed(p) && Decode(p) == [0xFEFF, 0x62] && TextDecode(p) == [0x62]
  {
    var p, q: Bytes := [0xEF, 0xBB, 0xBF, 0x62], [0x62];
    assert p[3..] == q && q[1..] == [];
    assert Decode(q) == [0x62] && WellFormed(q);
    assert Consumed(p) == 3 && Scalar(p) == 0xFEFF;
    assert Decode(p) == [0xFEFF] + Decode(q);
  }

  lemma FlattenTwo<T>(a: seq<T>, b: seq<T>)
    ensures Flatten([a, b]) == a + b
  {
    assert [a, b][1..] == [b] && [b][1..] == [];
    assert Flatten([b]) == b;
  }

  lemma TwoPieces(a: Bytes, b: Bytes)
    ensures DecodePieces([a, b]) == TextDecode(a) + TextDecode(b)
  {
    hide TextDecode, DecodePieces;
    DecodePiecesCons([a, b]);
    DecodePiecesCons([b]);
    DecodePiecesCons([]);
    assert [a, b][1..] == [b] && [b][1..] == [];
  }
}

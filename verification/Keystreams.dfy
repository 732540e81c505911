/** A keystream is a byte for every position of a stream; a segment of data is combined with the
    keystream bytes of its own positions. Everything the protocol relies on is algebra of that. */
module Keystreams {
  import opened ByteSeqs
  import opened Division

  type Keystream = nat -> byte

  const BYTE_BITS: nat := 8

  function Pow2(k: nat): (r: nat)
    ensures r > 0
  {
    if k == 0 then 1 else 2 * Pow2(k - 1)
  }

  /** Exclusive or of the low `k` bits. */
  function XorBits(a: nat, b: nat, k: nat): (r: nat)
    ensures r < Pow2(k)
  {
    if k == 0 then 0 else 2 * XorBits(a / 2, b / 2, k - 1) + (if a % 2 == b % 2 then 0 else 1)
  }

  lemma BytePow()
    ensures Pow2(BYTE_BITS) == 256
  {
    assert Pow2(4) == 16;
  }

  function Xor(a: byte, b: byte): byte {
    BytePow();
    XorBits(a as nat, b as nat, BYTE_BITS) as byte
  }

  lemma {:induction false} XorBitsInvolution(a: nat, b: nat, k: nat)
    requires a < Pow2(k)
    ensures XorBits(XorBits(a, b, k), b, k) == a
  {
    if k > 0 {
      var x := XorBits(a, b, k);
      XorBitsInvolution(a / 2, b / 2, k - 1);
      assert x / 2 == XorBits(a / 2, b / 2, k - 1);
      assert x % 2 == (if a % 2 == b % 2 then 0 else 1);
    }
  }

  lemma XorInvolution(a: byte, b: byte)
    ensures Xor(Xor(a, b), b) == a
  {
    BytePow();
    XorBitsInvolution(a as nat, b as nat, BYTE_BITS);
  }

  // ----- Bit by bit -----

  predicate Bit(b: byte, i: nat) {
    b as nat / Pow2(i) % 2 == 1
  }

  lemma {:induction false} XorBitsAt(a: nat, b: nat, k: nat, i: nat)
    requires i < k
    ensures XorBits(a, b, k) / Pow2(i) % 2 == 1 <==> a / Pow2(i) % 2 != b / Pow2(i) % 2
    decreases i
  {
    var x := XorBits(a, b, k);
    assert x / 2 == XorBits(a / 2, b / 2, k - 1) && x % 2 == (if a % 2 == b % 2 then 0 else 1);
    if i > 0 {
      XorBitsAt(a / 2, b / 2, k - 1, i - 1);
      DivideTwice(x, 2, Pow2(i - 1));
      DivideTwice(a, 2, Pow2(i - 1));
      DivideTwice(b, 2, Pow2(i - 1));
    }
  }

  /** Combining two bytes: each bit of the result is set exactly when the two bits differ. */
  lemma XorBit(a: byte, b: byte, i: nat)
    requires i < BYTE_BITS
    ensures Bit(Xor(a, b), i) <==> Bit(a, i) != Bit(b, i)
  {
    XorBitsAt(a as nat, b as nat, BYTE_BITS, i);
  }

  lemma {:induction false} SameBits(a: nat, b: nat, k: nat)
    requires a < Pow2(k) && b < Pow2(k)
    requires forall i: nat :: i < k ==> (a / Pow2(i) % 2 == 1 <==> b / Pow2(i) % 2 == 1)
    ensures a == b
  {
    if k > 0 {
      LowBit(a);
      LowBit(b);
      assert a / Pow2(0) % 2 == 1 <==> b / Pow2(0) % 2 == 1;
      forall i: nat | i < k - 1 ensures a / 2 / Pow2(i) % 2 == 1 <==> b / 2 / Pow2(i) % 2 == 1 {
        DivideTwice(a, 2, Pow2(i));
        DivideTwice(b, 2, Pow2(i));
        assert a / Pow2(i + 1) % 2 == 1 <==> b / Pow2(i + 1) % 2 == 1;
      }
      SameBits(a / 2, b / 2, k - 1);
    }
  }

  lemma LowBit(a: nat)
    ensures a / Pow2(0) % 2 == a % 2
  {
  }

  /** A byte is determined by its bits. */
  lemma ByteByBits(a: byte, b: byte)
    requires forall i: nat :: i < BYTE_BITS ==> (Bit(a, i) <==> Bit(b, i))
    ensures a == b
  {
    BytePow();
    forall i: nat | i < BYTE_BITS ensures a as nat / Pow2(i) % 2 == 1 <==> b as nat / Pow2(i) % 2 == 1 {
      assert Bit(a, i) <==> Bit(b, i);
    }
    SameBits(a as nat, b as nat, BYTE_BITS);
  }

  /** The reference: every byte is combined with the keystream byte of its own position. */
  function Segment(key: Keystream, offset: nat, data: Bytes): (r: Bytes)
    ensures |r| == |data|
    decreases |data|
  {
    if data == [] then []
    else [Xor(data[0], key(offset))] + Segment(key, offset + 1, data[1..])
  }

  /** The reference read at one position. */
  lemma {:induction false} SegmentAt(key: Keystream, offset: nat, data: Bytes, i: nat)
    requires i < |data|
    ensures Segment(key, offset, data)[i] == Xor(data[i], key(offset + i))
    decreases |data|
  {
    if i > 0 {
      SegmentAt(key, offset + 1, data[1..], i - 1);
    }
  }

  /** Whatever has the right bytes at all positions is the reference. */
  lemma SegmentIs(key: Keystream, offset: nat, data: Bytes, r: Bytes)
    requires |r| == |data|
    requires forall i :: 0 <= i < |data| ==> r[i] == Xor(data[i], key(offset + i))
    ensures r == Segment(key, offset, data)
  {
    var reference := Segment(key, offset, data);
    forall i | 0 <= i < |data| ensures r[i] == reference[i] {
      SegmentAt(key, offset, data, i);
    }
  }

  // ----- Algebra of segments -----

  /** Encryption and decryption are the same operation. */
  lemma {:induction false} SegmentInvolution(key: Keystream, offset: nat, data: Bytes)
    ensures Segment(key, offset, Segment(key, offset, data)) == data
    decreases |data|
  {
    if data != [] {
      XorInvolution(data[0], key(offset));
      SegmentInvolution(key, offset + 1, data[1..]);
      assert Segment(key, offset, data)[1..] == Segment(key, offset + 1, data[1..]);
    }
  }

  /** Segments at consecutive offsets concatenate. */
  lemma {:induction false} SegmentAppend(key: Keystream, offset: nat, a: Bytes, b: Bytes)
    ensures Segment(key, offset, a + b) == Segment(key, offset, a) + Segment(key, offset + |a|, b)
    decreases |a|
  {
    if a == [] {
      assert a + b == b;
    } else {
      assert (a + b)[1..] == a[1..] + b;
      SegmentAppend(key, offset + 1, a[1..], b);
    }
  }

  /** One more byte. */
  lemma SegmentSnoc(key: Keystream, offset: nat, data: Bytes, i: nat)
    requires i < |data|
    ensures Segment(key, offset, data[..i + 1]) == Segment(key, offset, data[..i]) + [Xor(data[i], key(offset + i))]
  {
    assert data[..i + 1] == data[..i] + [data[i]];
    SegmentAppend(key, offset, data[..i], [data[i]]);
    assert Segment(key, offset + i, [data[i]]) == [Xor(data[i], key(offset + i))];
  }

  /** Trimming the front of a ciphertext is the ciphertext of the trimmed plaintext. */
  lemma SegmentDrop(key: Keystream, offset: nat, data: Bytes, k: nat)
    requires k <= |data|
    ensures Segment(key, offset + k, data[k..]) == Segment(key, offset, data)[k..]
  {
    assert data == data[..k] + data[k..];
    SegmentAppend(key, offset, data[..k], data[k..]);
  }

  /** Decrypting consecutive chunks, each at the offset reached so far. */
  function DecryptChunks(key: Keystream, offset: nat, chunks: seq<Bytes>): (r: seq<Bytes>)
    ensures |r| == |chunks|
    decreases |chunks|
  {
    if chunks == [] then []
    else [Segment(key, offset, chunks[0])] + DecryptChunks(key, offset + |chunks[0]|, chunks[1..])
  }

  /** Decrypting chunk by chunk at running offsets spells what decrypting the whole would. */
  lemma {:induction false} DecryptChunksFlatten(key: Keystream, offset: nat, chunks: seq<Bytes>)
    ensures Flatten(DecryptChunks(key, offset, chunks)) == Segment(key, offset, Flatten(chunks))
    decreases |chunks|
  {
    hide Segment;
    if chunks == [] {
      EmptySegment(key, offset);
    } else {
      var head, rest := chunks[0], chunks[1..];
      var first, later := Segment(key, offset, head), DecryptChunks(key, offset + |head|, rest);
      assert DecryptChunks(key, offset, chunks) == [first] + later && ([first] + later)[1..] == later;
      assert Flatten([first] + later) == first + Flatten(later);
      hide DecryptChunks, Flatten;
      DecryptChunksFlatten(key, offset + |head|, rest);
      SegmentAppend(key, offset, head, Flatten(rest));
      FlattenHead(chunks);
    }
  }

  lemma EmptySegment(key: Keystream, offset: nat)
    ensures Segment(key, offset, []) == []
  {
  }

  lemma FlattenHead(chunks: seq<Bytes>)
    requires chunks != []
    ensures Flatten(chunks) == chunks[0] + Flatten(chunks[1..])
  {
  }
}

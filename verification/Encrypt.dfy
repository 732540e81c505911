/** Counter-mode encryption of a byte stream by absolute offset (section 6.5 of NIST SP 800-38A,
    with a 64-bit big-endian counter in the last eight bytes of the counter block).

    The block cipher under the session key is an arbitrary function from blocks to blocks. */
module Encrypt {
  import opened ByteSeqs
  import opened Keystreams
  import opened Division

  type Block = b: Bytes | |b| == 16 witness seq(16, _ => 0)

  type BlockCipher = Block -> Block

  const TWO_64: nat := 0x1_0000_0000_0000_0000

  type u64 = n: nat | n < TWO_64

  // ----- Big-endian 64-bit numbers -----

  const WORD_BYTES: nat := 8

  /** The low `k` bytes of `n`, most significant first. */
  function BigEndian(n: nat, k: nat): (r: Bytes)
    ensures |r| == k
  {
    if k == 0 then [] else BigEndian(n / 256, k - 1) + [(n % 256) as byte]
  }

  function FromBigEndian(b: Bytes): nat {
    if b == [] then 0 else FromBigEndian(b[..|b| - 1]) * 256 + b[|b| - 1] as nat
  }

  function Pow256(k: nat): (r: nat)
    ensures r > 0
  {
    if k == 0 then 1 else 256 * Pow256(k - 1)
  }

  lemma {:induction false} BigEndianRoundTrip(n: nat, k: nat)
    requires n < Pow256(k)
    ensures FromBigEndian(BigEndian(n, k)) == n
  {
    if k > 0 {
      BigEndianRoundTrip(n / 256, k - 1);
      assert BigEndian(n, k)[..k - 1] == BigEndian(n / 256, k - 1);
    }
  }

  /** The most significant byte comes first. */
  lemma {:induction false} BigEndianAt(n: nat, k: nat, i: nat)
    requires i < k
    ensures BigEndian(n, k)[i] as nat == n / Pow256(k - 1 - i) % 256
    decreases k
  {
    if i < k - 1 {
      BigEndianAt(n / 256, k - 1, i);
      DivideTwice(n, 256, Pow256(k - 2 - i));
    } else {
      WholeByte(n);
    }
  }

  lemma WholeByte(n: nat)
    ensures n / Pow256(0) == n
  {
  }

  lemma BigEndian64RoundTrip(n: u64)
    ensures FromBigEndian(BigEndian(n, WORD_BYTES)) == n
  {
    assert Pow256(WORD_BYTES) == TWO_64 by {
      assert Pow256(2) == 0x1_0000;
      assert Pow256(4) == 0x1_0000_0000;
      assert Pow256(6) == 0x1_0000_0000_0000;
    }
    BigEndianRoundTrip(n, WORD_BYTES);
  }

  // ----- The keystream as a function of the position -----

  function CounterBlock(stream: u64, counter: u64): Block {
    BigEndian(stream, WORD_BYTES) + BigEndian(counter, WORD_BYTES)
  }

  /** The counter block byte by byte: eight bytes of stream number, then eight bytes of block number, each
      most significant byte first. */
  lemma CounterBlockBytes(stream: u64, counter: u64, i: nat)
    requires i < 8
    ensures CounterBlock(stream, counter)[i] as nat == stream / Pow256(7 - i) % 256
    ensures CounterBlock(stream, counter)[8 + i] as nat == counter / Pow256(7 - i) % 256
  {
    hide BigEndian, Pow256;
    BigEndianAt(stream, WORD_BYTES, i);
    BigEndianAt(counter, WORD_BYTES, i);
  }

  /** The block cipher's outputs for the counter blocks of one stream. */
  type BlockStream = u64 -> Block

  function Blocks(aes: BlockCipher, stream: u64): BlockStream {
    (counter: u64) => aes(CounterBlock(stream, counter))
  }

  /** The keystream of a stream: its output blocks, one after the other; the counter wraps. */
  function StreamKey(blocks: BlockStream): Keystream {
    (pos: nat) => blocks((pos / 16) % TWO_64)[pos % 16]
  }

  /** The sixteen keystream bytes that start at a block boundary. */
  function KeyBlock(key: Keystream, block: nat): Block {
    seq(16, i requires 0 <= i < 16 => key(16 * block + i))
  }

  ghost predicate MadeOfBlocks(key: Keystream, blocks: BlockStream) {
    forall b: nat :: KeyBlock(key, b) == blocks(b % TWO_64)
  }

  lemma StreamKeyMadeOfBlocks(blocks: BlockStream)
    ensures MadeOfBlocks(StreamKey(blocks), blocks)
  {
    forall b: nat ensures KeyBlock(StreamKey(blocks), b) == blocks(b % TWO_64) {
      forall i | 0 <= i < 16 ensures KeyBlock(StreamKey(blocks), b)[i] == blocks(b % TWO_64)[i] {
        assert (16 * b + i) / 16 == b && (16 * b + i) % 16 == i;
      }
    }
  }

  lemma KeyAt(key: Keystream, blocks: BlockStream, b: nat, i: nat)
    requires MadeOfBlocks(key, blocks) && i < 16
    ensures key(16 * b + i) == blocks(b % TWO_64)[i]
  {
    assert KeyBlock(key, b)[i] == key(16 * b + i);
  }

  /** Each bit of the result is set exactly when the bit of the data differs from that of the keystream,
      which at a position is a byte of the cipher's output for the counter block of that position. */
  ghost predicate Combined(aes: BlockCipher, stream: u64, offset: nat, data: Bytes, r: Bytes) {
    && |r| == |data|
    && forall j: nat, i: nat :: j < |data| && i < 8 ==>
         (Bit(r[j], i)
          <==> Bit(data[j], i) != Bit(aes(CounterBlock(stream, (offset + j) / 16 % TWO_64))[(offset + j) % 16], i))
  }

  lemma SegmentBits(aes: BlockCipher, stream: u64, key: Keystream, offset: nat, data: Bytes)
    requires MadeOfBlocks(key, Blocks(aes, stream))
    ensures Combined(aes, stream, offset, data, Segment(key, offset, data))
  {
    hide Segment, Xor, Bit, CounterBlock, MadeOfBlocks;
    var r := Segment(key, offset, data);
    forall j: nat, i: nat | j < |data| && i < 8
      ensures Bit(r[j], i)
         <==> Bit(data[j], i) != Bit(aes(CounterBlock(stream, (offset + j) / 16 % TWO_64))[(offset + j) % 16], i)
    {
      SegmentAt(key, offset, data, j);
      KeyByte(aes, stream, key, offset + j);
      XorBit(data[j], key(offset + j), i);
    }
  }

  lemma KeyByte(aes: BlockCipher, stream: u64, key: Keystream, pos: nat)
    requires MadeOfBlocks(key, Blocks(aes, stream))
    ensures key(pos) == aes(CounterBlock(stream, pos / 16 % TWO_64))[pos % 16]
  {
    hide CounterBlock, MadeOfBlocks;
    SplitOffset(pos);
    KeyAt(key, Blocks(aes, stream), pos / 16, pos % 16);
  }

  lemma WrappedSuccessor(block: nat)
    ensures (block % TWO_64 + 1) % TWO_64 == (block + 1) % TWO_64
  {
  }

  /** Two counter blocks agree only for the same stream and the same block number, so no keystream
      block is used in two places (the uniqueness requirement of counter mode). */
  lemma CounterBlocksDistinct(s1: u64, c1: u64, s2: u64, c2: u64)
    requires CounterBlock(s1, c1) == CounterBlock(s2, c2)
    ensures s1 == s2 && c1 == c2
  {
    assert CounterBlock(s1, c1)[..8] == BigEndian(s1, WORD_BYTES);
    assert CounterBlock(s2, c2)[..8] == BigEndian(s2, WORD_BYTES);
    assert CounterBlock(s1, c1)[8..] == BigEndian(c1, WORD_BYTES);
    assert CounterBlock(s2, c2)[8..] == BigEndian(c2, WORD_BYTES);
    BigEndian64RoundTrip(s1);
    BigEndian64RoundTrip(c1);
    BigEndian64RoundTrip(s2);
    BigEndian64RoundTrip(c2);
  }

  // ----- The client's implementation: seek, then apply the keystream in place -----

  /** The stream cipher object the client seeks and applies: a block counter that wraps at 64 bits
      and a position inside the current keystream block. */
  class Ctr64 {
    const blocks: BlockStream
    var counter: u64
    var pos: nat

    ghost predicate Valid()
      reads this
    {
      pos < 16
    }

    constructor (aes: BlockCipher, nonce: u64)
      ensures Valid() && blocks == Blocks(aes, nonce) && counter == 0 && pos == 0
    {
      blocks := Blocks(aes, nonce);
      counter, pos := 0, 0;
    }

    method Seek(offset: u64)
      modifies this
      ensures Valid() && 16 * counter + pos == offset
    {
      counter, pos := offset / 16, offset % 16;
    }

    method ApplyKeystream(buf: array<byte>, ghost key: Keystream)
      requires Valid() && MadeOfBlocks(key, blocks)
      modifies this, buf
      ensures Valid()
      ensures buf[..] == Segment(key, old(16 * counter + pos), old(buf[..]))
    {
      hide Xor, MadeOfBlocks, Segment;
      ghost var input, start, b := buf[..], 16 * counter + pos, counter as nat;
      var i := 0;
      while i < buf.Length
        invariant 0 <= i <= buf.Length && Valid()
        invariant start + i == 16 * b + pos && counter == b % TWO_64
        invariant forall j :: 0 <= j < i ==> buf[j] == Xor(input[j], key(start + j))
        invariant forall j :: i <= j < buf.Length ==> buf[j] == input[j]
      {
        KeyAt(key, blocks, b, pos);
        assert key(start + i) == blocks(counter)[pos];
        buf[i] := Xor(buf[i], blocks(counter)[pos]);
        pos := pos + 1;
        if pos == 16 {
          WrappedSuccessor(b);
          pos, counter := 0, (counter + 1) % TWO_64;
          b := b + 1;
        }
        i := i + 1;
      }
      SegmentIs(key, start, input, buf[..]);
    }
  }

  /** The client's `segment`: seek to the byte offset and apply the keystream to a copy. */
  method RustSegment(aes: BlockCipher, streamNum: u64, offset: u64, data: Bytes, ghost key: Keystream)
    returns (r: Bytes)
    requires streamNum != 0 && MadeOfBlocks(key, Blocks(aes, streamNum))
    ensures r == Segment(key, offset, data)
    ensures Combined(aes, streamNum, offset, data, r)
  {
    SegmentBits(aes, streamNum, key, offset, data);
    hide Combined, MadeOfBlocks, CounterBlock;
    var cipher := new Ctr64(aes, streamNum);
    var buf := new byte[|data|](i requires 0 <= i < |data| => data[i]);
    assert buf[..] == data;
    cipher.Seek(offset);
    cipher.ApplyKeystream(buf, key);
    r := buf[..];
  }

  // ----- The browser's implementation: block number, padding, drop -----

  /** The incrementing function on the last 64 bits of a counter block (appendix B.1 of
      NIST SP 800-38A). */
  function Increment(iv: Block): Block {
    iv[..8] + BigEndian((FromBigEndian(iv[8..]) + 1) % TWO_64, WORD_BYTES)
  }

  lemma IncrementCounterBlock(stream: u64, counter: u64)
    ensures Increment(CounterBlock(stream, counter)) == CounterBlock(stream, (counter + 1) % TWO_64)
  {
    assert CounterBlock(stream, counter)[8..] == BigEndian(counter, WORD_BYTES);
    assert CounterBlock(stream, counter)[..8] == BigEndian(stream, WORD_BYTES);
    BigEndian64RoundTrip(counter);
  }

  /** Extends the output by at most one block of keystream. */
  method ApplyBlock(prefix: Bytes, data: Bytes, keystream: Block, ghost key: Keystream, ghost start: nat, ghost b: nat)
    returns (r: Bytes)
    requires |prefix| <= |data| && prefix == Segment(key, start, data[..|prefix|])
    requires start + |prefix| == 16 * b && keystream == KeyBlock(key, b)
    ensures |r| == Min(|prefix| + 16, |data|)
    ensures r == Segment(key, start, data[..|r|])
  {
    r := prefix;
    var i := 0;
    while i < 16 && |r| < |data|
      invariant 0 <= i <= 16 && |r| <= |data| && |r| == |prefix| + i
      invariant r == Segment(key, start, data[..|r|])
    {
      SegmentSnoc(key, start, data, |r|);
      assert key(start + |r|) == keystream[i];
      r, i := r + [Xor(data[|r|], keystream[i])], i + 1;
    }
  }

  /** The platform's counter-mode encryption: one counter block per sixteen bytes, starting at
      `iv`; the last block may be partial. */
  method CtrEncrypt(aes: BlockCipher, iv: Block, data: Bytes, ghost key: Keystream, ghost stream: u64, ghost block: u64)
    returns (r: Bytes)
    requires iv == CounterBlock(stream, block) && MadeOfBlocks(key, Blocks(aes, stream))
    ensures r == Segment(key, 16 * block, data)
  {
    hide Segment, MadeOfBlocks, Increment, CounterBlock, KeyBlock;
    r := [];
    NothingYet(key, 16 * block, data);
    var t := iv;
    ghost var b: nat := block;
    while |r| < |data|
      invariant |r| <= |data| && (|r| < |data| ==> 16 * block + |r| == 16 * b)
      invariant t == CounterBlock(stream, b % TWO_64)
      invariant r == Segment(key, 16 * block, data[..|r|])
    {
      OutputBlock(aes, key, stream, b);
      r := ApplyBlock(r, data, aes(t), key, 16 * block, b);
      IncrementCounterBlock(stream, b % TWO_64);
      WrappedSuccessor(b);
      t, b := Increment(t), b + 1;
    }
    assert data[..|r|] == data;
  }

  lemma NothingYet(key: Keystream, offset: nat, data: Bytes)
    ensures [] == Segment(key, offset, data[..0])
  {
  }

  /** The cipher's output for a counter block is the keystream of that block. */
  lemma OutputBlock(aes: BlockCipher, key: Keystream, stream: u64, b: nat)
    requires MadeOfBlocks(key, Blocks(aes, stream))
    ensures aes(CounterBlock(stream, b % TWO_64)) == KeyBlock(key, b)
  {
    hide CounterBlock, KeyBlock;
    assert KeyBlock(key, b) == Blocks(aes, stream)(b % TWO_64);
  }

  lemma SplitOffset(offset: nat)
    ensures 16 * (offset / 16) + offset % 16 == offset
  {
  }

  method Pad(data: Bytes, padBytes: nat) returns (r: Bytes)
    ensures |r| == padBytes + |data| && r[padBytes..] == data
  {
    var padded := new byte[padBytes + |data|](_ => 0);
    forall i | 0 <= i < |data| {
      padded[padBytes + i] := data[i];
    }
    r := padded[..];
  }

  /** The browser's `segment`: the counter starts at `offset >> 4`, the data is padded in front by
      `offset % 16` bytes, and the padding is dropped from the result. */
  method TsSegment(aes: BlockCipher, streamNum: u64, offset: u64, data: Bytes, ghost key: Keystream) returns (r: Bytes)
    requires streamNum != 0 && MadeOfBlocks(key, Blocks(aes, streamNum))
    ensures r == Segment(key, offset, data)
    ensures Combined(aes, streamNum, offset, data, r)
  {
    SegmentBits(aes, streamNum, key, offset, data);
    hide Combined, MadeOfBlocks;
    var blockNum: u64, padBytes := offset / 16, offset % 16;
    SplitOffset(offset);
    var paddedData := Pad(data, padBytes);
    SegmentDrop(key, 16 * blockNum, paddedData, padBytes);
    var iv: Block := BigEndian(streamNum, WORD_BYTES) + BigEndian(blockNum, WORD_BYTES);
    var encrypted := CtrEncrypt(aes, iv, paddedData, key, streamNum, blockNum);
    r := encrypted[padBytes..];
  }

  /** A stream has one keystream: two that are made of the same blocks agree everywhere. */
  lemma KeystreamUnique(k1: Keystream, k2: Keystream, blocks: BlockStream, pos: nat)
    requires MadeOfBlocks(k1, blocks) && MadeOfBlocks(k2, blocks)
    ensures k1(pos) == k2(pos)
  {
    SplitOffset(pos);
    KeyAt(k1, blocks, pos / 16, pos % 16);
    KeyAt(k2, blocks, pos / 16, pos % 16);
  }

  // ----- Stream numbers -----

  /** The stream of a shell's output; shell ids have 32 bits. */
  function OutputStream(id: nat): u64
    requires id < 0x1_0000_0000
  {
    0x1_0000_0000 + id
  }

  /** The stream of keyboard input, shared by all shells. */
  const INPUT_STREAM: u64 := 0x2_0000_0000

  /** Output streams are nonzero, differ from each other and differ from the input stream, and none
      of their counter blocks coincide. */
  lemma OutputStreamsDisjoint(id1: nat, id2: nat, c1: u64, c2: u64)
    requires id1 < 0x1_0000_0000 && id2 < 0x1_0000_0000
    ensures OutputStream(id1) != 0
    ensures OutputStream(id1) / 0x1_0000_0000 == 1 && OutputStream(id1) % 0x1_0000_0000 == id1
    ensures INPUT_STREAM / 0x1_0000_0000 == 2 && INPUT_STREAM % 0x1_0000_0000 == 0
    ensures CounterBlock(OutputStream(id1), c1) == CounterBlock(OutputStream(id2), c2) ==> id1 == id2 && c1 == c2
    ensures CounterBlock(OutputStream(id1), c1) != CounterBlock(INPUT_STREAM, c2)
  {
    if CounterBlock(OutputStream(id1), c1) == CounterBlock(OutputStream(id2), c2) {
      CounterBlocksDistinct(OutputStream(id1), c1, OutputStream(id2), c2);
    }
    if CounterBlock(OutputStream(id1), c1) == CounterBlock(INPUT_STREAM, c2) {
      CounterBlocksDistinct(OutputStream(id1), c1, INPUT_STREAM, c2);
    }
  }
}

/** The browser's end of the path, and what holds of the whole: whatever happens on the way, what a
    subscriber is served decrypts to exactly the piece of the output log that its label names. */
module EndToEnd {
  import opened ByteSeqs
  import opened Utf8
  import opened Encoding
  import opened Keystreams
  import opened Encrypt
  import opened ShellStore
  import opened Subscription
  import opened Producer
  import opened ProducerRuns
  import opened Replication

  // ----- The browser's chunk handler -----

  /** The handler counts the chunks, decrypts each one at the running position and decodes it with
      a fresh decoder; `writes` is what the terminal is given. */
  method HandleChunks(aes: BlockCipher, id: nat, seqnum0: nat, chunknum0: nat, chunks: seq<Bytes>, ghost key: Keystream)
    returns (writes: seq<seq<nat>>, chunknum: nat)
    requires id < 0x1_0000_0000 && seqnum0 + Total(chunks) < TWO_64
    requires MadeOfBlocks(key, Blocks(aes, OutputStream(id)))
    ensures chunknum == chunknum0 + |chunks|
    ensures |writes| == |chunks|
    ensures forall i :: 0 <= i < |chunks| ==> writes[i] == TextDecode(DecryptChunks(key, seqnum0, chunks)[i])
    ensures Flatten(writes) == DecodePieces(DecryptChunks(key, seqnum0, chunks))
    ensures Shows(DecryptChunks(key, seqnum0, chunks), writes)
  {
    hide Shows, MadeOfBlocks, TextDecode, Segment, DecodePieces, Flatten, Texts, DecryptChunks, Total, Written, Blocks;
    chunknum := chunknum0 + |chunks|;
    writes := [];
    var seqnum: nat := seqnum0;
    var rest := chunks;
    ghost var all := Texts(DecryptChunks(key, seqnum0, chunks));
    WrittenEnds(key, chunks, seqnum0);
    while rest != []
      invariant seqnum + Total(rest) < TWO_64
      invariant Written(key, writes, seqnum, rest) == all
      decreases |rest|
    {
      var data := rest[0];
      var buf := TsSegment(aes, OutputStream(id), seqnum, data, key);
      WriteOne(key, writes, seqnum, rest);
      TotalHead(rest);
      seqnum := seqnum + |data|;
      writes := writes + [TextDecode(buf)];
      rest := rest[1..];
    }
    WrittenAll(key, writes, seqnum);
    PiecesText(DecryptChunks(key, seqnum0, chunks));
    ShowsTexts(DecryptChunks(key, seqnum0, chunks));
  }

  /** Where a piece is the UTF-8 encoding of a text, that text is written, without a mark at its start. */
  ghost predicate Shows(pieces: seq<Bytes>, writes: seq<seq<nat>>) {
    && |writes| == |pieces|
    && forall i, text :: 0 <= i < |pieces| && AllScalars(text) && pieces[i] == EncodeAll(text) ==>
         writes[i] == WithoutMark(text)
  }

  lemma ShowsTexts(pieces: seq<Bytes>)
    ensures Shows(pieces, Texts(pieces))
  {
    hide TextDecode, EncodeAll, WithoutMark, AllScalars;
    forall i, text | 0 <= i < |pieces| && AllScalars(text) && pieces[i] == EncodeAll(text)
      ensures Texts(pieces)[i] == WithoutMark(text)
    {
      TextDecodeEncoded(text);
    }
  }

  lemma PiecesText(pieces: seq<Bytes>)
    ensures Flatten(Texts(pieces)) == DecodePieces(pieces)
  {
  }

  lemma TotalHead(chunks: seq<Bytes>)
    requires chunks != []
    ensures Total(chunks) == |chunks[0]| + Total(chunks[1..])
  {
  }

  /** What is written once the remaining chunks are handled as well. */
  ghost function Written(key: Keystream, writes: seq<seq<nat>>, seqnum: nat, rest: seq<Bytes>): seq<seq<nat>> {
    writes + Texts(DecryptChunks(key, seqnum, rest))
  }

  lemma WrittenEnds(key: Keystream, chunks: seq<Bytes>, seqnum: nat)
    ensures Written(key, [], seqnum, chunks) == Texts(DecryptChunks(key, seqnum, chunks))
  {
  }

  lemma WrittenAll(key: Keystream, writes: seq<seq<nat>>, seqnum: nat)
    ensures Written(key, writes, seqnum, []) == writes
  {
  }

  lemma WriteOne(key: Keystream, writes: seq<seq<nat>>, seqnum: nat, rest: seq<Bytes>)
    requires rest != []
    ensures Written(key, writes, seqnum, rest)
         == Written(key, writes + [TextDecode(Segment(key, seqnum, rest[0]))], seqnum + |rest[0]|, rest[1..])
  {
    hide TextDecode, Segment;
    var pieces := DecryptChunks(key, seqnum, rest);
    assert pieces[1..] == DecryptChunks(key, seqnum + |rest[0]|, rest[1..]);
    assert Texts(pieces) == [TextDecode(pieces[0])] + Texts(pieces[1..]);
  }

  // ----- Safety of every run -----

  lemma DecryptedMessage(key: Keystream, log: Bytes, q: nat, data: Bytes)
    requires WellFormed(log) && MessageOk(key, log, TerminalData(q, data))
    ensures q + |data| <= |log| && Segment(key, q, data) == log[q..q + |data|] && WellFormed(log[q..q + |data|])
  {
    MessageWhole(key, log, q, data);
    hide WellFormed, IsCharBoundary, Segment, MessageOk;
    DecryptedSlice(key, q, data, log[q..q + |data|]);
  }

  lemma MessageWhole(key: Keystream, log: Bytes, q: nat, data: Bytes)
    requires WellFormed(log) && MessageOk(key, log, TerminalData(q, data))
    ensures q + |data| <= |log| && data == Segment(key, q, log[q..q + |data|]) && WellFormed(log[q..q + |data|])
  {
    hide WellFormed, IsCharBoundary, Segment;
    BetweenBoundaries(log, q, q + |data|);
  }

  lemma DecryptedSlice(key: Keystream, q: nat, data: Bytes, plain: Bytes)
    requires data == Segment(key, q, plain)
    ensures Segment(key, q, data) == plain
  {
    hide Segment;
    SegmentInvolution(key, q, plain);
  }

  lemma FlattenCons<T>(head: seq<T>, tail: seq<seq<T>>)
    ensures Flatten([head] + tail) == head + Flatten(tail)
    ensures forall p :: p in [head] + tail ==> p == head || p in tail
  {
    assert ([head] + tail)[1..] == tail;
  }

  /** Chunks in place decrypt, chunk by chunk at running positions, to whole characters that spell
      the log from their position on. */
  lemma {:induction false} DecryptedPieces(key: Keystream, log: Bytes, q: nat, chunks: seq<Bytes>)
    requires WellFormed(log) && q <= |log| && ChunksOk(key, log, q, chunks)
    ensures q + Total(chunks) <= |log|
    ensures Flatten(DecryptChunks(key, q, chunks)) == log[q..q + Total(chunks)]
    ensures forall p :: p in DecryptChunks(key, q, chunks) ==> WellFormed(p)
    decreases |chunks|
  {
    hide WellFormed, MessageOk, Segment;
    if chunks == [] {
      assert log[q..q] == [];
    } else {
      var head, rest := chunks[0], chunks[1..];
      DecryptedMessage(key, log, q, head);
      var next := q + |head|;
      DecryptedPieces(key, log, next, rest);
      var later := DecryptChunks(key, next, rest);
      assert DecryptChunks(key, q, chunks) == [log[q..next]] + later;
      assert Total(chunks) == |head| + Total(rest);
      hide DecryptChunks, Total, ChunksOk;
      FlattenCons(log[q..next], later);
      JoinSlices(log, q, next, next + Total(rest));
    }
  }

  /** The batch, decrypted chunk by chunk at its label, is exactly the log from the label on; every
      piece is whole characters; and fresh decoders show exactly the text of that part of the log
      unless a piece starts with a byte order mark. */
  ghost predicate ShowsLog(key: Keystream, log: Bytes, batch: Batch) {
    var end := batch.seqnum + Total(batch.chunks);
    var pieces := DecryptChunks(key, batch.seqnum, batch.chunks);
    && end <= |log|
    && Flatten(pieces) == log[batch.seqnum..end]
    && (forall p :: p in pieces ==> WellFormed(p))
    && (DecodePieces(pieces) == Decode(log[batch.seqnum..end]) <==> forall p :: p in pieces ==> !StartsWithBom(p))
  }

  /** End to end, over every run: however messages and reports were lost, repeated, reordered,
      trimmed, pruned, saved, restored or resent, every batch served to anyone shows the log. */
  lemma ServedIsLog(key: Keystream, actions: seq<Action>, i: nat)
    requires i < |Run(key, INITIAL, actions).served|
    ensures ShowsLog(key, Run(key, INITIAL, actions).log, Run(key, INITIAL, actions).served[i].batch)
  {
    ReachableOk(key, actions);
    hide Run;
    ServedBatch(key, Run(key, INITIAL, actions), i);
  }

  lemma ServedBatch(key: Keystream, sys: System, i: nat)
    requires SystemOk(key, sys) && NoneIsEmpty(sys.served) && i < |sys.served|
    ensures ShowsLog(key, sys.log, sys.served[i].batch)
  {
    hide WellFormed, ChunksOk, WireOk, ShellOk, ReportsOk, ShellsOk, ShowsLog;
    BatchShowsLog(key, sys.log, sys.served[i].batch);
  }

  lemma BatchShowsLog(key: Keystream, log: Bytes, batch: Batch)
    requires WellFormed(log) && batch.chunks != [] && ChunksOk(key, log, batch.seqnum, batch.chunks)
    ensures ShowsLog(key, log, batch)
  {
    hide WellFormed, ChunksOk, Decode, DecodePieces, DecryptChunks, Total, Flatten, StartsWithBom;
    BatchStarts(key, log, batch);
    DecryptedPieces(key, log, batch.seqnum, batch.chunks);
    FreshDecodersIff(DecryptChunks(key, batch.seqnum, batch.chunks));
  }

  lemma ReachableOk(key: Keystream, actions: seq<Action>)
    ensures SystemOk(key, Run(key, INITIAL, actions)) && NoneIsEmpty(Run(key, INITIAL, actions).served)
  {
    InitialOk(key);
    hide SystemOk, Run;
    RunOk(key, INITIAL, actions);
    ServedNonEmpty(key, INITIAL, actions);
  }

  lemma InitialOk(key: Keystream)
    ensures SystemOk(key, INITIAL)
  {
  }

  lemma BatchStarts(key: Keystream, log: Bytes, batch: Batch)
    requires batch.chunks != [] && ChunksOk(key, log, batch.seqnum, batch.chunks)
    ensures batch.seqnum <= |log|
  {
  }

  ghost predicate NoneIsEmpty(served: seq<Served>) {
    forall i :: 0 <= i < |served| ==> served[i].batch.chunks != []
  }

  lemma {:induction false} ServedNonEmpty(key: Keystream, sys: System, actions: seq<Action>)
    requires NoneIsEmpty(sys.served)
    ensures NoneIsEmpty(Run(key, sys, actions).served)
    decreases |actions|
  {
    if actions != [] {
      ActServesNonEmpty(key, sys, actions[0]);
      hide Act;
      ServedNonEmpty(key, Act(key, sys, actions[0]), actions[1..]);
    }
  }

  lemma ActServesNonEmpty(key: Keystream, sys: System, a: Action)
    requires NoneIsEmpty(sys.served)
    ensures NoneIsEmpty(Act(key, sys, a).served)
  {
    hide TaskEvent, ReadChunks, NextCursor, ShellStore.AddData, Prune, WellFormed;
    match a
    case Wake(e) => TaskEventServed(key, sys, e);
    case ReportArrives(i) => if i < |sys.reports| { TaskEventServed(key, sys, Sync(sys.reports[i])); }
    case _ =>
  }

  lemma TaskEventServed(key: Keystream, sys: System, e: Event)
    ensures TaskEvent(key, sys, e).served == sys.served
  {
  }

  // ----- Character boundaries -----

  lemma {:induction false} ChunkEndsAreBoundaries(key: Keystream, log: Bytes, q: nat, chunks: seq<Bytes>, i: nat)
    requires ChunksOk(key, log, q, chunks) && i < |chunks|
    ensures IsCharBoundary(log, q + Total(chunks[..i])) && IsCharBoundary(log, q + Total(chunks[..i + 1]))
    decreases i
  {
    if i == 0 {
      assert chunks[..0] == [] && chunks[..1] == [chunks[0]];
      SingleTotal(chunks[0]);
    } else {
      ChunkEndsAreBoundaries(key, log, q + |chunks[0]|, chunks[1..], i - 1);
      assert chunks[..i][0] == chunks[0] && chunks[..i][1..] == chunks[1..][..i - 1];
      assert chunks[..i + 1][0] == chunks[0] && chunks[..i + 1][1..] == chunks[1..][..i];
    }
  }

  /** Both ends of the `i`th stored chunk. */
  predicate ChunkCutAtBoundaries(log: Bytes, s: Shell, i: nat)
    requires i < |s.data|
  {
    IsCharBoundary(log, s.byteOffset + Total(s.data[..i])) && IsCharBoundary(log, s.byteOffset + Total(s.data[..i + 1]))
  }

  predicate MessageCutAtBoundaries(log: Bytes, m: TerminalData) {
    IsCharBoundary(log, m.seq0) && IsCharBoundary(log, m.seq0 + |m.data|)
  }

  /** Over every run, every position held anywhere is a character boundary of the output log: the
      client's window and its idea of the server's position, both ends of every message, every
      reported position, the server's position, and both ends of every stored chunk. */
  lemma PositionsAreBoundaries(key: Keystream, actions: seq<Action>)
    ensures var sys := Run(key, INITIAL, actions);
            && WellFormed(sys.log)
            && (sys.task.status != Faulted ==>
                  IsCharBoundary(sys.log, sys.task.contentOffset) && IsCharBoundary(sys.log, sys.task.seqnum))
            && (forall i :: 0 <= i < |sys.wire| ==> MessageCutAtBoundaries(sys.log, sys.wire[i]))
            && (forall i :: 0 <= i < |sys.reports| ==> IsCharBoundary(sys.log, sys.reports[i]))
            && (sys.shell.Some? ==> IsCharBoundary(sys.log, sys.shell.value.seqnum))
            && (sys.shell.Some? ==>
                  forall i :: 0 <= i < |sys.shell.value.data| ==> ChunkCutAtBoundaries(sys.log, sys.shell.value, i))
  {
    ReachableOk(key, actions);
    var sys := Run(key, INITIAL, actions);
    hide Run, WellFormed, IsCharBoundary, ChunksOk, Total, ServedOk, ShellsOk;
    if sys.shell.Some? {
      var s := sys.shell.value;
      forall i | 0 <= i < |s.data| ensures ChunkCutAtBoundaries(sys.log, s, i) {
        ChunkEndsAreBoundaries(key, sys.log, s.byteOffset, s.data, i);
      }
    }
  }

  /** Over every run, a position of the stream is only ever encrypted for one byte: two messages that
      both cover a position carry the same ciphertext byte there, however often it was resent. */
  lemma ResendsAgree(key: Keystream, actions: seq<Action>, i: nat, j: nat, pos: nat)
    requires var wire := Run(key, INITIAL, actions).wire;
             && i < |wire| && wire[i].seq0 <= pos < wire[i].seq0 + |wire[i].data|
             && j < |wire| && wire[j].seq0 <= pos < wire[j].seq0 + |wire[j].data|
    ensures var wire := Run(key, INITIAL, actions).wire;
            wire[i].data[pos - wire[i].seq0] == wire[j].data[pos - wire[j].seq0]
  {
    ReachableOk(key, actions);
    hide Run, ShellOk, ServedOk, ShellsOk, ReportsOk, TaskOk, MessageOk;
    var sys := Run(key, INITIAL, actions);
    assert WireOk(key, sys.log, sys.wire);
    hide SystemOk;
    MessageByte(key, sys.log, sys.wire[i], pos);
    MessageByte(key, sys.log, sys.wire[j], pos);
  }

  lemma MessageByte(key: Keystream, log: Bytes, m: TerminalData, pos: nat)
    requires MessageOk(key, log, m) && m.seq0 <= pos < m.seq0 + |m.data|
    ensures pos < |log|
    ensures m.data[pos - m.seq0] == Xor(log[pos], key(pos))
  {
    SegmentAt(key, m.seq0, log[m.seq0..m.seq0 + |m.data|], pos - m.seq0);
  }
}

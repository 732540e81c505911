/** Small concrete runs in which the code does not do what one would expect of it. */
module Instances {
  import opened ByteSeqs
  import opened KeyedLists
  import opened Utf8
  import opened Keystreams
  import opened ShellStore
  import opened SessionModel
  import opened Subscription
  import opened Producer
  import opened ProducerRuns
  import opened Replication
  import AsyncLock
  import Outages

  // ----- A restored session lists a closed shell -----

  const ID: Sid := 1

  /** Add a shell, close it, take a snapshot and restore: the closed shell is listed. */
  lemma RestoredListsClosed(zeros: Bytes, name: string) returns (states: seq<SessionState>, steps: seq<Step>)
    ensures History(states, steps) && |states| == 4
    ensures Ids(states[2].source) == {} == OpenIds(states[2].shells)
    ensures Ids(states[3].source) == {ID} && OpenIds(states[3].shells) == {} && ID in ClosedIds(states[3].shells)
  {
    hide Apply, Serialize, RestoredFrom, Ids, History, OpenIds, ClosedIds;
    var s0 := SessionState(Metadata(zeros, name, None, UNKNOWN_MACHINE), map[], [], 1, 1);
    var add, close := Op.AddShell(ID, 0, 0), Op.CloseShell(ID);
    var s1 := Apply(s0, add).0;
    var s2 := Apply(s1, close).0;
    AddedAndClosed(s0);
    var s3 := s2.(source := [Entry(ID, DEFAULT_WINSIZE)]);
    ListOfOne(ID, DEFAULT_WINSIZE);
    ClosedRestores(s2, s3);
    states, steps := ThreeStepHistory(s0, s1, s2, s3, add, close);
  }

  lemma ThreeStepHistory(s0: SessionState, s1: SessionState, s2: SessionState, s3: SessionState, a: Op, b: Op)
    returns (states: seq<SessionState>, steps: seq<Step>)
    requires s0.shells == map[] && s0.source == []
    requires s1 == Apply(s0, a).0 && s2 == Apply(s1, b).0 && RestoredFrom(s3, Serialize(s2))
    ensures History(states, steps) && |states| == 4 && states[2] == s2 && states[3] == s3
  {
    hide Apply, Serialize, RestoredFrom;
    states, steps := [s0, s1, s2, s3], [Do(a), Do(b), Restore(2)];
    ThreeSteps(states, steps);
  }

  lemma ThreeSteps(states: seq<SessionState>, steps: seq<Step>)
    requires |states| == 4 && |steps| == 3 && states[0].shells == map[] && states[0].source == []
    requires Follows(states, 0, steps[0]) && Follows(states, 1, steps[1]) && Follows(states, 2, steps[2])
    ensures History(states, steps)
  {
    hide Follows;
    forall i | 0 <= i < 3 ensures Follows(states, i, steps[i]) {
      assert i == 0 || i == 1 || i == 2;
    }
  }

  const CLOSED: Shell := FRESH_SHELL.(closed := true)

  lemma AddedAndClosed(s: SessionState)
    requires s.shells == map[] && s.source == []
    ensures var s' := Apply(Apply(s, Op.AddShell(ID, 0, 0)).0, Op.CloseShell(ID)).0;
            && s'.metadata == s.metadata && s'.shells == map[ID := CLOSED] && s'.source == []
            && Ids(s'.source) == {} && OpenIds(s'.shells) == {}
  {
    var s1 := Apply(s, Op.AddShell(ID, 0, 0)).0;
    assert s1.source == [Entry(ID, DEFAULT_WINSIZE)] && s1.source[1..] == [];
    assert Without(s1.source, ID) == [];
  }

  lemma ClosedRestores(s: SessionState, r: SessionState)
    requires s.shells == map[ID := CLOSED] && s.source == [] && s.metadata.writePasswordHash == None
    requires s.metadata.machine == UNKNOWN_MACHINE
    requires r == s.(source := [Entry(ID, DEFAULT_WINSIZE)])
    ensures RestoredFrom(r, Serialize(s))
    ensures OpenIds(r.shells) == {} && ID in ClosedIds(r.shells)
  {
    ListOfOne(ID, DEFAULT_WINSIZE);
    ClosedPruned();
    hide Ids, Distinct, Prune, SizeOf;
    var m := Serialize(s);
    assert m.shells.Keys == {ID} && m.shells[ID] == SerializeShell(CLOSED, SizeOf([], ID));
    NothingListed(ID);
    hide Serialize;
  }

  lemma NothingListed(id: Sid)
    ensures SizeOf([], id) == DEFAULT_WINSIZE
  {
  }

  lemma ClosedPruned()
    ensures Prune(CLOSED, SHELL_SNAPSHOT_BYTES) == CLOSED
  {
  }

  lemma ListOfOne(id: Sid, size: Winsize)
    ensures var list := [Entry(id, size)];
            Ids(list) == {id} && Distinct(list) && SizeOf(list, id) == size
  {
    assert [Entry(id, size)][1..] == [];
  }

  // ----- A subscriber's count after a skip -----

  const CHUNKS: nat := 9

  function Repeat(c: Bytes, n: nat): (r: seq<Bytes>)
    ensures |r| == n && forall i :: 0 <= i < n ==> r[i] == c
  {
    if n == 0 then [] else Repeat(c, n - 1) + [c]
  }

  /** Segments of the same content, one after the other. */
  function Feed(c: Bytes, n: nat): (r: seq<TerminalData>)
    ensures |r| == n
  {
    if n == 0 then [] else Feed(c, n - 1) + [TerminalData((n - 1) * |c|, c)]
  }

  lemma {:induction false} RepeatTotal(c: Bytes, n: nat)
    ensures Total(Repeat(c, n)) == n * |c|
    decreases n
  {
    if n == 0 {
    } else {
      RepeatTotal(c, n - 1);
      TotalAppend(Repeat(c, n - 1), [c]);
      assert [c][1..] == [];
    }
  }

  lemma {:induction false} FeedLog(c: Bytes, n: nat)
    requires c != []
    ensures RunLog([], Feed(c, n)) == Repeat(c, n)
    decreases n
  {
    if n == 0 {
    } else {
      FeedStep(c, n);
      hide RunLog, Feed, Repeat;
      FeedLog(c, n - 1);
      RunLogSplit([], Feed(c, n), n - 1);
      RepeatTotal(c, n - 1);
      OneSegment(Repeat(c, n - 1), TerminalData((n - 1) * |c|, c));
    }
  }

  lemma FeedStep(c: Bytes, n: nat)
    requires n > 0
    ensures Feed(c, n)[..n - 1] == Feed(c, n - 1) && Feed(c, n)[n - 1..] == [TerminalData((n - 1) * |c|, c)]
    ensures Repeat(c, n) == Repeat(c, n - 1) + [c]
  {
  }

  lemma OneSegment(all: seq<Bytes>, x: TerminalData)
    requires x.seq0 == Total(all) && x.data != []
    ensures RunLog(all, [x]) == all + [x.data]
  {
    hide Total;
    assert [x][1..] == [] && x.data[0..] == x.data;
    assert RunLog(all, [x]) == RunLog(LogAdd(all, x.data, x.seq0), []);
  }

  /** Nine chunks of 64 KiB are stored before the first read: the first one is pruned, eight arrive,
      and a browser that resumes from its count of eight gets the last one a second time. */
  lemma SkippedChunk(c: Bytes)
    requires |c| == CONTENT_CHUNK_SIZE
    ensures var s := RunShell(FRESH_SHELL, Feed(c, CHUNKS));
            var got := AllChunks(Yields([s], 0));
            && Skipped([s], 0) == 1
            && |got| == CHUNKS - 1 && EndCursor([s], 0) == CHUNKS
            && ReadChunks(|got|, s).chunks == [c] && got[|got| - 1] == c
  {
    var n := CHUNKS;
    hide Repeat, Feed, RunLog, RunShell, Total;
    FeedLog(c, n);
    FreshShellRun(Feed(c, n));
    var s, all := RunShell(FRESH_SHELL, Feed(c, n)), Repeat(c, n);
    assert all[0..] == all && all[1..] == Repeat(c, n - 1) by { RepeatDrop(c, n); }
    RepeatTotal(c, n);
    RepeatTotal(c, n - 1);
    assert s.chunkOffset == 1;
    ReadNine(s, c);
  }

  lemma RepeatDrop(c: Bytes, n: nat)
    requires n > 0
    ensures Repeat(c, n)[1..] == Repeat(c, n - 1)
  {
  }

  lemma ReadNine(s: Shell, c: Bytes)
    requires s.chunkOffset == 1 && |s.data| == CHUNKS - 1 && forall i :: 0 <= i < |s.data| ==> s.data[i] == c
    ensures Skipped([s], 0) == 1 && EndCursor([s], 0) == CHUNKS
    ensures AllChunks(Yields([s], 0)) == s.data
    ensures ReadChunks(CHUNKS - 1, s).chunks == [c]
  {
    hide Total;
    var batch := ReadChunks(0, s);
    assert [s][1..] == [] && s.data[0..] == s.data && batch.chunks == s.data;
    YieldsHead([s], 0);
    assert Yields([], NextCursor(0, s)) == [];
    assert batch.chunks + [] == s.data;
    assert Skipped([], NextCursor(0, s)) == 0;
  }

  /** Two batches arrive, the first one is being written: the count covers the first one only. */
  lemma LaggingCount<W>(a: seq<W>, b: seq<W>)
    requires a != [] && b != []
    ensures var s := AsyncLock.Run(AsyncLock.Idle<W>(), [AsyncLock.Submit(a), AsyncLock.Submit(b), AsyncLock.Step(0)]);
            && s.submitted == [a, b] && s.counted == |a| < |Flatten(s.submitted)|
            && s.queue == [b] && AsyncLock.LockOk(s)
  {
    var e0, e1 := AsyncLock.Submit(a), AsyncLock.Submit(b);
    var e2: AsyncLock.Event<W> := AsyncLock.Step(0);
    AsyncLock.RunOk(AsyncLock.Idle<W>(), [e0, e1, e2]);
    RunThreeEvents(AsyncLock.Idle<W>(), e0, e1, e2);
    hide AsyncLock.LockOk, AsyncLock.Run;
    FlattenTwo(a, b);
  }

  lemma RunThreeEvents<W>(
      s: AsyncLock.LockState<W>, e0: AsyncLock.Event<W>, e1: AsyncLock.Event<W>, e2: AsyncLock.Event<W>)
    ensures AsyncLock.Run(s, [e0, e1, e2]) == AsyncLock.Act(AsyncLock.Act(AsyncLock.Act(s, e0), e1), e2)
  {
    hide AsyncLock.Act;
    var s1 := AsyncLock.Act(s, e0);
    var s2 := AsyncLock.Act(s1, e1);
    assert [e0, e1, e2][1..] == [e1, e2] && [e1, e2][1..] == [e2] && [e2][1..] == [];
    assert AsyncLock.Run(s2, [e2]) == AsyncLock.Run(AsyncLock.Act(s2, e2), []);
    assert AsyncLock.Run(s1, [e1, e2]) == AsyncLock.Run(s2, [e2]);
  }

  // ----- A chunk that starts with a byte order mark -----

  /** The task has nothing to send, and the server has everything. */
  ghost predicate InStep(sys: System) {
    && TaskOk(sys.task, sys.log) && CaughtUp(sys.task) && sys.task.status == Live
    && IsOpen(sys.shell) && sys.shell.value.seqnum == |sys.log|
  }

  /** Output that arrives at once becomes one more chunk. */
  lemma DeliveredOutput(key: Keystream, sys: System, text: Bytes)
    requires InStep(sys) && WellFormed(text) && 0 < |text| <= CONTENT_CHUNK_SIZE
    requires Total(sys.shell.value.data) + |text| <= SHELL_STORED_BYTES
    ensures var sys' := Act(key, Act(key, sys, Wake(Output(text))), Deliver(|sys.wire|));
            && InStep(sys') && IsOpen(sys'.shell) && sys'.log == sys.log + text
            && sys'.served == sys.served && sys'.cursors == sys.cursors && |sys'.wire| == |sys.wire| + 1
            && var s, s' := sys.shell.value, sys'.shell.value;
            && s'.data == s.data + [Segment(key, |sys.log|, text)]
            && s'.chunkOffset == s.chunkOffset && s'.byteOffset == s.byteOffset
  {
    hide TaskOk, Iterate, WellFormed, Segment, CaughtUp, Total;
    var e := Output(text);
    InStepTurn(key, sys.task, sys.log, text);
    var turn := Iterate(key, sys.task, e);
    var sys1 := Act(key, sys, Wake(e));
    assert sys1 == sys.(log := sys.log + text, task := turn.0, wire := sys.wire + [turn.1.value]);
    StoredWhole(sys.shell.value, turn.1.value);
    hide ShellStore.AddData;
  }

  lemma InStepTurn(key: Keystream, t: Task, log: Bytes, text: Bytes)
    requires TaskOk(t, log) && CaughtUp(t) && t.status == Live && WellFormed(text) && 0 < |text| <= CONTENT_CHUNK_SIZE
    ensures var turn := Iterate(key, t, Output(text));
            && TaskOk(turn.0, log + text) && CaughtUp(turn.0) && turn.0.status == Live
            && turn.1 == Some(TerminalData(|log|, Segment(key, |log|, text)))
  {
    var e := Output(text);
    assert Grow(t, log, e) == log + text && (log + text)[|log|..] == text;
    hide TaskOk, CaughtUp, Iterate, WellFormed, Segment;
    CaughtUpTurn(key, t, log, e);
    IterateOk(key, t, log, e);
    CaughtUpLive(key, t, e);
  }

  lemma CaughtUpLive(key: Keystream, t: Task, e: Event)
    requires t.status == Live && e.Output? && CaughtUp(Iterate(key, t, e).0)
    ensures Iterate(key, t, e).0.status == Live
  {
    hide Iterate;
    StaysLive(key, t, e);
  }

  lemma StaysLive(key: Keystream, t: Task, e: Event)
    requires t.status == Live && e.Output? && Iterate(key, t, e).0.status != Faulted
    ensures Iterate(key, t, e).0.status == Live
  {
    hide ChunkStart, ChunkEnd, Cut, PrevCharBoundary;
  }

  lemma StoredWhole(s: Shell, m: TerminalData)
    requires m.seq0 == s.seqnum && m.data != [] && Total(s.data) + |m.data| <= SHELL_STORED_BYTES
    ensures ShellStore.AddData(s, m.data, m.seq0) == s.(seqnum := s.seqnum + |m.data|, data := s.data + [m.data])
  {
    assert m.data[0..] == m.data;
    TotalAppend(s.data, [m.data]);
    SingleTotal(m.data);
    var all := s.data + [m.data];
    assert Excess(all, SHELL_STORED_BYTES) == 0 && all[0..] == all && all[..0] == [];
  }

  const LETTER: Bytes := [0x61]
  const USER: nat := 7

  /** The terminal prints "a" and then U+FEFF; both arrive, and someone subscribes and reads. */
  function MarkRun(): seq<Action> {
    [Register] + [Wake(Output(LETTER)), Deliver(0)] + [Wake(Output(BOM)), Deliver(1)] + [Subscribe(USER, 0), Read(USER)]
  }

  lemma MarksWellFormed()
    ensures WellFormed(LETTER) && WellFormed(BOM)
  {
    assert LETTER[1..] == [] && BOM[3..] == [];
  }

  /** The one batch of that run decrypts to the whole output, but its second piece starts with a byte
      order mark, so the text that fresh decoders show is not the text of the output. */
  lemma ServedMarkIsLost(key: Keystream)
    ensures var sys := Run(key, INITIAL, MarkRun());
            && sys.log == LETTER + BOM && |sys.served| == 1
            && var batch := sys.served[0].batch;
            var pieces := DecryptChunks(key, batch.seqnum, batch.chunks);
            && pieces == [LETTER, BOM]
            && DecodePieces(pieces) != Decode(sys.log)
  {
    var sys := MarkState(key);
    hide Run, MarkRun, Decode;
    MarksWellFormed();
    var c0, c1 := Segment(key, 0, LETTER), Segment(key, |LETTER|, BOM);
    MarkPieces(key, c0, c1);
    var pieces := [LETTER, BOM];
    assert Flatten(pieces) == LETTER + BOM by { FlattenTwo(LETTER, BOM); }
    assert BOM in pieces && StartsWithBom(BOM);
    FreshDecodersIff(pieces);
  }

  lemma MarkPieces(key: Keystream, c0: Bytes, c1: Bytes)
    requires c0 == Segment(key, 0, LETTER) && c1 == Segment(key, |LETTER|, BOM)
    ensures DecryptChunks(key, 0, [c0, c1]) == [LETTER, BOM]
  {
    hide Segment;
    SegmentInvolution(key, 0, LETTER);
    SegmentInvolution(key, |LETTER|, BOM);
    assert [c0, c1][1..] == [c1] && [c1][1..] == [];
    assert DecryptChunks(key, |c0|, [c1]) == [BOM];
  }

  lemma MarkState(key: Keystream) returns (sys: System)
    ensures sys == Run(key, INITIAL, MarkRun())
    ensures sys.log == LETTER + BOM
    ensures sys.served == [Served(USER, Batch(0, [Segment(key, 0, LETTER), Segment(key, |LETTER|, BOM)]))]
  {
    hide Run, Segment, WellFormed, InStep, Act;
    MarksWellFormed();
    var first: seq<Action> := [Register];
    var second := first + [Wake(Output(LETTER)), Deliver(0)];
    var third := second + [Wake(Output(BOM)), Deliver(1)];
    var s1 := Run(key, INITIAL, first);
    StartsInStep(key);
    DeliveredOutput(key, s1, LETTER);
    Outages.RunTwo(key, INITIAL, first, Wake(Output(LETTER)), Deliver(0));
    var s2 := Run(key, INITIAL, second);
    SingleTotal(s2.shell.value.data[0]);
    DeliveredOutput(key, s2, BOM);
    Outages.RunTwo(key, INITIAL, second, Wake(Output(BOM)), Deliver(1));
    var s3 := Run(key, INITIAL, third);
    Outages.RunTwo(key, INITIAL, third, Subscribe(USER, 0), Read(USER));
    sys := Run(key, INITIAL, MarkRun());
    ReadBoth(key, s3);
    assert s2.log == LETTER && s3.log == LETTER + BOM;
    assert s2.shell.value.data == [Segment(key, 0, LETTER)];
    assert s3.shell.value.data == [Segment(key, 0, LETTER), Segment(key, |LETTER|, BOM)];
  }

  lemma ReadBoth(key: Keystream, sys: System)
    requires IsOpen(sys.shell) && sys.served == [] && |sys.shell.value.data| == 2
    requires sys.shell.value.chunkOffset == 0 && sys.shell.value.byteOffset == 0
    ensures var sys' := Act(key, Act(key, sys, Subscribe(USER, 0)), Read(USER));
            sys'.log == sys.log && sys'.served == [Served(USER, Batch(0, sys.shell.value.data))]
  {
    assert sys.shell.value.data[..0] == [] && sys.shell.value.data[0..] == sys.shell.value.data;
  }

  lemma StartsInStep(key: Keystream)
    ensures var sys := Run(key, INITIAL, [Register]);
            InStep(sys) && sys.log == [] && sys.wire == [] && sys.served == [] && sys.shell == Some(FRESH_SHELL)
  {
    assert [Register][1..] == [];
    assert Run(key, INITIAL, [Register]) == Act(key, INITIAL, Register);
  }
}

/** The whole path of one shell's output: client task, lossy channel, server record, snapshots and
    restarts, subscribers, browser. The channel is a bag: any message ever sent may be delivered at
    any time, any number of times, or never; the same holds for the server's position reports, and
    the server may come back from any snapshot it ever took, or with nothing. */
module Replication {
  import opened ByteSeqs
  import opened Utf8
  import opened Keystreams
  import opened ShellStore
  import opened Subscription
  import opened Producer
  import opened ProducerRuns
  import opened SessionModel

  // ----- Pieces of ciphertext in place -----

  /** The chunks, laid end to end from position `q`, are the log's ciphertext, and every one of
      them starts and ends at a character boundary of the log. */
  ghost predicate ChunksOk(key: Keystream, log: Bytes, q: nat, chunks: seq<Bytes>)
    decreases |chunks|
  {
    chunks == []
    || (MessageOk(key, log, TerminalData(q, chunks[0])) && ChunksOk(key, log, q + |chunks[0]|, chunks[1..]))
  }

  lemma ChunksCons(key: Keystream, log: Bytes, q: nat, head: Bytes, tail: seq<Bytes>)
    ensures ChunksOk(key, log, q, [head] + tail)
       <==> MessageOk(key, log, TerminalData(q, head)) && ChunksOk(key, log, q + |head|, tail)
    ensures Total([head] + tail) == |head| + Total(tail)
  {
    hide MessageOk;
    assert ([head] + tail)[1..] == tail;
  }

  lemma {:induction false} ChunksAppend(key: Keystream, log: Bytes, q: nat, a: seq<Bytes>, b: seq<Bytes>)
    ensures ChunksOk(key, log, q, a + b) <==> ChunksOk(key, log, q, a) && ChunksOk(key, log, q + Total(a), b)
    decreases |a|
  {
    hide MessageOk;
    if a == [] {
      assert a + b == b;
    } else {
      hide ChunksOk, Total;
      var head, tail := a[0], a[1..];
      ChunksAppend(key, log, q + |head|, tail, b);
      ChunksCons(key, log, q, head, tail);
      ChunksCons(key, log, q, head, tail + b);
      assert a == [head] + tail;
      assert a + b == [head] + (tail + b);
    }
  }

  lemma MessageGrows(key: Keystream, log: Bytes, text: Bytes, m: TerminalData)
    requires MessageOk(key, log, m) && WellFormed(text)
    ensures MessageOk(key, log + text, m)
  {
    BoundaryAppend(log, text, m.seq0);
    BoundaryAppend(log, text, m.seq0 + |m.data|);
    SliceOfPrefix(log, log + text, m.seq0, m.seq0 + |m.data|);
  }

  lemma {:induction false} ChunksGrow(key: Keystream, log: Bytes, text: Bytes, q: nat, chunks: seq<Bytes>)
    requires ChunksOk(key, log, q, chunks) && WellFormed(text)
    ensures ChunksOk(key, log + text, q, chunks)
    decreases |chunks|
  {
    if chunks != [] {
      hide MessageOk, WellFormed;
      MessageGrows(key, log, text, TerminalData(q, chunks[0]));
      ChunksGrow(key, log, text, q + |chunks[0]|, chunks[1..]);
    }
  }

  /** Cutting the front off a message at a character boundary leaves a proper message. */
  lemma TrimmedMessage(key: Keystream, log: Bytes, m: TerminalData, k: nat)
    requires MessageOk(key, log, m) && k < |m.data| && IsCharBoundary(log, m.seq0 + k)
    ensures MessageOk(key, log, TerminalData(m.seq0 + k, m.data[k..]))
  {
    var a, b := m.seq0, m.seq0 + |m.data|;
    SegmentDrop(key, a, log[a..b], k);
    assert log[a..b][k..] == log[a + k..b];
  }

  // ----- The server's record -----

  ghost predicate ShellOk(key: Keystream, log: Bytes, s: Shell) {
    && Consistent(s)
    && s.seqnum <= |log|
    && IsCharBoundary(log, s.seqnum)
    && ChunksOk(key, log, s.byteOffset, s.data)
  }

  lemma DropChunksOk(key: Keystream, log: Bytes, s: Shell, p: nat)
    requires ShellOk(key, log, s) && p <= |s.data|
    ensures ShellOk(key, log, DropChunks(s, p))
  {
    hide Total, ChunksOk, IsCharBoundary;
    TotalSplit(s.data, p);
    assert s.data == s.data[..p] + s.data[p..];
    ChunksAppend(key, log, s.byteOffset, s.data[..p], s.data[p..]);
  }

  lemma SingleOk(key: Keystream, log: Bytes, q: nat, chunk: Bytes)
    requires MessageOk(key, log, TerminalData(q, chunk))
    ensures ChunksOk(key, log, q, [chunk])
  {
    hide MessageOk;
    assert [chunk][1..] == [];
  }

  lemma PushOk(key: Keystream, log: Bytes, s: Shell, chunk: Bytes)
    requires ShellOk(key, log, s) && MessageOk(key, log, TerminalData(s.seqnum, chunk))
    ensures ShellOk(key, log, s.(seqnum := s.seqnum + |chunk|, data := s.data + [chunk]))
  {
    MessageEnds(key, log, TerminalData(s.seqnum, chunk));
    SingleOk(key, log, s.seqnum, chunk);
    hide MessageOk, Total, IsCharBoundary, ChunksOk;
    ChunksAppend(key, log, s.byteOffset, s.data, [chunk]);
    TotalAppend(s.data, [chunk]);
    SingleTotal(chunk);
  }

  /** Whatever overlap a delivered message has with what is stored, the record stays in place. */
  lemma AddDataOk(key: Keystream, log: Bytes, s: Shell, m: TerminalData)
    requires ShellOk(key, log, s) && MessageOk(key, log, m)
    ensures ShellOk(key, log, ShellStore.AddData(s, m.data, m.seq0))
  {
    hide MessageOk, ChunksOk, IsCharBoundary, Total;
    if Accepts(s.seqnum, m.data, m.seq0) {
      var k := s.seqnum - m.seq0;
      TrimmedMessage(key, log, m, k);
      hide MessageOk, Total, ChunksOk, Excess, IsCharBoundary, DropChunks;
      PushOk(key, log, s, m.data[k..]);
      var t := s.(seqnum := m.seq0 + |m.data|, data := s.data + [m.data[k..]]);
      hide ShellOk;
      DropChunksOk(key, log, t, Excess(t.data, SHELL_STORED_BYTES));
    }
  }

  lemma SingleTotal(chunk: Bytes)
    ensures Total([chunk]) == |chunk|
  {
  }

  lemma MessageEnds(key: Keystream, log: Bytes, m: TerminalData)
    requires MessageOk(key, log, m)
    ensures m.seq0 + |m.data| <= |log| && IsCharBoundary(log, m.seq0) && IsCharBoundary(log, m.seq0 + |m.data|)
  {
  }

  lemma ShellGrows(key: Keystream, log: Bytes, text: Bytes, s: Shell)
    requires ShellOk(key, log, s) && WellFormed(text)
    ensures ShellOk(key, log + text, s)
  {
    BoundaryAppend(log, text, s.seqnum);
    ChunksGrow(key, log, text, s.byteOffset, s.data);
  }

  lemma NoChunksOk(key: Keystream, log: Bytes, from: nat)
    ensures ChunksOk(key, log, from, [])
  {
  }

  /** What a read serves is in place as well. */
  lemma ReadOk(key: Keystream, log: Bytes, s: Shell, chunknum: nat)
    requires ShellOk(key, log, s)
    ensures ChunksOk(key, log, ReadChunks(chunknum, s).seqnum, ReadChunks(chunknum, s).chunks)
  {
    hide ChunksOk, Total;
    if chunknum >= ChunkCount(s) {
      NoChunksOk(key, log, s.byteOffset);
    } else {
      var start := if chunknum <= s.chunkOffset then 0 else chunknum - s.chunkOffset;
      assert s.data == s.data[..start] + s.data[start..];
      ChunksAppend(key, log, s.byteOffset, s.data[..start], s.data[start..]);
    }
  }

  // ----- The system -----

  /** A batch and who it went to. */
  datatype Served = Served(user: nat, batch: Batch)

  datatype System = System(
    log: Bytes,
    task: Task,
    wire: seq<TerminalData>,
    shell: Option<Shell>,
    reports: seq<nat>,
    snapshots: seq<Shell>,
    cursors: map<nat, nat>,
    served: seq<Served>)

  const INITIAL: System := System([], NEW_TASK, [], None, [], [], map[], [])

  datatype Action =
    | Wake(e: Event)              // output, end of output, or anything else that wakes the task up
    | ReportArrives(i: nat)       // the client gets the i-th report the server ever made
    | Deliver(i: nat)             // the server gets the i-th message the client ever sent
    | Report                      // the server reports its position, if the shell is open
    | TakeSnapshot
    | RestartFrom(i: nat)         // a server comes up from the i-th snapshot ever taken
    | LoseSession
    | Register                    // the shell is created, or recovered by a hello
    | Terminate
    | Subscribe(user: nat, chunknum: nat)
    | Read(user: nat)

  function IsOpen(shell: Option<Shell>): bool {
    shell.Some? && !shell.value.closed
  }

  function TaskEvent(key: Keystream, sys: System, e: Event): System {
    var turn := Iterate(key, sys.task, e);
    sys.(log := Grow(sys.task, sys.log, e), task := turn.0, wire := sys.wire + Listed(turn.1))
  }

  function Act(key: Keystream, sys: System, a: Action): System {
    match a
    case Wake(e) =>
      if e.Other? || ((e.Output? || e.Finish?) && WellFormed(e.text)) then TaskEvent(key, sys, e) else sys
    case ReportArrives(i) =>
      if i < |sys.reports| then TaskEvent(key, sys, Sync(sys.reports[i])) else sys
    case Deliver(i) =>
      if i < |sys.wire| && IsOpen(sys.shell) then
        sys.(shell := Some(ShellStore.AddData(sys.shell.value, sys.wire[i].data, sys.wire[i].seq0)))
      else sys
    case Report => if IsOpen(sys.shell) then sys.(reports := sys.reports + [sys.shell.value.seqnum]) else sys
    case TakeSnapshot =>
      if sys.shell.Some? then sys.(snapshots := sys.snapshots + [Prune(sys.shell.value, SHELL_SNAPSHOT_BYTES)]) else sys
    case RestartFrom(i) => if i < |sys.snapshots| then sys.(shell := Some(sys.snapshots[i])) else sys
    case LoseSession => sys.(shell := None)
    case Register => if sys.shell.None? then sys.(shell := Some(FRESH_SHELL)) else sys
    case Terminate => if IsOpen(sys.shell) then sys.(shell := Some(sys.shell.value.(closed := true))) else sys
    case Subscribe(user, chunknum) => sys.(cursors := sys.cursors[user := chunknum])
    case Read(user) =>
      if user in sys.cursors && IsOpen(sys.shell) then
        var batch := ReadChunks(sys.cursors[user], sys.shell.value);
        sys.(cursors := sys.cursors[user := NextCursor(sys.cursors[user], sys.shell.value)],
             served := if batch.chunks == [] then sys.served else sys.served + [Served(user, batch)])
      else sys
  }

  function Run(key: Keystream, sys: System, actions: seq<Action>): System
    decreases |actions|
  {
    if actions == [] then sys else Run(key, Act(key, sys, actions[0]), actions[1..])
  }

  // ----- The invariant -----

  ghost predicate WireOk(key: Keystream, log: Bytes, wire: seq<TerminalData>) {
    forall i :: 0 <= i < |wire| ==> MessageOk(key, log, wire[i])
  }

  ghost predicate ReportsOk(log: Bytes, reports: seq<nat>) {
    forall i :: 0 <= i < |reports| ==> reports[i] <= |log| && IsCharBoundary(log, reports[i])
  }

  ghost predicate ShellsOk(key: Keystream, log: Bytes, shells: seq<Shell>) {
    forall i :: 0 <= i < |shells| ==> ShellOk(key, log, shells[i])
  }

  ghost predicate ServedOk(key: Keystream, log: Bytes, served: seq<Served>) {
    forall i :: 0 <= i < |served| ==> ChunksOk(key, log, served[i].batch.seqnum, served[i].batch.chunks)
  }

  /** Everything anywhere in the system is a piece of the log's ciphertext at its own position, cut
      at character boundaries; every position anyone holds is a character boundary. */
  ghost predicate SystemOk(key: Keystream, sys: System) {
    && TaskOk(sys.task, sys.log)
    && WireOk(key, sys.log, sys.wire)
    && (sys.shell.Some? ==> ShellOk(key, sys.log, sys.shell.value))
    && ReportsOk(sys.log, sys.reports)
    && ShellsOk(key, sys.log, sys.snapshots)
    && ServedOk(key, sys.log, sys.served)
  }

  /** New output leaves everything that was sent, stored or served in place. */
  lemma SystemGrows(key: Keystream, sys: System, text: Bytes)
    requires SystemOk(key, sys) && WellFormed(text)
    ensures var log' := sys.log + text;
            && WireOk(key, log', sys.wire)
            && (sys.shell.Some? ==> ShellOk(key, log', sys.shell.value))
            && ReportsOk(log', sys.reports)
            && ShellsOk(key, log', sys.snapshots)
            && ServedOk(key, log', sys.served)
  {
    hide MessageOk, ShellOk, ChunksOk, IsCharBoundary, WellFormed, TaskOk;
    var log, log' := sys.log, sys.log + text;
    forall i | 0 <= i < |sys.wire| ensures MessageOk(key, log', sys.wire[i]) {
      MessageGrows(key, log, text, sys.wire[i]);
    }
    if sys.shell.Some? { ShellGrows(key, log, text, sys.shell.value); }
    forall i | 0 <= i < |sys.reports| ensures IsCharBoundary(log', sys.reports[i]) {
      BoundaryAppend(log, text, sys.reports[i]);
    }
    forall i | 0 <= i < |sys.snapshots| ensures ShellOk(key, log', sys.snapshots[i]) {
      ShellGrows(key, log, text, sys.snapshots[i]);
    }
    forall i | 0 <= i < |sys.served|
      ensures ChunksOk(key, log', sys.served[i].batch.seqnum, sys.served[i].batch.chunks)
    {
      ChunksGrow(key, log, text, sys.served[i].batch.seqnum, sys.served[i].batch.chunks);
    }
  }

  lemma TaskEventOk(key: Keystream, sys: System, e: Event)
    requires SystemOk(key, sys) && EventOk(e, sys.log)
    ensures SystemOk(key, TaskEvent(key, sys, e))
  {
    IterateOk(key, sys.task, sys.log, e);
    hide MessageOk, ShellOk, ChunksOk, IsCharBoundary, WellFormed, TaskOk, Iterate;
    var log', message := Grow(sys.task, sys.log, e), Iterate(key, sys.task, e).1;
    if log' != sys.log {
      SystemGrows(key, sys, e.text);
    }
    assert WireOk(key, log', sys.wire + Listed(message));
  }

  /** One action of anyone keeps the invariant. */
  lemma ActOk(key: Keystream, sys: System, a: Action)
    requires SystemOk(key, sys)
    ensures SystemOk(key, Act(key, sys, a))
  {
    hide MessageOk, ShellOk, ChunksOk, IsCharBoundary, WellFormed, TaskOk, TaskEvent, Prune, ShellStore.AddData,
         ReadChunks, NextCursor;
    match a
    case Wake(e) =>
      if e.Other? || ((e.Output? || e.Finish?) && WellFormed(e.text)) { TaskEventOk(key, sys, e); }
    case ReportArrives(i) =>
      if i < |sys.reports| { TaskEventOk(key, sys, Sync(sys.reports[i])); }
    case Deliver(i) =>
      if i < |sys.wire| && IsOpen(sys.shell) { AddDataOk(key, sys.log, sys.shell.value, sys.wire[i]); }
    case Report =>
      if IsOpen(sys.shell) { ShellPosition(key, sys.log, sys.shell.value); }
    case TakeSnapshot =>
      if sys.shell.Some? { SnapshotOk(key, sys.log, sys.shell.value); }
    case Register => FreshOk(key, sys.log);
    case Terminate =>
      if IsOpen(sys.shell) { ClosedOk(key, sys.log, sys.shell.value); }
    case Read(user) =>
      if user in sys.cursors && IsOpen(sys.shell) { ReadOk(key, sys.log, sys.shell.value, sys.cursors[user]); }
    case _ =>
  }

  lemma ShellPosition(key: Keystream, log: Bytes, s: Shell)
    requires ShellOk(key, log, s)
    ensures s.seqnum <= |log| && IsCharBoundary(log, s.seqnum)
  {
  }

  lemma ClosedOk(key: Keystream, log: Bytes, s: Shell)
    requires ShellOk(key, log, s)
    ensures ShellOk(key, log, s.(closed := true))
  {
  }

  lemma SnapshotOk(key: Keystream, log: Bytes, s: Shell)
    requires ShellOk(key, log, s)
    ensures ShellOk(key, log, Prune(s, SHELL_SNAPSHOT_BYTES))
  {
    DropChunksOk(key, log, s, Excess(s.data, SHELL_SNAPSHOT_BYTES));
  }

  lemma FreshOk(key: Keystream, log: Bytes)
    ensures ShellOk(key, log, FRESH_SHELL)
  {
  }

  lemma {:induction false} RunOk(key: Keystream, sys: System, actions: seq<Action>)
    requires SystemOk(key, sys)
    ensures SystemOk(key, Run(key, sys, actions))
    decreases |actions|
  {
    if actions != [] {
      hide SystemOk, Act;
      ActOk(key, sys, actions[0]);
      RunOk(key, Act(key, sys, actions[0]), actions[1..]);
    }
  }
}

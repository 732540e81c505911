/** One browser terminal over any number of connections: the server's side, the batches on their way, the
    lock and the chunk count, which survive a disconnection while batches on their way do not. */
module Browser {
  import opened ByteSeqs
  import opened Utf8
  import opened Keystreams
  import opened ShellStore
  import opened SessionModel
  import opened Subscription
  import opened ProducerRuns
  import opened Replication
  import opened Service
  import opened Terminal
  import opened AsyncLock
  import Producer
  import EndToEnd

  /** What a task of the lock writes: a chunk, decrypted at its position. */
  datatype Piece = Piece(pos: nat, chunk: Bytes)

  /** A batch on its way, and the numbers of its chunks. */
  datatype Flight = Flight(batch: Batch, from: nat, to: nat)

  /** A subscription as the browser made it: the chunk it asked for, the one after the last that had
      arrived, how many chunks waited in the lock, and how many were skipped since the one before. */
  datatype Ask = Ask(asked: nat, wanted: nat, waiting: int, skipped: nat)

  datatype State = State(
    sys: System,
    all: seq<Bytes>,            // every chunk that the server's present record ever accepted
    saved: seq<seq<Bytes>>,     // the same for each snapshot
    mark: nat,                  // how many snapshots there were when the record came up
    base: Option<nat>,          // the snapshot that it came up from
    lock: LockState<Piece>,     // `lock.counted` is the browser's chunk count
    connected: bool,
    flights: seq<Flight>,
    want: nat,                  // the chunk after the last that arrived
    skipped: nat,               // chunks skipped since the last subscription
    owed: int,                  // chunks that waited in the lock at the last subscription
    asks: seq<Ask>)

  datatype Happening =
    | Server(a: Replication.Action)  // anything but this subscriber's own subscriptions and reads
    | Connect                        // the browser subscribes from its count
    | Serve                          // the server reads the record for it
    | Arrive                         // the next batch arrives and is submitted to the lock
    | Disconnect                     // what is on its way is lost
    | InLock(e: AsyncLock.Event<Piece>)

  function Placed(pos: nat, chunks: seq<Bytes>): (r: seq<Piece>)
    ensures |r| == |chunks|
    decreases |chunks|
  {
    if chunks == [] then [] else [Piece(pos, chunks[0])] + Placed(pos + |chunks[0]|, chunks[1..])
  }

  predicate Own(a: Replication.Action, user: nat) {
    a == Replication.Read(user) || (a.Subscribe? && a.user == user)
  }

  function ServerStep(key: Keystream, s: State, a: Replication.Action): State {
    var sys' := Replication.Act(key, s.sys, a);
    match a
    case RestartFrom(i) =>
      if i < |s.saved| then
        s.(sys := sys', all := s.saved[i], mark := |s.saved|, base := Some(i), connected := false, flights := [])
      else s
    case LoseSession => s.(sys := sys', all := [], mark := |s.saved|, base := None, connected := false, flights := [])
    case TakeSnapshot => s.(sys := sys', saved := if s.sys.shell.Some? then s.saved + [s.all] else s.saved)
    case _ => s.(sys := sys', all := LogStep(s.sys, a, s.all))
  }

  function Next(key: Keystream, user: nat, s: State, h: Happening): State {
    match h
    case Server(a) => if Own(a, user) then s else ServerStep(key, s, a)
    case Connect =>
      if s.connected || !IsOpen(s.sys.shell) then s
      else
        s.(sys := Replication.Act(key, s.sys, Subscribe(user, s.lock.counted)),
           connected := true, flights := [], want := s.lock.counted, skipped := 0, owed := Waiting(s.lock),
           asks := s.asks + [Ask(s.lock.counted, s.want, Waiting(s.lock), s.skipped)])
    case Serve =>
      if s.connected && user in s.sys.cursors && IsOpen(s.sys.shell) then
        var shell, cursor := s.sys.shell.value, s.sys.cursors[user];
        var batch := ReadChunks(cursor, shell);
        s.(sys := Replication.Act(key, s.sys, Replication.Read(user)),
           flights := if batch.chunks == [] then s.flights
                      else s.flights + [Flight(batch, Max(cursor, shell.chunkOffset), ChunkCount(shell))])
      else s
    case Arrive =>
      if s.connected && s.flights != [] then
        var f := s.flights[0];
        s.(lock := AsyncLock.Act(s.lock, Submit(Placed(f.batch.seqnum, f.batch.chunks))),
           flights := s.flights[1..], want := f.to,
           skipped := if f.from >= s.want then s.skipped + (f.from - s.want) else s.skipped)
      else s
    case Disconnect => s.(connected := false, flights := [])
    case InLock(e) => if e.Submit? then s else s.(lock := AsyncLock.Act(s.lock, e))
  }

  function Runs(key: Keystream, user: nat, s: State, happenings: seq<Happening>): State
    decreases |happenings|
  {
    if happenings == [] then s else Runs(key, user, Next(key, user, s, happenings[0]), happenings[1..])
  }

  function Begin(): State {
    State(INITIAL, [], [], 0, None, Idle<Piece>(), false, [], 0, 0, 0, [])
  }

  // ----- The server's side -----

  ghost predicate SavedOk(key: Keystream, log: Bytes, snapshots: seq<Shell>, saved: seq<seq<Bytes>>) {
    && |saved| == |snapshots|
    && forall i :: 0 <= i < |saved| ==> Refines(snapshots[i], saved[i]) && ChunksOk(key, log, 0, saved[i])
  }

  /** The snapshots of the present record, and the one it came up from, are windows on prefixes of its log. */
  predicate Lineage(s: State) {
    && s.mark <= |s.saved|
    && (forall i :: s.mark <= i < |s.saved| ==> s.saved[i] <= s.all)
    && (s.base.Some? ==> s.base.value < |s.saved| && s.saved[s.base.value] <= s.all)
  }

  ghost predicate RecordOk(key: Keystream, s: State) {
    && SystemOk(key, s.sys)
    && (s.sys.shell.None? ==> s.all == [])
    && (s.sys.shell.Some? ==> Refines(s.sys.shell.value, s.all))
    && ChunksOk(key, s.sys.log, 0, s.all)
    && SavedOk(key, s.sys.log, s.sys.snapshots, s.saved)
    && Lineage(s)
  }

  // ----- Batches on their way -----

  /** The batches are slices of the log, in order, from chunk `from` on. */
  predicate Flying(flights: seq<Flight>, from: nat, all: seq<Bytes>)
    decreases |flights|
  {
    flights == []
    || (var f := flights[0];
        && from <= f.from < f.to <= |all|
        && f.batch == Batch(Total(all[..f.from]), all[f.from..f.to])
        && Flying(flights[1..], f.to, all))
  }

  function Landing(flights: seq<Flight>, from: nat): nat
    decreases |flights|
  {
    if flights == [] then from else Landing(flights[1..], flights[0].to)
  }

  predicate FlightsOk(s: State, user: nat) {
    && Flying(s.flights, s.want, s.all)
    && (s.connected ==> user in s.sys.cursors && Landing(s.flights, s.want) <= s.sys.cursors[user])
    && (!s.connected ==> s.flights == [])
  }

  lemma {:induction false} FlyingLonger(flights: seq<Flight>, from: nat, all: seq<Bytes>, longer: seq<Bytes>)
    requires Flying(flights, from, all) && all <= longer
    ensures Flying(flights, from, longer)
    decreases |flights|
  {
    if flights == [] {
    } else {
      hide Total;
      var f := flights[0];
      SliceOfPrefix(all, longer, f.from, f.to);
      SliceOfPrefix(all, longer, 0, f.from);
      assert longer[..f.from] == all[..f.from];
      FlyingLonger(flights[1..], f.to, all, longer);
    }
  }

  lemma {:induction false} FlyingSnoc(flights: seq<Flight>, from: nat, all: seq<Bytes>, f: Flight)
    requires Flying(flights, from, all) && Landing(flights, from) <= f.from < f.to <= |all|
    requires f.batch == Batch(Total(all[..f.from]), all[f.from..f.to])
    ensures Flying(flights + [f], from, all) && Landing(flights + [f], from) == f.to
    decreases |flights|
  {
    hide Total;
    if flights == [] {
      assert [] + [f] == [f] && [f][1..] == [];
    } else {
      assert (flights + [f])[0] == flights[0] && (flights + [f])[1..] == flights[1..] + [f];
      FlyingSnoc(flights[1..], flights[0].to, all, f);
    }
  }

  // ----- The account -----

  /** Chunks submitted and chunks skipped make up the way from the chunk asked for to the one wanted, but
      for those that waited in the lock when it was asked for. */
  predicate Balanced(s: State) {
    |Flatten(s.lock.submitted)| + s.skipped == s.want + s.owed
  }

  predicate AsksOk(asks: seq<Ask>, owed: int) {
    asks == []
    || (asks[0].asked + asks[0].waiting + asks[0].skipped == asks[0].wanted + owed && asks[0].waiting >= 0
        && AsksOk(asks[1..], asks[0].waiting))
  }

  function LastWaiting(asks: seq<Ask>, owed: int): int {
    if asks == [] then owed else LastWaiting(asks[1..], asks[0].waiting)
  }

  lemma {:induction false} AsksSnoc(asks: seq<Ask>, owed: int, ask: Ask)
    requires AsksOk(asks, owed) && ask.waiting >= 0
    requires ask.asked + ask.waiting + ask.skipped == ask.wanted + LastWaiting(asks, owed)
    ensures AsksOk(asks + [ask], owed) && LastWaiting(asks + [ask], owed) == ask.waiting
  {
    if asks == [] {
      assert [] + [ask] == [ask] && [ask][1..] == [];
    } else {
      assert (asks + [ask])[0] == asks[0] && (asks + [ask])[1..] == asks[1..] + [ask];
      AsksSnoc(asks[1..], asks[0].waiting, ask);
    }
  }

  ghost predicate AccountOk(s: State) {
    && LockOk(s.lock) && Balanced(s)
    && AsksOk(s.asks, 0) && s.owed == LastWaiting(s.asks, 0)
  }

  ghost predicate StateOk(key: Keystream, user: nat, s: State) {
    RecordOk(key, s) && FlightsOk(s, user) && AccountOk(s)
  }

  // ----- Every step keeps it -----

  lemma {:induction false} AllGrow(
      key: Keystream, log: Bytes, text: Bytes, snapshots: seq<Shell>, saved: seq<seq<Bytes>>)
    requires SavedOk(key, log, snapshots, saved) && WellFormed(text)
    ensures SavedOk(key, log + text, snapshots, saved)
  {
    hide ChunksOk, Refines, WellFormed;
    forall i | 0 <= i < |saved| ensures Refines(snapshots[i], saved[i]) && ChunksOk(key, log + text, 0, saved[i]) {
      ChunksGrow(key, log, text, 0, saved[i]);
    }
  }

  /** A task event: the log may grow, the server's side stays. */
  lemma EventRecordOk(key: Keystream, s: State, e: Producer.Event)
    requires RecordOk(key, s) && SystemOk(key, TaskEvent(key, s.sys, e))
    requires e.Output? || e.Finish? ==> WellFormed(e.text)
    ensures RecordOk(key, s.(sys := TaskEvent(key, s.sys, e)))
  {
    hide SystemOk, ChunksOk, Refines, WellFormed, Producer.Iterate, SavedOk;
    var log' := Producer.Grow(s.sys.task, s.sys.log, e);
    if log' != s.sys.log {
      ChunksGrow(key, s.sys.log, e.text, 0, s.all);
      AllGrow(key, s.sys.log, e.text, s.sys.snapshots, s.saved);
    }
  }

  /** An accepted message extends the log by a chunk in place. */
  lemma LogAddInPlace(key: Keystream, log: Bytes, all: seq<Bytes>, m: TerminalData)
    requires ChunksOk(key, log, 0, all) && MessageOk(key, log, m) && IsCharBoundary(log, Total(all))
    ensures ChunksOk(key, log, 0, LogAdd(all, m.data, m.seq0))
  {
    hide ChunksOk, MessageOk, Total, IsCharBoundary;
    if Accepts(Total(all), m.data, m.seq0) {
      var k := Total(all) - m.seq0;
      TrimmedMessage(key, log, m, k);
      SingleOk(key, log, Total(all), m.data[k..]);
      ChunksAppend(key, log, 0, all, [m.data[k..]]);
    }
  }

  lemma DeliverRecordOk(key: Keystream, s: State, i: nat)
    requires RecordOk(key, s) && SystemOk(key, Replication.Act(key, s.sys, Deliver(i)))
    ensures RecordOk(key, ServerStep(key, s, Deliver(i)))
  {
    hide ChunksOk, MessageOk, Refines, ShellStore.AddData, LogAdd, IsCharBoundary, TaskOk, ShellsOk, ServedOk,
         ReportsOk, SavedOk, Total;
    if i < |s.sys.wire| && IsOpen(s.sys.shell) {
      var m, shell := s.sys.wire[i], s.sys.shell.value;
      AddDataRefines(shell, s.all, m.data, m.seq0);
      ShellPosition(key, s.sys.log, shell);
      AllSum(shell, s.all);
      LogAddInPlace(key, s.sys.log, s.all, m);
      hide ShellOk, WireOk, SystemOk;
      LineageLonger(s, ServerStep(key, s, Deliver(i)));
    }
  }

  lemma LineageLonger(s: State, s': State)
    requires Lineage(s) && s'.saved == s.saved && s'.mark == s.mark && s'.base == s.base && s.all <= s'.all
    ensures Lineage(s')
  {
  }

  lemma SnapshotRecordOk(key: Keystream, s: State)
    requires RecordOk(key, s) && SystemOk(key, Replication.Act(key, s.sys, TakeSnapshot))
    ensures RecordOk(key, ServerStep(key, s, TakeSnapshot))
  {
    hide ChunksOk, Refines, SystemOk, Prune;
    if s.sys.shell.Some? { PruneRefines(s.sys.shell.value, s.all, SHELL_SNAPSHOT_BYTES); }
  }

  lemma RestartRecordOk(key: Keystream, s: State, i: nat)
    requires RecordOk(key, s) && SystemOk(key, Replication.Act(key, s.sys, RestartFrom(i)))
    ensures RecordOk(key, ServerStep(key, s, RestartFrom(i)))
  {
    hide ChunksOk, Refines, SystemOk;
  }

  lemma FreshRecordOk(key: Keystream, s: State, a: Replication.Action)
    requires RecordOk(key, s) && SystemOk(key, Replication.Act(key, s.sys, a))
    requires a.LoseSession? || a.Register? || a.Terminate?
    ensures RecordOk(key, ServerStep(key, s, a))
  {
    hide ChunksOk, Refines, SystemOk, SavedOk;
    NothingStored(key, s.sys.log);
    if s.sys.shell.Some? { StaysWindow(s.sys.shell.value, s.all); }
  }

  lemma NothingStored(key: Keystream, log: Bytes)
    ensures Refines(FRESH_SHELL, []) && ChunksOk(key, log, 0, [])
  {
  }

  lemma StaysWindow(shell: Shell, all: seq<Bytes>)
    requires Refines(shell, all)
    ensures Refines(shell.(closed := true), all)
  {
    hide Total, NoneEmpty;
  }

  /** Everything that leaves the record, the snapshots and the log alone. */
  lemma QuietRecordOk(key: Keystream, s: State, sys': System)
    requires RecordOk(key, s) && SystemOk(key, sys')
    requires sys'.log == s.sys.log && sys'.shell == s.sys.shell && sys'.snapshots == s.sys.snapshots
    ensures RecordOk(key, s.(sys := sys'))
  {
    hide ChunksOk, Refines, SystemOk, SavedOk;
  }

  lemma QuietAct(key: Keystream, sys: System, a: Replication.Action)
    requires a.Report? || a.Subscribe? || a.Read?
    ensures var sys' := Replication.Act(key, sys, a);
            sys'.log == sys.log && sys'.shell == sys.shell && sys'.snapshots == sys.snapshots
    ensures forall all :: LogStep(sys, a, all) == all
  {
    hide ReadChunks, NextCursor, LogAdd;
  }

  lemma QuietStep(key: Keystream, s: State, a: Replication.Action)
    requires RecordOk(key, s) && SystemOk(key, Replication.Act(key, s.sys, a))
    requires a.Report? || a.Subscribe? || a.Read?
    ensures RecordOk(key, ServerStep(key, s, a))
  {
    hide RecordOk, SystemOk, Replication.Act, LogStep;
    QuietAct(key, s.sys, a);
    QuietRecordOk(key, s, Replication.Act(key, s.sys, a));
  }

  lemma EventStep(key: Keystream, s: State, a: Replication.Action)
    requires RecordOk(key, s) && SystemOk(key, Replication.Act(key, s.sys, a))
    requires a.Wake? || a.ReportArrives?
    ensures RecordOk(key, ServerStep(key, s, a))
  {
    hide RecordOk, SystemOk, TaskEvent, WellFormed;
    match a
    case Wake(e) => if WakesUp(e) { EventRecordOk(key, s, e); }
    case ReportArrives(i) => if i < |s.sys.reports| { EventRecordOk(key, s, Producer.Sync(s.sys.reports[i])); }
  }

  lemma ServerRecordOk(key: Keystream, s: State, a: Replication.Action)
    requires RecordOk(key, s)
    ensures RecordOk(key, ServerStep(key, s, a))
  {
    RecordSystem(key, s);
    Replication.ActOk(key, s.sys, a);
    hide RecordOk, SystemOk, ServerStep, Replication.Act;
    match a
    case Wake(_) => EventStep(key, s, a);
    case ReportArrives(_) => EventStep(key, s, a);
    case Deliver(i) => DeliverRecordOk(key, s, i);
    case Report => QuietStep(key, s, a);
    case TakeSnapshot => SnapshotRecordOk(key, s);
    case RestartFrom(i) => RestartRecordOk(key, s, i);
    case LoseSession => FreshRecordOk(key, s, a);
    case Register => FreshRecordOk(key, s, a);
    case Terminate => FreshRecordOk(key, s, a);
    case Subscribe(_, _) => QuietStep(key, s, a);
    case Read(_) => QuietStep(key, s, a);
  }

  predicate WakesUp(e: Producer.Event) {
    e.Other? || ((e.Output? || e.Finish?) && WellFormed(e.text))
  }

  /** Without a replacement the log grows, and this subscriber's cursor stays. */
  lemma ServerFlights(key: Keystream, s: State, a: Replication.Action, user: nat)
    requires FlightsOk(s, user) && !Own(a, user)
    ensures FlightsOk(ServerStep(key, s, a), user)
  {
    NoFlights(s.want, ServerStep(key, s, a).all);
    if !a.RestartFrom? && !a.LoseSession? {
      hide Flying, Landing, TaskEvent, ReadChunks, NextCursor, WellFormed, ShellStore.AddData, LogAdd, Prune, LogStep,
           Replication.Act, Total;
      LogStepLonger(s.sys, a, s.all);
      if user in s.sys.cursors { CursorStays(key, s.sys, a, user); }
      FlyingLonger(s.flights, s.want, s.all, LogStep(s.sys, a, s.all));
    }
  }

  lemma LogStepLonger(sys: System, a: Replication.Action, all: seq<Bytes>)
    ensures all <= LogStep(sys, a, all)
  {
    hide Total;
  }

  lemma CursorStays(key: Keystream, sys: System, a: Replication.Action, user: nat)
    requires !Own(a, user) && user in sys.cursors
    ensures var sys' := Replication.Act(key, sys, a); user in sys'.cursors && sys'.cursors[user] == sys.cursors[user]
  {
    hide Producer.Iterate, ReadChunks, NextCursor, WellFormed, ShellStore.AddData, Prune;
  }

  lemma ServerOk(key: Keystream, user: nat, s: State, a: Replication.Action)
    requires StateOk(key, user, s) && !Own(a, user)
    ensures StateOk(key, user, ServerStep(key, s, a))
  {
    ServerRecordOk(key, s, a);
    ServerFlights(key, s, a, user);
    ServerAccount(key, s, a);
    hide RecordOk, FlightsOk, AccountOk;
  }

  lemma ServerAccount(key: Keystream, s: State, a: Replication.Action)
    requires AccountOk(s)
    ensures AccountOk(ServerStep(key, s, a))
  {
    hide LockOk, AsksOk, LastWaiting, Flatten, Replication.Act, LogStep;
  }

  lemma ConnectOk(key: Keystream, user: nat, s: State)
    requires StateOk(key, user, s)
    ensures StateOk(key, user, Next(key, user, s, Connect))
  {
    hide RecordOk, FlightsOk, AccountOk, Next;
    ConnectRecord(key, user, s);
    ConnectFlights(key, user, s);
    ConnectAccount(key, user, s);
  }

  lemma SysRecord(key: Keystream, s: State, s': State)
    requires RecordOk(key, s.(sys := s'.sys)) && s'.all == s.all && s'.saved == s.saved
    requires s'.mark == s.mark && s'.base == s.base
    ensures RecordOk(key, s')
  {
    hide SystemOk, SavedOk, ChunksOk, Refines;
  }

  lemma ConnectRecord(key: Keystream, user: nat, s: State)
    requires RecordOk(key, s)
    ensures RecordOk(key, Next(key, user, s, Connect))
  {
    var a := Subscribe(user, s.lock.counted);
    RecordSystem(key, s);
    Replication.ActOk(key, s.sys, a);
    QuietAct(key, s.sys, a);
    hide RecordOk, SystemOk, Replication.Act, Flatten;
    QuietRecordOk(key, s, Replication.Act(key, s.sys, a));
    if !s.connected && IsOpen(s.sys.shell) { SysRecord(key, s, Next(key, user, s, Connect)); }
  }

  lemma RecordSystem(key: Keystream, s: State)
    requires RecordOk(key, s)
    ensures SystemOk(key, s.sys)
    ensures s.sys.shell.Some? ==> Refines(s.sys.shell.value, s.all)
  {
    hide SystemOk, SavedOk, ChunksOk, Refines;
  }

  lemma ConnectFlights(key: Keystream, user: nat, s: State)
    requires FlightsOk(s, user)
    ensures FlightsOk(Next(key, user, s, Connect), user)
  {
    NoFlights(s.lock.counted, s.all);
    hide Flying, Landing, Flatten;
  }

  lemma NoFlights(from: nat, all: seq<Bytes>)
    ensures Flying([], from, all) && Landing([], from) == from
  {
  }

  lemma ConnectAccount(key: Keystream, user: nat, s: State)
    requires AccountOk(s)
    ensures AccountOk(Next(key, user, s, Connect))
  {
    CountedAtMost(s.lock);
    hide LockOk, AsksOk, LastWaiting, Flatten, Replication.Act;
    if !s.connected && IsOpen(s.sys.shell) {
      AsksSnoc(s.asks, 0, Ask(s.lock.counted, s.want, Waiting(s.lock), s.skipped));
    }
  }

  lemma ServeOk(key: Keystream, user: nat, s: State)
    requires StateOk(key, user, s)
    ensures StateOk(key, user, Next(key, user, s, Serve))
  {
    hide RecordOk, FlightsOk, AccountOk, Next;
    ServeRecord(key, user, s);
    RecordSystem(key, s);
    ServeFlights(key, user, s);
    ServeAccount(key, user, s);
  }

  lemma ServeRecord(key: Keystream, user: nat, s: State)
    requires RecordOk(key, s)
    ensures RecordOk(key, Next(key, user, s, Serve))
  {
    var a := Replication.Read(user);
    RecordSystem(key, s);
    Replication.ActOk(key, s.sys, a);
    QuietAct(key, s.sys, a);
    hide RecordOk, SystemOk, ReadChunks, NextCursor, Replication.Act;
    QuietRecordOk(key, s, Replication.Act(key, s.sys, a));
    if s.connected && user in s.sys.cursors && IsOpen(s.sys.shell) { SysRecord(key, s, Next(key, user, s, Serve)); }
  }

  lemma ServeFlights(key: Keystream, user: nat, s: State)
    requires FlightsOk(s, user) && (s.sys.shell.Some? ==> Refines(s.sys.shell.value, s.all))
    ensures FlightsOk(Next(key, user, s, Serve), user)
  {
    if s.connected && user in s.sys.cursors && IsOpen(s.sys.shell) {
      hide Flying, Landing, Refines, ReadChunks, Total;
      var shell, cursor := s.sys.shell.value, s.sys.cursors[user];
      ReadWindow(cursor, shell, s.all);
      if ReadChunks(cursor, shell).chunks != [] {
        FlyingSnoc(s.flights, s.want, s.all,
                   Flight(ReadChunks(cursor, shell), Max(cursor, shell.chunkOffset), ChunkCount(shell)));
      }
    }
  }

  lemma ServeAccount(key: Keystream, user: nat, s: State)
    requires AccountOk(s)
    ensures AccountOk(Next(key, user, s, Serve))
  {
    hide LockOk, AsksOk, LastWaiting, Flatten, Replication.Act, ReadChunks;
  }

  lemma ReadWindow(cursor: nat, shell: Shell, all: seq<Bytes>)
    requires Refines(shell, all)
    ensures ChunkCount(shell) == |all|
    ensures var from := Max(cursor, shell.chunkOffset);
            if from < |all| then ReadChunks(cursor, shell) == Batch(Total(all[..from]), all[from..|all|])
            else ReadChunks(cursor, shell).chunks == []
  {
    PrefixObserved(shell, all, all);
    hide Refines, Total;
    ReadIsLogSlice(cursor, shell, all);
    WindowCount(shell, all);
  }

  lemma WindowCount(shell: Shell, all: seq<Bytes>)
    requires Refines(shell, all)
    ensures ChunkCount(shell) == |all|
  {
    hide Total, NoneEmpty;
  }

  lemma ArriveOk(key: Keystream, user: nat, s: State)
    requires StateOk(key, user, s)
    ensures StateOk(key, user, Next(key, user, s, Arrive))
  {
    ArriveRecord(key, user, s);
    ArriveRest(key, user, s);
    hide RecordOk, FlightsOk, AccountOk, Next;
  }

  lemma ArriveRecord(key: Keystream, user: nat, s: State)
    requires RecordOk(key, s)
    ensures RecordOk(key, Next(key, user, s, Arrive))
  {
    hide RecordOk, AsyncLock.Act, Placed;
    RecordFrame(key, s, Next(key, user, s, Arrive));
  }

  lemma ArriveRest(key: Keystream, user: nat, s: State)
    requires FlightsOk(s, user) && AccountOk(s)
    ensures FlightsOk(Next(key, user, s, Arrive), user) && AccountOk(Next(key, user, s, Arrive))
  {
    hide LockOk, AsksOk, LastWaiting, Flatten, AsyncLock.Act, Flying, Landing, Placed, Total;
    if s.connected && s.flights != [] {
      var f := s.flights[0];
      var task := Placed(f.batch.seqnum, f.batch.chunks);
      AsyncLock.ActOk(s.lock, Submit(task));
      FirstFlight(s.flights, s.want, s.all);
      SubmitGrows(s.lock, task);
    }
  }

  lemma FirstFlight(flights: seq<Flight>, from: nat, all: seq<Bytes>)
    requires Flying(flights, from, all) && flights != []
    ensures var f := flights[0];
            && from <= f.from < f.to <= |all| && f.batch == Batch(Total(all[..f.from]), all[f.from..f.to])
            && |f.batch.chunks| == f.to - f.from
            && Flying(flights[1..], f.to, all) && Landing(flights, from) == Landing(flights[1..], f.to)
  {
    hide Total;
  }

  lemma SubmitGrows<W>(lock: LockState<W>, task: seq<W>)
    ensures var lock' := AsyncLock.Act(lock, Submit(task));
            && lock'.submitted == lock.submitted + [task] && lock'.counted == lock.counted
            && Flatten(lock'.submitted) == Flatten(lock.submitted) + task
  {
    FlattenAppend(lock.submitted, [task]);
    assert [task][1..] == [] && task + [] == task;
    assert Flatten([task]) == task;
    hide Flatten;
  }

  lemma RecordFrame(key: Keystream, s: State, s': State)
    requires RecordOk(key, s) && s'.sys == s.sys && s'.all == s.all && s'.saved == s.saved
    requires s'.mark == s.mark && s'.base == s.base
    ensures RecordOk(key, s')
  {
    hide SystemOk, SavedOk, ChunksOk, Refines;
  }

  lemma InLockOk(key: Keystream, user: nat, s: State, e: AsyncLock.Event<Piece>)
    requires StateOk(key, user, s)
    ensures StateOk(key, user, Next(key, user, s, InLock(e)))
  {
    hide RecordOk, AccountOk, FlightsOk, Next;
    InLockAccount(key, user, s, e);
    SameRest(key, user, s, InLock(e));
  }

  /** What touches neither the server's side nor the batches on their way, except to drop them. */
  lemma SameRest(key: Keystream, user: nat, s: State, h: Happening)
    requires RecordOk(key, s) && FlightsOk(s, user) && (h.InLock? || h.Disconnect?)
    ensures RecordOk(key, Next(key, user, s, h)) && FlightsOk(Next(key, user, s, h), user)
  {
    NoFlights(s.want, s.all);
    hide RecordOk, AsyncLock.Act, Flying, Landing;
    RecordFrame(key, s, Next(key, user, s, h));
  }

  lemma DisconnectOk(key: Keystream, user: nat, s: State)
    requires StateOk(key, user, s)
    ensures StateOk(key, user, Next(key, user, s, Disconnect))
  {
    DisconnectAccount(key, user, s);
    hide RecordOk, AccountOk, FlightsOk, Next;
    SameRest(key, user, s, Disconnect);
  }

  lemma DisconnectAccount(key: Keystream, user: nat, s: State)
    requires AccountOk(s)
    ensures AccountOk(Next(key, user, s, Disconnect))
  {
    hide LockOk, AsksOk, LastWaiting, Flatten;
  }

  lemma InLockAccount(key: Keystream, user: nat, s: State, e: AsyncLock.Event<Piece>)
    requires AccountOk(s)
    ensures AccountOk(Next(key, user, s, InLock(e)))
  {
    hide LockOk, AsksOk, LastWaiting, Flatten, AsyncLock.Act;
    if !e.Submit? {
      AsyncLock.ActOk(s.lock, e);
      NothingSubmitted(s.lock, e);
    }
  }

  lemma NothingSubmitted<W>(lock: LockState<W>, e: AsyncLock.Event<W>)
    requires !e.Submit?
    ensures AsyncLock.Act(lock, e).submitted == lock.submitted
  {
  }

  lemma NextOk(key: Keystream, user: nat, s: State, h: Happening)
    requires StateOk(key, user, s)
    ensures StateOk(key, user, Next(key, user, s, h))
  {
    hide StateOk, Next;
    match h
    case Server(a) => ServerHappening(key, user, s, a);
    case Connect => ConnectOk(key, user, s);
    case Serve => ServeOk(key, user, s);
    case Arrive => ArriveOk(key, user, s);
    case Disconnect => DisconnectOk(key, user, s);
    case InLock(e) => InLockOk(key, user, s, e);
  }

  lemma ServerHappening(key: Keystream, user: nat, s: State, a: Replication.Action)
    requires StateOk(key, user, s)
    ensures StateOk(key, user, Next(key, user, s, Server(a)))
  {
    hide StateOk, ServerStep;
    if !Own(a, user) { ServerOk(key, user, s, a); }
  }

  lemma BeginOk(key: Keystream, user: nat)
    ensures StateOk(key, user, Begin())
  {
    EndToEnd.InitialOk(key);
    assert Idle<Piece>().settled + Idle<Piece>().running == [];
    hide SystemOk;
  }

  lemma {:induction false} RunsOk(key: Keystream, user: nat, s: State, happenings: seq<Happening>)
    requires StateOk(key, user, s)
    ensures StateOk(key, user, Runs(key, user, s, happenings))
    decreases |happenings|
  {
    hide StateOk, Next;
    if happenings == [] {
    } else {
      NextOk(key, user, s, happenings[0]);
      RunsOk(key, user, Next(key, user, s, happenings[0]), happenings[1..]);
    }
  }

  // ----- What the browser asks for -----

  predicate AllRight(asks: seq<Ask>) {
    asks == [] || (asks[0].asked == asks[0].wanted && AllRight(asks[1..]))
  }

  predicate NothingPending(asks: seq<Ask>) {
    asks == [] || (asks[0].waiting == 0 && asks[0].skipped == 0 && NothingPending(asks[1..]))
  }

  lemma {:induction false} RightIffNothingPending(asks: seq<Ask>)
    requires AsksOk(asks, 0)
    ensures AllRight(asks) <==> NothingPending(asks)
  {
    if asks == [] {
    } else if asks[0].waiting == 0 {
      RightIffNothingPending(asks[1..]);
    }
  }

  /** Over every run of any number of connections, restarts and losses: the browser always asked for the
      chunk after the last that had arrived, exactly when at each subscription nothing waited in its
      lock and nothing had been skipped since the one before. */
  lemma AsksIff(key: Keystream, user: nat, happenings: seq<Happening>)
    ensures var s := Runs(key, user, Begin(), happenings);
            AllRight(s.asks) <==> NothingPending(s.asks)
  {
    BeginOk(key, user);
    hide StateOk, Runs;
    RunsOk(key, user, Begin(), happenings);
    AsksFrom(key, user, Runs(key, user, Begin(), happenings));
  }

  lemma AsksFrom(key: Keystream, user: nat, s: State)
    requires StateOk(key, user, s)
    ensures AsksOk(s.asks, 0) && Balanced(s) && s.owed == LastWaiting(s.asks, 0) && LockOk(s.lock)
    ensures AllRight(s.asks) <==> NothingPending(s.asks)
  {
    hide RecordOk, FlightsOk, LockOk, Flatten, AllRight, NothingPending, AsksOk, LastWaiting;
    RightIffNothingPending(s.asks);
  }

  lemma {:induction false} AskAt(asks: seq<Ask>, owed: int, i: nat)
    requires AsksOk(asks, owed) && i < |asks|
    ensures var before := if i == 0 then owed else asks[i - 1].waiting;
            asks[i].asked + asks[i].waiting + asks[i].skipped == asks[i].wanted + before
    decreases i
  {
    if i > 0 { AskAt(asks[1..], asks[0].waiting, i - 1); }
  }

  /** One subscription in a run, exactly: it asks too early by what waits and was skipped, and too late by
      what had waited at the one before. So it is right if and only if these are equal, and it runs
      ahead, which loses chunks, if and only if more had waited before. When nothing had waited at the
      subscription before, or there was none, it never runs ahead. */
  lemma AskExactly(key: Keystream, user: nat, happenings: seq<Happening>, i: nat)
    requires i < |Runs(key, user, Begin(), happenings).asks|
    ensures var asks := Runs(key, user, Begin(), happenings).asks;
            var ask, before := asks[i], if i == 0 then 0 else asks[i - 1].waiting;
            && (ask.asked == ask.wanted <==> before == ask.waiting + ask.skipped)
            && (ask.asked > ask.wanted <==> before > ask.waiting + ask.skipped)
            && (before == 0 ==> ask.asked <= ask.wanted)
  {
    BeginOk(key, user);
    hide StateOk, Runs;
    RunsOk(key, user, Begin(), happenings);
    var s := Runs(key, user, Begin(), happenings);
    AsksFrom(key, user, s);
    AskAt(s.asks, 0, i);
    WaitingAt(s.asks, 0, i);
  }

  lemma {:induction false} WaitingAt(asks: seq<Ask>, owed: int, i: nat)
    requires AsksOk(asks, owed) && i < |asks|
    ensures asks[i].waiting >= 0
    decreases i
  {
    if i > 0 { WaitingAt(asks[1..], asks[0].waiting, i - 1); }
  }

  // ----- Everything once -----

  /** What a caller can check beforehand: nothing waits in the lock when the browser subscribes, no chunk
      that arrives was preceded by a pruned one, and the server comes up only from a snapshot of the
      record it had (one taken since that record came up, or the one it came up from) that counts at
      least the chunks that arrived. */
  predicate Careful(s: State, h: Happening) {
    match h
    case Connect => s.connected || !IsOpen(s.sys.shell) || Waiting(s.lock) == 0
    case Arrive => s.connected && s.flights != [] ==> s.flights[0].from == s.want
    case Server(RestartFrom(i)) =>
      i < |s.sys.snapshots| ==> (s.mark <= i || s.base == Some(i)) && s.want <= ChunkCount(s.sys.snapshots[i])
    case Server(LoseSession) => s.want == 0
    case _ => true
  }

  predicate CarefulRun(key: Keystream, user: nat, s: State, happenings: seq<Happening>)
    decreases |happenings|
  {
    happenings == []
    || (Careful(s, happenings[0]) && CarefulRun(key, user, Next(key, user, s, happenings[0]), happenings[1..]))
  }

  /** The tasks of the lock are the chunks of the log up to the one wanted, each once, in its place. */
  predicate Once(s: State) {
    && s.want <= |s.all| && s.skipped == 0 && s.owed == 0
    && Flatten(s.lock.submitted) == Placed(0, s.all[..s.want])
  }

  lemma {:induction false} PlacedAppend(pos: nat, a: seq<Bytes>, b: seq<Bytes>)
    ensures Placed(pos, a + b) == Placed(pos, a) + Placed(pos + Total(a), b)
    decreases |a|
  {
    if a == [] {
      assert a + b == b;
    } else {
      assert (a + b)[0] == a[0] && (a + b)[1..] == a[1..] + b;
      PlacedAppend(pos + |a[0]|, a[1..], b);
    }
  }

  lemma OnceLonger(s: State, s': State)
    requires Once(s) && s'.lock == s.lock && s'.want == s.want && s'.skipped == s.skipped && s'.owed == s.owed
    requires s.want <= |s'.all| && s'.all[..s.want] == s.all[..s.want]
    ensures Once(s')
  {
    hide Placed, Flatten;
  }

  lemma ServerOnce(key: Keystream, user: nat, s: State, a: Replication.Action)
    requires StateOk(key, user, s) && Once(s) && Careful(s, Server(a))
    ensures Once(ServerStep(key, s, a))
  {
    hide Flying, Landing, Flatten, Placed, SystemOk, ChunksOk, LockOk, AsksOk, LastWaiting, LogStep, Once,
         Replication.Act;
    match a
    case RestartFrom(i) =>
      if i < |s.saved| {
        SavedCount(key, s, i);
        OnceLonger(s, ServerStep(key, s, a));
      }
    case LoseSession => OnceWant(s); OnceLonger(s, ServerStep(key, s, a));
    case TakeSnapshot => OnceWant(s); OnceLonger(s, ServerStep(key, s, a));
    case _ =>
      LogStepLonger(s.sys, a, s.all);
      OnceWant(s);
      OnceLonger(s, ServerStep(key, s, a));
  }

  lemma OnceWant(s: State)
    requires Once(s)
    ensures s.want <= |s.all|
  {
  }

  /** A snapshot that meets the guard agrees with the record's log up to the chunk wanted. */
  lemma SavedCount(key: Keystream, s: State, i: nat)
    requires RecordOk(key, s) && Once(s) && i < |s.saved|
    requires (s.mark <= i || s.base == Some(i)) && s.want <= ChunkCount(s.sys.snapshots[i])
    ensures s.want <= |s.saved[i]| && s.saved[i][..s.want] == s.all[..s.want]
  {
    hide SystemOk, ChunksOk, Refines, Placed, Flatten;
    assert Refines(s.sys.snapshots[i], s.saved[i]);
    WindowCount(s.sys.snapshots[i], s.saved[i]);
    assert s.saved[i] <= s.all;
  }

  lemma ConnectOnce(key: Keystream, user: nat, s: State)
    requires AccountOk(s) && Once(s) && Careful(s, Connect)
    ensures Once(Next(key, user, s, Connect))
  {
    hide LockOk, AsksOk, LastWaiting, Flatten, Placed, Replication.Act;
  }

  lemma ArriveOnce(key: Keystream, user: nat, s: State)
    requires FlightsOk(s, user) && Once(s) && Careful(s, Arrive)
    ensures Once(Next(key, user, s, Arrive))
  {
    hide Flatten, Placed, Flying, Landing, Total, AsyncLock.Act;
    if s.connected && s.flights != [] {
      var f := s.flights[0];
      FirstFlight(s.flights, s.want, s.all);
      SubmitGrows(s.lock, Placed(f.batch.seqnum, f.batch.chunks));
      JoinSlices(s.all, 0, s.want, f.to);
      assert s.all[..f.to] == s.all[..s.want] + s.all[s.want..f.to];
      PlacedAppend(0, s.all[..s.want], s.all[s.want..f.to]);
    }
  }

  lemma RestOnce(key: Keystream, user: nat, s: State, h: Happening)
    requires Once(s) && (h.Serve? || h.Disconnect? || h.InLock?)
    ensures Once(Next(key, user, s, h))
  {
    hide Flatten, Placed, AsyncLock.Act, ReadChunks, Replication.Act;
    if h.InLock? && !h.e.Submit? { NothingSubmitted(s.lock, h.e); }
  }

  lemma NextOnce(key: Keystream, user: nat, s: State, h: Happening)
    requires StateOk(key, user, s) && Once(s) && Careful(s, h)
    ensures Once(Next(key, user, s, h))
  {
    StateParts(key, user, s);
    hide StateOk, RecordOk, FlightsOk, AccountOk, Once, Careful, ServerStep;
    match h
    case Server(a) => if !Own(a, user) { ServerOnce(key, user, s, a); }
    case Connect => hide Next; ConnectOnce(key, user, s);
    case Arrive => hide Next; ArriveOnce(key, user, s);
    case _ => hide Next; RestOnce(key, user, s, h);
  }

  /** A careful subscription leaves nothing pending behind it. */
  lemma NextPending(key: Keystream, user: nat, s: State, h: Happening)
    requires Once(s) && Careful(s, h) && NothingPending(s.asks)
    ensures NothingPending(Next(key, user, s, h).asks)
  {
    hide Placed, Flatten, NothingPending, AsyncLock.Act, Replication.Act, ReadChunks, LogStep;
    if h.Connect? && !s.connected && IsOpen(s.sys.shell) {
      PendingSnoc(s.asks, Ask(s.lock.counted, s.want, Waiting(s.lock), s.skipped));
    }
  }

  lemma {:induction false} PendingSnoc(asks: seq<Ask>, ask: Ask)
    requires NothingPending(asks) && ask.waiting == 0 && ask.skipped == 0
    ensures NothingPending(asks + [ask])
    decreases |asks|
  {
    if asks == [] {
      assert [] + [ask] == [ask] && [ask][1..] == [];
    } else {
      assert (asks + [ask])[0] == asks[0] && (asks + [ask])[1..] == asks[1..] + [ask];
      PendingSnoc(asks[1..], ask);
    }
  }

  lemma StateParts(key: Keystream, user: nat, s: State)
    requires StateOk(key, user, s)
    ensures RecordOk(key, s) && FlightsOk(s, user) && AccountOk(s)
  {
    hide RecordOk, FlightsOk, AccountOk;
  }

  lemma {:induction false} RunsOnce(key: Keystream, user: nat, s: State, happenings: seq<Happening>)
    requires StateOk(key, user, s) && Once(s) && NothingPending(s.asks) && CarefulRun(key, user, s, happenings)
    ensures Once(Runs(key, user, s, happenings)) && NothingPending(Runs(key, user, s, happenings).asks)
    decreases |happenings|
  {
    hide StateOk, Once, Next, Careful, NothingPending;
    if happenings == [] {
    } else {
      NextOk(key, user, s, happenings[0]);
      NextOnce(key, user, s, happenings[0]);
      NextPending(key, user, s, happenings[0]);
      RunsOnce(key, user, Next(key, user, s, happenings[0]), happenings[1..]);
    }
  }

  // ----- What the terminal shows -----

  function PieceText(key: Keystream, p: Piece): seq<nat> {
    TextDecode(Segment(key, p.pos, p.chunk))
  }

  /** The terminal's text after the given writes. */
  function ScreenText(key: Keystream, pieces: seq<Piece>): seq<nat>
    decreases |pieces|
  {
    if pieces == [] then [] else PieceText(key, pieces[0]) + ScreenText(key, pieces[1..])
  }

  lemma {:induction false} ScreenAppend(key: Keystream, a: seq<Piece>, b: seq<Piece>)
    ensures ScreenText(key, a + b) == ScreenText(key, a) + ScreenText(key, b)
    decreases |a|
  {
    hide PieceText;
    if a == [] {
      assert a + b == b;
    } else {
      assert (a + b)[0] == a[0] && (a + b)[1..] == a[1..] + b;
      ScreenAppend(key, a[1..], b);
    }
  }

  lemma {:induction false} PlacedText(key: Keystream, pos: nat, chunks: seq<Bytes>)
    ensures ScreenText(key, Placed(pos, chunks)) == DecodePieces(DecryptChunks(key, pos, chunks))
    decreases |chunks|
  {
    hide TextDecode, Segment, DecodePieces;
    var pieces := DecryptChunks(key, pos, chunks);
    DecodePiecesCons(pieces);
    if chunks == [] {
    } else {
      PlacedText(key, pos + |chunks[0]|, chunks[1..]);
      assert pieces[1..] == DecryptChunks(key, pos + |chunks[0]|, chunks[1..]);
      assert Placed(pos, chunks)[1..] == Placed(pos + |chunks[0]|, chunks[1..]);
    }
  }

  lemma LogText(key: Keystream, log: Bytes, chunks: seq<Bytes>)
    requires WellFormed(log) && ChunksOk(key, log, 0, chunks)
    ensures Total(chunks) <= |log|
    ensures ScreenText(key, Placed(0, chunks)) == Decode(log[..Total(chunks)])
            <==> NoMarks(DecryptChunks(key, 0, chunks))
  {
    hide WellFormed, ChunksOk, ScreenText, Placed, Decode, DecodePieces, DecryptChunks, Flatten, StartsWithBom;
    EndToEnd.DecryptedPieces(key, log, 0, chunks);
    PlacedText(key, 0, chunks);
    FreshDecodersIff(DecryptChunks(key, 0, chunks));
    assert log[0..Total(chunks)] == log[..Total(chunks)];
  }

  /** The output up to the chunk wanted. */
  function Covered(s: State): Bytes
    requires s.want <= |s.all| && Total(s.all[..s.want]) <= |s.sys.log|
  {
    s.sys.log[..Total(s.all[..s.want])]
  }

  lemma ArrivedInPlace(key: Keystream, s: State)
    requires RecordOk(key, s) && s.want <= |s.all|
    ensures WellFormed(s.sys.log) && ChunksOk(key, s.sys.log, 0, s.all[..s.want])
  {
    hide ChunksOk, SavedOk, Refines, Lineage, WellFormed;
    assert s.all == s.all[..s.want] + s.all[s.want..];
    ChunksAppend(key, s.sys.log, 0, s.all[..s.want], s.all[s.want..]);
  }

  /** Everything once, over every careful run: through any number of connections, losses on the way, and
      restarts of the server, the browser always asks for the right chunk, and the lock is given every
      chunk once, in order and in its place; and if no
      task fails and no chunk starts with a byte order mark, the terminal shows a prefix of the output,
      and all that arrived of it once the lock is idle, exactly then. */
  lemma EverythingOnce(key: Keystream, user: nat, happenings: seq<Happening>)
    requires CarefulRun(key, user, Begin(), happenings)
    ensures var s := Runs(key, user, Begin(), happenings);
            && Once(s) && AllRight(s.asks)
            && Total(s.all[..s.want]) <= |s.sys.log|
            && var pieces := DecryptChunks(key, 0, s.all[..s.want]);
            && (NoneFailed(s.lock) && NoMarks(pieces) ==> ScreenText(key, s.lock.output) <= Decode(Covered(s)))
            && (NoneFailed(s.lock) && s.lock.running == [] ==>
                  (ScreenText(key, s.lock.output) == Decode(Covered(s)) <==> NoMarks(pieces)))
  {
    hide StateOk, Runs, Once, CarefulRun, ScreenText, Decode, DecryptChunks, NoMarks, NoneFailed, Total, AllRight,
         Flatten, Placed;
    BeginOk(key, user);
    BeginOnce();
    RunsOk(key, user, Begin(), happenings);
    RunsOnce(key, user, Begin(), happenings);
    var s := Runs(key, user, Begin(), happenings);
    OnceWant(s);
    OnceShown(key, user, s);
    AsksFrom(key, user, s);
  }

  lemma BeginOnce()
    ensures Once(Begin()) && NothingPending(Begin().asks)
  {
  }

  lemma OnceShown(key: Keystream, user: nat, s: State)
    requires StateOk(key, user, s) && Once(s)
    ensures Total(s.all[..s.want]) <= |s.sys.log|
    ensures var pieces := DecryptChunks(key, 0, s.all[..s.want]);
            && (NoneFailed(s.lock) && NoMarks(pieces) ==> ScreenText(key, s.lock.output) <= Decode(Covered(s)))
            && (NoneFailed(s.lock) && s.lock.running == [] ==>
                  (ScreenText(key, s.lock.output) == Decode(Covered(s)) <==> NoMarks(pieces)))
  {
    StateParts(key, user, s);
    hide StateOk, RecordOk, FlightsOk, LockOk, ScreenText, Placed, Flatten, Decode, DecryptChunks, NoMarks, ChunksOk,
         WellFormed, Total, NoneFailed;
    ArrivedInPlace(key, s);
    LogText(key, s.sys.log, s.all[..s.want]);
    if NoneFailed(s.lock) {
      OutputPrefix(s.lock);
      ScreenPrefix(key, s.lock.output, Flatten(s.lock.submitted));
    }
  }

  lemma OutputPrefix<W>(lock: LockState<W>)
    requires LockOk(lock) && NoneFailed(lock)
    ensures lock.output <= Flatten(lock.submitted)
    ensures lock.running == [] ==> lock.output == Flatten(lock.submitted)
  {
    hide NoneFailed, LockOk, Flatten;
    InOrderWrites(lock);
  }

  lemma ScreenPrefix(key: Keystream, a: seq<Piece>, b: seq<Piece>)
    requires a <= b
    ensures ScreenText(key, a) <= ScreenText(key, b)
  {
    assert b == a + b[|a|..];
    ScreenAppend(key, a, b[|a|..]);
  }
}

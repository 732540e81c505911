/** A run in which the browser's count runs ahead, without a restart and with nothing pruned: a batch that
    waits in the lock while the browser reconnects is served again and counted twice, and the next chunk
    is never served. The terminal prints a, b and c. */
module Requeue {
  import opened ByteSeqs
  import opened Keystreams
  import opened ShellStore
  import opened Subscription
  import opened Producer
  import opened Replication
  import opened Restarts
  import ProducerRuns
  import AsyncLock
  import Browser
  import Service

  const USER: nat := 7

  // ----- Steps -----

  lemma {:induction false} RunsAppend(
      key: Keystream, s: Browser.State, a: seq<Browser.Happening>, b: seq<Browser.Happening>)
    ensures Browser.Runs(key, USER, s, a + b) == Browser.Runs(key, USER, Browser.Runs(key, USER, s, a), b)
    decreases |a|
  {
    hide Browser.Next;
    if a == [] {
      assert a + b == b;
    } else {
      assert (a + b)[0] == a[0] && (a + b)[1..] == a[1..] + b;
      RunsAppend(key, Browser.Next(key, USER, s, a[0]), a[1..], b);
    }
  }

  lemma RunsOne(key: Keystream, s: Browser.State, a: seq<Browser.Happening>, h: Browser.Happening)
    ensures Browser.Runs(key, USER, s, a + [h]) == Browser.Next(key, USER, Browser.Runs(key, USER, s, a), h)
  {
    hide Browser.Next;
    RunsAppend(key, s, a, [h]);
    var s1 := Browser.Runs(key, USER, s, a);
    assert [h][1..] == [];
    assert Browser.Runs(key, USER, s1, [h]) == Browser.Runs(key, USER, Browser.Next(key, USER, s1, h), []);
  }

  lemma RunsTwo(
      key: Keystream, s: Browser.State, a: seq<Browser.Happening>, h: Browser.Happening, g: Browser.Happening)
    ensures Browser.Runs(key, USER, s, a + [h, g])
         == Browser.Next(key, USER, Browser.Next(key, USER, Browser.Runs(key, USER, s, a), h), g)
  {
    hide Browser.Next, Browser.Runs;
    assert a + [h, g] == (a + [h]) + [g];
    RunsOne(key, s, a + [h], g);
    RunsOne(key, s, a, h);
  }

  /** What the browser has of its own. */
  datatype Side = Side(
    lock: AsyncLock.LockState<Browser.Piece>, connected: bool, flights: seq<Browser.Flight>, want: nat,
    asks: seq<Browser.Ask>)

  function SideOf(s: Browser.State): Side {
    Side(s.lock, s.connected, s.flights, s.want, s.asks)
  }

  /** A letter is printed and arrives at a server that has everything before it. */
  lemma PrintDeliver(key: Keystream, s: Browser.State, a: seq<Browser.Happening>, text: Bytes)
    requires var s1 := Browser.Runs(key, USER, s, a);
             && Sent(s1.sys) && Letter(text) && |s1.sys.log| < CONTENT_CHUNK_SIZE
             && s1.sys.shell.value.seqnum == |s1.sys.log|
    ensures var s1 := Browser.Runs(key, USER, s, a);
            var s2 := Browser.Runs(key, USER, s,
                                   a + [Browser.Server(Wake(Output(text))), Browser.Server(Deliver(|s1.sys.wire|))]);
            var shell, chunk := s1.sys.shell.value, Segment(key, |s1.sys.log|, text);
            && SideOf(s2) == SideOf(s1) && s2.skipped == s1.skipped && Sent(s2.sys)
            && |s2.sys.wire| == |s1.sys.wire| + 1
            && s2.sys == s1.sys.(log := s1.sys.log + text, task := s2.sys.task, wire := s2.sys.wire,
                                 shell := Some(shell.(seqnum := shell.seqnum + 1, data := shell.data + [chunk])))
  {
    hide Browser.Runs, Sent, Segment, Replication.Act, Service.LogStep;
    var s1 := Browser.Runs(key, USER, s, a);
    var wake, deliver := Wake(Output(text)), Deliver(|s1.sys.wire|);
    RunsTwo(key, s, a, Browser.Server(wake), Browser.Server(deliver));
    Printed(key, s1.sys, text);
    Arrives(key, Replication.Act(key, s1.sys, wake), |s1.sys.wire|);
  }

  /** The browser connects. */
  lemma Connects(key: Keystream, s: Browser.State, a: seq<Browser.Happening>)
    requires var s1 := Browser.Runs(key, USER, s, a); Sent(s1.sys) && !s1.connected
    ensures var s1 := Browser.Runs(key, USER, s, a);
            var s2 := Browser.Runs(key, USER, s, a + [Browser.Connect]);
            var k, waits := s1.lock.counted, AsyncLock.Waiting(s1.lock);
            && SideOf(s2) == Side(s1.lock, true, [], k, s1.asks + [Browser.Ask(k, s1.want, waits, s1.skipped)])
            && s2.skipped == 0 && Sent(s2.sys)
            && s2.sys == s1.sys.(cursors := s1.sys.cursors[USER := k])
  {
    RunsOne(key, s, a, Browser.Connect);
    var s1 := Browser.Runs(key, USER, s, a);
    StillSent(s1.sys, s1.sys.(cursors := s1.sys.cursors[USER := s1.lock.counted]));
    SentOpen(s1.sys);
    hide Browser.Runs, Sent, AsyncLock.Waiting;
  }

  lemma SentOpen(sys: System)
    requires Sent(sys)
    ensures IsOpen(sys.shell)
  {
  }

  /** The server reads the record, and the batch arrives. */
  lemma ServedAndArrives(key: Keystream, s: Browser.State, a: seq<Browser.Happening>)
    requires var s1 := Browser.Runs(key, USER, s, a);
             && Sent(s1.sys) && s1.connected && s1.flights == []
             && USER in s1.sys.cursors && s1.sys.cursors[USER] == s1.want && s1.sys.shell.value.chunkOffset == 0
             && s1.want < |s1.sys.shell.value.data|
    ensures var s1 := Browser.Runs(key, USER, s, a);
            var s2 := Browser.Runs(key, USER, s, a + [Browser.Serve, Browser.Arrive]);
            var shell := s1.sys.shell.value;
            var batch := ReadChunks(s1.want, shell);
            && SideOf(s2) == Side(
                 AsyncLock.Act(s1.lock, AsyncLock.Submit(Browser.Placed(batch.seqnum, batch.chunks))),
                 true, [], |shell.data|, s1.asks)
            && s2.skipped == s1.skipped && Sent(s2.sys)
            && s2.sys == s1.sys.(cursors := s2.sys.cursors, served := s1.sys.served + [Served(USER, batch)])
            && USER in s2.sys.cursors && s2.sys.cursors[USER] == |shell.data|
  {
    RunsTwo(key, s, a, Browser.Serve, Browser.Arrive);
    var s1 := Browser.Runs(key, USER, s, a);
    var batch := ReadChunks(s1.want, s1.sys.shell.value);
    SentOpen(s1.sys);
    assert batch.chunks != [];
    hide Browser.Runs, AsyncLock.Act, Browser.Placed, ReadChunks;
    var sys2 := Replication.Act(key, s1.sys, Replication.Read(USER));
    StillSent(s1.sys, sys2) by { SentFields(s1.sys); }
    var f := Browser.Flight(batch, s1.want, |s1.sys.shell.value.data|);
    assert [] + [f] == [f] && [f][1..] == [];
    hide Sent;
  }

  lemma SentFields(sys: System)
    requires Sent(sys)
    ensures ProducerRuns.TaskOk(sys.task, sys.log) && ProducerRuns.CaughtUp(sys.task) && sys.task.status == Live
    ensures sys.task.seqOutdated == 0 && sys.task.contentOffset == 0
  {
  }

  /** Events of the lock. */
  function InLock(events: seq<AsyncLock.Event<Browser.Piece>>): seq<Browser.Happening>
    decreases |events|
  {
    if events == [] then [] else [Browser.InLock(events[0])] + InLock(events[1..])
  }

  predicate NoSubmit(events: seq<AsyncLock.Event<Browser.Piece>>) {
    events == [] || (!events[0].Submit? && NoSubmit(events[1..]))
  }

  lemma {:induction false} LockRuns(
      key: Keystream, s: Browser.State, events: seq<AsyncLock.Event<Browser.Piece>>)
    requires NoSubmit(events)
    ensures Browser.Runs(key, USER, s, InLock(events)) == s.(lock := AsyncLock.Run(s.lock, events))
    decreases |events|
  {
    hide AsyncLock.Act;
    if events == [] {
    } else {
      var h := Browser.InLock(events[0]);
      var s1 := Browser.Next(key, USER, s, h);
      assert s1 == s.(lock := AsyncLock.Act(s.lock, events[0]));
      LockRuns(key, s1, events[1..]);
      assert InLock(events)[0] == h && InLock(events)[1..] == InLock(events[1..]);
    }
  }

  // ----- What is seen of a state -----

  /** One letter a chunk, nothing pruned, everything printed has arrived at the server. */
  datatype Sight = Sight(
    log: Bytes, data: seq<Bytes>, wires: nat, cursor: Option<nat>, served: seq<Served>, side: Side)

  ghost predicate Seen(s: Browser.State, v: Sight) {
    && Sent(s.sys) && s.skipped == 0
    && s.sys.log == v.log && |s.sys.wire| == v.wires && s.sys.served == v.served
    && v.cursor == (if USER in s.sys.cursors then Some(s.sys.cursors[USER]) else None)
    && |v.data| == |v.log| && s.sys.shell == Some(Shell(|v.log|, v.data, 0, 0, false))
    && SideOf(s) == v.side
  }

  function Ran(key: Keystream, a: seq<Browser.Happening>): Browser.State {
    Browser.Runs(key, USER, Browser.Begin(), a)
  }

  function Prints(text: Bytes, wires: nat): seq<Browser.Happening> {
    [Browser.Server(Wake(Output(text))), Browser.Server(Deliver(wires))]
  }

  lemma SeesPrint(key: Keystream, a: seq<Browser.Happening>, v: Sight, text: Bytes)
    requires Seen(Ran(key, a), v) && Letter(text) && |v.log| < CONTENT_CHUNK_SIZE
    ensures Seen(Ran(key, a + Prints(text, v.wires)),
                 v.(log := v.log + text, data := v.data + [Segment(key, |v.log|, text)], wires := v.wires + 1))
  {
    hide Browser.Runs, Sent, Segment, Letter;
    assert |text| == 1 by { LetterLength(text); }
    PrintDeliver(key, Browser.Begin(), a, text);
  }

  lemma LetterLength(text: Bytes)
    requires Letter(text)
    ensures |text| == 1
  {
  }

  lemma SeesConnect(key: Keystream, a: seq<Browser.Happening>, v: Sight)
    requires Seen(Ran(key, a), v) && !v.side.connected
    ensures var lock := v.side.lock;
            var ask := Browser.Ask(lock.counted, v.side.want, AsyncLock.Waiting(lock), 0);
            Seen(Ran(key, a + [Browser.Connect]),
                 v.(cursor := Some(lock.counted), side := Side(lock, true, [], lock.counted, v.side.asks + [ask])))
  {
    Connects(key, Browser.Begin(), a);
    hide Browser.Runs, Sent, AsyncLock.Waiting;
  }

  lemma SeesServed(key: Keystream, a: seq<Browser.Happening>, v: Sight)
    requires Seen(Ran(key, a), v) && v.side.connected && v.side.flights == []
    requires v.cursor == Some(v.side.want) && v.side.want < |v.data|
    ensures var batch := Batch(Total(v.data[..v.side.want]), v.data[v.side.want..]);
            var task := AsyncLock.Submit(Browser.Placed(batch.seqnum, batch.chunks));
            Seen(Ran(key, a + [Browser.Serve, Browser.Arrive]),
                 v.(cursor := Some(|v.data|), served := v.served + [Served(USER, batch)],
                    side := Side(AsyncLock.Act(v.side.lock, task), true, [], |v.data|, v.side.asks)))
  {
    ServedAndArrives(key, Browser.Begin(), a);
    ReadFrom(v.side.want, Ran(key, a).sys.shell.value);
    hide Browser.Runs, Sent, Browser.Placed, ReadChunks, AsyncLock.Act, Total;
  }

  /** A chunk number past the end is served nothing. */
  lemma SeesNothing(key: Keystream, a: seq<Browser.Happening>, v: Sight)
    requires Seen(Ran(key, a), v) && v.side.connected && v.cursor.Some? && v.cursor.value >= |v.data|
    ensures Seen(Ran(key, a + [Browser.Serve]), v)
  {
    RunsOne(key, Browser.Begin(), a, Browser.Serve);
    var sys := Ran(key, a).sys;
    ReadFrom(v.cursor.value, sys.shell.value);
    SentFields(sys);
    var sys' := Replication.Act(key, sys, Replication.Read(USER));
    StillSent(sys, sys');
    hide Browser.Runs, Sent, ReadChunks;
    assert sys' == sys.(cursors := sys'.cursors) && sys'.cursors == sys.cursors[USER := v.cursor.value];
  }

  lemma SeesDisconnect(key: Keystream, a: seq<Browser.Happening>, v: Sight)
    requires Seen(Ran(key, a), v)
    ensures Seen(Ran(key, a + [Browser.Disconnect]), v.(side := v.side.(connected := false, flights := [])))
  {
    RunsOne(key, Browser.Begin(), a, Browser.Disconnect);
    hide Browser.Runs, Sent;
  }

  lemma SeesLock(
      key: Keystream, a: seq<Browser.Happening>, v: Sight, events: seq<AsyncLock.Event<Browser.Piece>>)
    requires Seen(Ran(key, a), v) && NoSubmit(events)
    ensures Seen(Ran(key, a + InLock(events)),
                 v.(side := v.side.(lock := AsyncLock.Run(v.side.lock, events))))
  {
    RunsAppend(key, Browser.Begin(), a, InLock(events));
    LockRuns(key, Ran(key, a), events);
    hide Browser.Runs, Sent, AsyncLock.Run, InLock;
  }

  // ----- The run of the lock -----

  function Finish<W>(): seq<AsyncLock.Event<W>> {
    [AsyncLock.Step(0), AsyncLock.Settle(0, true)]
  }

  function Whole<W>(): seq<AsyncLock.Event<W>> {
    [AsyncLock.Step(0)] + Finish()
  }

  lemma RunsEvents<W>(s: AsyncLock.LockState<W>, e: AsyncLock.Event<W>, events: seq<AsyncLock.Event<W>>)
    ensures AsyncLock.Run(s, [e] + events) == AsyncLock.Run(AsyncLock.Act(s, e), events)
  {
    hide AsyncLock.Act;
    assert ([e] + events)[0] == e && ([e] + events)[1..] == events;
  }

  /** Two tasks of one write are submitted, and the first one counts. */
  lemma OneWaits<W>(a: W, b: W)
    ensures var s := AsyncLock.Act(AsyncLock.Act(AsyncLock.Idle<W>(), AsyncLock.Submit([a])), AsyncLock.Submit([b]));
            && s == AsyncLock.LockState([[b]], true, [AsyncLock.Job([a], 0)], [[a], [b]], [], 0, [])
            && AsyncLock.Run(s, [AsyncLock.Step(0)]) == Queued(a, [[b]])
  {
    var s := AsyncLock.Act(AsyncLock.Act(AsyncLock.Idle<W>(), AsyncLock.Submit([a])), AsyncLock.Submit([b]));
    var step: AsyncLock.Event<W> := AsyncLock.Step(0);
    assert [step] + [] == [step];
    RunsEvents(s, step, []);
  }

  /** The first of the tasks did its first step, the others wait. */
  function Queued<W>(a: W, later: seq<seq<W>>): AsyncLock.LockState<W> {
    AsyncLock.LockState(later, true, [AsyncLock.Job([a], 1)], [[a]] + later, [], 1, [])
  }

  function Finished<W>(a: W, b: W): AsyncLock.LockState<W> {
    var done := [AsyncLock.Job([a], 2), AsyncLock.Job([b], 2), AsyncLock.Job([b], 2)];
    AsyncLock.LockState([], false, [], [[a], [b], [b]], done, 3, [a, b, b])
  }

  /** The task of one write that runs is done, and the next one starts. */
  function OneDone<W>(s: AsyncLock.LockState<W>, write: W): AsyncLock.LockState<W> {
    var done := s.(output := s.output + [write], settled := s.settled + [AsyncLock.Job([write], 2)]);
    if s.queue == [] then done.(running := [], active := false)
    else done.(running := [AsyncLock.Job(s.queue[0], 0)], queue := s.queue[1..])
  }

  lemma FinishOne<W>(s: AsyncLock.LockState<W>, write: W, rest: seq<AsyncLock.Event<W>>)
    requires s.running == [AsyncLock.Job([write], 1)]
    ensures AsyncLock.Run(s, Finish() + rest) == AsyncLock.Run(OneDone(s, write), rest)
  {
    hide AsyncLock.Run;
    var s1 := AsyncLock.Act(s, AsyncLock.Step(0));
    assert Finish() + rest == [AsyncLock.Step(0)] + ([AsyncLock.Settle(0, true)] + rest);
    RunsEvents(s, AsyncLock.Step(0), [AsyncLock.Settle(0, true)] + rest);
    RunsEvents(s1, AsyncLock.Settle(0, true), rest);
    assert s1 == s.(running := [AsyncLock.Job([write], 2)], output := s.output + [write]);
    assert s1.running[..0] + s1.running[1..] == [];
    if s.queue != [] { assert [] + [AsyncLock.Job(s.queue[0], 0)] == [AsyncLock.Job(s.queue[0], 0)]; }
    assert AsyncLock.Act(s1, AsyncLock.Settle(0, true)) == OneDone(s, write);
  }

  lemma WholeOne<W>(s: AsyncLock.LockState<W>, write: W, rest: seq<AsyncLock.Event<W>>)
    requires s.running == [AsyncLock.Job([write], 0)]
    ensures AsyncLock.Run(s, Whole() + rest) == AsyncLock.Run(OneDone(s.(counted := s.counted + 1), write), rest)
  {
    hide AsyncLock.Run;
    var s1 := s.(running := [AsyncLock.Job([write], 1)], counted := s.counted + 1);
    assert Whole() + rest == [AsyncLock.Step(0)] + (Finish() + rest);
    RunsEvents(s, AsyncLock.Step(0), Finish() + rest);
    assert AsyncLock.Act(s, AsyncLock.Step(0)) == s1;
    FinishOne(s1, write, rest);
    assert OneDone(s1, write) == OneDone(s.(counted := s.counted + 1), write);
  }

  function Draining<W>(): seq<AsyncLock.Event<W>> {
    Finish() + (Whole() + (Whole() + []))
  }

  /** All three tasks run to their ends: the second write is written twice, and counted twice. */
  lemma AllFinish<W>(a: W, b: W)
    ensures AsyncLock.Run(Queued(a, [[b], [b]]), Draining()) == Finished(a, b)
  {
    hide AsyncLock.Run, Whole, Finish;
    var s0 := Queued(a, [[b], [b]]);
    FinishOne(s0, a, Whole() + (Whole() + []));
    WholeOne(OneDone(s0, a), b, Whole() + []);
    var s2 := OneDone(OneDone(s0, a).(counted := 2), b);
    WholeOne(s2, b, []);
    Ends(OneDone(s2.(counted := 3), b));
  }

  lemma Ends<W>(s: AsyncLock.LockState<W>)
    ensures AsyncLock.Run(s, []) == s
  {
  }

  /** The lock alone: the second task is submitted again while it waits, all run to their ends, and the
      count is three where two were wanted. */
  lemma CountsTwice<W>(a: W, b: W)
    ensures var s0 := AsyncLock.Act(AsyncLock.Idle<W>(), AsyncLock.Submit([a]));
            var s1 := AsyncLock.Run(AsyncLock.Act(s0, AsyncLock.Submit([b])), [AsyncLock.Step(0)]);
            var s := AsyncLock.Run(AsyncLock.Act(s1, AsyncLock.Submit([b])), Draining());
            && s1.counted == 1 && s1.queue == [[b]] && AsyncLock.Waiting(s1) == 1
            && s.queue == [] && s.running == [] && s.counted == 3 && s.output == [a, b, b]
            && AsyncLock.Waiting(s) == 0
  {
    hide AsyncLock.Run, AsyncLock.Act, Draining;
    OneWaits(a, b);
    SubmitsAgain(a, b);
    AllFinish(a, b);
    QueuedWaits(a, b);
  }

  lemma SubmitsAgain<W>(a: W, b: W)
    ensures AsyncLock.Act(Queued(a, [[b]]), AsyncLock.Submit([b])) == Queued(a, [[b], [b]])
  {
  }

  lemma QueuedWaits<W>(a: W, b: W)
    ensures AsyncLock.Waiting(Queued(a, [[b]])) == 1 && AsyncLock.Waiting(Finished(a, b)) == 0
  {
    var two, three := [[a], [b]], [[a], [b], [b]];
    assert two[1..] == [[b]] && three[1..] == [[b], [b]] && [[b], [b]][1..] == [[b]] && [[b]][1..] == [];
    assert Flatten([[b]]) == [b] && |Flatten([[b], [b]])| == 2;
    assert |Flatten(two)| == 2 && |Flatten(three)| == 3;
  }

  lemma {:induction false} NoSubmitAppend(
      a: seq<AsyncLock.Event<Browser.Piece>>, b: seq<AsyncLock.Event<Browser.Piece>>)
    requires NoSubmit(a) && NoSubmit(b)
    ensures NoSubmit(a + b)
    decreases |a|
  {
    if a == [] {
      assert a + b == b;
    } else {
      assert (a + b)[0] == a[0] && (a + b)[1..] == a[1..] + b;
      NoSubmitAppend(a[1..], b);
    }
  }

  lemma DrainingSubmitsNothing()
    ensures NoSubmit([AsyncLock.Step(0)]) && NoSubmit(Draining())
  {
    var step: AsyncLock.Event<Browser.Piece> := AsyncLock.Step(0);
    var settle: AsyncLock.Event<Browser.Piece> := AsyncLock.Settle(0, true);
    assert [step][1..] == [] && [step, settle][1..] == [settle] && [settle][1..] == [];
    assert NoSubmit([settle]) && NoSubmit([step]);
    var finish, whole := Finish<Browser.Piece>(), Whole<Browser.Piece>();
    assert finish == [step, settle] && NoSubmit(finish);
    assert whole == [step] + finish;
    hide NoSubmit, Finish, Whole;
    NoSubmitAppend([step], finish);
    NoSubmitAppend(whole, []);
    NoSubmitAppend(whole, whole + []);
    NoSubmitAppend(finish, whole + (whole + []));
  }

  // ----- The run -----

  /** a arrives and is served, then b; the first task counts, the second waits. */
  function Started(): seq<Browser.Happening> {
    [Browser.Server(Register)] + Prints(A, 0) + [Browser.Connect] + [Browser.Serve, Browser.Arrive]
    + Prints(B, 1) + [Browser.Serve, Browser.Arrive] + InLock([AsyncLock.Step(0)])
  }

  /** The browser connects again, is served b again, and all tasks run to their ends. */
  function ServedAgain(): seq<Browser.Happening> {
    Started() + [Browser.Disconnect] + [Browser.Connect] + [Browser.Serve, Browser.Arrive] + InLock(Draining())
  }

  /** It connects once more; c arrives at the server, which finds nothing to serve. */
  function AheadRun(): seq<Browser.Happening> {
    ServedAgain() + [Browser.Disconnect] + [Browser.Connect] + Prints(C, 2) + [Browser.Serve]
  }

  lemma OneTask(key: Keystream, pos: nat, chunk: Bytes)
    ensures Browser.Placed(pos, [chunk]) == [Browser.Piece(pos, chunk)]
  {
    assert [chunk][1..] == [];
  }

  lemma Registers(key: Keystream)
    ensures Seen(Ran(key, [Browser.Server(Register)]),
                 Sight([], [], 0, None, [], Side(AsyncLock.Idle(), false, [], 0, [])))
  {
    hide Sent, Segment, AsyncLock.Act, Run, Replication.Act, Browser.Runs;
    Registered(key);
    RunsOne(key, Browser.Begin(), [], Browser.Server(Register));
    assert [] + [Browser.Server(Register)] == [Browser.Server(Register)];
    RegistersFirst(key);
    StartsEmpty();
  }

  lemma RegistersFirst(key: Keystream)
    ensures Browser.Runs(key, USER, Browser.Begin(), []) == Browser.Begin()
    ensures Browser.Next(key, USER, Browser.Begin(), Browser.Server(Register))
         == Browser.Begin().(sys := Run(key, INITIAL, [Register]))
  {
    assert [Register][1..] == [];
    assert Run(key, INITIAL, [Register]) == Run(key, Replication.Act(key, INITIAL, Register), []);
  }

  lemma StartsEmpty()
    ensures INITIAL.log == [] && INITIAL.wire == [] && INITIAL.served == [] && INITIAL.cursors == map[]
    ensures FRESH_SHELL == Shell(0, [], 0, 0, false)
    ensures SideOf(Browser.Begin()) == Side(AsyncLock.Idle(), false, [], 0, []) && Browser.Begin().skipped == 0
  {
  }

  function WhenStarted(a: Bytes, b: Bytes): Sight {
    Sight(A + B, [a, b], 2, Some(2), [Served(USER, Batch(0, [a])), Served(USER, Batch(1, [b]))],
          Side(Queued(Browser.Piece(0, a), [[Browser.Piece(1, b)]]), true, [], 2, [Browser.Ask(0, 0, 0, 0)]))
  }

  /** a is printed and served. */
  lemma ServesA(key: Keystream)
    ensures var a := Segment(key, 0, A);
            Seen(Ran(key, [Browser.Server(Register)] + Prints(A, 0) + [Browser.Connect]
                          + [Browser.Serve, Browser.Arrive]),
                 Sight(A, [a], 1, Some(1), [Served(USER, Batch(0, [a]))],
                       Side(AsyncLock.Act(AsyncLock.Idle(), AsyncLock.Submit([Browser.Piece(0, a)])), true, [], 1,
                            [Browser.Ask(0, 0, 0, 0)])))
  {
    hide Ran, Seen, Prints, Segment, AsyncLock.Act;
    Registers(key);
    LettersAre();
    IdleWaits();
    var a := Segment(key, 0, A);
    var h0 := [Browser.Server(Register)];
    var v0 := Sight([], [], 0, None, [], Side(AsyncLock.Idle(), false, [], 0, []));
    SeesPrint(key, h0, v0, A);
    var v1 := v0.(log := A, data := [a], wires := 1);
    assert [] + A == A && [] + [a] == [a];
    assert v1 == v0.(log := [] + A, data := [] + [a], wires := 1);
    var h1 := h0 + Prints(A, 0);
    SeesConnect(key, h1, v1);
    var v2 := v1.(cursor := Some(0), side := Side(AsyncLock.Idle(), true, [], 0, [Browser.Ask(0, 0, 0, 0)]));
    assert [] + [Browser.Ask(0, 0, 0, 0)] == [Browser.Ask(0, 0, 0, 0)];
    SeesServed(key, h1 + [Browser.Connect], v2);
    OneTask(key, 0, a);
    assert [a][..0] == [] && [a][0..] == [a];
    assert [] + [Served(USER, Batch(0, [a]))] == [Served(USER, Batch(0, [a]))];
  }

  lemma IdleWaits()
    ensures AsyncLock.Waiting(AsyncLock.Idle<Browser.Piece>()) == 0
  {
  }

  /** b is printed and served while a holds the lock. */
  lemma ServesB(key: Keystream)
    ensures Seen(Ran(key, Started()), WhenStarted(Segment(key, 0, A), Segment(key, 1, B)))
  {
    hide Ran, Seen, Prints, Segment, AsyncLock.Act, AsyncLock.Run, Queued, InLock;
    ServesA(key);
    LettersAre();
    var a, b := Segment(key, 0, A), Segment(key, 1, B);
    var h0 := [Browser.Server(Register)] + Prints(A, 0) + [Browser.Connect] + [Browser.Serve, Browser.Arrive];
    var lock := AsyncLock.Act(AsyncLock.Idle(), AsyncLock.Submit([Browser.Piece(0, a)]));
    var v0 := Sight(A, [a], 1, Some(1), [Served(USER, Batch(0, [a]))],
                    Side(lock, true, [], 1, [Browser.Ask(0, 0, 0, 0)]));
    SeesPrint(key, h0, v0, B);
    var v1 := v0.(log := A + B, data := [a, b], wires := 2);
    assert [a] + [b] == [a, b];
    assert v1 == v0.(log := A + B, data := [a] + [b], wires := 2);
    var h1 := h0 + Prints(B, 1);
    SeesServed(key, h1, v1);
    SingleTotal(a);
    OneTask(key, 1, b);
    assert [a, b][..1] == [a] && [a, b][1..] == [b];
    var lock' := AsyncLock.Act(lock, AsyncLock.Submit([Browser.Piece(1, b)]));
    var v2 := v1.(cursor := Some(2), served := [Served(USER, Batch(0, [a])), Served(USER, Batch(1, [b]))],
                  side := Side(lock', true, [], 2, [Browser.Ask(0, 0, 0, 0)]));
    assert [Served(USER, Batch(0, [a]))] + [Served(USER, Batch(1, [b]))] == v2.served;
    DrainingSubmitsNothing();
    SeesLock(key, h1 + [Browser.Serve, Browser.Arrive], v2, [AsyncLock.Step(0)]);
    OneWaits(Browser.Piece(0, a), Browser.Piece(1, b));
  }

  function WhenServedAgain(a: Bytes, b: Bytes): Sight {
    Sight(A + B, [a, b], 2, Some(2),
          [Served(USER, Batch(0, [a])), Served(USER, Batch(1, [b])), Served(USER, Batch(1, [b]))],
          Side(Finished(Browser.Piece(0, a), Browser.Piece(1, b)), true, [], 2,
               [Browser.Ask(0, 0, 0, 0), Browser.Ask(1, 2, 1, 0)]))
  }

  /** b is served again and counted again. */
  lemma ServesBAgain(key: Keystream)
    ensures Seen(Ran(key, ServedAgain()), WhenServedAgain(Segment(key, 0, A), Segment(key, 1, B)))
  {
    hide Ran, Seen, Segment, AsyncLock.Act, AsyncLock.Run, Queued, Finished, InLock, Started, Draining;
    ServesB(key);
    var a, b := Segment(key, 0, A), Segment(key, 1, B);
    var pa, pb := Browser.Piece(0, a), Browser.Piece(1, b);
    var v0 := WhenStarted(a, b);
    SeesDisconnect(key, Started(), v0);
    var h1 := Started() + [Browser.Disconnect];
    var v1 := v0.(side := v0.side.(connected := false));
    QueuedCounts(pa, pb);
    QueuedWaits(pa, pb);
    SeesConnect(key, h1, v1);
    var h2 := h1 + [Browser.Connect];
    var asks := [Browser.Ask(0, 0, 0, 0), Browser.Ask(1, 2, 1, 0)];
    var v2 := v1.(cursor := Some(1), side := Side(Queued(pa, [[pb]]), true, [], 1, asks));
    assert [Browser.Ask(0, 0, 0, 0)] + [Browser.Ask(1, 2, 1, 0)] == asks;
    SeesServed(key, h2, v2);
    SingleTotal(a);
    OneTask(key, 1, b);
    assert [a, b][..1] == [a] && [a, b][1..] == [b];
    SubmitsAgain(pa, pb);
    var served := [Served(USER, Batch(0, [a])), Served(USER, Batch(1, [b])), Served(USER, Batch(1, [b]))];
    var v3 := v2.(cursor := Some(2), served := served,
                  side := Side(Queued(pa, [[pb], [pb]]), true, [], 2, asks));
    assert v2.served + [Served(USER, Batch(1, [b]))] == served;
    DrainingSubmitsNothing();
    SeesLock(key, h2 + [Browser.Serve, Browser.Arrive], v3, Draining());
    AllFinish(pa, pb);
  }

  lemma QueuedCounts<W>(a: W, b: W)
    ensures Queued(a, [[b]]).counted == 1 && Finished(a, b).counted == 3
  {
  }

  function WhenAhead(a: Bytes, b: Bytes, c: Bytes): Sight {
    Sight(A + B + C, [a, b, c], 3, Some(3), WhenServedAgain(a, b).served,
          Side(Finished(Browser.Piece(0, a), Browser.Piece(1, b)), true, [], 3,
               [Browser.Ask(0, 0, 0, 0), Browser.Ask(1, 2, 1, 0), Browser.Ask(3, 2, 0, 0)]))
  }

  lemma NeverServesC(key: Keystream)
    ensures Seen(Ran(key, AheadRun()), WhenAhead(Segment(key, 0, A), Segment(key, 1, B), Segment(key, 2, C)))
  {
    hide Ran, Seen, Prints, Segment, Finished, ServedAgain;
    ServesBAgain(key);
    LettersAre();
    var a, b, c := Segment(key, 0, A), Segment(key, 1, B), Segment(key, 2, C);
    var v0 := WhenServedAgain(a, b);
    SeesDisconnect(key, ServedAgain(), v0);
    var h1 := ServedAgain() + [Browser.Disconnect];
    QueuedCounts(Browser.Piece(0, a), Browser.Piece(1, b));
    QueuedWaits(Browser.Piece(0, a), Browser.Piece(1, b));
    var v1 := v0.(side := v0.side.(connected := false));
    SeesConnect(key, h1, v1);
    var h2 := h1 + [Browser.Connect];
    var v2 := WhenAhead(a, b, c).(log := A + B, data := [a, b], wires := 2);
    assert v0.side.asks + [Browser.Ask(3, 2, 0, 0)] == v2.side.asks;
    SeesPrint(key, h2, v2, C);
    assert [a, b] + [c] == [a, b, c];
    SeesNothing(key, h2 + Prints(C, 2), WhenAhead(a, b, c));
  }

  /** The run as a whole. Nothing was ever pruned and the server never restarted, nothing waits and nothing
      is on its way; yet the browser has asked for chunk 3, when chunk 2 was the next one it wanted. The
      server holds all three chunks and does not serve the last one, which comes before the subscription;
      the second one was served, counted and written twice. */
  lemma RanAhead(key: Keystream)
    ensures var s := Ran(key, AheadRun());
            var a, b, c := Segment(key, 0, A), Segment(key, 1, B), Segment(key, 2, C);
            var pa, pb := Browser.Piece(0, a), Browser.Piece(1, b);
            && s.sys.log == A + B + C && s.sys.shell == Some(Shell(3, [a, b, c], 0, 0, false))
            && s.sys.served
               == [Served(USER, Batch(0, [a])), Served(USER, Batch(1, [b])), Served(USER, Batch(1, [b]))]
            && s.connected && s.flights == [] && s.skipped == 0
            && s.asks == [Browser.Ask(0, 0, 0, 0), Browser.Ask(1, 2, 1, 0), Browser.Ask(3, 2, 0, 0)]
            && s.lock.counted == 3 && s.lock.queue == [] && s.lock.running == []
            && s.lock.output == [pa, pb, pb]
  {
    hide Ran, Segment, AheadRun;
    NeverServesC(key);
  }
}

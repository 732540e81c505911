/** Two runs of the whole system in which the server comes up from a snapshot and what it lacks is sent
    again in other cuts than before. Chunk numbers then name other bytes: one subscriber misses a byte
    that the server holds, another one gets a byte twice. The terminal prints a, b, c and d. */
module Restarts {
  import opened ByteSeqs
  import opened Utf8
  import opened Keystreams
  import opened ShellStore
  import opened Subscription
  import opened SessionModel
  import opened Producer
  import opened ProducerRuns
  import opened Replication
  import opened Instances
  import Convergence
  import Outages
  import Service

  const A: Bytes := [0x61]
  const B: Bytes := [0x62]
  const C: Bytes := [0x63]
  const D: Bytes := [0x64]

  // ----- Steps -----

  /** The task has sent everything, counts no stale report, and the server's record is consistent. */
  ghost predicate Sent(sys: System) {
    && TaskOk(sys.task, sys.log) && CaughtUp(sys.task) && sys.task.status == Live && sys.task.seqOutdated == 0
    && sys.task.contentOffset == 0 && |sys.log| <= CONTENT_CHUNK_SIZE && Outages.Ascii(sys.log)
    && IsOpen(sys.shell) && Consistent(sys.shell.value) && sys.shell.value.seqnum <= |sys.log|
  }

  predicate Letter(text: Bytes) {
    |text| == 1 && text[0] < 0x80
  }

  lemma LetterOk(text: Bytes)
    requires Letter(text)
    ensures WellFormed(text) && Outages.Ascii(text)
  {
    assert text[1..] == [];
  }

  lemma SendResets(key: Keystream, t: Task, e: Event)
    requires t.status == Live && Iterate(key, t, e).1.Some? && Iterate(key, t, e).0.status != Faulted
    ensures Iterate(key, t, e).0.seqOutdated == 0
  {
    hide ChunkStart, ChunkEnd, Cut, PrevCharBoundary;
  }

  lemma SmallStays(key: Keystream, t: Task, e: Event)
    requires t.status == Live && t.contentOffset == 0 && |Receive(t, e).content| <= CONTENT_PRUNE_BYTES
    ensures Iterate(key, t, e).0.contentOffset == 0
  {
    hide ChunkStart, ChunkEnd, Cut, PrevCharBoundary;
  }

  /** A letter is printed; its message may or may not arrive later. */
  lemma Printed(key: Keystream, sys: System, text: Bytes)
    requires Sent(sys) && Letter(text) && |sys.log| < CONTENT_CHUNK_SIZE
    ensures var sys' := Act(key, sys, Wake(Output(text)));
            && Sent(sys')
            && sys' == sys.(log := sys.log + text, task := sys'.task,
                            wire := sys.wire + [TerminalData(|sys.log|, Segment(key, |sys.log|, text))])
  {
    LetterOk(text);
    hide TaskOk, CaughtUp, Iterate, WellFormed, Segment, Outages.Ascii, Consistent;
    var e := Output(text);
    InStepTurn(key, sys.task, sys.log, text);
    SendResets(key, sys.task, e);
    SmallContent(sys.task, sys.log);
    SmallStays(key, sys.task, e);
    Outages.AsciiAppend(sys.log, text);
  }

  lemma SmallContent(t: Task, log: Bytes)
    requires TaskOk(t, log) && t.status != Faulted && t.contentOffset == 0 && |log| <= CONTENT_CHUNK_SIZE
    ensures |t.content| == |log|
  {
  }

  /** A message that continues the record arrives. */
  lemma Arrives(key: Keystream, sys: System, i: nat)
    requires Sent(sys) && i < |sys.wire|
    requires var m := sys.wire[i]; m.seq0 == sys.shell.value.seqnum && m.data != [] && m.seq0 + |m.data| <= |sys.log|
    ensures var sys', m, s := Act(key, sys, Deliver(i)), sys.wire[i], sys.shell.value;
            && Sent(sys')
            && sys' == sys.(shell := Some(s.(seqnum := s.seqnum + |m.data|, data := s.data + [m.data])))
  {
    hide TaskOk, CaughtUp, Outages.Ascii, Consistent, ShellStore.AddData;
    RecordGrows(sys.shell.value, sys.wire[i]);
  }

  lemma RecordGrows(s: Shell, m: TerminalData)
    requires Consistent(s) && m.seq0 == s.seqnum && m.data != [] && s.seqnum + |m.data| <= SHELL_STORED_BYTES
    ensures var s' := ShellStore.AddData(s, m.data, m.seq0);
            Consistent(s') && s' == s.(seqnum := s.seqnum + |m.data|, data := s.data + [m.data])
  {
    hide Total, ShellStore.AddData;
    StoredWhole(s, m);
    TotalAppend(s.data, [m.data]);
    SingleTotal(m.data);
  }

  /** A letter is printed and arrives at a server that has everything before it. */
  lemma PrintedAndArrives(key: Keystream, sys: System, actions: seq<Replication.Action>, text: Bytes)
    requires var sys1 := Run(key, sys, actions);
             Sent(sys1) && Letter(text) && |sys1.log| < CONTENT_CHUNK_SIZE && sys1.shell.value.seqnum == |sys1.log|
    ensures var sys1 := Run(key, sys, actions);
            var sys' := Run(key, sys, actions + [Wake(Output(text)), Deliver(|sys1.wire|)]);
            var s, chunk := sys1.shell.value, Segment(key, |sys1.log|, text);
            && Sent(sys') && |sys'.wire| == |sys1.wire| + 1
            && sys' == sys1.(log := sys1.log + text, task := sys'.task, wire := sys'.wire,
                             shell := Some(s.(seqnum := s.seqnum + 1, data := s.data + [chunk])))
  {
    hide Run, Sent, Segment, Act;
    var sys1 := Run(key, sys, actions);
    Outages.RunTwo(key, sys, actions, Wake(Output(text)), Deliver(|sys1.wire|));
    Printed(key, sys1, text);
    Arrives(key, Act(key, sys1, Wake(Output(text))), |sys1.wire|);
  }

  // ----- Three reports and a resend -----

  function Reported(sys: System): seq<Replication.Action> {
    var r := ReportArrives(|sys.reports|);
    [Report, r, r, r]
  }

  lemma ReportAt(key: Keystream, sys: System, r: nat, p: nat)
    requires r < |sys.reports| && sys.reports[r] == p
    ensures Act(key, sys, ReportArrives(r)) == sys.(
              task := Iterate(key, sys.task, Sync(p)).0, wire := sys.wire + Listed(Iterate(key, sys.task, Sync(p)).1))
  {
    hide Iterate;
  }

  lemma StaleSendsNothing(key: Keystream, t: Task, p: nat)
    requires t.status == Live && CaughtUp(t) && p < t.seqnum && t.seqOutdated < 2
    ensures Iterate(key, t, Sync(p)) == (t.(seqOutdated := t.seqOutdated + 1), None)
  {
  }

  /** The third report is believed, and all from its position on goes out as one message. */
  lemma BelievesAndResends(key: Keystream, t: Task, log: Bytes, p: nat)
    requires TaskOk(t, log) && CaughtUp(t) && t.status == Live && t.seqOutdated == 2 && t.contentOffset == 0
    requires p < |log| <= CONTENT_CHUNK_SIZE && IsCharBoundary(log, p)
    ensures var turn := Iterate(key, t, Sync(p));
            && turn.1 == Some(TerminalData(p, Segment(key, p, log[p..])))
            && TaskOk(turn.0, log) && CaughtUp(turn.0) && turn.0.status == Live
            && turn.0.seqOutdated == 0 && turn.0.contentOffset == 0
  {
    var r := Receive(t, Sync(p));
    ReceiveWindow(t, log, Sync(p));
    SmallContent(t, log);
    hide WellFormed, IsCharBoundary, Segment, Send;
    SendCatchesUp(key, r, log);
    SendOk(key, r, log);
    Convergence.PruneLive(Send(key, r).0, log);
  }

  /** Three reports, and the server lacks everything from `p` on: it goes out as one message. */
  lemma ReportedThrice(key: Keystream, sys: System, actions: seq<Replication.Action>)
    requires var sys1 := Run(key, sys, actions); Sent(sys1) && sys1.shell.value.seqnum < |sys1.log|
    ensures var sys1 := Run(key, sys, actions);
            var sys', p := Run(key, sys, actions + Reported(sys1)), sys1.shell.value.seqnum;
            && Sent(sys')
            && sys' == sys1.(task := sys'.task, reports := sys1.reports + [p],
                             wire := sys1.wire + [TerminalData(p, Segment(key, p, sys1.log[p..]))])
  {
    var sys1 := Run(key, sys, actions);
    var r, p := ReportArrives(|sys1.reports|), sys1.shell.value.seqnum;
    Service.RunAppend(key, sys, actions, Reported(sys1));
    Outages.RunFour(key, sys1, Report, r);
    hide Run;
    ThreeArrivals(key, sys1);
  }

  lemma ThreeArrivals(key: Keystream, sys: System)
    requires Sent(sys) && sys.shell.value.seqnum < |sys.log|
    ensures var r, p := ReportArrives(|sys.reports|), sys.shell.value.seqnum;
            var sys' := Act(key, Act(key, Act(key, Act(key, sys, Report), r), r), r);
            && Sent(sys')
            && sys' == sys.(task := sys'.task, reports := sys.reports + [p],
                            wire := sys.wire + [TerminalData(p, Segment(key, p, sys.log[p..]))])
  {
    var i, p, t := |sys.reports|, sys.shell.value.seqnum, sys.task;
    var t1, t2 := t.(seqOutdated := 1), t.(seqOutdated := 2);
    var s0 := Act(key, sys, Report);
    assert s0 == sys.(reports := sys.reports + [p]);
    SentPosition(sys);
    hide Sent, TaskOk, CaughtUp, Iterate, Act, Segment, IsCharBoundary;
    StaleSendsNothing(key, t, p);
    StaleSendsNothing(key, t1, p);
    BelievesAndResends(key, t2, sys.log, p);
    ReportAt(key, s0, i, p);
    var s1 := Act(key, s0, ReportArrives(i));
    assert s1 == s0.(task := t1) by { assert sys.wire + [] == sys.wire; }
    ReportAt(key, s1, i, p);
    var s2 := Act(key, s1, ReportArrives(i));
    assert s2 == s0.(task := t2) by { assert sys.wire + [] == sys.wire; }
    ReportAt(key, s2, i, p);
    StillSent(sys, Act(key, s2, ReportArrives(i)));
  }

  lemma SentPosition(sys: System)
    requires Sent(sys) && sys.shell.value.seqnum < |sys.log|
    ensures var t, p := sys.task, sys.shell.value.seqnum;
            && t.status == Live && t.seqOutdated == 0 && t.contentOffset == 0 && IsOpen(sys.shell)
            && CaughtUp(t) && CaughtUp(t.(seqOutdated := 1)) && CaughtUp(t.(seqOutdated := 2))
            && TaskOk(t.(seqOutdated := 2), sys.log) && p < t.seqnum
            && p < |sys.log| <= CONTENT_CHUNK_SIZE && IsCharBoundary(sys.log, p)
  {
    hide WellFormed;
  }

  lemma StillSent(sys: System, sys': System)
    requires Sent(sys) && sys'.log == sys.log && sys'.shell == sys.shell
    requires TaskOk(sys'.task, sys.log) && CaughtUp(sys'.task) && sys'.task.status == Live
    requires sys'.task.seqOutdated == 0 && sys'.task.contentOffset == 0
    ensures Sent(sys')
  {
    hide TaskOk, CaughtUp, Outages.Ascii, Consistent;
  }

  /** The server comes up from a snapshot that is consistent and not ahead. */
  lemma Restarted(key: Keystream, sys: System, actions: seq<Replication.Action>, i: nat)
    requires var sys1 := Run(key, sys, actions);
             && Sent(sys1) && i < |sys1.snapshots|
             && !sys1.snapshots[i].closed && Consistent(sys1.snapshots[i]) && sys1.snapshots[i].seqnum <= |sys1.log|
    ensures var sys1 := Run(key, sys, actions);
            var sys' := Run(key, sys, actions + [RestartFrom(i)]);
            Sent(sys') && sys' == sys1.(shell := Some(sys1.snapshots[i]))
  {
    Outages.RunOne(key, sys, actions, RestartFrom(i));
    hide Run, TaskOk, CaughtUp, Outages.Ascii, Consistent;
  }

  lemma Saved(key: Keystream, sys: System, actions: seq<Replication.Action>)
    requires var sys1 := Run(key, sys, actions); Sent(sys1) && sys1.shell.value.seqnum <= SHELL_SNAPSHOT_BYTES
    ensures var sys1 := Run(key, sys, actions);
            var sys' := Run(key, sys, actions + [TakeSnapshot]);
            Sent(sys') && sys' == sys1.(snapshots := sys1.snapshots + [sys1.shell.value])
  {
    Outages.RunOne(key, sys, actions, TakeSnapshot);
    var s := Run(key, sys, actions).shell.value;
    assert Total(s.data) <= SHELL_SNAPSHOT_BYTES && s.data[0..] == s.data && s.data[..0] == [];
    assert Prune(s, SHELL_SNAPSHOT_BYTES) == s;
    hide Run, TaskOk, CaughtUp, Outages.Ascii, Consistent, Prune;
  }

  /** What a read adds to the record of what was served. */
  function Given(user: nat, batch: Batch): seq<Served> {
    if batch.chunks == [] then [] else [Served(user, batch)]
  }

  /** Someone subscribes and reads. */
  lemma SubscribesAndReads(key: Keystream, sys: System, actions: seq<Replication.Action>, user: nat, k: nat)
    requires var sys1 := Run(key, sys, actions); Sent(sys1)
    ensures var sys1 := Run(key, sys, actions);
            var sys' := Run(key, sys, actions + [Subscribe(user, k), Read(user)]);
            var s := sys1.shell.value;
            && Sent(sys')
            && sys' == sys1.(cursors := sys1.cursors[user := NextCursor(k, s)],
                             served := sys1.served + Given(user, ReadChunks(k, s)))
  {
    Outages.RunTwo(key, sys, actions, Subscribe(user, k), Read(user));
    hide Run, TaskOk, CaughtUp, Outages.Ascii, Consistent, ReadChunks, NextCursor;
    var sys1 := Run(key, sys, actions);
    assert sys1.cursors[user := k][user := NextCursor(k, sys1.shell.value)]
        == sys1.cursors[user := NextCursor(k, sys1.shell.value)];
    assert sys1.served + [] == sys1.served;
  }

  // ----- The runs -----

  const EARLY: nat := 7
  const LATE: nat := 8

  function Reports(i: nat): seq<Replication.Action> {
    [Report, ReportArrives(i), ReportArrives(i), ReportArrives(i)]
  }

  /** "a" and "b" arrive, with a snapshot after each; someone subscribes and gets both. */
  function TwoLetters(): seq<Replication.Action> {
    [Register] + [Wake(Output(A)), Deliver(0)] + [TakeSnapshot] + [Wake(Output(B)), Deliver(1)] + [TakeSnapshot]
    + [Subscribe(EARLY, 0), Read(EARLY)]
  }

  /** The server comes up from the first snapshot; "c" is printed; three reports make the client send "b"
      and "c" again as one message, which arrives. */
  function Recut(): seq<Replication.Action> {
    TwoLetters() + [RestartFrom(0)] + [Wake(Output(C))] + Reports(0) + [Deliver(3)]
  }

  lemma Registered(key: Keystream)
    ensures var sys := Run(key, INITIAL, [Register]);
            Sent(sys) && sys == INITIAL.(shell := Some(FRESH_SHELL))
  {
    StartsInStep(key);
    assert [Register][1..] == [];
    assert Run(key, INITIAL, [Register]) == Act(key, INITIAL, Register);
  }

  lemma LettersAre()
    ensures Letter(A) && Letter(B) && Letter(C) && Letter(D)
  {
  }

  lemma AfterTwoLetters(key: Keystream)
    ensures var sys, a, b := Run(key, INITIAL, TwoLetters()), Segment(key, 0, A), Segment(key, 1, B);
            && Sent(sys) && sys.log == A + B && |sys.wire| == 2 && sys.reports == []
            && sys.snapshots == [Shell(1, [a], 0, 0, false), Shell(2, [a, b], 0, 0, false)]
            && sys.shell == Some(Shell(2, [a, b], 0, 0, false))
            && sys.served == [Served(EARLY, Batch(0, [a, b]))]
  {
    hide Run, Sent, Segment, Letter, Reports;
    LettersAre();
    Registered(key);
    var first: seq<Replication.Action> := [Register];
    PrintedAndArrives(key, INITIAL, first, A);
    var second := first + [Wake(Output(A)), Deliver(0)];
    var s2 := Run(key, INITIAL, second);
    assert s2.log == A && s2.shell.value.data == [Segment(key, 0, A)];
    Saved(key, INITIAL, second);
    var third := second + [TakeSnapshot];
    PrintedAndArrives(key, INITIAL, third, B);
    var fourth := third + [Wake(Output(B)), Deliver(1)];
    var s4 := Run(key, INITIAL, fourth);
    assert s4.shell.value.data == [Segment(key, 0, A), Segment(key, 1, B)];
    Saved(key, INITIAL, fourth);
    var fifth := fourth + [TakeSnapshot];
    SubscribesAndReads(key, INITIAL, fifth, EARLY, 0);
    ReadFrom(0, Run(key, INITIAL, fifth).shell.value);
  }

  /** Reading a record that was never pruned. */
  lemma ReadFrom(k: nat, s: Shell)
    requires s.chunkOffset == 0 && s.byteOffset == 0
    ensures k < |s.data| ==> ReadChunks(k, s) == Batch(Total(s.data[..k]), s.data[k..])
    ensures k >= |s.data| ==> ReadChunks(k, s).chunks == []
    ensures k == 0 && s.data != [] ==> ReadChunks(k, s) == Batch(0, s.data)
  {
    assert s.data[..0] == [] && s.data[0..] == s.data;
  }

  lemma AfterRecut(key: Keystream)
    ensures var sys, a, bc := Run(key, INITIAL, Recut()), Segment(key, 0, A), Segment(key, 1, B + C);
            var before := Run(key, INITIAL, TwoLetters());
            && Sent(sys) && sys.log == A + B + C && |sys.wire| == 4 && |sys.reports| == 1
            && sys.snapshots == before.snapshots && sys.served == before.served
            && sys.shell == Some(Shell(3, [a, bc], 0, 0, false))
  {
    hide Run, Sent, Segment, Letter, TwoLetters, Act;
    LettersAre();
    AfterTwoLetters(key);
    var first, a := TwoLetters(), Segment(key, 0, A);
    SavedOk(a);
    AtMostPrinted(key, INITIAL, first);
    Restarted(key, INITIAL, first, 0);
    var second := first + [RestartFrom(0)];
    Printing(key, INITIAL, second, C);
    var third := second + [Wake(Output(C))];
    ReportedThrice(key, INITIAL, third);
    var s3 := Run(key, INITIAL, third);
    assert s3.log[1..] == B + C;
    assert Reported(s3) == Reports(0);
    var fourth := third + Reports(0);
    Arriving(key, INITIAL, fourth, 3);
    assert [a] + [Segment(key, 1, B + C)] == [a, Segment(key, 1, B + C)];
  }

  lemma SavedOk(chunk: Bytes)
    requires |chunk| == 1
    ensures Consistent(Shell(1, [chunk], 0, 0, false))
  {
    SingleTotal(chunk);
  }

  lemma AtMostPrinted(key: Keystream, sys: System, actions: seq<Replication.Action>)
    requires Sent(Run(key, sys, actions))
    ensures var sys1 := Run(key, sys, actions); IsOpen(sys1.shell) && sys1.shell.value.seqnum <= |sys1.log|
  {
  }

  lemma Printing(key: Keystream, sys: System, actions: seq<Replication.Action>, text: Bytes)
    requires var sys1 := Run(key, sys, actions); Sent(sys1) && Letter(text) && |sys1.log| < CONTENT_CHUNK_SIZE
    ensures var sys1 := Run(key, sys, actions);
            var sys' := Run(key, sys, actions + [Wake(Output(text))]);
            && Sent(sys')
            && sys' == sys1.(log := sys1.log + text, task := sys'.task,
                             wire := sys1.wire + [TerminalData(|sys1.log|, Segment(key, |sys1.log|, text))])
  {
    hide Run, Sent, Act, Segment;
    Outages.RunOne(key, sys, actions, Wake(Output(text)));
    Printed(key, Run(key, sys, actions), text);
  }

  lemma Arriving(key: Keystream, sys: System, actions: seq<Replication.Action>, i: nat)
    requires var sys1 := Run(key, sys, actions);
             && Sent(sys1) && i < |sys1.wire| && IsOpen(sys1.shell)
             && var m := sys1.wire[i];
             && m.seq0 == sys1.shell.value.seqnum && m.data != [] && m.seq0 + |m.data| <= |sys1.log|
    ensures var sys1 := Run(key, sys, actions);
            var sys', m, s := Run(key, sys, actions + [Deliver(i)]), sys1.wire[i], sys1.shell.value;
            && Sent(sys')
            && sys' == sys1.(shell := Some(s.(seqnum := s.seqnum + |m.data|, data := s.data + [m.data])))
  {
    hide Run, Sent, Act;
    Outages.RunOne(key, sys, actions, Deliver(i));
    Arrives(key, Run(key, sys, actions), i);
  }

  lemma Reading(key: Keystream, sys: System, actions: seq<Replication.Action>, user: nat)
    requires var sys1 := Run(key, sys, actions); user in sys1.cursors && IsOpen(sys1.shell)
    ensures var sys1 := Run(key, sys, actions);
            var sys' := Run(key, sys, actions + [Read(user)]);
            && sys'.log == sys1.log && sys'.shell == sys1.shell
            && sys'.served == sys1.served + Given(user, ReadChunks(sys1.cursors[user], sys1.shell.value))
  {
    Outages.RunOne(key, sys, actions, Read(user));
    hide Run, ReadChunks, NextCursor;
    assert Run(key, sys, actions).served + [] == Run(key, sys, actions).served;
  }

  /** The early subscriber comes back for chunk 2, as it has counted two chunks; then "d" is printed. */
  function ByteLostRun(): seq<Replication.Action> {
    Recut() + [Subscribe(EARLY, 2), Read(EARLY)] + [Wake(Output(D)), Deliver(4)] + [Read(EARLY)]
  }

  /** It got "a", "b" and "d": nothing was pruned, the server holds all four bytes, and "c" never comes. */
  lemma ByteLost(key: Keystream)
    ensures var sys := Run(key, INITIAL, ByteLostRun());
            && sys.log == A + B + C + D
            && sys.shell.Some? && sys.shell.value.chunkOffset == sys.shell.value.byteOffset == 0
            && sys.shell.value.seqnum == |sys.log|
            && Service.BatchesOf(sys.served, EARLY)
               == [Batch(0, [Segment(key, 0, A), Segment(key, 1, B)]), Batch(3, [Segment(key, 3, D)])]
            && !Service.SpellsLog(key, sys.log, Service.BatchesOf(sys.served, EARLY))
  {
    hide Run, Sent, Segment, Letter, Recut, Act, Service.SpellsLog, Service.BatchesOf;
    LettersAre();
    AfterTwoLetters(key);
    AfterRecut(key);
    var first := Recut();
    AtMostPrinted(key, INITIAL, first);
    SubscribesAndReads(key, INITIAL, first, EARLY, 2);
    ReadFrom(2, Run(key, INITIAL, first).shell.value);
    var second := first + [Subscribe(EARLY, 2), Read(EARLY)];
    PrintedAndArrives(key, INITIAL, second, D);
    var third := second + [Wake(Output(D)), Deliver(4)];
    Reading(key, INITIAL, third, EARLY);
    LastChunk(Run(key, INITIAL, third).shell.value, Segment(key, 0, A), Segment(key, 1, B + C), Segment(key, 3, D));
    TwoBatches(EARLY, Batch(0, [Segment(key, 0, A), Segment(key, 1, B)]), Batch(3, [Segment(key, 3, D)]));
    var sys := Run(key, INITIAL, ByteLostRun());
    assert sys.served == [Served(EARLY, Batch(0, [Segment(key, 0, A), Segment(key, 1, B)])),
                          Served(EARLY, Batch(3, [Segment(key, 3, D)]))];
    Gap(key, sys.log, [Segment(key, 0, A), Segment(key, 1, B)], Batch(3, [Segment(key, 3, D)]));
  }

  lemma LastChunk(s: Shell, a: Bytes, bc: Bytes, d: Bytes)
    requires s.data == [a, bc, d] && s.chunkOffset == 0 && s.byteOffset == 0 && |a| == 1 && |bc| == 2
    ensures ReadChunks(2, s) == Batch(3, [d])
  {
    assert s.data[..2] == [a, bc] && s.data[2..] == [d];
    TwoTotal(a, bc);
    ReadFrom(2, s);
  }

  lemma TwoTotal(a: Bytes, b: Bytes)
    ensures Total([a, b]) == |a| + |b|
  {
    assert [a, b][1..] == [b] && [b][1..] == [];
    assert Total([b]) == |b|;
  }

  lemma TwoBatches(user: nat, x: Batch, y: Batch)
    ensures Service.BatchesOf([Served(user, x), Served(user, y)], user) == [x, y]
    ensures Service.BatchesOf([Served(user, x)], user) == [x]
  {
    assert [Served(user, x), Served(user, y)][1..] == [Served(user, y)] && [Served(user, y)][1..] == [];
    assert [Served(user, x)][1..] == [];
    assert Service.BatchesOf([Served(user, y)], user) == [y];
  }

  /** Batches whose labels do not join spell nothing. */
  lemma Gap(key: Keystream, log: Bytes, chunks: seq<Bytes>, next: Batch)
    requires |chunks| == 2 && |chunks[0]| + |chunks[1]| != next.seqnum
    ensures !Service.SpellsLog(key, log, [Batch(0, chunks), next])
  {
    hide Flatten, DecryptChunks, WellFormed, AllChunks, Total;
    var batches := [Batch(0, chunks), next];
    TwoTotal(chunks[0], chunks[1]);
    assert chunks == [chunks[0], chunks[1]] && batches[1..] == [next];
    if Service.SpellsLog(key, log, batches) {
      var to := 0 + Total(AllChunks(batches));
      assert Chain(batches, 0, to);
      Service.ChainStart([next], Total(chunks), to);
    }
  }

  /** A late subscriber gets "a" and "bc" and goes away; the server comes up from the second snapshot, the
      client sends "c" again, and the subscriber comes back for chunk 2, as it has counted two chunks. */
  function ByteTwiceRun(): seq<Replication.Action> {
    Recut() + [Subscribe(LATE, 0), Read(LATE)] + [RestartFrom(1)] + Reports(1) + [Deliver(4)]
    + [Subscribe(LATE, 2), Read(LATE)]
  }

  /** It got "a", "bc" and "c" once more, although the snapshot counts as many chunks as it had: that
      snapshot was taken of an earlier record, whose chunks were cut differently. */
  lemma ByteTwice(key: Keystream)
    ensures var sys := Run(key, INITIAL, ByteTwiceRun());
            && sys.log == A + B + C
            && |sys.snapshots| == 2 && ChunkCount(sys.snapshots[1]) == 2
            && Service.BatchesOf(sys.served, LATE)
               == [Batch(0, [Segment(key, 0, A), Segment(key, 1, B + C)]), Batch(2, [Segment(key, 2, C)])]
            && !Service.SpellsLog(key, sys.log, Service.BatchesOf(sys.served, LATE))
  {
    hide Run, Sent, Segment, Letter, Recut, Act, Service.SpellsLog, Service.BatchesOf;
    AfterTwoLetters(key);
    AfterRecut(key);
    var first, a, b := Recut(), Segment(key, 0, A), Segment(key, 1, B);
    AtMostPrinted(key, INITIAL, first);
    SubscribesAndReads(key, INITIAL, first, LATE, 0);
    ReadFrom(0, Run(key, INITIAL, first).shell.value);
    var second := first + [Subscribe(LATE, 0), Read(LATE)];
    SavedTwoOk(a, b);
    Restarted(key, INITIAL, second, 1);
    var third := second + [RestartFrom(1)];
    var s3 := Run(key, INITIAL, third);
    ReportedThrice(key, INITIAL, third);
    assert s3.log[2..] == C;
    assert Reported(s3) == Reports(1);
    var fourth := third + Reports(1);
    Arriving(key, INITIAL, fourth, 4);
    var fifth := fourth + [Deliver(4)];
    SubscribesAndReads(key, INITIAL, fifth, LATE, 2);
    LastOfThree(Run(key, INITIAL, fifth).shell.value, a, b, Segment(key, 2, C));
    LateBatches(EARLY, LATE, Batch(0, [a, b]), Batch(0, [a, Segment(key, 1, B + C)]), Batch(2, [Segment(key, 2, C)]));
    var sys := Run(key, INITIAL, ByteTwiceRun());
    assert sys.served == [Served(EARLY, Batch(0, [a, b])), Served(LATE, Batch(0, [a, Segment(key, 1, B + C)])),
                          Served(LATE, Batch(2, [Segment(key, 2, C)]))];
    Gap(key, sys.log, [a, Segment(key, 1, B + C)], Batch(2, [Segment(key, 2, C)]));
  }

  lemma SavedTwoOk(a: Bytes, b: Bytes)
    requires |a| == 1 && |b| == 1
    ensures Consistent(Shell(2, [a, b], 0, 0, false))
  {
    TwoTotal(a, b);
  }

  lemma LastOfThree(s: Shell, a: Bytes, b: Bytes, c: Bytes)
    requires s.data == [a, b, c] && s.chunkOffset == 0 && s.byteOffset == 0 && |a| == 1 && |b| == 1
    ensures ReadChunks(2, s) == Batch(2, [c])
  {
    assert s.data[..2] == [a, b] && s.data[2..] == [c];
    TwoTotal(a, b);
    ReadFrom(2, s);
  }

  lemma LateBatches(other: nat, user: nat, w: Batch, x: Batch, y: Batch)
    requires other != user
    ensures Service.BatchesOf([Served(other, w), Served(user, x), Served(user, y)], user) == [x, y]
  {
    var all := [Served(other, w), Served(user, x), Served(user, y)];
    assert all[1..] == [Served(user, x), Served(user, y)];
    TwoBatches(user, x, y);
  }
}

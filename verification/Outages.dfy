/** Two runs of the whole system in which a connection stays lost for twelve mebibytes of output and
    then comes back: in one the client underflows at once, in the other it prunes what the server
    lacks before it has sent it again. The terminal prints letters, 4096 at a time. */
module Outages {
  import opened ByteSeqs
  import opened Utf8
  import opened Keystreams
  import opened ShellStore
  import opened Producer
  import opened ProducerRuns
  import opened Replication
  import opened Convergence
  import opened Recovery
  import EndToEnd
  import Service

  // ----- One-byte characters -----

  predicate Ascii(s: Bytes) {
    forall i :: 0 <= i < |s| ==> s[i] < 0x80
  }

  lemma EveryBoundary(s: Bytes, i: nat)
    requires Ascii(s) && i <= |s|
    ensures PrevCharBoundary(s, i) == i
  {
    assert IsCharBoundary(s, i);
  }

  lemma {:induction false} LettersAscii(n: nat)
    ensures Ascii(Letters(n))
    decreases n
  {
    hide WellFormed;
    if n == 0 {
    } else {
      LettersAscii(n - 1);
    }
  }

  // ----- The task under the flood -----

  const WHOLE: nat := 3072    // reads in twelve mebibytes
  const ROLLING: nat := 2048  // reads in eight mebibytes

  /** How many reads are pruned after `n` of them. */
  function Off(n: nat): (off: nat)
    ensures off <= n && n - off <= WHOLE
  {
    if n <= WHOLE then 0 else (n - ROLLING) / (WHOLE - ROLLING + 1) * (WHOLE - ROLLING + 1)
  }

  lemma OffStep(n: nat)
    ensures Off(n + 1) == if n + 1 - Off(n) > WHOLE then n + 1 - ROLLING else Off(n)
  {
    if n >= WHOLE {
      var m, k := n - ROLLING, WHOLE - ROLLING + 1;
      assert m == m / k * k + m % k;
      Successor(m, k);
    }
  }

  lemma Successor(m: nat, k: nat)
    requires k == 1025
    ensures (m + 1) / k == if m % k == k - 1 then m / k + 1 else m / k
  {
  }

  /** The task after `n` reads that it all sent: it holds the reads from `Off(n)` on. */
  ghost predicate Flooding(t: Task, log: Bytes, n: nat) {
    && TaskOk(t, log) && t.status == Live && t.seqOutdated == 0
    && Ascii(log) && |log| == n * READ_SIZE
    && t.seqnum == n * READ_SIZE
    && t.contentOffset == Off(n) * READ_SIZE
  }

  lemma FloodingCaughtUp(t: Task, log: Bytes, n: nat)
    requires Flooding(t, log, n)
    ensures CaughtUp(t) && |t.content| == (n - Off(n)) * READ_SIZE
  {
    hide WellFormed, IsCharBoundary, Off;
  }

  lemma AsciiAppend(a: Bytes, b: Bytes)
    requires Ascii(a) && Ascii(b)
    ensures Ascii(a + b)
  {
  }

  lemma AsciiSuffix(s: Bytes, i: nat)
    requires Ascii(s) && i <= |s|
    ensures Ascii(s[i..])
  {
  }

  /** The exact effect of pruning one-byte characters. */
  lemma PruneAscii(s: Task)
    requires Ascii(s.content) && s.seqnum <= End(s) && s.seqnum >= s.contentOffset
    requires |s.content| > CONTENT_PRUNE_BYTES ==> s.seqnum >= CONTENT_ROLLING_BYTES
    ensures var p := PruneContent(s);
            && p.seqnum == s.seqnum && p.seqOutdated == s.seqOutdated && p.status == s.status
            && p.contentOffset ==
                 (if |s.content| > CONTENT_PRUNE_BYTES && s.seqnum > s.contentOffset + CONTENT_ROLLING_BYTES
                  then s.seqnum - CONTENT_ROLLING_BYTES else s.contentOffset)
  {
    if |s.content| > CONTENT_PRUNE_BYTES && s.seqnum > s.contentOffset + CONTENT_ROLLING_BYTES {
      EveryBoundary(s.content, s.seqnum - CONTENT_ROLLING_BYTES - s.contentOffset);
    }
  }

  /** One more read: it is sent whole, and the window moves as `Off` says. */
  lemma FloodTurn(key: Keystream, t: Task, log: Bytes, text: Bytes, n: nat)
    requires Flooding(t, log, n) && WellFormed(text) && Ascii(text) && |text| == READ_SIZE
    ensures var (t', message) := Iterate(key, t, Output(text));
            && Flooding(t', log + text, n + 1)
            && message.Some? && message.value.seq0 == n * READ_SIZE && |message.value.data| == READ_SIZE
  {
    var e := Output(text);
    FloodingCaughtUp(t, log, n);
    assert Grow(t, log, e) == log + text;
    CaughtUpTurn(key, t, log, e);
    IterateOk(key, t, log, e);
    AsciiAppend(log, text);
    FloodOffset(key, t, log, text, n);
    TimesStep(READ_SIZE, n + 1);
    hide Iterate, WellFormed, IsCharBoundary, Ascii, Segment, Off;
  }

  lemma FloodOffset(key: Keystream, t: Task, log: Bytes, text: Bytes, n: nat)
    requires Flooding(t, log, n) && WellFormed(text) && Ascii(text) && |text| == READ_SIZE
    ensures var t' := Iterate(key, t, Output(text)).0;
            t'.contentOffset == Off(n + 1) * READ_SIZE && t'.seqOutdated == 0 && t'.status == Live
  {
    FloodingCaughtUp(t, log, n);
    var r := Receive(t, Output(text));
    ReceiveWindow(t, log, Output(text));
    AsciiSuffix(log, t.contentOffset);
    AsciiAppend(t.content, text);
    assert log + text == Grow(t, log, Output(text));
    hide WellFormed, IsCharBoundary, Ascii, Off, Send, PruneContent;
    SendOk(key, r, log + text);
    SendCatchesUp(key, r, log + text);
    PruneAscii(Send(key, r).0);
    OffStep(n);
  }

  // ----- The system under the flood -----

  const TEXT: Bytes := Letters(READ_SIZE)

  /** After `n` reads, of which the first `d` reached the server. */
  ghost predicate FloodedSystem(sys: System, n: nat, d: nat) {
    && Flooding(sys.task, sys.log, n)
    && |sys.wire| == n && sys.reports == []
    && IsOpen(sys.shell) && sys.shell.value.seqnum == d * READ_SIZE
  }

  /** `n` reads whose messages arrive, and `m` whose messages are lost. */
  function DeliveredReads(n: nat): seq<Action> {
    if n == 0 then [] else DeliveredReads(n - 1) + [Wake(Output(TEXT)), Deliver(n - 1)]
  }

  function LostReads(m: nat): seq<Action> {
    if m == 0 then [] else LostReads(m - 1) + [Wake(Output(TEXT))]
  }

  lemma TextOk()
    ensures WellFormed(TEXT) && Ascii(TEXT) && |TEXT| == READ_SIZE
  {
    hide Ascii;
    LettersAscii(READ_SIZE);
  }

  lemma ReadAction(key: Keystream, sys: System, n: nat, d: nat)
    requires FloodedSystem(sys, n, d)
    ensures var sys' := Act(key, sys, Wake(Output(TEXT)));
            && FloodedSystem(sys', n + 1, d)
            && sys'.wire[n].seq0 == n * READ_SIZE && |sys'.wire[n].data| == READ_SIZE
  {
    TextOk();
    FloodTurn(key, sys.task, sys.log, TEXT, n);
    hide Flooding, Iterate, WellFormed, Ascii;
    assert Grow(sys.task, sys.log, Output(TEXT)) == sys.log + TEXT by { FloodingLive(sys.task, sys.log, n); }
  }

  lemma FloodingLive(t: Task, log: Bytes, n: nat)
    requires Flooding(t, log, n)
    ensures t.status == Live
  {
  }

  lemma DeliverAction(key: Keystream, sys: System, n: nat)
    requires FloodedSystem(sys, n + 1, n)
    requires sys.wire[n].seq0 == n * READ_SIZE && |sys.wire[n].data| == READ_SIZE
    ensures FloodedSystem(Act(key, sys, Deliver(n)), n + 1, n + 1)
  {
    hide Flooding, Excess, Total;
    assert Accepts(sys.shell.value.seqnum, sys.wire[n].data, sys.wire[n].seq0);
  }

  lemma {:induction false} DeliveredRun(key: Keystream, sys: System, n: nat)
    requires FloodedSystem(sys, 0, 0)
    ensures FloodedSystem(Run(key, sys, DeliveredReads(n)), n, n)
    decreases n
  {
    hide FloodedSystem, Act, Run, Letters;
    if n == 0 {
      RunNone(key, sys);
    } else {
      DeliveredRun(key, sys, n - 1);
      var sys1 := Run(key, sys, DeliveredReads(n - 1));
      RunTwo(key, sys, DeliveredReads(n - 1), Wake(Output(TEXT)), Deliver(n - 1));
      ReadAction(key, sys1, n - 1, n - 1);
      DeliverAction(key, Act(key, sys1, Wake(Output(TEXT))), n - 1);
    }
  }

  lemma RunNone(key: Keystream, sys: System)
    ensures Run(key, sys, []) == sys
  {
  }

  lemma RunTwo(key: Keystream, sys: System, actions: seq<Action>, a: Action, b: Action)
    ensures Run(key, sys, actions + [a, b]) == Act(key, Act(key, Run(key, sys, actions), a), b)
  {
    hide Act;
    Service.RunAppend(key, sys, actions, [a, b]);
    var sys1 := Run(key, sys, actions);
    assert [a, b][1..] == [b] && [b][1..] == [];
    assert Run(key, Act(key, sys1, a), [b]) == Run(key, Act(key, Act(key, sys1, a), b), []);
  }

  lemma RunOne(key: Keystream, sys: System, actions: seq<Action>, a: Action)
    ensures Run(key, sys, actions + [a]) == Act(key, Run(key, sys, actions), a)
  {
    hide Act;
    Service.RunAppend(key, sys, actions, [a]);
    assert [a][1..] == [];
  }

  lemma {:induction false} LostRun(key: Keystream, sys: System, d: nat, m: nat)
    requires FloodedSystem(sys, d, d)
    ensures FloodedSystem(Run(key, sys, LostReads(m)), d + m, d)
    decreases m
  {
    hide FloodedSystem, Act, Run, Letters;
    if m == 0 {
      RunNone(key, sys);
    } else {
      LostRun(key, sys, d, m - 1);
      RunOne(key, sys, LostReads(m - 1), Wake(Output(TEXT)));
      ReadAction(key, Run(key, sys, LostReads(m - 1)), d + m - 1, d);
    }
  }

  // ----- The connection comes back -----

  /** `d` reads arrive, `m` are lost, and then the server's position is reported three times. */
  function Outage(d: nat, m: nat): seq<Action> {
    [Register] + DeliveredReads(d) + LostReads(m) + [Report, ReportArrives(0), ReportArrives(0), ReportArrives(0)]
  }

  lemma RegisterFlooded(key: Keystream)
    ensures FloodedSystem(Run(key, INITIAL, [Register]), 0, 0)
  {
    assert [Register][1..] == [];
    assert Run(key, INITIAL, [Register]) == Act(key, INITIAL, Register);
    assert Off(0) == 0;
  }

  /** The rewound task: it stands one chunk behind the server's position. */
  lemma Rewound(key: Keystream, t: Task, log: Bytes, n: nat, d: nat)
    requires Flooding(t, log, n) && Off(n) <= d && d + 16 <= n
    ensures var r := Sync(d * READ_SIZE);
            var t3 := Iterate(key, Iterate(key, Iterate(key, t, r).0, r).0, r).0;
            t3 == t.(seqnum := d * READ_SIZE + CONTENT_CHUNK_SIZE)
  {
    var p := d * READ_SIZE;
    hide Iterate, Flooding, Ascii, CaughtUp, TaskOk, Off;
    RewindFits(t, log, n, d);
    StaleTurn(key, t, p);
    StaleTurn(key, t.(seqOutdated := 1), p);
    BelievingTurn(key, t.(seqOutdated := 2), p);
  }

  lemma RewindFits(t: Task, log: Bytes, n: nat, d: nat)
    requires Flooding(t, log, n) && Off(n) <= d && d + 16 <= n
    ensures t.status == Live && t.seqOutdated == 0 && CaughtUp(t) && Ascii(t.content)
    ensures CaughtUp(t.(seqOutdated := 1)) && CaughtUp(t.(seqOutdated := 2))
    ensures t.contentOffset <= d * READ_SIZE && d * READ_SIZE + CONTENT_CHUNK_SIZE <= t.seqnum
  {
    FloodingCaughtUp(t, log, n);
    AsciiSuffix(log, t.contentOffset);
    hide WellFormed, IsCharBoundary, Ascii, Off;
  }

  lemma StaleTurn(key: Keystream, t: Task, p: nat)
    requires t.status == Live && CaughtUp(t) && p < t.seqnum && t.seqOutdated < 2
    ensures Iterate(key, t, Sync(p)).0 == t.(seqOutdated := t.seqOutdated + 1)
  {
  }

  lemma BelievingTurn(key: Keystream, t: Task, p: nat)
    requires t.status == Live && CaughtUp(t) && t.seqOutdated == 2 && Ascii(t.content)
    requires t.contentOffset <= p && p + CONTENT_CHUNK_SIZE <= t.seqnum
    ensures Iterate(key, t, Sync(p)).0 == t.(seqnum := p + CONTENT_CHUNK_SIZE, seqOutdated := 0)
  {
    EveryBoundary(t.content, p - t.contentOffset);
    EveryBoundary(t.content, p - t.contentOffset + CONTENT_CHUNK_SIZE);
    hide PrevCharBoundary, Ascii, Cut;
  }

  /** The state after the outage. */
  lemma AfterOutage(key: Keystream, d: nat, m: nat)
    requires Off(d + m) <= d && m >= 16
    ensures var sys := Run(key, INITIAL, Outage(d, m));
            && sys.task.status == Live && IsOpen(sys.shell) && sys.shell.value.seqnum == d * READ_SIZE
            && |sys.log| == (d + m) * READ_SIZE && Ascii(sys.log)
            && TaskOk(sys.task, sys.log)
            && sys.task.contentOffset == Off(d + m) * READ_SIZE
            && sys.task.seqnum == d * READ_SIZE + CONTENT_CHUNK_SIZE && sys.task.seqOutdated == 0
  {
    var head := [Register] + DeliveredReads(d) + LostReads(m);
    RegisterFlooded(key);
    var s0 := Run(key, INITIAL, [Register]);
    DeliveredRun(key, s0, d);
    Service.RunAppend(key, INITIAL, [Register], DeliveredReads(d));
    var s1 := Run(key, INITIAL, [Register] + DeliveredReads(d));
    LostRun(key, s1, d, m);
    Service.RunAppend(key, INITIAL, [Register] + DeliveredReads(d), LostReads(m));
    var s2 := Run(key, INITIAL, head);
    Service.RunAppend(key, INITIAL, head, [Report, ReportArrives(0), ReportArrives(0), ReportArrives(0)]);
    EndToEnd.ReachableOk(key, Outage(d, m));
    hide Run, DeliveredReads, LostReads, Off, FloodedSystem;
    ThreeReports(key, s2, d, m);
  }

  lemma ThreeReports(key: Keystream, sys: System, d: nat, m: nat)
    requires FloodedSystem(sys, d + m, d) && Off(d + m) <= d && m >= 16
    ensures var sys' := Run(key, sys, [Report, ReportArrives(0), ReportArrives(0), ReportArrives(0)]);
            && sys'.log == sys.log && sys'.shell == sys.shell
            && sys'.task == sys.task.(seqnum := d * READ_SIZE + CONTENT_CHUNK_SIZE)
  {
    hide Run, Act, Iterate, Off, FloodedSystem;
    RunFour(key, sys, Report, ReportArrives(0));
    ReportMade(key, sys, d + m, d);
    Rewound(key, sys.task, sys.log, d + m, d);
    var p := d * READ_SIZE;
    var s1 := Act(key, sys, Report);
    ReportArrival(key, s1, p);
    var s2 := Act(key, s1, ReportArrives(0));
    ReportArrival(key, s2, p);
    ReportArrival(key, Act(key, s2, ReportArrives(0)), p);
  }

  lemma ReportMade(key: Keystream, sys: System, n: nat, d: nat)
    requires FloodedSystem(sys, n, d)
    ensures Flooding(sys.task, sys.log, n)
    ensures Act(key, sys, Report) == sys.(reports := [d * READ_SIZE])
  {
    hide Flooding;
  }

  lemma RunFour(key: Keystream, sys: System, a: Action, b: Action)
    ensures Run(key, sys, [a, b, b, b]) == Act(key, Act(key, Act(key, Act(key, sys, a), b), b), b)
  {
    hide Act;
    assert [a, b, b, b][1..] == [b, b, b];
    assert Run(key, sys, [a, b, b, b]) == Run(key, Act(key, sys, a), [b, b, b]);
    RunThree(key, Act(key, sys, a), b, b, b);
  }

  /** A report brings no output, whatever the task makes of it. */
  lemma ReportArrival(key: Keystream, sys: System, p: nat)
    requires sys.reports == [p]
    ensures var sys' := Act(key, sys, ReportArrives(0));
            && sys'.log == sys.log && sys'.shell == sys.shell && sys'.reports == sys.reports
            && sys'.task == Iterate(key, sys.task, Sync(p)).0
  {
    hide Iterate;
  }

  /** A read by a task that is behind: one full chunk goes out, and the window is pruned up to eight
      mebibytes before it, or the subtraction underflows. */
  lemma ReadBehind(key: Keystream, t: Task, log: Bytes, text: Bytes)
    requires TaskOk(t, log) && t.status == Live && Ascii(log) && WellFormed(text) && Ascii(text)
    requires t.seqnum + CONTENT_CHUNK_SIZE <= |log|
    requires t.seqnum + CONTENT_CHUNK_SIZE <= t.contentOffset + CONTENT_ROLLING_BYTES
    requires |log + text| > t.contentOffset + CONTENT_PRUNE_BYTES
    ensures var t' := Iterate(key, t, Output(text)).0;
            && Send(key, Receive(t, Output(text))).0.status == Live
            && (t'.status == Faulted <==> t.seqnum + CONTENT_CHUNK_SIZE < CONTENT_ROLLING_BYTES)
            && (t'.status != Faulted ==>
                  && t'.status == Live && t'.contentOffset == t.contentOffset
                  && t'.seqnum == t.seqnum + CONTENT_CHUNK_SIZE)
  {
    var r, log' := Receive(t, Output(text)), log + text;
    ReceiveWindow(t, log, Output(text));
    assert Grow(t, log, Output(text)) == log';
    AsciiAppend(log, text);
    AsciiSuffix(log', t.contentOffset);
    hide WellFormed, IsCharBoundary, Ascii, PrevCharBoundary, Cut;
    var at := r.seqnum - r.contentOffset;
    EveryBoundary(r.content, at);
    EveryBoundary(r.content, at + CONTENT_CHUNK_SIZE);
    assert Send(key, r).0 == r.(seqnum := t.seqnum + CONTENT_CHUNK_SIZE, seqOutdated := 0);
  }

  // ----- The two runs -----

  const NONE_DELIVERED: nat := 0

  function ShortOutage(): seq<Action> {
    Outage(NONE_DELIVERED, WHOLE)
  }

  /** The server never got anything, and the client still holds all twelve mebibytes: the next read
      underflows, not where the chunk is cut (the believed position lies inside the window) but where
      the window is pruned, because less than eight mebibytes were sent again. */
  lemma RollingUnderflow(key: Keystream)
    ensures var sys := Run(key, INITIAL, ShortOutage());
            && sys.task.status == Live && sys.shell.Some? && sys.task.contentOffset == sys.shell.value.seqnum == 0
            && Send(key, Receive(sys.task, Output(TEXT))).0.status == Live
            && Run(key, INITIAL, ShortOutage() + [Wake(Output(TEXT))]).task.status == Faulted
  {
    hide Letters;
    assert Off(NONE_DELIVERED + WHOLE) == NONE_DELIVERED;
    AfterOutage(key, NONE_DELIVERED, WHOLE);
    RunOne(key, INITIAL, ShortOutage(), Wake(Output(TEXT)));
    TextOk();
    hide Run, Outage, TaskOk, WellFormed, Ascii, Off, Send, Iterate;
    var sys := Run(key, INITIAL, ShortOutage());
    ReadBehind(key, sys.task, sys.log, TEXT);
  }

  const DELIVERED: nat := 2050  // reads that were pruned after 5122

  function LongOutage(): seq<Action> {
    Outage(DELIVERED, WHOLE) + [Wake(Output(TEXT))]
  }

  /** The client holds exactly what the server lacks, and has begun to send it again. */
  lemma AfterLongOutage(key: Keystream)
    ensures var sys := Run(key, INITIAL, LongOutage());
            && sys.task.status == Live && IsOpen(sys.shell)
            && sys.task.contentOffset == sys.shell.value.seqnum < sys.task.seqnum
            && sys.shell.value.seqnum + CONTENT_PRUNE_BYTES < |sys.log|
  {
    hide Run, Outage, TaskOk, Ascii, Act, Letters;
    assert Off(DELIVERED + WHOLE) == DELIVERED;
    AfterOutage(key, DELIVERED, WHOLE);
    RunOne(key, INITIAL, Outage(DELIVERED, WHOLE), Wake(Output(TEXT)));
    LastRead(key, Run(key, INITIAL, Outage(DELIVERED, WHOLE)));
  }

  lemma LastRead(key: Keystream, sys: System)
    requires TaskOk(sys.task, sys.log) && Ascii(sys.log) && sys.task.status == Live && IsOpen(sys.shell)
    requires sys.shell.value.seqnum == sys.task.contentOffset == DELIVERED * READ_SIZE
    requires |sys.log| == sys.task.contentOffset + CONTENT_PRUNE_BYTES
    requires sys.task.seqnum == sys.task.contentOffset + CONTENT_CHUNK_SIZE
    ensures var sys' := Act(key, sys, Wake(Output(TEXT)));
            && sys'.task.status == Live && sys'.shell == sys.shell
            && sys'.task.contentOffset == sys.task.contentOffset < sys'.task.seqnum
            && |sys'.log| > |sys.log|
  {
    TextOk();
    hide TaskOk, WellFormed, Ascii, Send, Iterate, Letters;
    ReadBehind(key, sys.task, sys.log, TEXT);
    assert Grow(sys.task, sys.log, Output(TEXT)) == sys.log + TEXT;
  }

  /** From there, although nothing more is lost and nothing more is printed, the server never gets the
      rest: the client prunes it before it turns back to the server's position, and then faults. */
  lemma PrunedBeforeResent(key: Keystream, n: nat)
    requires n >= 2 * Sends(|Run(key, INITIAL, LongOutage()).log|) + 2
    ensures var sys := Run(key, INITIAL, LongOutage());
            && sys.task.status == Live && IsOpen(sys.shell)
            && sys.task.contentOffset <= sys.shell.value.seqnum
            && QuietRounds(key, sys, n).task.status == Faulted
  {
    AfterLongOutage(key);
    ReachableLink(key, LongOutage());
    QuietIff(key, LongOutage(), n);
    hide Run, LongOutage, QuietRounds, LinkOk, Settled, Lost, Sends;
    var sys := Run(key, INITIAL, LongOutage());
    FarBehindIsLost(key, LinkOf(sys), sys.log);
  }
}

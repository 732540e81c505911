/** Recovery inside the running system: from every state it can reach, when the terminal falls quiet and
    nothing more is lost, what becomes of client and server. */
module Recovery {
  import opened ByteSeqs
  import opened Utf8
  import opened Keystreams
  import opened ShellStore
  import opened Producer
  import opened ProducerRuns
  import opened Replication
  import opened Convergence
  import EndToEnd

  // ----- Every reachable task is settled -----

  predicate TaskSettled(sys: System) {
    sys.task.status == Faulted || (Settled(sys.task) && Trimmed(sys.task))
  }

  lemma EventSettled(key: Keystream, sys: System, e: Event)
    requires SystemOk(key, sys) && TaskSettled(sys) && EventOk(e, sys.log)
    ensures TaskSettled(TaskEvent(key, sys, e))
  {
    hide Iterate, Settled, Trimmed, TaskOk, WireOk, ShellOk, ReportsOk, ShellsOk, ServedOk, EventOk, Grow;
    if sys.task.status == Live {
      if Iterate(key, sys.task, e).0.status != Faulted {
        SettledTurn(key, sys.task, sys.log, e);
        TrimmedTurn(key, sys.task, sys.log, e);
      }
    } else {
      NotLive(key, sys.task, e);
    }
  }

  lemma NotLive(key: Keystream, t: Task, e: Event)
    requires t.status != Live
    ensures Iterate(key, t, e).0 == t
  {
  }

  lemma ActSettled(key: Keystream, sys: System, a: Action)
    requires SystemOk(key, sys) && TaskSettled(sys)
    ensures TaskSettled(Act(key, sys, a))
  {
    hide TaskEvent, Settled, Trimmed, TaskOk, WireOk, ShellOk, ShellsOk, ServedOk, ShellStore.AddData, Prune,
         WellFormed;
    match a
    case Wake(e) =>
      if e.Other? || ((e.Output? || e.Finish?) && WellFormed(e.text)) { EventSettled(key, sys, e); }
    case ReportArrives(i) => if i < |sys.reports| { EventSettled(key, sys, Sync(sys.reports[i])); }
    case _ =>
  }

  lemma {:induction false} RunSettled(key: Keystream, sys: System, actions: seq<Action>)
    requires SystemOk(key, sys) && TaskSettled(sys)
    ensures TaskSettled(Run(key, sys, actions))
    decreases |actions|
  {
    hide SystemOk, TaskSettled, Act;
    if actions == [] {
    } else {
      ActOk(key, sys, actions[0]);
      ActSettled(key, sys, actions[0]);
      RunSettled(key, Act(key, sys, actions[0]), actions[1..]);
    }
  }

  /** In every reachable state: a live task and an open shell are linked, and with a backlog no stale
      report is counted, without one the content is within twelve mebibytes; and the window is within
      that limit or was just pruned. */
  lemma ReachableLink(key: Keystream, actions: seq<Action>)
    requires var sys := Run(key, INITIAL, actions); sys.task.status == Live && IsOpen(sys.shell)
    ensures var sys := Run(key, INITIAL, actions);
            LinkOk(LinkOf(sys), sys.log) && Settled(sys.task) && Trimmed(sys.task)
  {
    EndToEnd.ReachableOk(key, actions);
    EndToEnd.InitialOk(key);
    RunSettled(key, INITIAL, actions);
    var sys := Run(key, INITIAL, actions);
    hide Run, TaskOk, WireOk, ReportsOk, ShellsOk, ServedOk;
    ShellPosition(key, sys.log, sys.shell.value);
  }

  function LinkOf(sys: System): Link
    requires sys.shell.Some?
  {
    Link(sys.task, sys.shell.value)
  }

  // ----- Quiet rounds -----

  /** The server reports its position, the report arrives, and what the client then sends arrives. */
  function QuietRound(sys: System): seq<Action> {
    [Report, ReportArrives(|sys.reports|), Deliver(|sys.wire|)]
  }

  function QuietRounds(key: Keystream, sys: System, n: nat): System
    decreases n
  {
    if n == 0 then sys else QuietRounds(key, Run(key, sys, QuietRound(sys)), n - 1)
  }

  lemma RunThree(key: Keystream, sys: System, a: Action, b: Action, c: Action)
    ensures Run(key, sys, [a, b, c]) == Act(key, Act(key, Act(key, sys, a), b), c)
  {
    hide Act;
    assert [a, b, c][1..] == [b, c] && [b, c][1..] == [c] && [c][1..] == [];
    var s1 := Act(key, sys, a);
    var s2 := Act(key, s1, b);
    assert Run(key, s2, [c]) == Run(key, Act(key, s2, c), []);
    assert Run(key, s1, [b, c]) == Run(key, s2, [c]);
  }

  lemma QuietRoundLink(key: Keystream, sys: System)
    requires sys.task.status == Live && IsOpen(sys.shell)
    ensures var sys' := Run(key, sys, QuietRound(sys));
            && IsOpen(sys'.shell) && LinkOf(sys') == Round(key, LinkOf(sys)) && sys'.log == sys.log
  {
    RunThree(key, sys, Report, ReportArrives(|sys.reports|), Deliver(|sys.wire|));
    hide Run, Iterate, ShellStore.AddData;
    var p := sys.shell.value.seqnum;
    var s1 := Act(key, sys, Report);
    assert s1.reports[|sys.reports|] == p;
    var s2 := Act(key, s1, ReportArrives(|sys.reports|));
    var message := Iterate(key, sys.task, Sync(p)).1;
    assert s2 == TaskEvent(key, s1, Sync(p)) && s2.wire == sys.wire + Listed(message);
    if message.Some? { StillOpen(sys.shell.value, message.value); }
  }

  lemma StillOpen(s: Shell, m: TerminalData)
    ensures ShellStore.AddData(s, m.data, m.seq0).closed == s.closed
  {
    hide Excess, Total;
  }

  lemma {:induction false} QuietRoundsLink(key: Keystream, sys: System, n: nat)
    requires sys.task.status == Live && IsOpen(sys.shell)
    ensures var sys' := QuietRounds(key, sys, n);
            && IsOpen(sys'.shell) && sys'.log == sys.log
            && sys'.task.status == Rounds(key, LinkOf(sys), n).task.status
            && (sys'.task.status == Live ==> LinkOf(sys') == Rounds(key, LinkOf(sys), n))
    decreases n
  {
    hide Run, Round, QuietRound;
    if n == 0 {
    } else {
      QuietRoundLink(key, sys);
      var sys1 := Run(key, sys, QuietRound(sys));
      if sys1.task.status == Live {
        QuietRoundsLink(key, sys1, n - 1);
      } else {
        StaysDown(key, sys1, n - 1);
        RoundLiveOrFaulted(key, LinkOf(sys));
        FaultedStays(key, LinkOf(sys1), n - 1);
      }
    }
  }

  lemma RoundLiveOrFaulted(key: Keystream, l: Link)
    requires l.task.status == Live
    ensures Round(key, l).task.status == Live || Round(key, l).task.status == Faulted
  {
    hide ChunkStart, ChunkEnd, Cut, PrevCharBoundary, AddData;
  }

  /** Nothing changes for a task that is no longer live, nor for the openness of the shell. */
  lemma {:induction false} StaysDown(key: Keystream, sys: System, n: nat)
    requires sys.task.status != Live && IsOpen(sys.shell)
    ensures var sys' := QuietRounds(key, sys, n);
            IsOpen(sys'.shell) && sys'.task == sys.task && sys'.log == sys.log
    decreases n
  {
    hide Run, QuietRound;
    if n == 0 {
    } else {
      DownRound(key, sys);
      StaysDown(key, Run(key, sys, QuietRound(sys)), n - 1);
    }
  }

  lemma DownRound(key: Keystream, sys: System)
    requires sys.task.status != Live && IsOpen(sys.shell)
    ensures var sys' := Run(key, sys, QuietRound(sys));
            IsOpen(sys'.shell) && sys'.task == sys.task && sys'.log == sys.log
  {
    RunThree(key, sys, Report, ReportArrives(|sys.reports|), Deliver(|sys.wire|));
    hide Run, ShellStore.AddData;
    assert [] + Listed<TerminalData>(None) == [];
  }

  lemma EnoughRounds(l: Link, log: Bytes, n: nat)
    requires LinkOk(l, log) && n >= 2 * Sends(|log|) + 2
    ensures n >= RoundsLeft(l, |log|)
  {
    RoundsLeftBound(l, log);
    hide RoundsLeft, TaskOk;
    SendsMonotone(|log| - l.shell.seqnum, |log|);
    LinkPosition(l, log);
    SendsMonotone(|log| - l.task.seqnum, |log|);
  }

  lemma LinkPosition(l: Link, log: Bytes)
    requires LinkOk(l, log)
    ensures l.task.seqnum <= |log|
  {
  }

  lemma SendsMonotone(a: nat, b: nat)
    requires a <= b
    ensures Sends(a) <= Sends(b)
  {
  }

  /** From every state the system can reach with a live task and an open shell: quiet rounds bring
      client and server to the end of the output, within a bounded number, if and only if the client,
      sending on what it holds, neither faults nor prunes what the server lacks. Otherwise the task
      faults. */
  lemma QuietIff(key: Keystream, actions: seq<Action>, n: nat)
    requires var sys := Run(key, INITIAL, actions); sys.task.status == Live && IsOpen(sys.shell)
    requires n >= 2 * Sends(|Run(key, INITIAL, actions).log|) + 2
    ensures var sys := Run(key, INITIAL, actions);
            var sys' := QuietRounds(key, sys, n);
            && sys'.log == sys.log && IsOpen(sys'.shell)
            && (Lost(key, LinkOf(sys)) <==> sys'.task.status == Faulted)
            && (!Lost(key, LinkOf(sys)) <==>
                  sys'.task.status == Live && Converged(LinkOf(sys'), sys.log))
  {
    ReachableLink(key, actions);
    hide Run, LinkOk, Settled, Lost, QuietRounds, Converged;
    QuietFrom(key, Run(key, INITIAL, actions), n);
  }

  lemma QuietFrom(key: Keystream, sys: System, n: nat)
    requires sys.task.status == Live && IsOpen(sys.shell)
    requires LinkOk(LinkOf(sys), sys.log) && Settled(sys.task)
    requires n >= 2 * Sends(|sys.log|) + 2
    ensures var sys' := QuietRounds(key, sys, n);
            && sys'.log == sys.log && IsOpen(sys'.shell)
            && (Lost(key, LinkOf(sys)) <==> sys'.task.status == Faulted)
            && (!Lost(key, LinkOf(sys)) <==>
                  sys'.task.status == Live && Converged(LinkOf(sys'), sys.log))
  {
    hide QuietRounds, Rounds, LinkOk, Settled, Lost, RoundsLeft, Converged, Sends;
    var l := LinkOf(sys);
    EnoughRounds(l, sys.log, n);
    MeetIff(key, l, sys.log, n);
    QuietRoundsLink(key, sys, n);
    ConvergesOrFaults(key, l, sys.log, n);
    if Rounds(key, l, n).task.status != Faulted { LinkLive(Rounds(key, l, n), sys.log); }
  }

  lemma LinkLive(l: Link, log: Bytes)
    requires LinkOk(l, log)
    ensures l.task.status == Live
  {
  }

  // ----- A test on positions -----

  /** The next send is too short for the pruning after it. */
  predicate NextUnderflows(key: Keystream, t: Task) {
    && t.seqnum < End(t) && |t.content| > CONTENT_PRUNE_BYTES
    && Send(key, t).0.seqnum < CONTENT_ROLLING_BYTES
  }

  /** Positions that are sure to lose the server. */
  predicate SurelyLost(key: Keystream, l: Link) {
    || NextUnderflows(key, l.task)
    || l.shell.seqnum < l.task.contentOffset
    || (l.shell.seqnum < l.task.seqnum && l.shell.seqnum + CONTENT_PRUNE_BYTES < End(l.task))
  }

  /** Positions that are sure to bring it back: the gap between the two tests is one chunk and three
      bytes, twelve mebibytes before the end of the output. */
  predicate SurelyMeets(key: Keystream, l: Link) {
    && !NextUnderflows(key, l.task)
    && l.task.contentOffset <= l.shell.seqnum
    && (|| l.task.seqnum <= l.shell.seqnum
        || |l.task.content| <= CONTENT_PRUNE_BYTES
        || End(l.task) + CONTENT_CHUNK_SIZE + 3 <= l.shell.seqnum + CONTENT_PRUNE_BYTES)
  }

  lemma SureLost(key: Keystream, l: Link, log: Bytes)
    requires LinkOk(l, log) && Settled(l.task) && SurelyLost(key, l)
    ensures Lost(key, l)
  {
    LinkEnd(l, log);
    hide Send, Drained, TaskOk, IsCharBoundary, WellFormed, Settled;
    if NextUnderflows(key, l.task) {
      DrainedFaultIff(key, l.task, log);
    } else {
      DrainedBounds(key, l.task, log);
    }
  }

  lemma LinkEnd(l: Link, log: Bytes)
    requires LinkOk(l, log)
    ensures End(l.task) == |log| && l.task.contentOffset <= l.task.seqnum <= |log|
    ensures TaskOk(l.task, log) && l.task.status == Live
  {
    hide WellFormed, IsCharBoundary;
  }

  lemma SureMeets(key: Keystream, l: Link, log: Bytes)
    requires LinkOk(l, log) && Settled(l.task) && Trimmed(l.task) && SurelyMeets(key, l)
    ensures !Lost(key, l)
  {
    LinkEnd(l, log);
    hide Send, TaskOk, IsCharBoundary, WellFormed, Settled, Trimmed;
    if l.task.seqnum < |log| {
      DrainedFaultIff(key, l.task, log);
      DrainedStart(key, l.task, log);
      hide Drained;
    } else {
      hide PruneContent;
      assert Drained(key, l.task) == l.task;
    }
  }

  /** From every reachable state, whether quiet rounds bring both together can be told from positions
      up to a gap of one chunk: on one side of it they do, on the other the task faults. */
  lemma QuietByPositions(key: Keystream, actions: seq<Action>, n: nat)
    requires var sys := Run(key, INITIAL, actions); sys.task.status == Live && IsOpen(sys.shell)
    requires n >= 2 * Sends(|Run(key, INITIAL, actions).log|) + 2
    ensures var sys := Run(key, INITIAL, actions);
            var sys' := QuietRounds(key, sys, n);
            && (SurelyLost(key, LinkOf(sys)) ==> sys'.task.status == Faulted)
            && (SurelyMeets(key, LinkOf(sys)) ==> IsOpen(sys'.shell) && Converged(LinkOf(sys'), sys.log))
  {
    ReachableLink(key, actions);
    QuietIff(key, actions, n);
    hide Run, LinkOk, Settled, Trimmed, Lost, QuietRounds, Converged, SurelyLost, SurelyMeets, Sends;
    var sys := Run(key, INITIAL, actions);
    if SurelyLost(key, LinkOf(sys)) { SureLost(key, LinkOf(sys), sys.log); }
    if SurelyMeets(key, LinkOf(sys)) { SureMeets(key, LinkOf(sys), sys.log); }
  }
}

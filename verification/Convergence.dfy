/** Catching up: when the terminal is quiet and nothing is lost, periodic reports of the server's
    position bring the server to the end of the output within a bounded number of rounds, exactly
    when the client will still hold what the server is missing once it has sent all it holds, and
    does not underflow on the way. */
module Convergence {
  import opened ByteSeqs
  import opened Utf8
  import opened Keystreams
  import opened ShellStore
  import opened Producer
  import opened ProducerRuns

  datatype Link = Link(task: Task, shell: Shell)

  /** One report of the server's position, one turn of the task, and delivery of what it sends. */
  function Round(key: Keystream, l: Link): Link {
    var turn := Iterate(key, l.task, Sync(l.shell.seqnum));
    Link(turn.0, if turn.1.Some? then AddData(l.shell, turn.1.value.data, turn.1.value.seq0) else l.shell)
  }

  function Rounds(key: Keystream, l: Link, n: nat): Link
    decreases n
  {
    if n == 0 then l else Rounds(key, Round(key, l), n - 1)
  }

  predicate Converged(l: Link, log: Bytes) {
    l.task.seqnum == |log| && l.shell.seqnum == |log|
  }

  /** Every send covers at least this many bytes, or all that is left. */
  const LEAST_SEND: nat := 65533

  function Sends(bytes: nat): nat {
    (bytes + LEAST_SEND - 1) / LEAST_SEND
  }

  /** A live task and any server that holds a position of the task's log. */
  ghost predicate LinkOk(l: Link, log: Bytes) {
    && TaskOk(l.task, log)
    && l.task.status == Live
    && l.shell.seqnum <= |log|
    && IsCharBoundary(log, l.shell.seqnum)
  }

  /** Rounds still needed: sends to reach the end, reports until one is believed, sends to repair. */
  function RoundsLeft(l: Link, end: nat): nat
    requires l.task.seqnum <= end && l.shell.seqnum <= end && l.task.seqOutdated <= 2
  {
    if l.task.seqnum <= l.shell.seqnum then Sends(end - l.task.seqnum)
    else if l.task.seqnum == end then 2 - l.task.seqOutdated + Sends(end - l.shell.seqnum)
    else Sends(end - l.task.seqnum) + 2 + Sends(end - l.shell.seqnum)
  }

  lemma SendsStep(bytes: nat, sent: nat)
    requires 0 < sent <= bytes && (sent == bytes || sent >= LEAST_SEND)
    ensures Sends(bytes - sent) < Sends(bytes)
  {
  }

  // ----- One round -----

  /** A send from `from` moves the task and, when the server is not behind `from`, the server. */
  lemma SendMoves(key: Keystream, r: Task, log: Bytes, shell: Shell)
    requires Window(r, log) && r.status == Live && r.contentOffset <= r.seqnum < |log|
    requires shell.seqnum <= |log| && IsCharBoundary(log, shell.seqnum)
    ensures var (s, message) := Send(key, r);
            && message.Some? && s.status == Live
            && s.content == r.content && s.contentOffset == r.contentOffset && s.seqOutdated == 0
            && Window(s, log)
            && r.seqnum < s.seqnum <= |log| && (s.seqnum == |log| || s.seqnum - r.seqnum >= LEAST_SEND)
            && var shell' := AddData(shell, message.value.data, message.value.seq0);
            && shell'.seqnum == (if r.seqnum <= shell.seqnum then Max(shell.seqnum, s.seqnum) else shell.seqnum)
            && (r.seqnum > shell.seqnum ==> shell' == shell)
            && IsCharBoundary(log, shell'.seqnum)
  {
    SendOk(key, r, log);
    ChunkExtent(r, log);
  }

  /** A turn that sends, whether or not it rewound first, unless it faults. */
  lemma SendingTurn(key: Keystream, t: Task, log: Bytes, shell: Shell)
    requires LinkOk(Link(t, shell), log)
    requires var r := Receive(t, Sync(shell.seqnum)); r.contentOffset <= r.seqnum < |log|
    ensures var r, l' := Receive(t, Sync(shell.seqnum)), Round(key, Link(t, shell));
            var s := Send(key, r).0;
            && r.seqnum < s.seqnum <= |log| && (s.seqnum == |log| || s.seqnum - r.seqnum >= LEAST_SEND)
            && (l'.task.status == Faulted <==> |t.content| > CONTENT_PRUNE_BYTES && s.seqnum < CONTENT_ROLLING_BYTES)
            && (l'.task.status != Faulted ==>
                  && LinkOk(l', log) && l'.task.seqOutdated == 0 && l'.task.seqnum == s.seqnum
                  && (|t.content| <= CONTENT_PRUNE_BYTES ==>
                        l'.task.contentOffset == t.contentOffset && l'.task.content == t.content)
                  && l'.shell.seqnum == (if r.seqnum <= shell.seqnum then Max(shell.seqnum, s.seqnum) else shell.seqnum)
                  && (r.seqnum > shell.seqnum ==> l'.shell == shell))
  {
    ReceiveWindow(t, log, Sync(shell.seqnum));
    hide WellFormed, Send, AddData, PruneContent, IsCharBoundary;
    var r := Receive(t, Sync(shell.seqnum));
    SendMoves(key, r, log, shell);
    PruneLive(Send(key, r).0, log);
  }

  lemma PruneLive(s: Task, log: Bytes)
    requires Window(s, log) && s.status == Live && s.contentOffset <= s.seqnum && s.seqOutdated <= 2
    ensures var p := PruneContent(s);
            && (p.status == Faulted <==> |s.content| > CONTENT_PRUNE_BYTES && s.seqnum < CONTENT_ROLLING_BYTES)
            && (p.status != Faulted ==>
                  && p.status == Live && TaskOk(p, log)
                  && p.seqnum == s.seqnum && p.seqOutdated == s.seqOutdated
                  && s.contentOffset <= p.contentOffset)
            && (|s.content| <= CONTENT_PRUNE_BYTES ==> p == s)
  {
    hide WellFormed;
    PruneOk(s, log);
  }

  /** A turn with nothing to send counts the report, and never faults. */
  lemma IdleTurn(key: Keystream, t: Task, log: Bytes, shell: Shell)
    requires LinkOk(Link(t, shell), log)
    requires Receive(t, Sync(shell.seqnum)).seqnum >= |log|
    ensures var r, l' := Receive(t, Sync(shell.seqnum)), Round(key, Link(t, shell));
            && l'.shell == shell && LinkOk(l', log)
            && l'.task.seqnum == r.seqnum && l'.task.seqOutdated == r.seqOutdated
            && t.contentOffset <= l'.task.contentOffset
            && (|t.content| <= CONTENT_PRUNE_BYTES ==>
                  l'.task.contentOffset == t.contentOffset && l'.task.content == t.content)
  {
    ReceiveWindow(t, log, Sync(shell.seqnum));
    hide WellFormed, PruneContent, IsCharBoundary, Send;
    var r := Receive(t, Sync(shell.seqnum));
    NothingToSend(key, r, log);
    PruneLive(r, log);
  }

  lemma NothingToSend(key: Keystream, r: Task, log: Bytes)
    requires Window(r, log) && r.seqnum >= |log|
    ensures Send(key, r) == (r, None)
    ensures r.seqnum == |log| && |r.content| <= |log| && r.contentOffset <= r.seqnum
  {
    hide WellFormed;
  }

  /** A turn that rewinds to a position before the window faults, and sends nothing. */
  lemma FaultingTurn(key: Keystream, t: Task, shell: Shell)
    requires t.status == Live
    requires var r := Receive(t, Sync(shell.seqnum)); r.seqnum < r.contentOffset
    ensures var l' := Round(key, Link(t, shell)); l'.task.status == Faulted && l'.shell == shell
  {
  }

  lemma RoundProgress(key: Keystream, l: Link, log: Bytes)
    requires LinkOk(l, log) && Round(key, l).task.status != Faulted
    ensures LinkOk(Round(key, l), log)
    ensures RoundsLeft(Round(key, l), |log|) <= RoundsLeft(l, |log|)
    ensures RoundsLeft(l, |log|) > 0 ==> RoundsLeft(Round(key, l), |log|) < RoundsLeft(l, |log|)
  {
    hide WellFormed, IsCharBoundary, Round, Send;
    var r := Receive(l.task, Sync(l.shell.seqnum));
    if r.seqnum < r.contentOffset {
      FaultingTurn(key, l.task, l.shell);
      assert false;
    } else if r.seqnum < |log| {
      SendingTurn(key, l.task, log, l.shell);
      SendsStep(|log| - r.seqnum, Round(key, l).task.seqnum - r.seqnum);
    } else {
      IdleTurn(key, l.task, log, l.shell);
    }
  }

  lemma NoRoundsLeft(l: Link, log: Bytes)
    requires LinkOk(l, log) && RoundsLeft(l, |log|) == 0
    ensures Converged(l, log)
  {
  }

  lemma {:induction false} FaultedStays(key: Keystream, l: Link, n: nat)
    requires l.task.status == Faulted
    ensures Rounds(key, l, n) == l
    decreases n
  {
    if n > 0 { FaultedStays(key, l, n - 1); }
  }

  // ----- Whole series of rounds -----

  /** From any live task and any server position, a bounded number of rounds ends in one of two ways:
      both are at the end of the output, or the task has faulted. */
  lemma {:induction false} ConvergesOrFaults(key: Keystream, l: Link, log: Bytes, n: nat)
    requires LinkOk(l, log) && n >= RoundsLeft(l, |log|)
    ensures var l' := Rounds(key, l, n);
            l'.task.status == Faulted || (LinkOk(l', log) && Converged(l', log))
    decreases n
  {
    hide Round, LinkOk, RoundsLeft;
    if n == 0 {
      NoRoundsLeft(l, log);
    } else if Round(key, l).task.status == Faulted {
      FaultedStays(key, Round(key, l), n - 1);
    } else {
      RoundProgress(key, l, log);
      ConvergesOrFaults(key, Round(key, l), log, n - 1);
    }
  }

  lemma RoundsLeftBound(l: Link, log: Bytes)
    requires LinkOk(l, log)
    ensures RoundsLeft(l, |log|) <= Sends(|log| - l.task.seqnum) + 2 + Sends(|log| - l.shell.seqnum)
  {
  }

  /** The client holds what the server lacks and will not prune it before it was resent. */
  predicate Recoverable(l: Link) {
    && l.task.contentOffset <= l.shell.seqnum
    && (|l.task.content| <= CONTENT_PRUNE_BYTES || CONTENT_ROLLING_BYTES <= l.task.seqnum <= l.shell.seqnum)
  }

  lemma RecoverableTurn(key: Keystream, l: Link, log: Bytes)
    requires LinkOk(l, log) && Recoverable(l)
    ensures LinkOk(Round(key, l), log) && Recoverable(Round(key, l))
  {
    hide WellFormed, IsCharBoundary, Round, Send;
    var r := Receive(l.task, Sync(l.shell.seqnum));
    if r.seqnum < |log| {
      SendingTurn(key, l.task, log, l.shell);
    } else {
      IdleTurn(key, l.task, log, l.shell);
    }
  }

  lemma {:induction false} RecoverableStaysLive(key: Keystream, l: Link, log: Bytes, n: nat)
    requires LinkOk(l, log) && Recoverable(l)
    ensures Rounds(key, l, n).task.status == Live
    decreases n
  {
    hide TaskOk, IsCharBoundary, Round, Recoverable;
    if n > 0 {
      RecoverableTurn(key, l, log);
      RecoverableStaysLive(key, Round(key, l), log, n - 1);
    }
  }

  /** A server before the client's window never gets anything it can use. */
  lemma BehindTurn(key: Keystream, l: Link, log: Bytes)
    requires LinkOk(l, log) && l.shell.seqnum < l.task.contentOffset
    ensures var l' := Round(key, l);
            && l'.shell == l.shell
            && (l'.task.status != Faulted ==> LinkOk(l', log) && l'.shell.seqnum < l'.task.contentOffset)
  {
    hide WellFormed, IsCharBoundary, Round, Send;
    var r := Receive(l.task, Sync(l.shell.seqnum));
    if r.seqnum < r.contentOffset {
      FaultingTurn(key, l.task, l.shell);
    } else if r.seqnum < |log| {
      SendingTurn(key, l.task, log, l.shell);
      RoundShellFixed(key, l, log);
    } else {
      IdleTurn(key, l.task, log, l.shell);
    }
  }

  /** A message from beyond the server's position changes nothing, whatever becomes of the task. */
  lemma RoundShellFixed(key: Keystream, l: Link, log: Bytes)
    requires LinkOk(l, log) && l.shell.seqnum < l.task.contentOffset
    requires var r := Receive(l.task, Sync(l.shell.seqnum)); r.contentOffset <= r.seqnum < |log|
    ensures Round(key, l).shell == l.shell
    ensures l.task.contentOffset <= Round(key, l).task.contentOffset
  {
    ReceiveWindow(l.task, log, Sync(l.shell.seqnum));
    hide WellFormed, Send, PruneContent, IsCharBoundary;
    var r := Receive(l.task, Sync(l.shell.seqnum));
    SendOk(key, r, log);
    PruneOffset(Send(key, r).0);
  }

  lemma PruneOffset(t: Task)
    ensures t.contentOffset <= PruneContent(t).contentOffset
  {
  }

  lemma {:induction false} TooFarBehind(key: Keystream, l: Link, log: Bytes, n: nat)
    requires LinkOk(l, log) && l.shell.seqnum < l.task.contentOffset
    ensures Rounds(key, l, n).shell == l.shell
    decreases n
  {
    hide LinkOk, Round, AddData;
    if n > 0 {
      BehindTurn(key, l, log);
      if Round(key, l).task.status == Faulted {
        FaultedStays(key, Round(key, l), n - 1);
      } else {
        TooFarBehind(key, Round(key, l), log, n - 1);
      }
    }
  }

  lemma WindowStart(t: Task, log: Bytes)
    requires TaskOk(t, log) && t.status == Live
    ensures t.contentOffset <= |log|
  {
  }

  /** A live task within its content limit is brought together with its server by reports alone
      exactly when the server's position is not before the client's window, and faults otherwise. */
  lemma ConvergesIff(key: Keystream, l: Link, log: Bytes, n: nat)
    requires LinkOk(l, log) && |l.task.content| <= CONTENT_PRUNE_BYTES
    requires n >= RoundsLeft(l, |log|)
    ensures Converged(Rounds(key, l, n), log) <==> l.task.contentOffset <= l.shell.seqnum
    ensures Rounds(key, l, n).task.status == Faulted <==> l.shell.seqnum < l.task.contentOffset
  {
    ConvergesOrFaults(key, l, log, n);
    if l.task.contentOffset <= l.shell.seqnum {
      RecoverableStaysLive(key, l, log, n);
    } else {
      TooFarBehind(key, l, log, n);
      WindowStart(l.task, log);
    }
  }

  /** A task over its content limit (it can get there by a rewind during heavy output) and a server
      that is not behind it come together exactly when the next send reaches eight mebibytes. */
  lemma OverfullConvergesIff(key: Keystream, l: Link, log: Bytes, n: nat)
    requires LinkOk(l, log) && |l.task.content| > CONTENT_PRUNE_BYTES
    requires l.task.seqnum <= l.shell.seqnum
    requires n > 0 && n >= RoundsLeft(l, |log|)
    ensures Rounds(key, l, n).task.status != Faulted ==> Converged(Rounds(key, l, n), log)
    ensures Rounds(key, l, n).task.status == Faulted <==> Send(key, l.task).0.seqnum < CONTENT_ROLLING_BYTES
  {
    hide Rounds, Round, LinkOk, Send, Recoverable, Converged, RoundsLeft;
    ConvergesOrFaults(key, l, log, n);
    OverfullTurn(key, l, log);
    RoundsStep(key, l, n);
    AfterFirst(key, Round(key, l), log, n - 1);
  }

  lemma AfterFirst(key: Keystream, l': Link, log: Bytes, n: nat)
    requires l'.task.status != Faulted ==> LinkOk(l', log) && Recoverable(l')
    ensures Rounds(key, l', n).task.status == Faulted <==> l'.task.status == Faulted
  {
    hide Rounds, Round, LinkOk, Recoverable;
    if l'.task.status == Faulted {
      FaultedStays(key, l', n);
    } else {
      RecoverableStaysLive(key, l', log, n);
    }
  }

  lemma RoundsStep(key: Keystream, l: Link, n: nat)
    requires n > 0
    ensures Rounds(key, l, n) == Rounds(key, Round(key, l), n - 1)
  {
    hide Round;
  }

  lemma OverfullTurn(key: Keystream, l: Link, log: Bytes)
    requires LinkOk(l, log) && |l.task.content| > CONTENT_PRUNE_BYTES
    requires l.task.seqnum <= l.shell.seqnum
    ensures var l' := Round(key, l);
            && (l'.task.status == Faulted <==> Send(key, l.task).0.seqnum < CONTENT_ROLLING_BYTES)
            && (l'.task.status != Faulted ==> LinkOk(l', log) && Recoverable(l'))
  {
    var r := Receive(l.task, Sync(l.shell.seqnum));
    assert r == l.task;
    if r.seqnum < |log| {
      hide WellFormed, IsCharBoundary, Round, Send;
      SendingTurn(key, l.task, log, l.shell);
    } else {
      assert Send(key, r).0 == r;
      hide WellFormed, IsCharBoundary, Round, Send;
      IdleTurn(key, l.task, log, l.shell);
    }
  }

  // ----- The exact condition -----

  /** What every turn of the loop leaves behind: with a backlog no stale report is counted, and
      without one the content is within its limit. */
  predicate Settled(t: Task) {
    if t.seqnum < End(t) then t.seqOutdated == 0 else |t.content| <= CONTENT_PRUNE_BYTES
  }

  lemma SettledTurn(key: Keystream, t: Task, log: Bytes, e: Event)
    requires TaskOk(t, log) && t.status == Live && EventOk(e, log)
    requires Iterate(key, t, e).0.status != Faulted
    ensures Settled(Iterate(key, t, e).0)
  {
    var log', r := Grow(t, log, e), Receive(t, e);
    ReceiveWindow(t, log, e);
    hide WellFormed, IsCharBoundary, Send, Grow;
    SendOk(key, r, log');
    PruneOk(Send(key, r).0, log');
  }

  /** What every turn leaves of the window: it is within the limit, or was just pruned. */
  predicate Trimmed(t: Task) {
    |t.content| <= CONTENT_PRUNE_BYTES || t.seqnum <= t.contentOffset + CONTENT_ROLLING_BYTES + 3
  }

  lemma TrimmedTurn(key: Keystream, t: Task, log: Bytes, e: Event)
    requires TaskOk(t, log) && t.status == Live && EventOk(e, log)
    requires Iterate(key, t, e).0.status != Faulted
    ensures Trimmed(Iterate(key, t, e).0)
  {
    var log', r := Grow(t, log, e), Receive(t, e);
    ReceiveWindow(t, log, e);
    hide WellFormed, IsCharBoundary, Send, Grow;
    SendOk(key, r, log');
    PruneTrims(Send(key, r).0, log');
  }

  lemma PruneTrims(s: Task, log: Bytes)
    requires Window(s, log) && s.status != Faulted && s.contentOffset <= s.seqnum
    ensures PruneContent(s).status != Faulted ==> Trimmed(PruneContent(s))
    ensures PruneContent(s).contentOffset != s.contentOffset ==> |s.content| > CONTENT_PRUNE_BYTES
  {
    hide WellFormed, IsCharBoundary;
    PruneOk(s, log);
  }

  /** The task once it has sent everything it holds, without believing any report on the way. */
  function Drained(key: Keystream, t: Task): Task
    decreases if End(t) <= t.seqnum then 0 else End(t) - t.seqnum
  {
    if t.status != Live || End(t) <= t.seqnum then t
    else
      var s := PruneContent(Send(key, t).0);
      if s.seqnum <= t.seqnum || End(s) != End(t) then s else Drained(key, s)
  }

  lemma DrainStep(key: Keystream, t: Task, log: Bytes)
    requires TaskOk(t, log) && t.status == Live && t.seqnum < |log|
    ensures var s := PruneContent(Send(key, t).0);
            && Drained(key, t) == (if s.status == Faulted then s else Drained(key, s))
            && t.seqnum < Send(key, t).0.seqnum
            && (s.status == Faulted <==>
                  |t.content| > CONTENT_PRUNE_BYTES && Send(key, t).0.seqnum < CONTENT_ROLLING_BYTES)
            && (s.status != Faulted ==>
                  && s.status == Live && TaskOk(s, log) && s.seqnum == Send(key, t).0.seqnum
                  && |s.content| <= |t.content|
                  && t.contentOffset <= s.contentOffset
                  && (s.contentOffset != t.contentOffset ==>
                        |t.content| > CONTENT_PRUNE_BYTES && s.contentOffset + CONTENT_ROLLING_BYTES <= s.seqnum)
                  && Settled(s) && Trimmed(s))
  {
    hide WellFormed, IsCharBoundary, Send, PruneContent, Trimmed;
    SendOk(key, t, log);
    var sent := Send(key, t).0;
    PruneLive(sent, log);
    hide Drained;
    PruneOk(sent, log);
    PruneTrims(sent, log);
    DrainUnfolds(key, t);
  }

  lemma SendShort(key: Keystream, t: Task, log: Bytes)
    requires TaskOk(t, log) && t.status == Live && t.seqnum < |log|
    ensures Send(key, t).0.seqnum <= t.seqnum + CONTENT_CHUNK_SIZE
    ensures |t.content| == |log| - t.contentOffset && t.contentOffset <= |log|
  {
    hide WellFormed, IsCharBoundary;
    ChunkExtent(t, log);
  }

  lemma DrainUnfolds(key: Keystream, t: Task)
    requires t.status == Live && t.seqnum < End(t)
    ensures var s := PruneContent(Send(key, t).0);
            && (s.status == Faulted ==> Drained(key, t) == s)
            && (s.seqnum > t.seqnum && End(s) == End(t) ==> Drained(key, t) == Drained(key, s))
  {
    hide Send, PruneContent;
  }

  /** The client will give up, or will prune what the server lacks, before it turns back. */
  predicate Lost(key: Keystream, l: Link) {
    var d := Drained(key, l.task);
    d.status == Faulted || (l.shell.seqnum < l.task.seqnum && l.shell.seqnum < d.contentOffset)
  }

  lemma LostStep(key: Keystream, l: Link, log: Bytes)
    requires LinkOk(l, log) && Settled(l.task) && l.task.seqnum < |log|
    ensures var l' := Round(key, l);
            && (l'.task.status == Faulted ==> Lost(key, l))
            && (l'.task.status != Faulted ==>
                  && LinkOk(l', log) && Settled(l'.task) && l.task.seqnum < l'.task.seqnum
                  && (Lost(key, l) <==> Lost(key, l')))
  {
    RoundTask(key, l, log);
    RoundShell(key, l, log);
    hide LinkOk, Drained, Send, PruneContent, Round, TaskOk, Settled;
    DrainStep(key, l.task, log);
  }

  /** With a backlog and no stale report counted yet, the next report is not believed. */
  lemma RoundTask(key: Keystream, l: Link, log: Bytes)
    requires LinkOk(l, log) && Settled(l.task) && l.task.seqnum < |log|
    ensures TaskOk(l.task, log) && l.task.status == Live
    ensures Round(key, l).task == PruneContent(Send(key, l.task).0)
  {
    var r := Receive(l.task, Sync(l.shell.seqnum));
    hide WellFormed, IsCharBoundary, ChunkStart, ChunkEnd, Cut;
    assert r == l.task.(seqOutdated := r.seqOutdated);
    SendForgets(key, l.task, r.seqOutdated);
    hide Send;
    RoundOf(key, l, r);
  }

  lemma SendForgets(key: Keystream, t: Task, outdated: nat)
    requires t.contentOffset <= t.seqnum < End(t)
    ensures Send(key, t.(seqOutdated := outdated)) == Send(key, t)
    ensures Send(key, t).0.status == t.status
  {
    hide PrevCharBoundary, IsCharBoundary, Segment;
  }

  lemma RoundOf(key: Keystream, l: Link, r: Task)
    requires l.task.status == Live && r == Receive(l.task, Sync(l.shell.seqnum)) && Send(key, r).0.status == Live
    ensures Round(key, l).task == PruneContent(Send(key, r).0)
  {
    hide Send, PruneContent;
  }

  lemma RoundShell(key: Keystream, l: Link, log: Bytes)
    requires LinkOk(l, log) && Settled(l.task) && l.task.seqnum < |log|
    ensures var l' := Round(key, l);
            l'.task.status != Faulted ==>
              && LinkOk(l', log)
              && (l.shell.seqnum < l.task.seqnum ==> l'.shell == l.shell)
              && (l.shell.seqnum >= l.task.seqnum ==> l'.shell.seqnum >= l'.task.seqnum)
  {
    hide WellFormed, IsCharBoundary, Round, Send;
    SendingTurn(key, l.task, log, l.shell);
  }

  /** The exact condition, from any state that a turn of the loop can leave behind and any position of
      the server: reports alone bring client and server together if and only if the client, sending
      on what it holds, neither faults nor prunes what the server lacks. */
  lemma {:induction false} MeetIff(key: Keystream, l: Link, log: Bytes, n: nat)
    requires LinkOk(l, log) && Settled(l.task) && n >= RoundsLeft(l, |log|)
    ensures Rounds(key, l, n).task.status == Faulted <==> Lost(key, l)
    ensures Rounds(key, l, n).task.status != Faulted ==> Converged(Rounds(key, l, n), log)
    decreases |log| - l.task.seqnum
  {
    hide Round, Lost, RoundsLeft, LinkOk, Settled;
    ConvergesOrFaults(key, l, log, n);
    if l.task.seqnum < |log| {
      LostStep(key, l, log);
      BacklogTakesRounds(l, log);
      var l' := Round(key, l);
      if l'.task.status == Faulted {
        FaultedStays(key, l', n - 1);
      } else {
        RoundProgress(key, l, log);
        MeetIff(key, l', log, n - 1);
      }
    } else {
      MeetAtEnd(key, l, log, n);
    }
  }

  lemma MeetAtEnd(key: Keystream, l: Link, log: Bytes, n: nat)
    requires LinkOk(l, log) && Settled(l.task) && l.task.seqnum >= |log| && n >= RoundsLeft(l, |log|)
    ensures Rounds(key, l, n).task.status == Faulted <==> Lost(key, l)
  {
    hide WellFormed, IsCharBoundary, Rounds, RoundsLeft, Send, PruneContent;
    assert Drained(key, l.task) == l.task;
    ConvergesIff(key, l, log, n);
  }

  lemma BacklogTakesRounds(l: Link, log: Bytes)
    requires LinkOk(l, log) && l.task.seqnum < |log|
    ensures RoundsLeft(l, |log|) > 0
  {
  }

  /** How far the drained window reaches: at most the limit before the end of the output, and not
      beyond its old start unless to the last eight mebibytes. */
  lemma {:induction false} DrainedBounds(key: Keystream, t: Task, log: Bytes)
    requires TaskOk(t, log) && t.status == Live && Settled(t)
    ensures var d := Drained(key, t);
            d.status != Faulted ==>
              && |log| <= d.contentOffset + CONTENT_PRUNE_BYTES
              && t.contentOffset <= d.contentOffset
              && (d.contentOffset == t.contentOffset || d.contentOffset + CONTENT_ROLLING_BYTES <= |log|)
    decreases |log| - t.seqnum
  {
    if t.seqnum < |log| {
      DrainStep(key, t, log);
      var s := PruneContent(Send(key, t).0);
      hide Send, PruneContent, Drained, TaskOk, Settled;
      if s.status != Faulted {
        DrainedBounds(key, s, log);
        SentAtMost(s, log);
      }
    } else {
      hide Send, PruneContent, WellFormed, IsCharBoundary;
    }
  }

  lemma SentAtMost(t: Task, log: Bytes)
    requires TaskOk(t, log) && t.status == Live
    ensures t.seqnum <= |log|
  {
  }

  /** How far the window can get ahead while draining: it stays where it is, or ends up at most a chunk
      behind the point that is twelve mebibytes before the end of the output. */
  lemma {:induction false} DrainedStart(key: Keystream, t: Task, log: Bytes)
    requires TaskOk(t, log) && t.status == Live && Trimmed(t)
    ensures var d := Drained(key, t);
            d.status != Faulted ==>
              && (d.contentOffset == t.contentOffset
                  || d.contentOffset + CONTENT_PRUNE_BYTES <= |log| + CONTENT_CHUNK_SIZE + 3)
              && (|t.content| <= CONTENT_PRUNE_BYTES ==> d.contentOffset == t.contentOffset)
    decreases |log| - t.seqnum
  {
    if t.seqnum < |log| {
      DrainStep(key, t, log);
      SendShort(key, t, log);
      var s := PruneContent(Send(key, t).0);
      hide Send, PruneContent, Drained, TaskOk, Settled;
      if s.status != Faulted {
        SentAtMost(s, log);
        DrainedStart(key, s, log);
      }
    } else {
      hide Send, PruneContent, WellFormed, IsCharBoundary;
    }
  }

  lemma {:induction false} DrainedLive(key: Keystream, t: Task, log: Bytes)
    requires TaskOk(t, log) && t.status == Live
    requires |t.content| <= CONTENT_PRUNE_BYTES || t.seqnum >= CONTENT_ROLLING_BYTES
    ensures Drained(key, t).status == Live
    decreases |log| - t.seqnum
  {
    if t.seqnum < |log| {
      hide Send, PruneContent, Settled;
      DrainStep(key, t, log);
      var s := PruneContent(Send(key, t).0);
      hide TaskOk, Drained;
      SentAtMost(s, log);
      DrainedLive(key, s, log);
    } else {
      hide Send, PruneContent, WellFormed, IsCharBoundary;
    }
  }

  /** The client faults while sending on exactly when it holds more than twelve mebibytes and its next
      send ends before eight mebibytes: only the first prune can underflow. */
  lemma DrainedFaultIff(key: Keystream, t: Task, log: Bytes)
    requires TaskOk(t, log) && t.status == Live && t.seqnum < |log|
    ensures Drained(key, t).status == Faulted
       <==> |t.content| > CONTENT_PRUNE_BYTES && Send(key, t).0.seqnum < CONTENT_ROLLING_BYTES
  {
    hide Send, PruneContent, Settled, WellFormed, IsCharBoundary;
    DrainStep(key, t, log);
    var s := PruneContent(Send(key, t).0);
    hide TaskOk, Drained;
    if s.status != Faulted { DrainedLive(key, s, log); }
  }

  /** A server that the client believes to be ahead of where it is, more than twelve mebibytes behind
      the end of the output, is always lost, although the client may still hold what it lacks. */
  lemma FarBehindIsLost(key: Keystream, l: Link, log: Bytes)
    requires LinkOk(l, log) && Settled(l.task)
    requires l.shell.seqnum < l.task.seqnum && l.shell.seqnum + CONTENT_PRUNE_BYTES < |log|
    ensures Lost(key, l)
  {
    DrainedBounds(key, l.task, log);
  }

  // ----- The bad case is reachable -----

  const READ_SIZE: nat := 4096

  function Letters(n: nat): (s: Bytes)
    ensures |s| == n && WellFormed(s)
  {
    if n == 0 then []
    else
      var s: Bytes := [0x61] + Letters(n - 1);
      assert Consumed(s) == 1 && s[1..] == Letters(n - 1);
      s
  }

  /** `n` reads that each decode to `text`. */
  function Flood(text: Bytes, n: nat): seq<Event> {
    if n == 0 then [] else [Output(text)] + Flood(text, n - 1)
  }

  lemma OutputStaysLive(key: Keystream, t: Task, e: Event)
    requires t.status == Live && e.Output? && Iterate(key, t, e).0.status != Faulted
    ensures Iterate(key, t, e).0.status == Live
  {
  }

  lemma TimesStep(a: nat, n: nat)
    requires n > 0
    ensures a * n == a + a * (n - 1)
  {
  }

  lemma {:induction false} FloodRun(key: Keystream, t: Task, log: Bytes, text: Bytes, n: nat)
    requires TaskOk(t, log) && CaughtUp(t) && t.status == Live
    requires WellFormed(text) && |text| <= CONTENT_CHUNK_SIZE
    ensures EventsOk(key, t, log, Flood(text, n)) && NoRewind(key, t, Flood(text, n))
    ensures |OutputLog(key, t, log, Flood(text, n))| == |log| + |text| * n
    ensures RunTask(key, t, Flood(text, n)).0.status == Live
    decreases n
  {
    hide WellFormed, IsCharBoundary, Iterate;
    if n > 0 {
      var e := Output(text);
      CaughtUpTurn(key, t, log, e);
      IterateOk(key, t, log, e);
      OutputStaysLive(key, t, e);
      hide Iterate, WellFormed, TaskOk, CaughtUp;
      assert Flood(text, n)[0] == e && Flood(text, n)[1..] == Flood(text, n - 1);
      FloodRun(key, Iterate(key, t, e).0, log + text, text, n - 1);
      TimesStep(|text|, n);
    }
  }

  const ENOUGH_READS: nat := 3073

  /** A caught-up task that has seen more than twelve mebibytes no longer holds the beginning. */
  lemma LongOutputIsPruned(t: Task, log: Bytes)
    requires TaskOk(t, log) && CaughtUp(t) && |log| > CONTENT_PRUNE_BYTES
    ensures t.contentOffset > 0
  {
  }

  /** The task after the flood, together with the output so far. */
  lemma FloodedTask(key: Keystream, text: Bytes, n: nat) returns (t: Task, log: Bytes)
    requires WellFormed(text) && |text| <= CONTENT_CHUNK_SIZE
    ensures t == RunTask(key, NEW_TASK, Flood(text, n)).0
    ensures TaskOk(t, log) && CaughtUp(t) && t.status == Live && |log| == |text| * n
  {
    var events := Flood(text, n);
    FloodRun(key, NEW_TASK, [], text, n);
    NoRewindRun(key, NEW_TASK, [], events);
    t, log := RunTask(key, NEW_TASK, events).0, OutputLog(key, NEW_TASK, [], events);
  }

  /** A task with nothing left to send believes the third report in a row, and faults if that lies
      before its window. */
  lemma {:induction false} ThirdReportFaults(key: Keystream, l: Link, log: Bytes, n: nat)
    requires TaskOk(l.task, log) && CaughtUp(l.task) && l.task.status == Live
    requires l.shell.seqnum < l.task.contentOffset && IsCharBoundary(log, l.shell.seqnum)
    ensures n > 2 - l.task.seqOutdated <==> Rounds(key, l, n).task.status == Faulted
    decreases n
  {
    hide Round, TaskOk, CaughtUp, IsCharBoundary;
    if n == 0 {
      CaughtUpLives(l.task, log);
    } else {
      StaleRound(key, l, log);
      if l.task.seqOutdated == 2 {
        FaultedStays(key, Round(key, l), n - 1);
      } else {
        ThirdReportFaults(key, Round(key, l), log, n - 1);
      }
    }
  }

  lemma CaughtUpLives(t: Task, log: Bytes)
    requires TaskOk(t, log) && t.status == Live
    ensures t.seqOutdated <= 2
  {
  }

  /** A round with a report from before the window. */
  lemma StaleRound(key: Keystream, l: Link, log: Bytes)
    requires TaskOk(l.task, log) && CaughtUp(l.task) && l.task.status == Live
    requires l.shell.seqnum < l.task.contentOffset
    ensures l.task.seqOutdated <= 2
    ensures l.task.seqOutdated == 2 ==> Round(key, l).task.status == Faulted
    ensures l.task.seqOutdated < 2 ==>
              Round(key, l) == l.(task := l.task.(seqOutdated := l.task.seqOutdated + 1))
              && TaskOk(Round(key, l).task, log) && CaughtUp(Round(key, l).task)
  {
    hide WellFormed, IsCharBoundary, PrevCharBoundary;
  }

  /** After a little more than twelve mebibytes of output, a server that starts over with an empty
      shell makes the task fault at its third report: position zero lies before the client's window. */
  lemma RestartedServerFaults(key: Keystream, n: nat)
    requires n >= 3
    ensures var t := RunTask(key, NEW_TASK, Flood(Letters(READ_SIZE), ENOUGH_READS)).0;
            && t.status == Live && t.contentOffset > 0
            && Rounds(key, Link(t, FRESH_SHELL), n).task.status == Faulted
  {
    hide RunTask, WellFormed, Letters, Flood, TaskOk, CaughtUp, Rounds;
    var t, log := FloodedTask(key, Letters(READ_SIZE), ENOUGH_READS);
    assert READ_SIZE * ENOUGH_READS > CONTENT_PRUNE_BYTES;
    LongOutputIsPruned(t, log);
    ThirdReportFaults(key, Link(t, FRESH_SHELL), log, n);
  }
}

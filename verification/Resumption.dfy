/** A subscriber that comes back. In between, the server may have been restarted from a snapshot, and the
    chunks of the new record need not be those of the old one: numbers of chunks survive, cuts do not. */
module Resumption {
  import opened ByteSeqs
  import opened Utf8
  import opened Keystreams
  import opened ShellStore
  import opened Subscription
  import opened SessionModel
  import opened Replication
  import opened Service
  import AsyncLock
  import EndToEnd
  import Resume

  /** The subscriber is not connected. */
  predicate Away(actions: seq<Replication.Action>, user: nat) {
    actions == [] || (actions[0] != Read(user) && Away(actions[1..], user))
  }

  /** The record is not replaced. */
  predicate NoRestart(actions: seq<Replication.Action>) {
    actions == [] || (!actions[0].RestartFrom? && !actions[0].LoseSession? && NoRestart(actions[1..]))
  }

  lemma {:induction false} UndisturbedIsNoRestart(actions: seq<Replication.Action>, user: nat)
    requires Undisturbed(actions, user)
    ensures NoRestart(actions)
    decreases |actions|
  {
    if actions == [] {
    } else {
      UndisturbedIsNoRestart(actions[1..], user);
    }
  }

  lemma AwayStep(key: Keystream, sys: System, a: Replication.Action, user: nat)
    requires a != Read(user)
    ensures BatchesOf(Act(key, sys, a).served, user) == BatchesOf(sys.served, user)
  {
    hide ReadChunks, NextCursor, ShellStore.AddData, Prune, WellFormed, TaskEvent, BatchesOf;
    match a
    case Wake(e) => TaskServes(key, sys, e);
    case ReportArrives(i) => if i < |sys.reports| { TaskServes(key, sys, Producer.Sync(sys.reports[i])); }
    case Read(other) =>
      if other in sys.cursors && IsOpen(sys.shell) {
        BatchesSnoc(sys.served, Served(other, ReadChunks(sys.cursors[other], sys.shell.value)), user);
        assert BatchesOf(sys.served, user) + [] == BatchesOf(sys.served, user);
      }
    case _ =>
  }

  lemma TaskServes(key: Keystream, sys: System, e: Producer.Event)
    ensures TaskEvent(key, sys, e).served == sys.served
  {
  }

  lemma {:induction false} AwayServesNothing(key: Keystream, sys: System, actions: seq<Replication.Action>, user: nat)
    requires Away(actions, user)
    ensures BatchesOf(Run(key, sys, actions).served, user) == BatchesOf(sys.served, user)
    decreases |actions|
  {
    hide Act, BatchesOf;
    if actions == [] {
    } else {
      AwayStep(key, sys, actions[0], user);
      AwayServesNothing(key, Act(key, sys, actions[0]), actions[1..], user);
    }
  }

  // ----- Two lives of a subscriber -----

  /** A subscriber's history: it is connected, away, and connected again from chunk `k` on. */
  datatype Comeback = Comeback(
    start: System,                        // when the first connection has subscribed
    life: seq<Replication.Action>,
    gap: seq<Replication.Action>,
    k: nat,
    again: seq<Replication.Action>)

  ghost predicate Valid(h: Comeback, user: nat) {
    user in h.start.cursors && Undisturbed(h.life, user) && Away(h.gap, user) && Undisturbed(h.again, user)
  }

  function Parted(key: Keystream, h: Comeback): System {
    Run(key, h.start, h.life)
  }

  function Back(key: Keystream, h: Comeback, user: nat): System {
    Act(key, Run(key, Parted(key, h), h.gap), Subscribe(user, h.k))
  }

  function Ended(key: Keystream, h: Comeback, user: nat): System {
    Run(key, Back(key, h, user), h.again)
  }

  /** The records found by the first and by the second connection. */
  function Seen(key: Keystream, h: Comeback, user: nat): seq<Shell> {
    ReadsOf(key, h.start, h.life, user)
  }

  function SeenAgain(key: Keystream, h: Comeback, user: nat): seq<Shell> {
    ReadsOf(key, Back(key, h, user), h.again, user)
  }

  /** What is sent over both connections is what the two subscriptions yield. */
  lemma TwoLives(key: Keystream, h: Comeback, user: nat)
    requires Valid(h, user)
    ensures BatchesOf(Ended(key, h, user).served, user)
         == BatchesOf(h.start.served, user)
            + (Yields(Seen(key, h, user), h.start.cursors[user]) + Yields(SeenAgain(key, h, user), h.k))
  {
    hide Run, ReadsOf, Yields, BatchesOf, Undisturbed, Away;
    var parted, back := Parted(key, h), Back(key, h, user);
    ServedAreYields(key, h.start, h.life, user);
    AwayServesNothing(key, parted, h.gap, user);
    SubscribeAgain(key, Run(key, parted, h.gap), user, h.k);
    ServedAreYields(key, back, h.again, user);
    AppendThree(BatchesOf(h.start.served, user), Yields(Seen(key, h, user), h.start.cursors[user]),
                Yields(SeenAgain(key, h, user), h.k));
  }

  lemma SubscribeAgain(key: Keystream, sys: System, user: nat, k: nat)
    ensures var sys' := Act(key, sys, Subscribe(user, k));
            user in sys'.cursors && sys'.cursors[user] == k && sys'.served == sys.served && sys'.shell == sys.shell
  {
  }

  lemma ComebackIff(key: Keystream, h: Comeback, user: nat, log0: seq<Bytes>, log1: seq<Bytes>)
    requires Valid(h, user)
    requires SystemOk(key, Ended(key, h, user)) && EndToEnd.NoneIsEmpty(Ended(key, h, user).served)
    requires var c := h.start.cursors[user];
             AllObserve(Seen(key, h, user), log0) && c <= |log0| && Skipped(Seen(key, h, user), c) == 0
    requires AllObserve(SeenAgain(key, h, user), log1) && h.k <= |log1|
    ensures var c, seen, again := h.start.cursors[user], Seen(key, h, user), SeenAgain(key, h, user);
            && EndCursor(seen, c) <= |log0|
            && var p, got, more := StartOf(log0, EndCursor(seen, c)), Yields(seen, c), Yields(again, h.k);
            && Chain(got, StartOf(log0, c), p)
            && (ContinuesAt(again, h.k, p, log1) <==> Skipped(again, h.k) == 0 && StartOf(log1, h.k) == p)
            && (ContinuesAt(again, h.k, p, log1) ==> SpellsLog(key, Ended(key, h, user).log, got + more))
            && (got != [] && more != [] && Skipped(again, h.k) == 0 ==>
                  (SpellsLog(key, Ended(key, h, user).log, got + more) <==> StartOf(log1, h.k) == p))
  {
    var c, seen, again := h.start.cursors[user], Seen(key, h, user), SeenAgain(key, h, user);
    TwoLives(key, h, user);
    hide Valid, Run, ReadsOf, Seen, SeenAgain, Ended, BatchesOf, SystemOk, EndToEnd.NoneIsEmpty, AllObserve, Yields,
         EndCursor, Skipped, SpellsLog, Chain, ContinuesAt, StartOf;
    NoSkipChain(seen, c, log0);
    var p := StartOf(log0, EndCursor(seen, c));
    ContinuesIff(again, h.k, p, log1);
    BothInPlace(key, Ended(key, h, user), BatchesOf(h.start.served, user), Yields(seen, c) + Yields(again, h.k), user);
    if ContinuesAt(again, h.k, p, log1) {
      JoinedSpells(key, Ended(key, h, user).log, seen, c, again, h.k, p, log0, log1);
    }
    if Skipped(again, h.k) == 0 && Yields(seen, c) != [] && Yields(again, h.k) != []
       && SpellsLog(key, Ended(key, h, user).log, Yields(seen, c) + Yields(again, h.k)) {
      NoSkipChain(again, h.k, log1);
      SpelledMeets(key, Ended(key, h, user).log, Yields(seen, c), Yields(again, h.k), StartOf(log0, c), p,
                   StartOf(log1, h.k), StartOf(log1, EndCursor(again, h.k)));
    }
  }

  lemma NoSkipChain(seen: seq<Shell>, c: nat, log: seq<Bytes>)
    requires AllObserve(seen, log) && c <= |log| && Skipped(seen, c) == 0
    ensures EndCursor(seen, c) <= |log|
    ensures Chain(Yields(seen, c), StartOf(log, c), StartOf(log, EndCursor(seen, c)))
  {
    hide AllObserve, Yields, EndCursor, Skipped, Chain;
    ChainIff(seen, c, log);
  }

  lemma BothInPlace(key: Keystream, sys: System, earlier: seq<Batch>, batches: seq<Batch>, user: nat)
    requires SystemOk(key, sys) && EndToEnd.NoneIsEmpty(sys.served)
    requires BatchesOf(sys.served, user) == earlier + batches
    ensures InPlace(key, sys.log, batches) && WellFormed(sys.log)
  {
    hide InPlace, BatchesOf, ServedOk, EndToEnd.NoneIsEmpty, WellFormed;
    ServedInPlace(key, sys.log, sys.served, user);
    InPlaceAppend(key, sys.log, earlier, batches);
  }

  lemma JoinedSpells(
      key: Keystream, log: Bytes, seen: seq<Shell>, c: nat, again: seq<Shell>, k: nat, p: nat,
      log0: seq<Bytes>, log1: seq<Bytes>)
    requires WellFormed(log) && InPlace(key, log, Yields(seen, c) + Yields(again, k))
    requires c <= |log0| && Chain(Yields(seen, c), StartOf(log0, c), p) && ContinuesAt(again, k, p, log1)
    ensures SpellsLog(key, log, Yields(seen, c) + Yields(again, k))
  {
    var got, more, from, to := Yields(seen, c), Yields(again, k), StartOf(log0, c), StartOf(log1, EndCursor(again, k));
    assert Chain(more, p, to);
    hide WellFormed, InPlace, Yields, EndCursor, Chain, StartOf, SpellsLog, ContinuesAt;
    ChainAppend(got, more, from, p, to);
    ChainedSpells(key, log, got + more, from, to);
  }

  lemma ChainedSpells(key: Keystream, log: Bytes, batches: seq<Batch>, from: nat, to: nat)
    requires WellFormed(log) && InPlace(key, log, batches) && Chain(batches, from, to)
    ensures SpellsLog(key, log, batches)
  {
    hide WellFormed, Chain, SpellsLog, ChunksOk;
    if batches == [] {
      EmptySpells(key, log);
    } else {
      ChainStart(batches, from, to);
      EndToEnd.BatchStarts(key, log, batches[0]);
      ChainSpells(key, log, batches, from, to);
    }
  }

  /** Batches that spell a stretch leave no gap where two series of them meet. */
  lemma SpelledMeets(
      key: Keystream, log: Bytes, got: seq<Batch>, more: seq<Batch>, from: nat, p: nat, start: nat, to: nat)
    requires SpellsLog(key, log, got + more) && got != [] && more != []
    requires Chain(got, from, p) && Chain(more, start, to)
    ensures start == p
  {
    hide DecryptChunks, Flatten, WellFormed, AllChunks;
    assert (got + more)[0] == got[0];
    var end := from + Total(AllChunks(got + more));
    ChainStart(got, from, p);
    assert Chain(got + more, from, end);
    hide SpellsLog, Chain;
    ChainAppend(got, more, from, p, end);
    ChainStart(more, p, end);
    ChainStart(more, start, to);
  }

  // ----- Records that share a log -----

  /** The record is a window on a prefix of the log. */
  ghost predicate OnPrefix(s: Shell, all: seq<Bytes>) {
    exists pre :: pre <= all && Refines(s, pre)
  }

  /** The snapshots from the `n`th on. */
  ghost predicate SnapshotsOn(snapshots: seq<Shell>, n: nat, all: seq<Bytes>) {
    forall i :: n <= i < |snapshots| ==> OnPrefix(snapshots[i], all)
  }

  lemma OnLonger(s: Shell, all: seq<Bytes>, longer: seq<Bytes>)
    requires OnPrefix(s, all) && all <= longer
    ensures OnPrefix(s, longer)
  {
    hide Refines;
    var pre :| pre <= all && Refines(s, pre);
    assert pre <= longer;
  }

  lemma SnapshotOnLog(s: Shell, all: seq<Bytes>)
    requires Refines(s, all)
    ensures OnPrefix(Prune(s, SHELL_SNAPSHOT_BYTES), all)
  {
    hide Refines;
    PruneRefines(s, all, SHELL_SNAPSHOT_BYTES);
    assert all <= all;
  }

  lemma ActSnapshots(key: Keystream, sys: System, a: Replication.Action, n: nat, all: seq<Bytes>, longer: seq<Bytes>)
    requires sys.shell.Some? && Refines(sys.shell.value, all) && n <= |sys.snapshots|
    requires SnapshotsOn(sys.snapshots, n, all) && all <= longer
    ensures var sys' := Act(key, sys, a); n <= |sys'.snapshots| && SnapshotsOn(sys'.snapshots, n, longer)
  {
    hide OnPrefix, Refines, ShellStore.AddData, Prune, WellFormed, TaskEvent, ReadChunks, NextCursor;
    TaskSnapshots(key, sys, a);
    SnapshotOnLog(sys.shell.value, all);
    var sys' := Act(key, sys, a);
    forall i | n <= i < |sys'.snapshots| ensures OnPrefix(sys'.snapshots[i], longer) {
      OnLonger(sys'.snapshots[i], all, longer);
    }
  }

  lemma TaskSnapshots(key: Keystream, sys: System, a: Replication.Action)
    requires sys.shell.Some?
    ensures Act(key, sys, a).snapshots
         == if a.TakeSnapshot? then sys.snapshots + [Prune(sys.shell.value, SHELL_SNAPSHOT_BYTES)] else sys.snapshots
  {
    hide ShellStore.AddData, Prune, WellFormed, Producer.Iterate, ReadChunks, NextCursor;
  }

  /** While the record is not replaced, it and all snapshots taken of it stay on one growing log. */
  lemma {:induction false} OneLog(
      key: Keystream, sys: System, actions: seq<Replication.Action>, n: nat, all: seq<Bytes>)
    requires sys.shell.Some? && Refines(sys.shell.value, all) && NoRestart(actions)
    requires n <= |sys.snapshots| && SnapshotsOn(sys.snapshots, n, all)
    ensures var sys', all' := Run(key, sys, actions), LogAfter(key, sys, actions, all);
            && sys'.shell.Some? && Refines(sys'.shell.value, all') && all <= all'
            && n <= |sys'.snapshots| && SnapshotsOn(sys'.snapshots, n, all')
    decreases |actions|
  {
    hide Act, Refines, LogStep, SnapshotsOn;
    if actions == [] {
    } else {
      var a := actions[0];
      LogStepRefines(key, sys, a, all);
      ActSnapshots(key, sys, a, n, all, LogStep(sys, a, all));
      OneLog(key, Act(key, sys, a), actions[1..], n, LogStep(sys, a, all));
    }
  }

  lemma SamePosition(all: seq<Bytes>, longer: seq<Bytes>, k: nat)
    requires all <= longer && k <= |all|
    ensures StartOf(longer, k) == StartOf(all, k)
  {
    assert longer[..k] == all[..k];
  }

  lemma SameBefore(pre: seq<Bytes>, all: seq<Bytes>, longer: seq<Bytes>, k: nat)
    requires pre <= all && pre <= longer && k <= |pre|
    ensures StartOf(longer, k) == StartOf(all, k)
  {
    SamePosition(pre, all, k);
    SamePosition(pre, longer, k);
  }

  lemma EndedOk(key: Keystream, h: Comeback, user: nat)
    requires SystemOk(key, h.start) && EndToEnd.NoneIsEmpty(h.start.served)
    ensures SystemOk(key, Ended(key, h, user)) && EndToEnd.NoneIsEmpty(Ended(key, h, user).served)
  {
    hide SystemOk, EndToEnd.NoneIsEmpty, Run, Act;
    RunKeeps(key, h.start, h.life);
    RunKeeps(key, Parted(key, h), h.gap);
    ActOk(key, Run(key, Parted(key, h), h.gap), Subscribe(user, h.k));
    EndToEnd.ActServesNonEmpty(key, Run(key, Parted(key, h), h.gap), Subscribe(user, h.k));
    RunKeeps(key, Back(key, h, user), h.again);
  }

  lemma RunKeeps(key: Keystream, sys: System, actions: seq<Replication.Action>)
    requires SystemOk(key, sys) && EndToEnd.NoneIsEmpty(sys.served)
    ensures SystemOk(key, Run(key, sys, actions)) && EndToEnd.NoneIsEmpty(Run(key, sys, actions).served)
  {
    hide SystemOk, EndToEnd.NoneIsEmpty, Run;
    RunOk(key, sys, actions);
    EndToEnd.ServedNonEmpty(key, sys, actions);
  }

  /** Over every run from the start. A subscriber was served without a skip up to the position `p`. It
      comes back, after anything that happened to the server, at any chunk number on any record. It
      continues at `p` exactly when the chunk it names starts there in the new record's log and nothing
      is skipped; and then both connections together spell one stretch of the output. When both brought
      something and nothing was skipped, they spell it only then. */
  lemma ResumedIff(
      key: Keystream, actions: seq<Replication.Action>, h: Comeback, user: nat, log0: seq<Bytes>, log1: seq<Bytes>)
    requires h.start == Run(key, INITIAL, actions) && Valid(h, user)
    requires var c := h.start.cursors[user];
             AllObserve(Seen(key, h, user), log0) && c <= |log0| && Skipped(Seen(key, h, user), c) == 0
    requires AllObserve(SeenAgain(key, h, user), log1) && h.k <= |log1|
    ensures var c, seen, again := h.start.cursors[user], Seen(key, h, user), SeenAgain(key, h, user);
            && EndCursor(seen, c) <= |log0|
            && var p, got, more := StartOf(log0, EndCursor(seen, c)), Yields(seen, c), Yields(again, h.k);
            && BatchesOf(Ended(key, h, user).served, user) == BatchesOf(h.start.served, user) + (got + more)
            && Chain(got, StartOf(log0, c), p)
            && (ContinuesAt(again, h.k, p, log1) <==> Skipped(again, h.k) == 0 && StartOf(log1, h.k) == p)
            && (ContinuesAt(again, h.k, p, log1) ==> SpellsLog(key, Ended(key, h, user).log, got + more))
            && (got != [] && more != [] && Skipped(again, h.k) == 0 ==>
                  (SpellsLog(key, Ended(key, h, user).log, got + more) <==> StartOf(log1, h.k) == p))
  {
    EndToEnd.ReachableOk(key, actions);
    hide Run, SystemOk, EndToEnd.NoneIsEmpty, Seen, SeenAgain, Ended, Yields, Skipped, EndCursor, AllObserve, Chain,
         ContinuesAt, SpellsLog, StartOf, BatchesOf;
    EndedOk(key, h, user);
    TwoLives(key, h, user);
    ComebackIff(key, h, user, log0, log1);
  }

  /** Past the end of the new record nothing is served at all. */
  lemma PastTheEnd(key: Keystream, h: Comeback, user: nat, log1: seq<Bytes>)
    requires Valid(h, user) && AllObserve(SeenAgain(key, h, user), log1) && h.k > |log1|
    ensures Yields(SeenAgain(key, h, user), h.k) == []
  {
    hide SeenAgain, AllObserve, Yields;
    NothingNew(SeenAgain(key, h, user), h.k, log1);
  }

  // ----- When it is sure to continue -----

  lemma {:induction false} CursorGrows(observed: seq<Shell>, chunknum: nat)
    ensures chunknum <= EndCursor(observed, chunknum)
    decreases |observed|
  {
    if observed == [] {
    } else {
      CursorGrows(observed[1..], NextCursor(chunknum, observed[0]));
    }
  }

  /** The two logs agree on where the chunk begins that the subscriber comes back for. */
  ghost predicate Agree(key: Keystream, h: Comeback, user: nat, log0: seq<Bytes>, log1: seq<Bytes>)
    requires user in h.start.cursors
  {
    && AllObserve(Seen(key, h, user), log0) && AllObserve(SeenAgain(key, h, user), log1)
    && h.k <= |log0| && h.k <= |log1| && StartOf(log1, h.k) == StartOf(log0, h.k)
  }

  /** The subscriber comes back for the next chunk it wanted. A browser need not: it comes back for its
      count, see `BrowserAtCursor`. */
  ghost predicate AtCursor(key: Keystream, h: Comeback, user: nat)
    requires user in h.start.cursors
  {
    h.k == EndCursor(Seen(key, h, user), h.start.cursors[user])
  }

  /** The subscriber is a browser: it came and comes back for the count of its lock, which was given the
      batches of the first connection meanwhile. */
  ghost predicate ByCount(
      key: Keystream, h: Comeback, user: nat,
      before: seq<AsyncLock.Event<Bytes>>, during: seq<AsyncLock.Event<Bytes>>)
    requires user in h.start.cursors
  {
    var s0 := AsyncLock.Run(AsyncLock.Idle<Bytes>(), before);
    var s1, c := AsyncLock.Run(s0, during), h.start.cursors[user];
    && s0.counted == c && s1.counted == h.k
    && s1.submitted == s0.submitted + Resume.Arrived(Yields(Seen(key, h, user), c))
  }

  /** When that holds of a browser, which comes back for its count: when as much waited in its lock as it
      subscribed as waits now or was skipped; in particular, when nothing waited either time and nothing
      was skipped. */
  lemma BrowserAtCursor(
      key: Keystream, h: Comeback, user: nat,
      before: seq<AsyncLock.Event<Bytes>>, during: seq<AsyncLock.Event<Bytes>>)
    requires user in h.start.cursors && ByCount(key, h, user, before, during)
    ensures var s0 := AsyncLock.Run(AsyncLock.Idle<Bytes>(), before);
            var s1 := AsyncLock.Run(s0, during);
            AtCursor(key, h, user)
            <==> AsyncLock.Waiting(s0) == AsyncLock.Waiting(s1) + Skipped(Seen(key, h, user), h.start.cursors[user])
  {
    hide AsyncLock.Run, Seen, Yields, Skipped, EndCursor, AsyncLock.Waiting, Resume.Arrived;
    Resume.ConnectionAccounts(before, during, Seen(key, h, user));
  }

  /** It got everything on both connections: then the two spell one stretch of the output. */
  lemma AgreedContinues(
      key: Keystream, actions: seq<Replication.Action>, h: Comeback, user: nat, log0: seq<Bytes>, log1: seq<Bytes>)
    requires h.start == Run(key, INITIAL, actions) && Valid(h, user)
    requires AtCursor(key, h, user) && Agree(key, h, user, log0, log1)
    requires Skipped(Seen(key, h, user), h.start.cursors[user]) == 0
    ensures var c, seen, again := h.start.cursors[user], Seen(key, h, user), SeenAgain(key, h, user);
            && (Skipped(again, h.k) == 0 <==> ContinuesAt(again, h.k, StartOf(log0, h.k), log1))
            && (Skipped(again, h.k) == 0 ==>
                  SpellsLog(key, Ended(key, h, user).log, Yields(seen, c) + Yields(again, h.k)))
  {
    hide Run, Seen, SeenAgain, Ended, Yields, Skipped, EndCursor, AllObserve, Chain, ContinuesAt, SpellsLog, StartOf,
         BatchesOf, Valid;
    ValidCursor(h, user);
    CursorGrows(Seen(key, h, user), h.start.cursors[user]);
    ResumedIff(key, actions, h, user, log0, log1);
  }

  lemma ValidCursor(h: Comeback, user: nat)
    requires Valid(h, user)
    ensures user in h.start.cursors && Undisturbed(h.life, user) && Undisturbed(h.again, user)
  {
  }

  /** A record whose log starts with `pre` was followed to the end of both connections. */
  lemma BackLog(key: Keystream, h: Comeback, user: nat, there: System, rest: seq<Replication.Action>, pre: seq<Bytes>)
    returns (log1: seq<Bytes>)
    requires there.shell.Some? && Refines(there.shell.value, pre) && NoRestart(rest) && Undisturbed(h.again, user)
    requires Run(key, Parted(key, h), h.gap) == Run(key, there, rest)
    ensures AllObserve(SeenAgain(key, h, user), log1) && pre <= log1
  {
    hide Run, ReadsOf, AllObserve, Refines, LogAfter, OnPrefix, Undisturbed, NoRestart;
    OneLog(key, there, rest, |there.snapshots|, pre);
    var back := Back(key, h, user);
    SubscribeAgain(key, Run(key, there, rest), user, h.k);
    var mid := LogAfter(key, there, rest, pre);
    ReadsObserve(key, back, h.again, user, mid);
    log1 := LogAfter(key, back, h.again, mid);
    assert pre <= mid <= log1;
  }

  /** Without a restart in between, the two connections agree, however long the subscriber was away. */
  lemma ReconnectAgrees(key: Keystream, h: Comeback, user: nat) returns (log0: seq<Bytes>, log1: seq<Bytes>)
    requires Logged(h.start) && h.start.shell.Some? && Valid(h, user) && NoRestart(h.gap) && AtCursor(key, h, user)
    ensures AllObserve(Seen(key, h, user), log0)
    ensures h.start.cursors[user] <= |log0| ==> Agree(key, h, user, log0, log1)
  {
    hide Run, ReadsOf, AllObserve, Refines, LogAfter, NoRestart, Undisturbed, Away, EndCursor, OnPrefix;
    ValidCursor(h, user);
    var all :| Refines(h.start.shell.value, all);
    ReadsObserve(key, h.start, h.life, user, all);
    var mid := LogAfter(key, h.start, h.life, all);
    log1 := BackLog(key, h, user, Parted(key, h), h.gap, mid);
    log0 := log1;
    ObserveLonger(Seen(key, h, user), mid, log1);
    if h.start.cursors[user] <= |log0| { CursorWithin(Seen(key, h, user), h.start.cursors[user], log0); }
  }

  /** For a browser, over every run from the start, without a restart in between: when as much waits in
      its lock as had waited when it subscribed, and nothing was skipped, then the two connections spell
      one stretch of the output, unless something is skipped afterwards. */
  lemma BrowserReconnects(
      key: Keystream, actions: seq<Replication.Action>, h: Comeback, user: nat,
      before: seq<AsyncLock.Event<Bytes>>, during: seq<AsyncLock.Event<Bytes>>)
    returns (log0: seq<Bytes>, log1: seq<Bytes>)
    requires h.start == Run(key, INITIAL, actions) && h.start.shell.Some? && Valid(h, user) && NoRestart(h.gap)
    requires user in h.start.cursors && ByCount(key, h, user, before, during)
    requires var s0 := AsyncLock.Run(AsyncLock.Idle<Bytes>(), before);
             AsyncLock.Waiting(s0) == AsyncLock.Waiting(AsyncLock.Run(s0, during))
    requires Skipped(Seen(key, h, user), h.start.cursors[user]) == 0 && Skipped(SeenAgain(key, h, user), h.k) == 0
    ensures AllObserve(Seen(key, h, user), log0)
    ensures h.start.cursors[user] <= |log0| ==>
              SpellsLog(key, Ended(key, h, user).log,
                        Yields(Seen(key, h, user), h.start.cursors[user]) + Yields(SeenAgain(key, h, user), h.k))
  {
    hide AsyncLock.Run, Run, Logged, Valid, AtCursor, NoRestart, Seen, SeenAgain, Ended, Yields, Skipped, SpellsLog,
         Agree, AsyncLock.Waiting, Resume.Arrived, AllObserve;
    StartLogged();
    RunLogged(key, INITIAL, actions);
    BrowserAtCursor(key, h, user, before, during);
    log0, log1 := ReconnectAgrees(key, h, user);
    if h.start.cursors[user] <= |log0| { AgreedContinues(key, actions, h, user, log0, log1); }
  }

  lemma CursorWithin(seen: seq<Shell>, c: nat, log: seq<Bytes>)
    requires AllObserve(seen, log) && c <= |log|
    ensures EndCursor(seen, c) <= |log|
  {
    hide AllObserve, EndCursor;
    ChainIff(seen, c, log);
  }

  /** What happens while the subscriber is away: the server comes up from the `i`th snapshot. */
  function Restart(quiet: seq<Replication.Action>, i: nat, rest: seq<Replication.Action>): seq<Replication.Action> {
    quiet + ([RestartFrom(i)] + rest)
  }

  /** The guard that a server can check before it comes up from a snapshot: it was taken of this record,
      since the record `up` last came up, and it counts at least the chunks that the subscriber wants to
      come back behind. Then the two connections agree. */
  lemma RestartAgrees(
      key: Keystream, up: System, lead: seq<Replication.Action>, h: Comeback, user: nat,
      quiet: seq<Replication.Action>, i: nat, rest: seq<Replication.Action>)
    returns (log0: seq<Bytes>, log1: seq<Bytes>)
    requires Logged(up) && up.shell.Some? && NoRestart(lead) && h.start == Run(key, up, lead)
    requires Valid(h, user) && AtCursor(key, h, user)
    requires h.gap == Restart(quiet, i, rest) && NoRestart(quiet) && NoRestart(rest)
    requires var saved := Run(key, Parted(key, h), quiet).snapshots;
             |up.snapshots| <= i < |saved| && h.k <= ChunkCount(saved[i])
    ensures Agree(key, h, user, log0, log1)
  {
    hide Run, ReadsOf, AllObserve, Refines, LogAfter, NoRestart, Undisturbed, Away, EndCursor, OnPrefix, SnapshotsOn;
    ValidCursor(h, user);
    var n, all :| n == |up.snapshots| && Refines(up.shell.value, all);
    NoSnapshots(up.snapshots, all);
    OneLog(key, up, lead, n, all);
    var a0 := LogAfter(key, up, lead, all);
    UndisturbedIsNoRestart(h.life, user);
    OneLog(key, h.start, h.life, n, a0);
    ReadsObserve(key, h.start, h.life, user, a0);
    var a1, parted := LogAfter(key, h.start, h.life, a0), Parted(key, h);
    OneLog(key, parted, quiet, n, a1);
    log0 := LogAfter(key, parted, quiet, a1);
    ObserveLonger(Seen(key, h, user), a1, log0);
    var last := Run(key, parted, quiet);
    var pre := SavedLog(last.snapshots, n, i, log0);
    var there := Act(key, last, RestartFrom(i));
    RestartRun(key, parted, quiet, i, rest);
    log1 := BackLog(key, h, user, there, rest, pre);
    SameBefore(pre, log0, log1, h.k);
  }

  lemma NoSnapshots(snapshots: seq<Shell>, all: seq<Bytes>)
    ensures SnapshotsOn(snapshots, |snapshots|, all)
  {
  }

  lemma SavedLog(snapshots: seq<Shell>, n: nat, i: nat, all: seq<Bytes>) returns (pre: seq<Bytes>)
    requires SnapshotsOn(snapshots, n, all) && n <= i < |snapshots|
    ensures pre <= all && Refines(snapshots[i], pre) && ChunkCount(snapshots[i]) == |pre|
  {
    assert OnPrefix(snapshots[i], all);
    pre :| pre <= all && Refines(snapshots[i], pre);
  }

  lemma RestartRun(
      key: Keystream, sys: System, quiet: seq<Replication.Action>, i: nat, rest: seq<Replication.Action>)
    requires i < |Run(key, sys, quiet).snapshots|
    ensures var there := Act(key, Run(key, sys, quiet), RestartFrom(i));
            && Run(key, sys, Restart(quiet, i, rest)) == Run(key, there, rest)
            && there.shell == Some(Run(key, sys, quiet).snapshots[i])
  {
    RunAppend(key, sys, quiet, [RestartFrom(i)] + rest);
    assert ([RestartFrom(i)] + rest)[1..] == rest;
  }

  /** Over every run from the start: a subscriber that was served without a skip, and comes back for the
      next chunk it wanted after the server was restarted from a snapshot that meets the guard, gets the
      output byte after byte across the restart, unless something is skipped afterwards. */
  lemma GuardedRestart(
      key: Keystream, first: seq<Replication.Action>, lead: seq<Replication.Action>, h: Comeback, user: nat,
      quiet: seq<Replication.Action>, i: nat, rest: seq<Replication.Action>)
    requires var up := Run(key, INITIAL, first);
             up.shell.Some? && NoRestart(lead) && h.start == Run(key, up, lead)
    requires Valid(h, user) && AtCursor(key, h, user)
    requires h.gap == Restart(quiet, i, rest) && NoRestart(quiet) && NoRestart(rest)
    requires var saved := Run(key, Parted(key, h), quiet).snapshots;
             |Run(key, INITIAL, first).snapshots| <= i < |saved| && h.k <= ChunkCount(saved[i])
    requires Skipped(Seen(key, h, user), h.start.cursors[user]) == 0
    requires Skipped(SeenAgain(key, h, user), h.k) == 0
    ensures SpellsLog(key, Ended(key, h, user).log,
                      Yields(Seen(key, h, user), h.start.cursors[user]) + Yields(SeenAgain(key, h, user), h.k))
  {
    StartLogged();
    RunLogged(key, INITIAL, first);
    RunAppend(key, INITIAL, first, lead);
    hide Run, Logged, Valid, AtCursor, NoRestart, Seen, SeenAgain, Ended, Yields, Skipped, SpellsLog, Parted, Agree,
         Restart;
    var log0, log1 := RestartAgrees(key, Run(key, INITIAL, first), lead, h, user, quiet, i, rest);
    AgreedContinues(key, first + lead, h, user, log0, log1);
  }

  lemma StartLogged()
    ensures Logged(INITIAL)
  {
  }
}

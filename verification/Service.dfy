/** One subscriber's whole service inside the running system: between restarts of the server, the
    batches it is sent are the subscription's series of reads of one growing chunk log, and they spell
    the output byte after byte. */
module Service {
  import opened ByteSeqs
  import opened Utf8
  import opened Keystreams
  import opened ShellStore
  import opened Subscription
  import opened Producer
  import opened SessionModel
  import opened Replication
  import EndToEnd

  /** The server goes away or comes up from a snapshot, or the subscriber subscribes anew. */
  predicate Disturbs(a: Replication.Action, user: nat) {
    a.RestartFrom? || a.LoseSession? || (a.Subscribe? && a.user == user)
  }

  predicate Undisturbed(actions: seq<Replication.Action>, user: nat) {
    actions == [] || (!Disturbs(actions[0], user) && Undisturbed(actions[1..], user))
  }

  predicate Reads(sys: System, a: Replication.Action, user: nat) {
    a == Read(user) && user in sys.cursors && IsOpen(sys.shell)
  }

  /** The record at each of the subscriber's reads. */
  function ReadsOf(key: Keystream, sys: System, actions: seq<Replication.Action>, user: nat): seq<Shell>
    decreases |actions|
  {
    if actions == [] then []
    else
      (if Reads(sys, actions[0], user) then [sys.shell.value] else [])
      + ReadsOf(key, Act(key, sys, actions[0]), actions[1..], user)
  }

  function BatchesOf(served: seq<Served>, user: nat): seq<Batch> {
    if served == [] then []
    else (if served[0].user == user then [served[0].batch] else []) + BatchesOf(served[1..], user)
  }

  lemma {:induction false} BatchesSnoc(served: seq<Served>, x: Served, user: nat)
    ensures BatchesOf(served + [x], user) == BatchesOf(served, user) + (if x.user == user then [x.batch] else [])
  {
    if served == [] {
      assert [] + [x] == [x];
    } else {
      BatchesSnoc(served[1..], x, user);
      var head := if served[0].user == user then [served[0].batch] else [];
      assert (served + [x])[1..] == served[1..] + [x];
      AppendThree(head, BatchesOf(served[1..], user), if x.user == user then [x.batch] else []);
    }
  }

  // ----- What is served is what a subscription yields -----

  /** What a read adds to the subscriber's batches. */
  function Newly(batch: Batch): seq<Batch> {
    if batch.chunks == [] then [] else [batch]
  }

  lemma ServeStep(key: Keystream, sys: System, a: Replication.Action, user: nat)
    requires user in sys.cursors && !Disturbs(a, user)
    ensures var sys', cursor := Act(key, sys, a), sys.cursors[user];
            && user in sys'.cursors
            && (Reads(sys, a, user) ==>
                  && sys'.cursors[user] == NextCursor(cursor, sys.shell.value)
                  && BatchesOf(sys'.served, user)
                     == BatchesOf(sys.served, user) + Newly(ReadChunks(cursor, sys.shell.value)))
            && (!Reads(sys, a, user) ==>
                  sys'.cursors[user] == cursor && BatchesOf(sys'.served, user) == BatchesOf(sys.served, user))
  {
    hide ReadChunks, NextCursor, ShellStore.AddData, Prune, WellFormed, Iterate, BatchesOf, Grow;
    match a
    case Read(other) =>
      if other in sys.cursors && IsOpen(sys.shell) {
        var batch := ReadChunks(sys.cursors[other], sys.shell.value);
        BatchesSnoc(sys.served, Served(other, batch), user);
        assert BatchesOf(sys.served, user) + [] == BatchesOf(sys.served, user);
      }
    case _ =>
  }

  /** Undisturbed, the subscriber is sent exactly what its subscription yields for the records found
      at its reads. */
  lemma {:induction false} ServedAreYields(key: Keystream, sys: System, actions: seq<Replication.Action>, user: nat)
    requires user in sys.cursors && Undisturbed(actions, user)
    ensures var sys', seen := Run(key, sys, actions), ReadsOf(key, sys, actions, user);
            && user in sys'.cursors
            && sys'.cursors[user] == EndCursor(seen, sys.cursors[user])
            && BatchesOf(sys'.served, user) == BatchesOf(sys.served, user) + Yields(seen, sys.cursors[user])
    decreases |actions|
  {
    hide Act, ReadChunks, NextCursor, BatchesOf;
    if actions == [] {
      assert BatchesOf(sys.served, user) + [] == BatchesOf(sys.served, user);
    } else {
      var sys1, rest, cursor := Act(key, sys, actions[0]), actions[1..], sys.cursors[user];
      ServeStep(key, sys, actions[0], user);
      ServedAreYields(key, sys1, rest, user);
      var later := ReadsOf(key, sys1, rest, user);
      if Reads(sys, actions[0], user) {
        YieldsCons(sys.shell.value, later, cursor);
        AppendThree(BatchesOf(sys.served, user), Newly(ReadChunks(cursor, sys.shell.value)),
                    Yields(later, NextCursor(cursor, sys.shell.value)));
      } else {
        assert [] + later == later;
      }
    }
  }

  lemma YieldsCons(s: Shell, later: seq<Shell>, cursor: nat)
    ensures Yields([s] + later, cursor) == Newly(ReadChunks(cursor, s)) + Yields(later, NextCursor(cursor, s))
    ensures EndCursor([s] + later, cursor) == EndCursor(later, NextCursor(cursor, s))
  {
    hide ReadChunks, NextCursor;
    assert ([s] + later)[1..] == later;
  }

  // ----- The chunk log of the running system -----

  /** What one action adds to the log of all chunks the server accepted. */
  function LogStep(sys: System, a: Replication.Action, all: seq<Bytes>): seq<Bytes> {
    if a.Deliver? && a.i < |sys.wire| && IsOpen(sys.shell) then LogAdd(all, sys.wire[a.i].data, sys.wire[a.i].seq0)
    else all
  }

  function LogAfter(key: Keystream, sys: System, actions: seq<Replication.Action>, all: seq<Bytes>): seq<Bytes>
    decreases |actions|
  {
    if actions == [] then all
    else LogAfter(key, Act(key, sys, actions[0]), actions[1..], LogStep(sys, actions[0], all))
  }

  lemma LogStepRefines(key: Keystream, sys: System, a: Replication.Action, all: seq<Bytes>)
    requires sys.shell.Some? && Refines(sys.shell.value, all)
    requires !a.RestartFrom? && !a.LoseSession?
    ensures var sys' := Act(key, sys, a);
            sys'.shell.Some? && Refines(sys'.shell.value, LogStep(sys, a, all))
    ensures all <= LogStep(sys, a, all)
  {
    hide ShellStore.AddData, LogAdd, Prune, WellFormed, Iterate, Total, ReadChunks, NextCursor, Grow;
    match a
    case Deliver(i) =>
      if i < |sys.wire| && IsOpen(sys.shell) {
        AddDataRefines(sys.shell.value, all, sys.wire[i].data, sys.wire[i].seq0);
      }
    case _ =>
  }

  lemma {:induction false} ReadsObserve(
      key: Keystream, sys: System, actions: seq<Replication.Action>, user: nat, all: seq<Bytes>)
    requires sys.shell.Some? && Refines(sys.shell.value, all) && Undisturbed(actions, user)
    ensures var sys', all' := Run(key, sys, actions), LogAfter(key, sys, actions, all);
            && sys'.shell.Some? && Refines(sys'.shell.value, all')
            && all <= all'
            && AllObserve(ReadsOf(key, sys, actions, user), all')
    decreases |actions|
  {
    hide Act, Refines, LogStep, Observes;
    if actions == [] {
    } else {
      var a, rest := actions[0], actions[1..];
      var sys1, all1 := Act(key, sys, a), LogStep(sys, a, all);
      LogStepRefines(key, sys, a, all);
      ReadsObserve(key, sys1, rest, user, all1);
      var later, all' := ReadsOf(key, sys1, rest, user), LogAfter(key, sys1, rest, all1);
      if Reads(sys, a, user) {
        PrefixObserved(sys.shell.value, all, all');
        assert ([sys.shell.value] + later)[1..] == later;
      } else {
        assert [] + later == later;
      }
    }
  }

  // ----- Every record has a log -----

  ghost predicate HasLog(s: Shell) {
    exists all :: Refines(s, all)
  }

  ghost predicate Logged(sys: System) {
    && (sys.shell.Some? ==> HasLog(sys.shell.value))
    && forall i :: 0 <= i < |sys.snapshots| ==> HasLog(sys.snapshots[i])
  }

  lemma ActLogged(key: Keystream, sys: System, a: Replication.Action)
    requires Logged(sys)
    ensures Logged(Act(key, sys, a))
  {
    hide HasLog, ShellStore.AddData, Prune, WellFormed, Iterate, ReadChunks, NextCursor, Grow;
    match a
    case Deliver(i) =>
      if i < |sys.wire| && IsOpen(sys.shell) { AddDataHasLog(sys.shell.value, sys.wire[i]); }
    case TakeSnapshot => if sys.shell.Some? { PrunedHasLog(sys.shell.value); }
    case Register => FreshHasLog();
    case Terminate => if sys.shell.Some? { ClosedHasLog(sys.shell.value); }
    case _ =>
  }

  lemma AddDataHasLog(s: Shell, m: TerminalData)
    requires HasLog(s)
    ensures HasLog(ShellStore.AddData(s, m.data, m.seq0))
  {
    hide Refines;
    var all :| Refines(s, all);
    AddDataRefines(s, all, m.data, m.seq0);
  }

  lemma PrunedHasLog(s: Shell)
    requires HasLog(s)
    ensures HasLog(Prune(s, SHELL_SNAPSHOT_BYTES))
  {
    hide Refines;
    var all :| Refines(s, all);
    PruneRefines(s, all, SHELL_SNAPSHOT_BYTES);
  }

  lemma FreshHasLog()
    ensures HasLog(FRESH_SHELL)
  {
    assert Refines(FRESH_SHELL, []);
  }

  lemma ClosedHasLog(s: Shell)
    requires HasLog(s)
    ensures HasLog(s.(closed := true))
  {
    var all :| Refines(s, all);
    assert Refines(s.(closed := true), all);
  }

  lemma {:induction false} RunLogged(key: Keystream, sys: System, actions: seq<Replication.Action>)
    requires Logged(sys)
    ensures Logged(Run(key, sys, actions))
    decreases |actions|
  {
    hide Logged, Act;
    if actions == [] {
    } else {
      ActLogged(key, sys, actions[0]);
      RunLogged(key, Act(key, sys, actions[0]), actions[1..]);
    }
  }

  lemma {:induction false} RunAppend(
      key: Keystream, sys: System, a: seq<Replication.Action>, b: seq<Replication.Action>)
    ensures Run(key, sys, a + b) == Run(key, Run(key, sys, a), b)
    decreases |a|
  {
    hide Act;
    if a == [] {
      assert a + b == b;
    } else {
      assert (a + b)[1..] == a[1..] + b;
      RunAppend(key, Act(key, sys, a[0]), a[1..], b);
    }
  }

  // ----- One subscriber, byte after byte -----

  ghost predicate InPlace(key: Keystream, log: Bytes, batches: seq<Batch>)
    decreases |batches|
  {
    batches == []
    || (batches[0].chunks != [] && ChunksOk(key, log, batches[0].seqnum, batches[0].chunks)
        && InPlace(key, log, batches[1..]))
  }

  lemma {:induction false} ChainInPlace(key: Keystream, log: Bytes, batches: seq<Batch>, from: nat, to: nat)
    requires Chain(batches, from, to) && InPlace(key, log, batches)
    ensures ChunksOk(key, log, from, AllChunks(batches))
    decreases |batches|
  {
    hide Chain, InPlace, AllChunks, ChunksOk, Total;
    ChainParts(key, log, batches, from, to);
    if batches == [] {
      NoChunksOk(key, log, from);
    } else {
      var head, rest := batches[0], batches[1..];
      var next := from + Total(head.chunks);
      ChainInPlace(key, log, rest, next, to);
      ChunksAppend(key, log, from, head.chunks, AllChunks(rest));
    }
  }

  lemma ChainParts(key: Keystream, log: Bytes, batches: seq<Batch>, from: nat, to: nat)
    requires Chain(batches, from, to) && InPlace(key, log, batches)
    ensures batches == [] ==> AllChunks(batches) == []
    ensures batches != [] ==>
      var head, rest := batches[0], batches[1..];
      && ChunksOk(key, log, from, head.chunks)
      && Chain(rest, from + Total(head.chunks), to) && InPlace(key, log, rest)
      && AllChunks(batches) == head.chunks + AllChunks(rest)
  {
    hide ChunksOk, Total;
  }

  lemma {:induction false} InPlaceAppend(key: Keystream, log: Bytes, a: seq<Batch>, b: seq<Batch>)
    ensures InPlace(key, log, a + b) <==> InPlace(key, log, a) && InPlace(key, log, b)
    decreases |a|
  {
    hide ChunksOk;
    if a == [] {
      assert a + b == b;
    } else {
      assert (a + b)[1..] == a[1..] + b;
      InPlaceAppend(key, log, a[1..], b);
    }
  }

  lemma {:induction false} ServedInPlace(key: Keystream, log: Bytes, served: seq<Served>, user: nat)
    requires ServedOk(key, log, served) && EndToEnd.NoneIsEmpty(served)
    ensures InPlace(key, log, BatchesOf(served, user))
    decreases |served|
  {
    hide ChunksOk;
    if served == [] {
    } else {
      ServedInPlace(key, log, served[1..], user);
      var head := if served[0].user == user then [served[0].batch] else [];
      assert InPlace(key, log, head);
      InPlaceAppend(key, log, head, BatchesOf(served[1..], user));
    }
  }

  /** The batches' chunks, decrypted one by one at running positions, are whole characters that spell
      the log from the first batch's label on. */
  ghost predicate SpellsLog(key: Keystream, log: Bytes, batches: seq<Batch>) {
    batches != [] ==>
      var from := batches[0].seqnum;
      var to := from + Total(AllChunks(batches));
      && Chain(batches, from, to)
      && to <= |log|
      && Flatten(DecryptChunks(key, from, AllChunks(batches))) == log[from..to]
      && forall p :: p in DecryptChunks(key, from, AllChunks(batches)) ==> WellFormed(p)
  }

  lemma ChainSpells(key: Keystream, log: Bytes, batches: seq<Batch>, from: nat, to: nat)
    requires WellFormed(log) && Chain(batches, from, to) && from <= |log|
    requires InPlace(key, log, batches)
    ensures SpellsLog(key, log, batches)
  {
    hide WellFormed, ChunksOk, DecryptChunks, Flatten, Chain, Total, AllChunks;
    ChainInPlace(key, log, batches, from, to);
    ChainLength(batches, from, to);
    EndToEnd.DecryptedPieces(key, log, from, AllChunks(batches));
    if batches != [] { ChainStart(batches, from, to); }
  }

  /** Over every run: between restarts of the server, what a subscriber is sent is what its
      subscription yields for the records it found. Those are windows on one growing chunk log, so
      the batches cover it byte after byte, from the first chunk wanted to the next one wanted,
      exactly when no pruned chunk was skipped; and then they decrypt to one stretch of the output. */
  lemma UndisturbedService(key: Keystream, before: seq<Replication.Action>, during: seq<Replication.Action>, user: nat)
    returns (all: seq<Bytes>)
    requires var sys := Run(key, INITIAL, before); sys.shell.Some? && user in sys.cursors
    requires Undisturbed(during, user)
    ensures var sys := Run(key, INITIAL, before);
            var sys', seen, c := Run(key, INITIAL, before + during), ReadsOf(key, sys, during, user), sys.cursors[user];
            var got := Yields(seen, c);
            && BatchesOf(sys'.served, user) == BatchesOf(sys.served, user) + got
            && AllObserve(seen, all)
            && (c <= |all| ==>
                  && EndCursor(seen, c) <= |all|
                  && (Chain(got, Total(all[..c]), Total(all[..EndCursor(seen, c)])) <==> Skipped(seen, c) == 0))
            && (Skipped(seen, c) == 0 ==> SpellsLog(key, sys'.log, got))
  {
    var sys := Run(key, INITIAL, before);
    RunAppend(key, INITIAL, before, during);
    assert Logged(INITIAL);
    RunLogged(key, INITIAL, before);
    EndToEnd.ReachableOk(key, before + during);
    hide Run;
    all := ServiceFrom(key, sys, during, user);
  }

  lemma ServiceFrom(key: Keystream, sys: System, during: seq<Replication.Action>, user: nat) returns (all: seq<Bytes>)
    requires Logged(sys) && sys.shell.Some? && user in sys.cursors && Undisturbed(during, user)
    requires SystemOk(key, Run(key, sys, during)) && EndToEnd.NoneIsEmpty(Run(key, sys, during).served)
    ensures var sys', seen, c := Run(key, sys, during), ReadsOf(key, sys, during, user), sys.cursors[user];
            var got := Yields(seen, c);
            && BatchesOf(sys'.served, user) == BatchesOf(sys.served, user) + got
            && AllObserve(seen, all)
            && (c <= |all| ==>
                  && EndCursor(seen, c) <= |all|
                  && (Chain(got, Total(all[..c]), Total(all[..EndCursor(seen, c)])) <==> Skipped(seen, c) == 0))
            && (Skipped(seen, c) == 0 ==> SpellsLog(key, sys'.log, got))
  {
    hide Run, ReadsOf, Undisturbed, BatchesOf, Yields, AllObserve, EndCursor, Skipped, SpellsLog, Chain, Refines, Total,
         LogAfter, ServedOk, WellFormed, SystemOk, EndToEnd.NoneIsEmpty;
    var all0 :| Refines(sys.shell.value, all0);
    ServedAreYields(key, sys, during, user);
    ReadsObserve(key, sys, during, user, all0);
    all := LogAfter(key, sys, during, all0);
    var sys', seen, c := Run(key, sys, during), ReadsOf(key, sys, during, user), sys.cursors[user];
    if c <= |all| { ChainIff(seen, c, all); }
    if Skipped(seen, c) == 0 { YieldsSpell(key, sys', seen, c, all, BatchesOf(sys.served, user), user); }
  }

  lemma EmptySpells(key: Keystream, log: Bytes)
    ensures SpellsLog(key, log, [])
  {
  }

  lemma ChainStart(batches: seq<Batch>, from: nat, to: nat)
    requires Chain(batches, from, to) && batches != []
    ensures batches[0].seqnum == from
  {
  }

  lemma YieldsSpell(
      key: Keystream, sys: System, seen: seq<Shell>, c: nat, all: seq<Bytes>, earlier: seq<Batch>, user: nat)
    requires SystemOk(key, sys) && EndToEnd.NoneIsEmpty(sys.served) && AllObserve(seen, all) && Skipped(seen, c) == 0
    requires BatchesOf(sys.served, user) == earlier + Yields(seen, c)
    ensures SpellsLog(key, sys.log, Yields(seen, c))
  {
    hide AllObserve, Skipped, EndCursor, Yields, SpellsLog, Chain, ChunksOk, BatchesOf, ServedOk, WellFormed;
    var got := Yields(seen, c);
    ServedInPlace(key, sys.log, sys.served, user);
    InPlaceAppend(key, sys.log, earlier, got);
    if c > |all| {
      NothingNew(seen, c, all);
      EmptySpells(key, sys.log);
    } else if got == [] {
      EmptySpells(key, sys.log);
    } else {
      NoSkipChains(seen, c, all);
      var from, to := Total(all[..c]), Total(all[..EndCursor(seen, c)]);
      ChainStart(got, from, to);
      EndToEnd.BatchStarts(key, sys.log, got[0]);
      ChainSpells(key, sys.log, got, from, to);
    }
  }
}

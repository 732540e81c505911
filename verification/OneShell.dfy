/** The shell that the replication model follows is any one shell of the session: every operation of the
    session does to that shell's record what the model's action does, and to no other. */
module OneShell {
  import opened ByteSeqs
  import opened KeyedLists
  import opened Keystreams
  import opened ShellStore
  import opened SessionModel
  import opened Subscription
  import Replication

  function Record(s: SessionState, id: Sid): Option<Shell> {
    if id in s.shells then Some(s.shells[id]) else None
  }

  /** The action of the model that an operation on the shell is; a data segment is the `i`th message. */
  function ActionOf(op: Op, i: nat): Option<Replication.Action> {
    match op
    case AddShell(_, _, _) => Some(Replication.Register)
    case CloseShell(_) => Some(Replication.Terminate)
    case MoveShell(_, _) => None
    case AddData(_, _, _) => Some(Replication.Deliver(i))
  }

  lemma OperationIsAction(
      key: Keystream, sys: Replication.System, s: SessionState, op: Op, id: Sid, i: nat)
    requires sys.shell == Record(s, id)
    requires op.AddData? ==> i < |sys.wire| && sys.wire[i] == TerminalData(op.seq0, op.data)
    ensures var a := ActionOf(op, i);
            Record(Apply(s, op).0, id)
            == if op.id == id && a.Some? then Replication.Act(key, sys, a.value).shell else sys.shell
  {
    hide ShellStore.AddData, Without, MoveWindow;
  }

  /** One entry of the position report is what the model reports: the length of the log behind the record. */
  lemma ReportIsEntry(key: Keystream, sys: Replication.System, s: SessionState, id: Sid)
    requires sys.shell == Record(s, id)
    ensures var entry := SequenceNumbers(s.shells);
            && Replication.Act(key, sys, Replication.Report).reports
               == sys.reports + (if id in entry then [entry[id]] else [])
            && (id in entry <==> Replication.IsOpen(sys.shell))
            && forall all :: id in entry && Refines(s.shells[id], all) ==> entry[id] == Total(all)
  {
    hide Total, NoneEmpty;
  }

  /** What a snapshot of the session holds of the shell is what the model saves. */
  lemma SnapshotIsEntry(key: Keystream, sys: Replication.System, s: SessionState, id: Sid)
    requires sys.shell == Record(s, id)
    ensures Replication.Act(key, sys, Replication.TakeSnapshot).snapshots
         == sys.snapshots + (if id in s.shells then [Serialize(s).shells[id].shell] else [])
  {
    hide Prune, SizeOf;
  }

  /** A session rebuilt from a message holds the shell as the model restarts it, and an unknown one not. */
  lemma RestoreIsRestart(
      key: Keystream, sys: Replication.System, m: SerializedSession, r: SessionState, id: Sid, i: nat)
    requires RestoredFrom(r, m)
    requires id in m.shells ==> i < |sys.snapshots| && sys.snapshots[i] == m.shells[id].shell
    ensures var a := if id in m.shells then Replication.RestartFrom(i) else Replication.LoseSession;
            Record(r, id) == Replication.Act(key, sys, a).shell
  {
    hide SizeOf, Ids, Distinct;
  }

  /** Reading the record of the session is the model's read: the batch that a subscription yields next, and
      its cursor. */
  lemma ReadIsYield(key: Keystream, sys: Replication.System, s: SessionState, id: Sid, user: nat)
    requires sys.shell == Record(s, id) && Replication.IsOpen(sys.shell) && user in sys.cursors
    ensures var sys' := Replication.Act(key, sys, Replication.Read(user));
            var batches := Yields([s.shells[id]], sys.cursors[user]);
            && sys'.cursors == sys.cursors[user := EndCursor([s.shells[id]], sys.cursors[user])]
            && |batches| <= 1
            && sys'.served == sys.served + (if batches == [] then [] else [Replication.Served(user, batches[0])])
  {
    hide ReadChunks, NextCursor;
    var shell, c := s.shells[id], sys.cursors[user];
    assert [shell][1..] == [];
    var batch := ReadChunks(c, shell);
    assert Yields([shell], c) == (if batch.chunks == [] then [] else [batch]) + Yields([], NextCursor(c, shell));
    assert Yields([], NextCursor(c, shell)) == [];
    assert EndCursor([shell], c) == EndCursor([], NextCursor(c, shell));
  }
}

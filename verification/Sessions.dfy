/** The server's session object. Every method does to its fields what the session model says. */
module Sessions {
  import opened ByteSeqs
  import opened KeyedLists
  import opened Numbers
  import opened ShellStore
  import opened SessionModel

  /** The pruning loop of `add_data`: drop chunks from the front while too many bytes are stored. */
  method PruneStored(shell: Shell) returns (r: Shell)
    requires Consistent(shell)
    ensures r == Prune(shell, SHELL_STORED_BYTES)
  {
    hide Total, Excess;
    PruneUnfolds(shell);
    r := shell;
    var storedBytes := shell.seqnum - shell.byteOffset;
    if storedBytes > SHELL_STORED_BYTES {
      var offset := 0;
      var chunkOffset, byteOffset := shell.chunkOffset, shell.byteOffset;
      while offset < |shell.data| && storedBytes > SHELL_STORED_BYTES
        invariant 0 <= offset <= |shell.data|
        invariant storedBytes == Total(shell.data[offset..])
        invariant chunkOffset == shell.chunkOffset + offset
        invariant byteOffset == shell.byteOffset + Total(shell.data[..offset])
        invariant offset + Excess(shell.data[offset..], SHELL_STORED_BYTES) == Excess(shell.data, SHELL_STORED_BYTES)
      {
        var bytes := |shell.data[offset]|;
        DropOne(shell.data, offset, SHELL_STORED_BYTES);
        storedBytes := storedBytes - bytes;
        chunkOffset := chunkOffset + 1;
        byteOffset := byteOffset + bytes;
        offset := offset + 1;
      }
      NoMoreExcess(shell.data, offset, SHELL_STORED_BYTES);
      r := shell.(data := shell.data[offset..], chunkOffset := chunkOffset, byteOffset := byteOffset);
    }
  }

  lemma PruneUnfolds(shell: Shell)
    requires Consistent(shell)
    ensures Total(shell.data) <= SHELL_STORED_BYTES ==> Prune(shell, SHELL_STORED_BYTES) == shell
    ensures shell.data[0..] == shell.data && Total(shell.data[..0]) == 0
  {
  }

  lemma SnapshotStarts(shell: Shell)
    requires Consistent(shell)
    ensures shell.data[0..] == shell.data && Total(shell.data[..0]) == 0
    ensures shell.seqnum - shell.byteOffset == Total(shell.data[0..])
  {
  }

  /** One more chunk is skipped. */
  lemma DropOne(data: seq<Bytes>, i: nat, limit: nat)
    requires i < |data|
    ensures Total(data[i..]) == |data[i]| + Total(data[i + 1..])
    ensures Total(data[..i + 1]) == Total(data[..i]) + |data[i]|
    ensures Excess(data[i..], limit) == if Total(data[i..]) <= limit then 0 else 1 + Excess(data[i + 1..], limit)
  {
    assert data[i..][1..] == data[i + 1..];
    TotalSnoc(data, i);
  }

  /** Where the loop ends, nothing more has to go. */
  lemma NoMoreExcess(data: seq<Bytes>, i: nat, limit: nat)
    requires i <= |data| && (i == |data| || Total(data[i..]) <= limit)
    ensures Excess(data[i..], limit) == 0
  {
  }

  /** The loop of `snapshot` over one shell: skip chunks until at most 32 KiB remain. */
  method SnapshotShell(shell: Shell, size: Winsize) returns (r: SerializedShell)
    requires Consistent(shell)
    ensures r == SerializeShell(shell, size)
  {
    hide Total, Excess;
    SnapshotStarts(shell);
    var prefix := 0;
    var chunkOffset, byteOffset := shell.chunkOffset, shell.byteOffset;
    var i := 0;
    while i < |shell.data| && shell.seqnum - byteOffset > SHELL_SNAPSHOT_BYTES
      invariant 0 <= i <= |shell.data| && prefix == i
      invariant chunkOffset == shell.chunkOffset + prefix
      invariant byteOffset == shell.byteOffset + Total(shell.data[..prefix])
      invariant shell.seqnum - byteOffset == Total(shell.data[prefix..])
      invariant prefix + Excess(shell.data[prefix..], SHELL_SNAPSHOT_BYTES) == Excess(shell.data, SHELL_SNAPSHOT_BYTES)
    {
      DropOne(shell.data, i, SHELL_SNAPSHOT_BYTES);
      prefix := prefix + 1;
      chunkOffset := chunkOffset + 1;
      byteOffset := byteOffset + |shell.data[i]|;
      i := i + 1;
    }
    NoMoreExcess(shell.data, prefix, SHELL_SNAPSHOT_BYTES);
    r := SerializedShell(Shell(shell.seqnum, shell.data[prefix..], chunkOffset, byteOffset, shell.closed),
                         size.x, size.y, size.rows, size.cols);
  }

  /** The middle of `add_data`: the part of the segment that is new is stored, and too much is pruned. */
  method StoreSegment(shell0: Shell, data: Bytes, seq0: nat) returns (shell: Shell)
    requires Consistent(shell0)
    ensures shell == ShellStore.AddData(shell0, data, seq0)
  {
    shell := shell0;
    if seq0 <= shell.seqnum && seq0 + |data| > shell.seqnum {
      var segment := data[shell.seqnum - seq0..];
      TotalAppend(shell.data, [segment]);
      shell := shell.(seqnum := shell.seqnum + |segment|, data := shell.data + [segment]);
      shell := PruneStored(shell);
    }
  }

  /** The unpruned log behind the record grows by the new part of the segment, or not at all. */
  lemma AddsToLog(s: Shell, all: seq<Bytes>, data: Bytes, seq0: nat)
    requires Refines(s, all)
    ensures Refines(ShellStore.AddData(s, data, seq0),
                    if seq0 <= Total(all) < seq0 + |data| then all + [data[Total(all) - seq0..]] else all)
  {
    hide Refines, ShellStore.AddData, Total, LogAdd, Excess;
    AddDataRefines(s, all, data, seq0);
    LogAddIs(all, data, seq0);
  }

  lemma LogAddIs(all: seq<Bytes>, data: Bytes, seq0: nat)
    ensures LogAdd(all, data, seq0)
         == if seq0 <= Total(all) < seq0 + |data| then all + [data[Total(all) - seq0..]] else all
  {
    hide Total;
  }

  class Session {
    const metadata: Metadata
    var shells: map<Sid, Shell>
    var source: seq<Window>
    var nextSid: u32
    var nextUid: u32

    function State(): SessionState
      reads this
    {
      SessionState(metadata, shells, source, nextSid, nextUid)
    }

    constructor (metadata: Metadata)
      ensures State() == SessionState(metadata, map[], [], 1, 1)
    {
      this.metadata := metadata;
      shells, source, nextSid, nextUid := map[], [], 1, 1;
    }

    method AddShell(id: Sid, x: int, y: int) returns (r: Outcome)
      modifies this
      ensures (State(), r) == Apply(old(State()), Op.AddShell(id, x, y))
      ensures nextSid == old(nextSid) && nextUid == old(nextUid)
      ensures id in old(shells) ==> r == AlreadyExists && shells == old(shells) && source == old(source)
      ensures id !in old(shells) ==>
        && r == Done && shells == old(shells)[id := Shell(0, [], 0, 0, false)]
        && source == old(source) + [Entry(id, Winsize(x, y, 24, 80))]
    {
      if id in shells {
        return AlreadyExists;
      }
      shells := shells[id := FRESH_SHELL];
      source := source + [Entry(id, DEFAULT_WINSIZE.(x := x, y := y))];
      r := Done;
    }

    method CloseShell(id: Sid) returns (r: Outcome)
      modifies this
      ensures (State(), r) == Apply(old(State()), Op.CloseShell(id))
      ensures nextSid == old(nextSid) && nextUid == old(nextUid)
      ensures id !in old(shells) ==> r == NotFound && shells == old(shells) && source == old(source)
      ensures id in old(shells) ==> r == Done && shells == old(shells)[id := old(shells)[id].(closed := true)]
      ensures id in old(shells) && old(shells)[id].closed ==> source == old(source)
      ensures id in old(shells) && !old(shells)[id].closed && Distinct(old(source)) ==>
                forall i :: 0 <= i < |old(source)| && old(source)[i].id == id ==>
                  source == old(source)[..i] + old(source)[i + 1..]
    {
      if id !in shells {
        return NotFound;
      }
      if shells[id].closed {
        return Done;
      }
      forall i | Distinct(source) && 0 <= i < |source| && source[i].id == id
        ensures Without(source, id) == source[..i] + source[i + 1..]
      {
        WithoutAt(source, i);
      }
      shells := shells[id := shells[id].(closed := true)];
      source := Without(source, id);
      r := Done;
    }

    method MoveShell(id: Sid, size: Option<Winsize>) returns (r: Outcome)
      modifies this
      ensures (State(), r) == Apply(old(State()), Op.MoveShell(id, size))
      ensures nextSid == old(nextSid) && nextUid == old(nextUid) && shells == old(shells)
      ensures r == if id !in shells then NotFound else if shells[id].closed then AlreadyClosed else Done
      ensures r != Done || id !in Ids(old(source)) ==> source == old(source)
      ensures r == Done && Distinct(old(source)) ==>
                forall i :: 0 <= i < |old(source)| && old(source)[i].id == id ==>
                  source == old(source)[..i] + old(source)[i + 1..]
                            + [Entry(id, if size.Some? then size.value else old(source)[i].value)]
    {
      if id !in Ids(source) { NotListed(source, id, size); }
      forall i | Distinct(source) && 0 <= i < |source| && source[i].id == id
        ensures MoveWindow(source, id, size)
             == source[..i] + source[i + 1..] + [Entry(id, if size.Some? then size.value else source[i].value)]
      {
        MoveWindowAt(source, i, size);
      }
      r := Refusal(State(), id);
      if r != Done {
        return;
      }
      var idx := Position(source, id);
      if idx < |source| {
        var oldSize := source[idx].value;
        source := source[..idx] + source[idx + 1..];
        source := source + [Entry(id, if size.Some? then size.value else oldSize)];
      }
    }

    method AddData(id: Sid, data: Bytes, seq0: nat) returns (r: Outcome)
      requires ShellsConsistent(shells)
      modifies this
      ensures (State(), r) == Apply(old(State()), Op.AddData(id, data, seq0))
      ensures nextSid == old(nextSid) && nextUid == old(nextUid) && source == old(source)
      ensures r == if id !in old(shells) then NotFound else if old(shells)[id].closed then AlreadyClosed else Done
      ensures r != Done ==> shells == old(shells)
      ensures r == Done ==> id in shells && shells == old(shells)[id := shells[id]] && !shells[id].closed
      ensures forall all :: r == Done && Refines(old(shells)[id], all) ==>
        Refines(shells[id],
                if seq0 <= Total(all) < seq0 + |data| then all + [data[Total(all) - seq0..]] else all)
    {
      hide Refines, Total, ShellStore.AddData, Consistent;
      r := Refusal(State(), id);
      if r != Done {
        return;
      }
      AddDataConsistent(shells[id], data, seq0);
      forall all | Refines(shells[id], all)
        ensures Refines(ShellStore.AddData(shells[id], data, seq0),
                        if seq0 <= Total(all) < seq0 + |data| then all + [data[Total(all) - seq0..]] else all)
      {
        AddsToLog(shells[id], all, data, seq0);
      }
      var shell := StoreSegment(shells[id], data, seq0);
      shells := shells[id := shell];
    }

    method SequenceNumbers() returns (seqnums: map<Sid, nat>)
      ensures seqnums == SessionModel.SequenceNumbers(shells)
      ensures forall id :: id in seqnums <==> id in shells && !shells[id].closed
      ensures forall id :: id in seqnums && Consistent(shells[id]) ==>
                seqnums[id] == shells[id].byteOffset + Total(shells[id].data)
      ensures forall id, all :: id in seqnums && Refines(shells[id], all) ==> seqnums[id] == Total(all)
    {
      seqnums := map[];
      var todo := shells.Keys;
      while todo != {}
        invariant todo <= shells.Keys
        invariant seqnums == map id | id in shells && id !in todo && !shells[id].closed :: shells[id].seqnum
        decreases |todo|
      {
        var id :| id in todo;
        todo := todo - {id};
        if !shells[id].closed {
          seqnums := seqnums[id := shells[id].seqnum];
        }
      }
    }

    /** Succeeds unless the encoded message reaches the size limit of one mebibyte. */
    method Snapshot(encodedLen: SerializedSession -> nat) returns (r: Option<SerializedSession>)
      requires ShellsConsistent(shells)
      ensures r == if encodedLen(Serialize(State())) < 0x10_0000 then Some(Serialize(State())) else None
    {
      var serialized: map<u32, SerializedShell> := map[];
      var todo := shells.Keys;
      while todo != {}
        invariant todo <= shells.Keys
        invariant serialized == map id | id in shells && id !in todo :: SerializeShell(shells[id], SizeOf(source, id))
        decreases |todo|
      {
        var id :| id in todo;
        var shell := SnapshotShell(shells[id], SizeOf(source, id));
        serialized := serialized[id := shell];
        todo := todo - {id};
      }
      var hash := if metadata.writePasswordHash.Some? then metadata.writePasswordHash.value else [];
      var message := SerializedSession(metadata.encryptedZeros, serialized, nextSid, nextUid, metadata.name, hash);
      assert message == Serialize(State());
      r := if encodedLen(message) < MAX_SNAPSHOT_SIZE then Some(message) else None;
    }
  }

  lemma {:induction false} SizesAfterAppend(source: seq<Window>, w: Window)
    requires w.id !in Ids(source)
    ensures forall id :: SizeOf(source + [w], id) == if id == w.id then w.value else SizeOf(source, id)
  {
    if source == [] {
      assert [] + [w] == [w];
    } else {
      assert (source + [w])[1..] == source[1..] + [w];
      AppendEntry(source[1..], w);
      SizesAfterAppend(source[1..], w);
    }
  }

  /** The shells and windows rebuilt so far are those of the ids in `done`. */
  ghost predicate Rebuilt(m: SerializedSession, done: set<u32>, shells: map<Sid, Shell>, windows: seq<Window>) {
    && done <= m.shells.Keys
    && shells == (map id | id in m.shells && id in done :: m.shells[id].shell)
    && Distinct(windows) && Ids(windows) == done
    && forall id :: id in done ==> SizeMatches(m.shells[id], SizeOf(windows, id))
  }

  lemma RebuildOne(m: SerializedSession, done: set<u32>, shells: map<Sid, Shell>, windows: seq<Window>, w: Window)
    requires Rebuilt(m, done, shells, windows)
    requires w.id in m.shells && w.id !in done && SizeMatches(m.shells[w.id], w.value)
    ensures Rebuilt(m, done + {w.id}, shells[w.id := m.shells[w.id].shell], windows + [w])
  {
    AppendEntry(windows, w);
    SizesAfterAppend(windows, w);
  }

  /** Rebuild a session; fails when the message is too large or a window size does not fit. */
  method RestoreSession(m: SerializedSession, encodedLen: SerializedSession -> nat) returns (r: Session?)
    ensures r != null <==> encodedLen(m) <= 0x10_0000 && SizesFit(m)
    ensures r != null ==> fresh(r) && RestoredFrom(r.State(), m)
  {
    if encodedLen(m) > MAX_SNAPSHOT_SIZE {
      return null;
    }
    var shells: map<Sid, Shell>, windows: seq<Window> := map[], [];
    var done: set<u32> := {};
    while m.shells.Keys - done != {}
      invariant Rebuilt(m, done, shells, windows)
      invariant forall id :: id in done ==> m.shells[id].rows < 0x1_0000 && m.shells[id].cols < 0x1_0000
      decreases m.shells.Keys - done
    {
      var sid :| sid in m.shells.Keys - done;
      var shell := m.shells[sid];
      if shell.rows >= 0x1_0000 || shell.cols >= 0x1_0000 {
        return null;
      }
      var w := Entry(sid, Winsize(shell.x, shell.y, shell.rows, shell.cols));
      RebuildOne(m, done, shells, windows, w);
      shells := shells[sid := shell.shell];
      windows := windows + [w];
      done := done + {sid};
    }
    assert done == m.shells.Keys;
    var session := new Session(MetadataOf(m));
    session.shells, session.source := shells, windows;
    session.nextSid, session.nextUid := m.nextSid, m.nextUid;
    r := session;
  }
}

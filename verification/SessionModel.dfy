/** A session as a value: its shells, the ordered window list, and the counters and metadata that a
    snapshot carries; the effect of every operation on it, and what a snapshot keeps. */
module SessionModel {
  import opened ByteSeqs
  import opened KeyedLists
  import opened Numbers
  import opened ShellStore

  type u16 = n: nat | n < 0x1_0000
  type Sid = u32

  datatype Winsize = Winsize(x: int, y: int, rows: u16, cols: u16)

  const DEFAULT_WINSIZE: Winsize := Winsize(0, 0, 24, 80)

  type Window = Entry<Sid, Winsize>

  /** What the client said of its machine when it opened the session; a snapshot does not carry it. */
  datatype Machine = Machine(
    encryptionKey: Option<string>, hostname: string, cpu: string, memoryMb: nat, osInfo: string)

  const UNKNOWN_MACHINE: Machine := Machine(None, "unknown", "Unknown", 0, "Unknown OS")

  datatype Metadata = Metadata(
    encryptedZeros: Bytes, name: string, writePasswordHash: Option<Bytes>, machine: Machine)

  datatype SessionState = SessionState(
    metadata: Metadata,
    shells: map<Sid, Shell>,
    source: seq<Window>,
    nextSid: u32,
    nextUid: u32)

  datatype Outcome = Done | AlreadyExists | AlreadyClosed | NotFound

  // ----- The window list -----

  /** The first position of `id`, or the length of the list. */
  function Position(source: seq<Window>, id: Sid): (i: nat)
    ensures i <= |source|
  {
    if source == [] then 0 else if source[0].id == id then 0 else 1 + Position(source[1..], id)
  }

  /** The size listed for `id`; if it is listed more than once, the last entry counts. */
  function SizeOf(source: seq<Window>, id: Sid): Winsize {
    if source == [] then DEFAULT_WINSIZE
    else if id in Ids(source[1..]) || source[0].id != id then SizeOf(source[1..], id)
    else source[0].value
  }

  /** Moving a listed window takes it out and puts it last. */
  function MoveWindow(source: seq<Window>, id: Sid, size: Option<Winsize>): seq<Window> {
    var i := Position(source, id);
    if i == |source| then source
    else source[..i] + source[i + 1..] + [Entry(id, if size.Some? then size.value else source[i].value)]
  }

  lemma {:induction false} TakenOut(source: seq<Window>, id: Sid)
    requires Distinct(source) && id in Ids(source)
    ensures var i := Position(source, id);
            && i < |source| && source[i].value == SizeOf(source, id)
            && source[..i] + source[i + 1..] == Without(source, id)
  {
    if source[0].id == id {
      WithoutId(source[1..], id);
    } else {
      TakenOut(source[1..], id);
      var i := Position(source[1..], id);
      assert source[..i + 1] == [source[0]] + source[1..][..i];
      assert source[i + 2..] == source[1..][i + 1..];
    }
  }

  lemma BackAgain(ids: set<Sid>, id: Sid)
    requires id in ids
    ensures ids - {id} + {id} == ids
  {
  }

  /** After a move the window is last, the others keep their order, and no window is lost. */
  lemma MoveWindowOrder(source: seq<Window>, id: Sid, size: Option<Winsize>)
    requires Distinct(source) && id in Ids(source)
    ensures MoveWindow(source, id, size)
         == Without(source, id) + [Entry(id, if size.Some? then size.value else SizeOf(source, id))]
    ensures Distinct(MoveWindow(source, id, size))
    ensures Ids(MoveWindow(source, id, size)) == Ids(source)
  {
    TakenOut(source, id);
    WithoutId(source, id);
    BackAgain(Ids(source), id);
    hide Position, Without, Ids, Distinct, SizeOf;
    AppendEntry(Without(source, id), Entry(id, if size.Some? then size.value else SizeOf(source, id)));
  }

  lemma {:induction false} SizeAt(source: seq<Window>, i: nat)
    requires i < |source| && Distinct(source)
    ensures source[i].id in Ids(source) && SizeOf(source, source[i].id) == source[i].value
    decreases i
  {
    OthersDiffer(source, i);
    IdsAre(source, source[i].id);
    if i > 0 { SizeAt(source[1..], i - 1); }
  }

  /** The same by positions: the window moves from wherever it is to the end. */
  lemma MoveWindowAt(source: seq<Window>, i: nat, size: Option<Winsize>)
    requires i < |source| && Distinct(source)
    ensures MoveWindow(source, source[i].id, size)
         == source[..i] + source[i + 1..]
            + [Entry(source[i].id, if size.Some? then size.value else source[i].value)]
  {
    hide MoveWindow, SizeOf, Ids, Distinct, Without;
    SizeAt(source, i);
    MoveWindowOrder(source, source[i].id, size);
    WithoutAt(source, i);
  }

  lemma {:induction false} NotListed(source: seq<Window>, id: Sid, size: Option<Winsize>)
    requires id !in Ids(source)
    ensures Position(source, id) == |source| && MoveWindow(source, id, size) == source
  {
    if source != [] { NotListed(source[1..], id, size); }
  }

  // ----- The operations -----

  function OpenIds(shells: map<Sid, Shell>): set<Sid> {
    set id | id in shells && !shells[id].closed
  }

  function ClosedIds(shells: map<Sid, Shell>): set<Sid> {
    set id | id in shells && shells[id].closed
  }

  /** Why an operation on an open shell cannot go ahead, if it cannot. */
  function Refusal(s: SessionState, id: Sid): Outcome {
    if id !in s.shells then NotFound else if s.shells[id].closed then AlreadyClosed else Done
  }

  datatype Op =
    | AddShell(id: Sid, x: int, y: int)
    | CloseShell(id: Sid)
    | MoveShell(id: Sid, size: Option<Winsize>)
    | AddData(id: Sid, data: Bytes, seq0: nat)

  function Apply(s: SessionState, op: Op): (SessionState, Outcome) {
    match op
    case AddShell(id, x, y) =>
      if id in s.shells then (s, AlreadyExists)
      else
        var w := Entry(id, DEFAULT_WINSIZE.(x := x, y := y));
        (s.(shells := s.shells[id := FRESH_SHELL], source := s.source + [w]), Done)
    case CloseShell(id) =>
      if id !in s.shells then (s, NotFound)
      else if s.shells[id].closed then (s, Done)
      else (s.(shells := s.shells[id := s.shells[id].(closed := true)], source := Without(s.source, id)), Done)
    case MoveShell(id, size) =>
      if Refusal(s, id) != Done then (s, Refusal(s, id))
      else (s.(source := MoveWindow(s.source, id, size)), Done)
    case AddData(id, data, seq0) =>
      if Refusal(s, id) != Done then (s, Refusal(s, id))
      else (s.(shells := s.shells[id := ShellStore.AddData(s.shells[id], data, seq0)]), Done)
  }

  /** The sequence numbers reported to the client: those of the open shells. */
  function SequenceNumbers(shells: map<Sid, Shell>): map<Sid, nat> {
    map id | id in shells && !shells[id].closed :: shells[id].seqnum
  }

  // ----- The invariant -----

  predicate ShellsConsistent(shells: map<Sid, Shell>) {
    forall id :: id in shells ==> Consistent(shells[id])
  }

  /** Every open shell is listed once, and nothing is listed that is no shell. */
  predicate SessionOk(s: SessionState) {
    && ShellsConsistent(s.shells)
    && Distinct(s.source)
    && OpenIds(s.shells) <= Ids(s.source) <= s.shells.Keys
  }

  /** A session that was never restored lists exactly its open shells. */
  predicate ListsOpenOnly(s: SessionState) {
    Ids(s.source) == OpenIds(s.shells)
  }

  lemma AddDataConsistent(s: Shell, data: Bytes, seq0: nat)
    requires Consistent(s)
    ensures Consistent(ShellStore.AddData(s, data, seq0)) && ShellStore.AddData(s, data, seq0).closed == s.closed
  {
    if Accepts(s.seqnum, data, seq0) {
      var segment := data[s.seqnum - seq0..];
      assert Total([segment]) == |segment|;
      hide Total, Excess;
      var all := s.data + [segment];
      TotalAppend(s.data, [segment]);
      TotalSplit(all, Excess(all, SHELL_STORED_BYTES));
    }
  }

  /** The sets of ids after one shell was replaced or added. */
  lemma OpenIdsUpdate(shells: map<Sid, Shell>, id: Sid, shell: Shell)
    ensures OpenIds(shells[id := shell]) == if shell.closed then OpenIds(shells) - {id} else OpenIds(shells) + {id}
    ensures shells[id := shell].Keys == shells.Keys + {id}
  {
  }

  lemma ConsistentUpdate(shells: map<Sid, Shell>, id: Sid, shell: Shell)
    requires ShellsConsistent(shells) && Consistent(shell)
    ensures ShellsConsistent(shells[id := shell])
  {
    hide Consistent;
  }

  lemma AddShellKeeps(s: SessionState, id: Sid, x: int, y: int)
    requires SessionOk(s)
    ensures SessionOk(Apply(s, AddShell(id, x, y)).0)
    ensures ListsOpenOnly(s) ==> ListsOpenOnly(Apply(s, AddShell(id, x, y)).0)
  {
    if id !in s.shells {
      hide SessionOk, ListsOpenOnly;
      WindowAdded(s, Apply(s, AddShell(id, x, y)).0, Entry(id, DEFAULT_WINSIZE.(x := x, y := y)));
    }
  }

  lemma WindowAdded(s: SessionState, s': SessionState, w: Window)
    requires SessionOk(s) && w.id !in s.shells
    requires s'.shells == s.shells[w.id := FRESH_SHELL] && s'.source == s.source + [w]
    ensures SessionOk(s') && (ListsOpenOnly(s) ==> ListsOpenOnly(s'))
  {
    FreshConsistent();
    hide Ids, Distinct, OpenIds, ShellsConsistent, Consistent;
    AppendEntry(s.source, w);
    OpenIdsUpdate(s.shells, w.id, FRESH_SHELL);
    ConsistentUpdate(s.shells, w.id, FRESH_SHELL);
    OneMore(OpenIds(s.shells), Ids(s.source), s.shells.Keys, w.id, OpenIds(s'.shells), Ids(s'.source), s'.shells.Keys);
  }

  lemma OneMore(open: set<Sid>, listed: set<Sid>, known: set<Sid>, id: Sid,
                open': set<Sid>, listed': set<Sid>, known': set<Sid>)
    requires open <= listed <= known && id !in known
    requires open' == open + {id} && listed' == listed + {id} && known' == known + {id}
    ensures id !in listed && open' <= listed' <= known'
  {
  }

  lemma FreshConsistent()
    ensures Consistent(FRESH_SHELL)
  {
  }

  lemma CloseShellKeeps(s: SessionState, id: Sid)
    requires SessionOk(s)
    ensures SessionOk(Apply(s, CloseShell(id)).0)
    ensures ListsOpenOnly(s) ==> ListsOpenOnly(Apply(s, CloseShell(id)).0)
  {
    if Refusal(s, id) == Done {
      var closed := s.shells[id].(closed := true);
      assert Consistent(closed);
      hide Ids, Distinct, OpenIds, ShellsConsistent, Consistent, Without;
      WithoutId(s.source, id);
      OpenIdsUpdate(s.shells, id, closed);
      ConsistentUpdate(s.shells, id, closed);
    }
  }

  lemma MoveShellKeeps(s: SessionState, id: Sid, size: Option<Winsize>)
    requires SessionOk(s)
    ensures SessionOk(Apply(s, MoveShell(id, size)).0)
    ensures ListsOpenOnly(s) ==> ListsOpenOnly(Apply(s, MoveShell(id, size)).0)
  {
    if Refusal(s, id) == Done {
      assert id in OpenIds(s.shells);
      hide Ids, Distinct, OpenIds, ShellsConsistent, MoveWindow, Without, SizeOf;
      MoveWindowOrder(s.source, id, size);
    }
  }

  lemma AddDataKeeps(s: SessionState, id: Sid, data: Bytes, seq0: nat)
    requires SessionOk(s)
    ensures SessionOk(Apply(s, AddData(id, data, seq0)).0)
    ensures ListsOpenOnly(s) ==> ListsOpenOnly(Apply(s, AddData(id, data, seq0)).0)
  {
    if Refusal(s, id) == Done {
      assert Consistent(s.shells[id]) && id in OpenIds(s.shells);
      hide Ids, Distinct, OpenIds, ShellsConsistent, Consistent, ShellStore.AddData;
      AddDataConsistent(s.shells[id], data, seq0);
      var shell := ShellStore.AddData(s.shells[id], data, seq0);
      OpenIdsUpdate(s.shells, id, shell);
      ConsistentUpdate(s.shells, id, shell);
      assert s.shells.Keys + {id} == s.shells.Keys;
    }
  }

  /** Every operation keeps the invariant, and keeps the list exact where it was exact. */
  lemma ApplyKeeps(s: SessionState, op: Op)
    requires SessionOk(s)
    ensures SessionOk(Apply(s, op).0)
    ensures ListsOpenOnly(s) ==> ListsOpenOnly(Apply(s, op).0)
  {
    hide SessionOk, ListsOpenOnly, Apply;
    match op
    case AddShell(id, x, y) => AddShellKeeps(s, id, x, y);
    case CloseShell(id) => CloseShellKeeps(s, id);
    case MoveShell(id, size) => MoveShellKeeps(s, id, size);
    case AddData(id, data, seq0) => AddDataKeeps(s, id, data, seq0);
  }

  // ----- Snapshot and restore -----

  const SHELL_SNAPSHOT_BYTES: nat := 0x8000
  const MAX_SNAPSHOT_SIZE: nat := 0x10_0000

  datatype SerializedShell = SerializedShell(shell: Shell, x: int, y: int, rows: u32, cols: u32)

  datatype SerializedSession = SerializedSession(
    encryptedZeros: Bytes,
    shells: map<u32, SerializedShell>,
    nextSid: u32,
    nextUid: u32,
    name: string,
    writePasswordHash: Bytes)

  function SerializeShell(shell: Shell, size: Winsize): SerializedShell {
    SerializedShell(Prune(shell, SHELL_SNAPSHOT_BYTES), size.x, size.y, size.rows, size.cols)
  }

  /** The message a snapshot of the session consists of. */
  function Serialize(s: SessionState): SerializedSession {
    SerializedSession(
      s.metadata.encryptedZeros,
      map id | id in s.shells :: SerializeShell(s.shells[id], SizeOf(s.source, id)),
      s.nextSid, s.nextUid,
      s.metadata.name,
      if s.metadata.writePasswordHash.Some? then s.metadata.writePasswordHash.value else [])
  }

  predicate SizesFit(m: SerializedSession) {
    forall id :: id in m.shells ==> m.shells[id].rows < 0x1_0000 && m.shells[id].cols < 0x1_0000
  }

  predicate SizeMatches(x: SerializedShell, size: Winsize) {
    size.x == x.x && size.y == x.y && size.rows == x.rows && size.cols == x.cols
  }

  function MetadataOf(m: SerializedSession): Metadata {
    Metadata(m.encryptedZeros, m.name, if m.writePasswordHash == [] then None else Some(m.writePasswordHash),
             UNKNOWN_MACHINE)
  }

  /** `s` is a session rebuilt from the message `m`; the windows come in any order. */
  ghost predicate RestoredFrom(s: SessionState, m: SerializedSession) {
    && s.metadata == MetadataOf(m)
    && s.nextSid == m.nextSid && s.nextUid == m.nextUid
    && s.shells.Keys == m.shells.Keys
    && (forall id :: id in m.shells ==> s.shells[id] == m.shells[id].shell)
    && Distinct(s.source)
    && Ids(s.source) == m.shells.Keys
    && (forall id :: id in m.shells ==>
          SizeMatches(m.shells[id], SizeOf(s.source, id)))
  }

  /** What pruning for a snapshot keeps of one shell. */
  lemma PrunedShell(s: Shell, limit: nat)
    requires Consistent(s)
    ensures var p := Prune(s, limit);
            && Consistent(p) && p.seqnum == s.seqnum && p.closed == s.closed
            && p.chunkOffset + |p.data| == s.chunkOffset + |s.data|
            && p.data == s.data[|s.data| - |p.data|..]
            && Total(p.data) <= limit
            && Prune(p, limit) == p
  {
    var e := Excess(s.data, limit);
    ExcessIff(s.data, limit, e);
    TotalSplit(s.data, e);
    var p := Prune(s, limit);
    assert p.data[0..] == p.data;
  }

  lemma SerializedTwice(shell: Shell, size: Winsize, size': Winsize)
    requires Consistent(shell)
    requires SizeMatches(SerializeShell(shell, size), size')
    ensures SerializeShell(SerializeShell(shell, size).shell, size') == SerializeShell(shell, size)
  {
    PrunedShell(shell, SHELL_SNAPSHOT_BYTES);
  }

  /** Rebuilding a session from its snapshot and taking a snapshot again gives the same message,
      whatever order the windows were rebuilt in; and sizes always fit, so rebuilding succeeds. */
  lemma SnapshotFixpoint(s: SessionState, r: SessionState)
    requires SessionOk(s) && RestoredFrom(r, Serialize(s))
    ensures SizesFit(Serialize(s))
    ensures Serialize(r) == Serialize(s)
  {
    hide Prune, SizeOf, Ids, Distinct, Consistent;
    var m, m' := Serialize(s), Serialize(r);
    assert m'.shells.Keys == m.shells.Keys;
    forall id | id in m.shells ensures m'.shells[id] == m.shells[id] {
      assert m.shells[id] == SerializeShell(s.shells[id], SizeOf(s.source, id));
      assert m'.shells[id] == SerializeShell(m.shells[id].shell, SizeOf(r.source, id));
      SerializedTwice(s.shells[id], SizeOf(s.source, id), SizeOf(r.source, id));
    }
    assert m'.shells == m.shells;
  }

  /** A restored session satisfies the invariant; it may list closed shells as well. */
  lemma RestoredOk(s: SessionState, r: SessionState)
    requires SessionOk(s) && RestoredFrom(r, Serialize(s))
    ensures SessionOk(r)
    ensures OpenIds(r.shells) == OpenIds(s.shells)
    ensures ListsOpenOnly(r) <==> ClosedIds(s.shells) == {}
  {
    hide Prune, SizeOf, Ids, Distinct, Consistent;
    forall id | id in s.shells ensures Consistent(r.shells[id]) && r.shells[id].closed == s.shells[id].closed {
      PrunedShell(s.shells[id], SHELL_SNAPSHOT_BYTES);
    }
    assert OpenIds(r.shells) == OpenIds(s.shells);
    assert s.shells.Keys == OpenIds(s.shells) + ClosedIds(s.shells);
    assert OpenIds(s.shells) !! ClosedIds(s.shells);
  }

  /** The session comes back as it was: counters, name, key check and window of every shell; the write
      password too, unless it was an empty one, which comes back as none. Of a shell's record only the
      oldest chunks may be missing. What was known of the client's machine is lost. */
  lemma RestoredIsOriginal(s: SessionState, r: SessionState)
    requires SessionOk(s) && RestoredFrom(r, Serialize(s))
    ensures r.nextSid == s.nextSid && r.nextUid == s.nextUid
    ensures r.metadata.encryptedZeros == s.metadata.encryptedZeros && r.metadata.name == s.metadata.name
    ensures var hash := s.metadata.writePasswordHash;
            r.metadata.writePasswordHash == if hash == Some([]) then None else hash
    ensures r.metadata.machine == Machine(None, "unknown", "Unknown", 0, "Unknown OS")
    ensures r.shells.Keys == s.shells.Keys
    ensures forall id :: id in s.shells ==> SizeOf(r.source, id) == SizeOf(s.source, id)
    ensures forall id :: id in s.shells ==> KeptOf(s.shells[id], r.shells[id])
  {
    hide Prune, SizeOf, Ids, Distinct, Consistent, KeptOf;
    forall id | id in s.shells
      ensures SizeOf(r.source, id) == SizeOf(s.source, id) && KeptOf(s.shells[id], r.shells[id])
    {
      PrunedKeeps(s.shells[id]);
      assert SizeMatches(Serialize(s).shells[id], SizeOf(r.source, id));
    }
  }

  lemma PrunedKeeps(s: Shell)
    requires Consistent(s)
    ensures KeptOf(s, Prune(s, SHELL_SNAPSHOT_BYTES))
  {
    PrunedShell(s, SHELL_SNAPSHOT_BYTES);
    PrunedMost(s, SHELL_SNAPSHOT_BYTES);
    hide Prune, Total;
  }

  /** No chunk is dropped that would have fitted. */
  lemma PrunedMost(s: Shell, limit: nat)
    ensures var kept := |Prune(s, limit).data|;
            kept <= |s.data| && (kept < |s.data| ==> Total(s.data[|s.data| - kept - 1..]) > limit)
  {
    var e := Excess(s.data, limit);
    hide Total, Excess;
    if e > 0 { ExcessIff(s.data, limit, e - 1); }
  }

  /** The newest chunks, under their old numbers and at their old positions, at most 32 KiB, and as many
      as fit. */
  predicate KeptOf(s: Shell, r: Shell) {
    && r.seqnum == s.seqnum && r.closed == s.closed
    && |r.data| <= |s.data|
    && r.data == s.data[|s.data| - |r.data|..]
    && r.chunkOffset + |r.data| == s.chunkOffset + |s.data|
    && r.byteOffset + Total(r.data) == s.byteOffset + Total(s.data)
    && Total(r.data) <= 32768
    && (|r.data| < |s.data| ==> Total(s.data[|s.data| - |r.data| - 1..]) > 32768)
  }

  /** Each restored shell starts out in simulation with the original on the original's log. */
  lemma RestoredSimulates(s: SessionState, r: SessionState, id: Sid, all: seq<Bytes>)
    requires RestoredFrom(r, Serialize(s)) && id in s.shells && Refines(s.shells[id], all)
    ensures id in r.shells && Simulates(s.shells[id], r.shells[id], all)
  {
    PruneRefines(s.shells[id], all, SHELL_SNAPSHOT_BYTES);
  }

  // ----- Whole histories -----

  datatype Step = Do(op: Op) | Restore(from: nat)

  /** A state follows from the one before by an operation, or is rebuilt from a snapshot of that or
      any earlier state. */
  ghost predicate Follows(states: seq<SessionState>, i: nat, step: Step)
    requires i + 1 < |states|
  {
    match step
    case Do(op) => states[i + 1] == Apply(states[i], op).0
    case Restore(j) => j <= i && RestoredFrom(states[i + 1], Serialize(states[j]))
  }

  ghost predicate History(states: seq<SessionState>, steps: seq<Step>) {
    && |states| == |steps| + 1
    && states[0].shells == map[] && states[0].source == []
    && forall i :: 0 <= i < |steps| ==> Follows(states, i, steps[i])
  }

  /** Over every history: no window is listed twice, every open shell is listed, everything listed
      is a shell, and until the first restore the list is exactly the open shells. */
  lemma {:induction false} HistoryOk(states: seq<SessionState>, steps: seq<Step>, i: nat)
    requires History(states, steps) && i <= |steps|
    ensures SessionOk(states[i])
    ensures (forall j :: 0 <= j < i ==> steps[j].Do?) ==> ListsOpenOnly(states[i])
    decreases i
  {
    hide SessionOk, ListsOpenOnly, Apply, RestoredFrom, Serialize;
    if i == 0 {
      StartsOk(states[0]);
    } else {
      var step := steps[i - 1];
      assert Follows(states, i - 1, step);
      HistoryOk(states, steps, if step.Do? then i - 1 else step.from);
      StepKeeps(states, i - 1, step);
    }
  }

  lemma StartsOk(s: SessionState)
    requires s.shells == map[] && s.source == []
    ensures SessionOk(s) && ListsOpenOnly(s)
  {
  }

  lemma StepKeeps(states: seq<SessionState>, i: nat, step: Step)
    requires i + 1 < |states| && Follows(states, i, step)
    requires step.Do? ==> SessionOk(states[i])
    requires step.Restore? ==> SessionOk(states[step.from])
    ensures SessionOk(states[i + 1])
    ensures step.Do? && ListsOpenOnly(states[i]) ==> ListsOpenOnly(states[i + 1])
  {
    hide SessionOk, ListsOpenOnly, Apply, RestoredFrom, Serialize;
    match step
    case Do(op) => ApplyKeeps(states[i], op);
    case Restore(j) => RestoredOk(states[j], states[i + 1]);
  }
}

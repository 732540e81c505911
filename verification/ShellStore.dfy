/** The server's record of one shell: a sequence number, the stored chunks, and how many chunks and
    bytes were pruned in front of them. The reference it is measured against is the log of all
    chunks ever accepted, which is never pruned. */
module ShellStore {
  import opened ByteSeqs

  const SHELL_STORED_BYTES: nat := 0x8_0000

  datatype Shell = Shell(seqnum: nat, data: seq<Bytes>, chunkOffset: nat, byteOffset: nat, closed: bool)

  const FRESH_SHELL: Shell := Shell(0, [], 0, 0, false)

  /** The stored bytes are exactly those between `byteOffset` and `seqnum`. */
  predicate Consistent(s: Shell) {
    s.byteOffset + Total(s.data) == s.seqnum
  }

  /** How many chunks must go from the front to leave at most `limit` bytes. */
  function Excess(data: seq<Bytes>, limit: nat): (p: nat)
    ensures p <= |data|
  {
    if Total(data) <= limit then 0 else 1 + Excess(data[1..], limit)
  }

  function DropChunks(s: Shell, p: nat): Shell
    requires p <= |s.data|
  {
    s.(data := s.data[p..], chunkOffset := s.chunkOffset + p, byteOffset := s.byteOffset + Total(s.data[..p]))
  }

  function Prune(s: Shell, limit: nat): Shell {
    DropChunks(s, Excess(s.data, limit))
  }

  /** A segment is accepted when it starts at or before the sequence number and ends after it. */
  predicate Accepts(seqnum: nat, data: Bytes, seq0: nat) {
    seq0 <= seqnum < seq0 + |data|
  }

  function AddData(s: Shell, data: Bytes, seq0: nat): Shell {
    if Accepts(s.seqnum, data, seq0) then
      Prune(s.(seqnum := seq0 + |data|, data := s.data + [data[s.seqnum - seq0..]]), SHELL_STORED_BYTES)
    else s
  }

  /** The threshold meaning of `Excess`: dropping `q` chunks suffices exactly from there on. */
  lemma {:induction false} ExcessIff(data: seq<Bytes>, limit: nat, q: nat)
    requires q <= |data|
    ensures Total(data[q..]) <= limit <==> Excess(data, limit) <= q
  {
    TotalSplit(data, q);
    if Total(data) > limit {
      if q == 0 {
        assert data[0..] == data;
      } else {
        ExcessIff(data[1..], limit, q - 1);
        assert data[1..][q - 1..] == data[q..];
      }
    }
  }

  // ----- The unpruned log -----

  /** `s` is the log `all` seen through a window that starts at chunk `s.chunkOffset`. */
  ghost predicate Refines(s: Shell, all: seq<Bytes>) {
    && s.seqnum == Total(all)
    && s.chunkOffset <= |all|
    && s.data == all[s.chunkOffset..]
    && s.byteOffset == Total(all[..s.chunkOffset])
    && NoneEmpty(all)
  }

  /** What one segment adds to the log. */
  function LogAdd(all: seq<Bytes>, data: Bytes, seq0: nat): seq<Bytes> {
    if Accepts(Total(all), data, seq0) then all + [data[Total(all) - seq0..]] else all
  }

  function RunShell(s: Shell, segments: seq<TerminalData>): Shell
    decreases |segments|
  {
    if segments == [] then s else RunShell(AddData(s, segments[0].data, segments[0].seq0), segments[1..])
  }

  function RunLog(all: seq<Bytes>, segments: seq<TerminalData>): seq<Bytes>
    decreases |segments|
  {
    if segments == [] then all else RunLog(LogAdd(all, segments[0].data, segments[0].seq0), segments[1..])
  }

  lemma DropRefines(s: Shell, all: seq<Bytes>, p: nat)
    requires Refines(s, all) && p <= |s.data|
    ensures Refines(DropChunks(s, p), all)
    ensures s.data[p..] == all[s.chunkOffset + p..]
  {
    var c := s.chunkOffset;
    assert all[..c + p] == all[..c] + s.data[..p];
    TotalAppend(all[..c], s.data[..p]);
  }

  /** The cut of a suffix is the cut of the whole, or the suffix's own start if that comes later. */
  lemma {:induction false} ExcessSuffix(all: seq<Bytes>, c: nat, limit: nat)
    requires c <= |all|
    ensures c + Excess(all[c..], limit) == Max(c, Excess(all, limit))
  {
    if c == 0 {
      assert all[0..] == all;
    } else {
      assert all[1..][c - 1..] == all[c..];
      if Total(all) > limit {
        ExcessSuffix(all[1..], c - 1, limit);
      } else {
        TotalSplit(all, c);
      }
    }
  }

  /** Pruning a window moves its start to the cut of the whole log, never back. */
  lemma PruneRefines(s: Shell, all: seq<Bytes>, limit: nat)
    requires Refines(s, all)
    ensures Refines(Prune(s, limit), all)
    ensures Prune(s, limit).chunkOffset == Max(s.chunkOffset, Excess(all, limit))
    ensures Total(Prune(s, limit).data) <= limit && Prune(s, limit).closed == s.closed
  {
    var p := Excess(s.data, limit);
    DropRefines(s, all, p);
    ExcessSuffix(all, s.chunkOffset, limit);
    ExcessIff(s.data, limit, p);
  }

  /** One call of `add_data`: the log grows by the new part of the segment, and the window keeps the
      part of its old contents and the new chunk that still fits. */
  lemma AddDataRefines(s: Shell, all: seq<Bytes>, data: Bytes, seq0: nat)
    requires Refines(s, all)
    ensures var all', s' := LogAdd(all, data, seq0), AddData(s, data, seq0);
            && Refines(s', all') && s'.closed == s.closed
            && (all' == all || s'.chunkOffset == Max(s.chunkOffset, Excess(all', SHELL_STORED_BYTES)))
            && all <= all'
  {
    if Accepts(s.seqnum, data, seq0) {
      AcceptedUnfolds(s, all, data, seq0);
      var segment := data[s.seqnum - seq0..];
      hide AddData, LogAdd, Refines, Prune, Excess, Total;
      PushRefines(s, all, segment);
      PruneRefines(s.(seqnum := s.seqnum + |segment|, data := s.data + [segment]), all + [segment], SHELL_STORED_BYTES);
    } else {
      RefusedUnfolds(s, all, data, seq0);
      hide AddData, LogAdd, Refines;
    }
  }

  lemma AcceptedUnfolds(s: Shell, all: seq<Bytes>, data: Bytes, seq0: nat)
    requires Refines(s, all) && Accepts(s.seqnum, data, seq0)
    ensures var segment := data[s.seqnum - seq0..];
            && segment != []
            && LogAdd(all, data, seq0) == all + [segment]
            && AddData(s, data, seq0)
               == Prune(s.(seqnum := s.seqnum + |segment|, data := s.data + [segment]), SHELL_STORED_BYTES)
  {
    hide Total, Prune, NoneEmpty;
  }

  lemma RefusedUnfolds(s: Shell, all: seq<Bytes>, data: Bytes, seq0: nat)
    requires Refines(s, all) && !Accepts(s.seqnum, data, seq0)
    ensures LogAdd(all, data, seq0) == all && AddData(s, data, seq0) == s
  {
    hide Total, NoneEmpty;
  }

  lemma AllSum(s: Shell, all: seq<Bytes>)
    requires Refines(s, all)
    ensures Total(all) == s.seqnum
  {
  }

  lemma PushRefines(s: Shell, all: seq<Bytes>, segment: Bytes)
    requires Refines(s, all) && segment != []
    ensures Refines(s.(seqnum := s.seqnum + |segment|, data := s.data + [segment]), all + [segment])
  {
    assert Total([segment]) == |segment|;
    hide Total;
    TotalAppend(all, [segment]);
    assert (all + [segment])[s.chunkOffset..] == s.data + [segment];
    assert (all + [segment])[..s.chunkOffset] == all[..s.chunkOffset];
  }

  /** A window on a log stays one under any run. */
  lemma {:induction false} RunKeepsWindow(s: Shell, all: seq<Bytes>, segments: seq<TerminalData>)
    requires Refines(s, all)
    ensures Refines(RunShell(s, segments), RunLog(all, segments)) && all <= RunLog(all, segments)
    decreases |segments|
  {
    if segments == [] {
    } else {
      var x := segments[0];
      AddDataRefines(s, all, x.data, x.seq0);
      hide Refines, AddData, LogAdd;
      RunKeepsWindow(AddData(s, x.data, x.seq0), LogAdd(all, x.data, x.seq0), segments[1..]);
    }
  }

  lemma ExcessMonotone(all: seq<Bytes>, chunk: Bytes, limit: nat)
    ensures Excess(all, limit) <= Excess(all + [chunk], limit)
  {
    var p := Excess(all + [chunk], limit);
    if p <= |all| {
      ExcessIff(all + [chunk], limit, p);
      assert (all + [chunk])[p..] == all[p..] + [chunk];
      TotalAppend(all[p..], [chunk]);
      ExcessIff(all, limit, p);
    }
  }

  /** The store after any run, from a window that already starts at the cut of its log: it is the
      log's longest suffix within the limit. */
  lemma {:induction false} RunRefines(s: Shell, all: seq<Bytes>, segments: seq<TerminalData>)
    requires Refines(s, all) && s.chunkOffset == Excess(all, SHELL_STORED_BYTES)
    ensures var s', all' := RunShell(s, segments), RunLog(all, segments);
            Refines(s', all') && s'.chunkOffset == Excess(all', SHELL_STORED_BYTES) && all <= all'
    decreases |segments|
  {
    if segments != [] {
      var x := segments[0];
      AddDataRefines(s, all, x.data, x.seq0);
      if Accepts(Total(all), x.data, x.seq0) {
        ExcessMonotone(all, x.data[Total(all) - x.seq0..], SHELL_STORED_BYTES);
      }
      RunRefines(AddData(s, x.data, x.seq0), LogAdd(all, x.data, x.seq0), segments[1..]);
    }
  }

  /** Any run from a fresh shell: all the counters agree with the unpruned log, no chunk is empty,
      and what is stored is the longest run of newest chunks that fits in 512 KiB. */
  lemma FreshShellRun(segments: seq<TerminalData>)
    ensures var s, all := RunShell(FRESH_SHELL, segments), RunLog([], segments);
            && s.seqnum == Total(all)
            && s.chunkOffset + |s.data| == |all|
            && s.byteOffset == Total(all[..s.chunkOffset])
            && s.data == all[s.chunkOffset..]
            && NoneEmpty(all)
            && (forall q :: 0 <= q <= |all| ==> (Total(all[q..]) <= SHELL_STORED_BYTES <==> s.chunkOffset <= q))
  {
    RunRefines(FRESH_SHELL, [], segments);
    var all := RunLog([], segments);
    forall q | 0 <= q <= |all|
      ensures Total(all[q..]) <= SHELL_STORED_BYTES <==> Excess(all, SHELL_STORED_BYTES) <= q
    {
      ExcessIff(all, SHELL_STORED_BYTES, q);
    }
  }

  // ----- Two windows on the same log -----

  /** `b` shows a later part of the same log as `a`: an original shell and its restored copy. */
  ghost predicate Simulates(a: Shell, b: Shell, all: seq<Bytes>) {
    Refines(a, all) && Refines(b, all) && a.chunkOffset <= b.chunkOffset && a.closed == b.closed
  }

  /** Both windows stay on the same log under the same segments, and become one and the same once
      the log's cut has passed the start of the later window. */
  lemma {:induction false} SimulationRun(a: Shell, b: Shell, all: seq<Bytes>, segments: seq<TerminalData>)
    requires Simulates(a, b, all)
    ensures var a', b', all' := RunShell(a, segments), RunShell(b, segments), RunLog(all, segments);
            && Simulates(a', b', all')
            && (a'.chunkOffset == b'.chunkOffset ==> a' == b')
            && b.chunkOffset <= b'.chunkOffset
            && (all' == all || Excess(all', SHELL_STORED_BYTES) < b.chunkOffset || a' == b')
    decreases |segments|
  {
    if segments != [] {
      var x := segments[0];
      AddDataRefines(a, all, x.data, x.seq0);
      AddDataRefines(b, all, x.data, x.seq0);
      var a1, b1, all1 := AddData(a, x.data, x.seq0), AddData(b, x.data, x.seq0), LogAdd(all, x.data, x.seq0);
      SimulationRun(a1, b1, all1, segments[1..]);
      if all1 != all && RunLog(all1, segments[1..]) == all1 && Excess(all1, SHELL_STORED_BYTES) >= b.chunkOffset {
        assert a1 == b1;
      }
    }
  }

  /** What a caller sees of the simulation: equal sequence numbers and chunk counts, hence the same
      segments accepted, and the restored data is a suffix of the original's. */
  lemma SimulationObserved(a: Shell, b: Shell, all: seq<Bytes>, segments: seq<TerminalData>, next: TerminalData)
    requires Simulates(a, b, all)
    ensures var a', b' := RunShell(a, segments), RunShell(b, segments);
            && a'.seqnum == b'.seqnum
            && a'.chunkOffset + |a'.data| == b'.chunkOffset + |b'.data|
            && |b'.data| <= |a'.data| && b'.data == a'.data[|a'.data| - |b'.data|..]
            && (Accepts(a'.seqnum, next.data, next.seq0) <==> Accepts(b'.seqnum, next.data, next.seq0))
  {
    SimulationRun(a, b, all, segments);
    hide RunShell, RunLog, Total, Excess;
    SimulationSeen(RunShell(a, segments), RunShell(b, segments), RunLog(all, segments));
  }

  lemma SimulationSeen(a: Shell, b: Shell, all: seq<Bytes>)
    requires Simulates(a, b, all)
    ensures a.seqnum == b.seqnum && a.chunkOffset + |a.data| == b.chunkOffset + |b.data|
    ensures |b.data| <= |a.data| && b.data == a.data[|a.data| - |b.data|..]
  {
    hide Total, NoneEmpty;
    DropCut(all, a.chunkOffset, b.chunkOffset);
  }
}

/** Serving a shell's chunks to a subscriber that names the next chunk it wants. A subscription is a
    series of reads of the shell's record, taken at arbitrary moments; what is observed at each read
    is a window on a prefix of one growing log. */
module Subscription {
  import opened ByteSeqs
  import opened ShellStore

  /** What is sent to a subscriber: consecutive chunks and the stream position of the first byte. */
  datatype Batch = Batch(seqnum: nat, chunks: seq<Bytes>)

  function ChunkCount(s: Shell): nat {
    s.chunkOffset + |s.data|
  }

  /** The next chunk wanted after reading `s` with `chunknum` wanted. */
  function NextCursor(chunknum: nat, s: Shell): nat {
    Max(chunknum, ChunkCount(s))
  }

  /** The chunks a read finds, labelled with the position of their first byte. */
  function ReadChunks(chunknum: nat, s: Shell): Batch {
    if chunknum < ChunkCount(s) then
      var start := if chunknum <= s.chunkOffset then 0 else chunknum - s.chunkOffset;
      Batch(s.byteOffset + Total(s.data[..start]), s.data[start..])
    else
      Batch(s.byteOffset, [])
  }

  /** The batches that a series of reads of an open shell yields. */
  function Yields(observed: seq<Shell>, chunknum: nat): seq<Batch> {
    if observed == [] then []
    else
      var batch := ReadChunks(chunknum, observed[0]);
      (if batch.chunks == [] then [] else [batch]) + Yields(observed[1..], NextCursor(chunknum, observed[0]))
  }

  function EndCursor(observed: seq<Shell>, chunknum: nat): nat {
    if observed == [] then chunknum else EndCursor(observed[1..], NextCursor(chunknum, observed[0]))
  }

  /** The reads up to the first one that finds the shell missing or closed. */
  function WhileOpen(observed: seq<Option<Shell>>): seq<Shell> {
    if observed == [] || observed[0].None? || observed[0].value.closed then []
    else [observed[0].value] + WhileOpen(observed[1..])
  }

  /** Every read up to some point found the shell present and open, with these records, and the read after
      that, if there was one, found it missing or closed. */
  predicate OpenReads(observed: seq<Option<Shell>>, shells: seq<Shell>) {
    && |shells| <= |observed|
    && (forall i :: 0 <= i < |shells| ==> observed[i] == Some(shells[i]) && !shells[i].closed)
    && (|shells| < |observed| ==> observed[|shells|].None? || observed[|shells|].value.closed)
  }

  lemma OpenReadsCons(observed: seq<Option<Shell>>, shells: seq<Shell>)
    requires observed != [] && observed[0].Some? && !observed[0].value.closed
    ensures OpenReads(observed, shells)
       <==> shells != [] && shells[0] == observed[0].value && OpenReads(observed[1..], shells[1..])
  {
    if shells != [] && shells[0] == observed[0].value && OpenReads(observed[1..], shells[1..]) {
      forall i | 0 <= i < |shells| ensures observed[i] == Some(shells[i]) && !shells[i].closed {
        if i > 0 { assert observed[1..][i - 1] == Some(shells[1..][i - 1]) && !shells[1..][i - 1].closed; }
      }
    }
  }

  lemma {:induction false} WhileOpenIff(observed: seq<Option<Shell>>, shells: seq<Shell>)
    ensures OpenReads(observed, shells) <==> shells == WhileOpen(observed)
    decreases |observed|
  {
    if observed == [] || observed[0].None? || observed[0].value.closed {
    } else {
      OpenReadsCons(observed, shells);
      hide OpenReads;
      if shells != [] {
        WhileOpenIff(observed[1..], shells[1..]);
        assert shells == [shells[0]] + shells[1..];
      }
    }
  }

  lemma OnlyWhileOpen(observed: seq<Option<Shell>>)
    ensures OpenReads(observed, WhileOpen(observed))
    ensures forall shells :: OpenReads(observed, shells) ==> shells == WhileOpen(observed)
  {
    hide OpenReads, WhileOpen;
    WhileOpenIff(observed, WhileOpen(observed));
    forall shells | OpenReads(observed, shells) ensures shells == WhileOpen(observed) {
      WhileOpenIff(observed, shells);
    }
  }

  /** What a subscription yields altogether and where its cursor ends, from its `i`th read on. */
  ghost function Remaining(observed: seq<Option<Shell>>, i: nat, chunknum: nat, out: seq<Batch>): (seq<Batch>, nat)
    requires i <= |observed|
  {
    var rest := WhileOpen(observed[i..]);
    (out + Yields(rest, chunknum), EndCursor(rest, chunknum))
  }

  lemma RemainingStep(observed: seq<Option<Shell>>, i: nat, chunknum: nat, out: seq<Batch>)
    requires i < |observed| && observed[i].Some? && !observed[i].value.closed
    ensures var s := observed[i].value;
            var batch := ReadChunks(chunknum, s);
            Remaining(observed, i, chunknum, out)
            == Remaining(observed, i + 1, NextCursor(chunknum, s), if batch.chunks == [] then out else out + [batch])
  {
    var s, rest := observed[i].value, WhileOpen(observed[i + 1..]);
    assert observed[i..][1..] == observed[i + 1..];
    assert WhileOpen(observed[i..]) == [s] + rest && ([s] + rest)[1..] == rest;
    var batch := ReadChunks(chunknum, s);
    var head := if batch.chunks == [] then [] else [batch];
    assert Yields([s] + rest, chunknum) == head + Yields(rest, NextCursor(chunknum, s));
    assert out + (head + Yields(rest, NextCursor(chunknum, s))) == out + head + Yields(rest, NextCursor(chunknum, s));
    assert batch.chunks == [] ==> out + head == out;
  }

  /** The subscription stream: read under the lock, yield what is new, wait, read again. */
  method SubscribeChunks(observed: seq<Option<Shell>>, chunknum0: nat) returns (out: seq<Batch>, chunknum: nat)
    ensures out == Yields(WhileOpen(observed), chunknum0)
    ensures chunknum == EndCursor(WhileOpen(observed), chunknum0)
    ensures forall shells :: OpenReads(observed, shells) ==>
              out == Yields(shells, chunknum0) && chunknum == EndCursor(shells, chunknum0)
    ensures exists shells :: OpenReads(observed, shells)
  {
    OnlyWhileOpen(observed);
    hide OpenReads;
    out, chunknum := [], chunknum0;
    var i := 0;
    assert observed[0..] == observed;
    assert [] + Yields(WhileOpen(observed), chunknum0) == Yields(WhileOpen(observed), chunknum0);
    while i < |observed| && observed[i].Some? && !observed[i].value.closed
      invariant 0 <= i <= |observed|
      invariant Remaining(observed, i, chunknum, out)
             == (Yields(WhileOpen(observed), chunknum0), EndCursor(WhileOpen(observed), chunknum0))
    {
      RemainingStep(observed, i, chunknum, out);
      var shell := observed[i].value;
      var seqnum, chunks := shell.byteOffset, [];
      var currentChunks := shell.chunkOffset + |shell.data|;
      if chunknum < currentChunks {
        var start := if chunknum <= shell.chunkOffset then 0 else chunknum - shell.chunkOffset;
        seqnum := seqnum + Total(shell.data[..start]);
        chunks := shell.data[start..];
        chunknum := currentChunks;
      }
      if chunks != [] {
        out := out + [Batch(seqnum, chunks)];
      }
      i := i + 1;
    }
    assert WhileOpen(observed[i..]) == [];
    assert out + [] == out;
  }

  // ----- A whole subscription against the log -----

  /** `s` was observed when the log was a prefix of `log`. */
  ghost predicate Observes(s: Shell, log: seq<Bytes>) {
    ChunkCount(s) <= |log| && Refines(s, log[..ChunkCount(s)])
  }

  ghost predicate AllObserve(observed: seq<Shell>, log: seq<Bytes>) {
    observed == [] || (Observes(observed[0], log) && AllObserve(observed[1..], log))
  }

  datatype Span = Span(from: nat, to: nat)

  /** The chunk numbers served by each batch: from the wanted chunk, or from the first stored one
      if that comes later, to the newest. */
  function Spans(observed: seq<Shell>, chunknum: nat): seq<Span> {
    if observed == [] then []
    else
      var s := observed[0];
      var from := Max(chunknum, s.chunkOffset);
      (if from < ChunkCount(s) then [Span(from, ChunkCount(s))] else []) + Spans(observed[1..], NextCursor(chunknum, s))
  }

  /** Chunks that were pruned before the subscriber could get them. */
  function Skipped(observed: seq<Shell>, chunknum: nat): nat {
    if observed == [] then 0
    else
      var s := observed[0];
      (if chunknum < ChunkCount(s) then Max(chunknum, s.chunkOffset) - chunknum else 0)
      + Skipped(observed[1..], NextCursor(chunknum, s))
  }

  lemma ReadIsLogSlice(chunknum: nat, s: Shell, log: seq<Bytes>)
    requires Observes(s, log)
    ensures var from := Max(chunknum, s.chunkOffset);
            if from < ChunkCount(s) then ReadChunks(chunknum, s) == Batch(Total(log[..from]), log[from..ChunkCount(s)])
            else ReadChunks(chunknum, s).chunks == []
  {
    hide Total, NoneEmpty;
    var from, c, n := Max(chunknum, s.chunkOffset), s.chunkOffset, ChunkCount(s);
    if from < n {
      var seen := log[..n];
      TotalCut(seen, c, from);
      DropCut(seen, c, from);
      PrefixCut(log, n, from);
    }
  }

  /** The spans are non-empty, in order and disjoint, between `lo` and `hi`. */
  predicate InOrder(spans: seq<Span>, lo: nat, hi: nat) {
    spans == [] || (lo <= spans[0].from < spans[0].to <= hi && InOrder(spans[1..], spans[0].to, hi))
  }

  /** The slices of the log that the spans name, each labelled with the number of bytes before it. */
  function Slices(spans: seq<Span>, lo: nat, log: seq<Bytes>): seq<Batch>
    requires InOrder(spans, lo, |log|)
  {
    if spans == [] then []
    else [Batch(Total(log[..spans[0].from]), log[spans[0].from..spans[0].to])] + Slices(spans[1..], spans[0].to, log)
  }

  /** Spans that stay in order from a later start are in order from an earlier one. */
  lemma SpansFromEarlier(spans: seq<Span>, lo: nat, later: nat, log: seq<Bytes>)
    requires lo <= later && InOrder(spans, later, |log|)
    ensures InOrder(spans, lo, |log|) && Slices(spans, lo, log) == Slices(spans, later, log)
  {
  }

  lemma {:induction false} WindowsYieldSlices(observed: seq<Shell>, chunknum: nat, log: seq<Bytes>)
    requires AllObserve(observed, log)
    ensures InOrder(Spans(observed, chunknum), chunknum, |log|)
    ensures Yields(observed, chunknum) == Slices(Spans(observed, chunknum), chunknum, log)
  {
    if observed != [] {
      var s, rest, next := observed[0], observed[1..], NextCursor(chunknum, observed[0]);
      ReadIsLogSlice(chunknum, s, log);
      WindowsYieldSlices(rest, next, log);
      var from := Max(chunknum, s.chunkOffset);
      if from < ChunkCount(s) {
        assert Spans(observed, chunknum)[0] == Span(from, next);
        assert Spans(observed, chunknum)[1..] == Spans(rest, next);
      } else {
        assert Spans(observed, chunknum) == [] + Spans(rest, next) == Spans(rest, next);
        assert Yields(observed, chunknum) == [] + Yields(rest, next) == Yields(rest, next);
        SpansFromEarlier(Spans(rest, next), chunknum, next, log);
      }
    }
  }

  /** All chunks of a list of batches, in order. */
  function AllChunks(batches: seq<Batch>): seq<Bytes> {
    if batches == [] then [] else batches[0].chunks + AllChunks(batches[1..])
  }

  lemma {:induction false} AllChunksAppend(a: seq<Batch>, b: seq<Batch>)
    ensures AllChunks(a + b) == AllChunks(a) + AllChunks(b)
  {
    if a == [] {
      assert a + b == b;
    } else {
      assert (a + b)[1..] == a[1..] + b;
      AllChunksAppend(a[1..], b);
    }
  }

  lemma YieldsHead(observed: seq<Shell>, chunknum: nat)
    requires observed != []
    ensures AllChunks(Yields(observed, chunknum))
         == ReadChunks(chunknum, observed[0]).chunks
            + AllChunks(Yields(observed[1..], NextCursor(chunknum, observed[0])))
  {
    var batch := ReadChunks(chunknum, observed[0]);
    var head := if batch.chunks == [] then [] else [batch];
    AllChunksAppend(head, Yields(observed[1..], NextCursor(chunknum, observed[0])));
    assert AllChunks(head) == batch.chunks;
  }

  /** Conservation: from the first chunk wanted to the next one wanted, every chunk was either
      delivered once or had been pruned. */
  lemma {:induction false} DeliveredPlusSkipped(observed: seq<Shell>, chunknum: nat)
    ensures chunknum + |AllChunks(Yields(observed, chunknum))| + Skipped(observed, chunknum)
         == EndCursor(observed, chunknum)
  {
    if observed != [] {
      DeliveredPlusSkipped(observed[1..], NextCursor(chunknum, observed[0]));
      YieldsHead(observed, chunknum);
    }
  }

  lemma {:induction false} WindowsNoSkip(observed: seq<Shell>, chunknum: nat, log: seq<Bytes>)
    requires AllObserve(observed, log)
    requires chunknum <= |log| && Skipped(observed, chunknum) == 0
    ensures chunknum <= EndCursor(observed, chunknum) <= |log|
    ensures AllChunks(Yields(observed, chunknum)) == log[chunknum..EndCursor(observed, chunknum)]
  {
    if observed != [] {
      var s, rest := observed[0], observed[1..];
      var batch, next := ReadChunks(chunknum, s), NextCursor(chunknum, s);
      ReadIsLogSlice(chunknum, s, log);
      assert batch.chunks == log[chunknum..next];
      hide Observes, ReadChunks;
      WindowsNoSkip(rest, next, log);
      YieldsHead(observed, chunknum);
      var e := EndCursor(rest, next);
      JoinSlices(log, chunknum, next, e);
    }
  }

  /** Disconnecting and subscribing again from the counted chunk continues the stream as if it had
      never been interrupted, as long as nothing was skipped before. */
  lemma {:induction false} ResumeContinues(before: seq<Shell>, later: seq<Shell>, chunknum: nat)
    requires Skipped(before, chunknum) == 0
    ensures var resumeAt := chunknum + |AllChunks(Yields(before, chunknum))|;
            Yields(before, chunknum) + Yields(later, resumeAt) == Yields(before + later, chunknum)
  {
    DeliveredPlusSkipped(before, chunknum);
    YieldsAppend(before, later, chunknum);
  }

  lemma {:induction false} YieldsAppend(a: seq<Shell>, b: seq<Shell>, chunknum: nat)
    ensures Yields(a + b, chunknum) == Yields(a, chunknum) + Yields(b, EndCursor(a, chunknum))
  {
    if a == [] {
      assert a + b == b;
    } else {
      assert (a + b)[1..] == a[1..] + b;
      YieldsAppend(a[1..], b, NextCursor(chunknum, a[0]));
    }
  }

  // ----- A subscription to a run of the store -----

  predicate Within(moments: seq<nat>, end: nat) {
    moments == [] || (moments[0] <= end && Within(moments[1..], end))
  }

  /** The record as it is found after the first `moments[0]`, `moments[1]`, ... of the segments. */
  function StatesAt(s: Shell, segments: seq<TerminalData>, moments: seq<nat>): seq<Shell>
    requires Within(moments, |segments|)
  {
    if moments == [] then []
    else [RunShell(s, segments[..moments[0]])] + StatesAt(s, segments, moments[1..])
  }

  lemma {:induction false} RunLogSplit(all: seq<Bytes>, segments: seq<TerminalData>, k: nat)
    requires k <= |segments|
    ensures RunLog(all, segments) == RunLog(RunLog(all, segments[..k]), segments[k..])
    decreases k
  {
    if k == 0 {
      assert segments[0..] == segments;
    } else {
      var x := segments[0];
      assert segments[..k][0] == x && segments[..k][1..] == segments[1..][..k - 1];
      assert segments[1..][k - 1..] == segments[k..];
      hide LogAdd;
      RunLogSplit(LogAdd(all, x.data, x.seq0), segments[1..], k - 1);
    }
  }

  lemma StateObserves(s: Shell, all: seq<Bytes>, segments: seq<TerminalData>, k: nat)
    requires Refines(s, all) && k <= |segments|
    ensures Observes(RunShell(s, segments[..k]), RunLog(all, segments))
  {
    RunKeepsWindow(s, all, segments[..k]);
    RunLogSplit(all, segments, k);
    var t, seen, log := RunShell(s, segments[..k]), RunLog(all, segments[..k]), RunLog(all, segments);
    hide RunShell, RunLog;
    RunKeepsWindow(t, seen, segments[k..]);
    PrefixObserved(t, seen, log);
  }

  lemma PrefixObserved(s: Shell, seen: seq<Bytes>, log: seq<Bytes>)
    requires Refines(s, seen) && seen <= log
    ensures Observes(s, log)
  {
    hide Total;
    assert ChunkCount(s) == |seen| && log[..|seen|] == seen;
  }

  lemma {:induction false} StatesObserve(s: Shell, all: seq<Bytes>, segments: seq<TerminalData>, moments: seq<nat>)
    requires Refines(s, all)
    requires Within(moments, |segments|)
    ensures AllObserve(StatesAt(s, segments, moments), RunLog(all, segments))
    decreases |moments|
  {
    if moments == [] {
    } else {
      hide Refines, Observes, RunShell, RunLog;
      StateObserves(s, all, segments, moments[0]);
      StatesObserve(s, all, segments, moments[1..]);
      var states := StatesAt(s, segments, moments);
      assert states[1..] == StatesAt(s, segments, moments[1..]);
    }
  }

  /** Reading the store at any moments of any run, from a fresh or a restored record: every batch is
      the slice of the log that its span names, labelled with the position of its first byte; chunks
      come in order and none is served twice. */
  lemma SubscriptionRun(s: Shell, all: seq<Bytes>, segments: seq<TerminalData>, moments: seq<nat>, chunknum: nat)
    requires Refines(s, all)
    requires Within(moments, |segments|)
    ensures var observed, log := StatesAt(s, segments, moments), RunLog(all, segments);
            && InOrder(Spans(observed, chunknum), chunknum, |log|)
            && Yields(observed, chunknum) == Slices(Spans(observed, chunknum), chunknum, log)
  {
    StatesObserve(s, all, segments, moments);
    hide StatesAt, RunLog, Refines, AllObserve;
    WindowsYieldSlices(StatesAt(s, segments, moments), chunknum, RunLog(all, segments));
  }

  /** Without a skip, the batches concatenate to the log from the first chunk wanted on. */
  lemma NoSkipDeliversAll(s: Shell, all: seq<Bytes>, segments: seq<TerminalData>, moments: seq<nat>, chunknum: nat)
    requires Refines(s, all)
    requires Within(moments, |segments|)
    requires Skipped(StatesAt(s, segments, moments), chunknum) == 0
    ensures var observed, log := StatesAt(s, segments, moments), RunLog(all, segments);
            var got, end := AllChunks(Yields(observed, chunknum)), EndCursor(observed, chunknum);
            if chunknum <= |log| then chunknum <= end <= |log| && got == log[chunknum..end] else got == []
  {
    StatesObserve(s, all, segments, moments);
    hide StatesAt, RunLog, Refines, AllObserve, Yields, EndCursor, Skipped;
    var observed, log := StatesAt(s, segments, moments), RunLog(all, segments);
    if chunknum <= |log| {
      WindowsNoSkip(observed, chunknum, log);
    } else {
      NothingNew(observed, chunknum, log);
    }
  }

  lemma {:induction false} NothingNew(observed: seq<Shell>, chunknum: nat, log: seq<Bytes>)
    requires AllObserve(observed, log) && chunknum > |log|
    ensures Yields(observed, chunknum) == [] && EndCursor(observed, chunknum) == chunknum
  {
    if observed == [] {
    } else {
      hide Refines;
      NothingNew(observed[1..], chunknum, log);
    }
  }

  /** A subscriber that counts the chunks it got knows the right chunk to resume from exactly when
      nothing was pruned past its cursor. */
  lemma CountedResumeIff(observed: seq<Shell>, chunknum: nat)
    ensures chunknum + |AllChunks(Yields(observed, chunknum))| == EndCursor(observed, chunknum)
       <==> Skipped(observed, chunknum) == 0
  {
    DeliveredPlusSkipped(observed, chunknum);
  }

  // ----- In bytes -----

  /** The batches cover the positions between `from` and `to` without a gap. */
  predicate Chain(batches: seq<Batch>, from: nat, to: nat) {
    if batches == [] then from == to
    else batches[0].seqnum == from && Chain(batches[1..], from + Total(batches[0].chunks), to)
  }

  lemma {:induction false} ChainLength(batches: seq<Batch>, from: nat, to: nat)
    requires Chain(batches, from, to)
    ensures to == from + Total(AllChunks(batches))
  {
    if batches == [] {
    } else {
      ChainLength(batches[1..], from + Total(batches[0].chunks), to);
      TotalAppend(batches[0].chunks, AllChunks(batches[1..]));
    }
  }

  lemma NonEmptyTotal(chunks: seq<Bytes>)
    requires chunks != [] && |chunks[0]| > 0
    ensures Total(chunks) > 0
  {
  }

  /** What one read delivers and skips, in bytes. */
  lemma ReadBytes(chunknum: nat, s: Shell, log: seq<Bytes>)
    requires Observes(s, log) && chunknum <= |log|
    ensures var from, next := Max(chunknum, s.chunkOffset), NextCursor(chunknum, s);
            && next <= |log|
            && Total(log[..chunknum]) + Total(ReadChunks(chunknum, s).chunks) <= Total(log[..next])
            && (chunknum < ChunkCount(s) && chunknum < s.chunkOffset ==>
                  Total(log[..chunknum]) + Total(ReadChunks(chunknum, s).chunks) < Total(log[..next]))
  {
    ReadIsLogSlice(chunknum, s, log);
    var from, n := Max(chunknum, s.chunkOffset), ChunkCount(s);
    if chunknum < n {
      assert n <= |log| && NoneEmpty(log[..n]);
      hide Total, ReadChunks;
      TotalCut(log, chunknum, from);
      TotalCut(log, from, n);
      if chunknum < from {
        assert log[chunknum..from][0] == log[..n][chunknum];
        NonEmptyTotal(log[chunknum..from]);
      }
    }
  }

  lemma {:induction false} DeliveredBytes(observed: seq<Shell>, chunknum: nat, log: seq<Bytes>)
    requires AllObserve(observed, log) && chunknum <= |log|
    ensures var e, got := EndCursor(observed, chunknum), Total(AllChunks(Yields(observed, chunknum)));
            && e <= |log|
            && Total(log[..chunknum]) + got <= Total(log[..e])
            && (Skipped(observed, chunknum) > 0 ==> Total(log[..chunknum]) + got < Total(log[..e]))
  {
    if observed == [] {
    } else {
      var s, next := observed[0], NextCursor(chunknum, observed[0]);
      ReadBytes(chunknum, s, log);
      DeliveredBytes(observed[1..], next, log);
      YieldsHead(observed, chunknum);
      hide Observes, ReadChunks;
      TotalAppend(ReadChunks(chunknum, s).chunks, AllChunks(Yields(observed[1..], next)));
    }
  }

  /** A batch in front of a chain, unless it is empty. */
  lemma ChainCons(batch: Batch, later: seq<Batch>, from: nat, to: nat)
    requires Chain(later, from + Total(batch.chunks), to)
    requires batch.chunks != [] ==> batch.seqnum == from
    ensures Chain((if batch.chunks == [] then [] else [batch]) + later, from, to)
  {
    if batch.chunks == [] {
      assert [] + later == later;
    } else {
      assert ([batch] + later)[1..] == later;
    }
  }

  lemma {:induction false} NoSkipChains(observed: seq<Shell>, chunknum: nat, log: seq<Bytes>)
    requires AllObserve(observed, log) && chunknum <= |log|
    requires Skipped(observed, chunknum) == 0
    ensures EndCursor(observed, chunknum) <= |log|
    ensures Chain(Yields(observed, chunknum), Total(log[..chunknum]), Total(log[..EndCursor(observed, chunknum)]))
  {
    if observed == [] {
    } else {
      var s, rest, next := observed[0], observed[1..], NextCursor(chunknum, observed[0]);
      var batch := ReadChunks(chunknum, s);
      ReadIsLogSlice(chunknum, s, log);
      assert next <= |log|;
      TotalCut(log, chunknum, next);
      hide Observes, ReadChunks, Total;
      NoSkipChains(rest, next, log);
      ChainCons(batch, Yields(rest, next), Total(log[..chunknum]), Total(log[..EndCursor(rest, next)]));
    }
  }

  /** The batches of a subscription cover the bytes from the first chunk wanted to the next one wanted
      without a gap exactly when no pruned chunk was skipped. */
  lemma ChainIff(observed: seq<Shell>, chunknum: nat, log: seq<Bytes>)
    requires AllObserve(observed, log) && chunknum <= |log|
    ensures EndCursor(observed, chunknum) <= |log|
    ensures Chain(Yields(observed, chunknum), Total(log[..chunknum]), Total(log[..EndCursor(observed, chunknum)]))
       <==> Skipped(observed, chunknum) == 0
  {
    DeliveredBytes(observed, chunknum, log);
    if Skipped(observed, chunknum) == 0 {
      NoSkipChains(observed, chunknum, log);
    } else if Chain(Yields(observed, chunknum), Total(log[..chunknum]), Total(log[..EndCursor(observed, chunknum)])) {
      ChainLength(Yields(observed, chunknum), Total(log[..chunknum]), Total(log[..EndCursor(observed, chunknum)]));
    }
  }

  /** The position of the first byte of a chunk. */
  function StartOf(log: seq<Bytes>, chunknum: nat): nat
    requires chunknum <= |log|
  {
    Total(log[..chunknum])
  }

  /** Reading from `chunknum` on continues at position `p`: the batches cover the bytes from there to the
      next chunk wanted without a gap, and counting them gives that chunk's number. */
  ghost predicate ContinuesAt(observed: seq<Shell>, chunknum: nat, p: nat, log: seq<Bytes>) {
    var got, end := Yields(observed, chunknum), EndCursor(observed, chunknum);
    end <= |log| && Chain(got, p, StartOf(log, end)) && chunknum + |AllChunks(got)| == end
  }

  /** Wherever a subscription starts, it continues at a given position exactly when the chunk it names
      starts there and nothing is skipped. (A skip could bring it to the position by accident, but not
      with the right count.) */
  lemma ContinuesIff(observed: seq<Shell>, chunknum: nat, p: nat, log: seq<Bytes>)
    requires AllObserve(observed, log) && chunknum <= |log|
    ensures ContinuesAt(observed, chunknum, p, log)
       <==> Skipped(observed, chunknum) == 0 && StartOf(log, chunknum) == p
  {
    ChainIff(observed, chunknum, log);
    DeliveredPlusSkipped(observed, chunknum);
    hide AllObserve, Skipped, EndCursor, Yields, Total, Chain, AllChunks;
    var got := Yields(observed, chunknum);
    var from, to := StartOf(log, chunknum), StartOf(log, EndCursor(observed, chunknum));
    if Skipped(observed, chunknum) == 0 {
      ChainLength(got, from, to);
      if Chain(got, p, to) { ChainLength(got, p, to); }
    }
  }

  /** Windows on a log are windows on every longer one. */
  lemma {:induction false} ObserveLonger(observed: seq<Shell>, log: seq<Bytes>, longer: seq<Bytes>)
    requires AllObserve(observed, log) && log <= longer
    ensures AllObserve(observed, longer)
    decreases |observed|
  {
    if observed == [] {
    } else {
      ObservesLonger(observed[0], log, longer);
      hide Observes;
      ObserveLonger(observed[1..], log, longer);
    }
  }

  lemma ObservesLonger(s: Shell, log: seq<Bytes>, longer: seq<Bytes>)
    requires Observes(s, log) && log <= longer
    ensures Observes(s, longer)
  {
    hide Refines;
    assert longer[..ChunkCount(s)] == log[..ChunkCount(s)];
  }

  lemma {:induction false} ChainAppend(a: seq<Batch>, b: seq<Batch>, from: nat, mid: nat, to: nat)
    requires Chain(a, from, mid)
    ensures Chain(a + b, from, to) <==> Chain(b, mid, to)
    decreases |a|
  {
    hide Total;
    if a == [] {
      assert a + b == b;
    } else {
      assert (a + b)[0] == a[0] && (a + b)[1..] == a[1..] + b;
      ChainAppend(a[1..], b, from + Total(a[0].chunks), mid, to);
    }
  }
}

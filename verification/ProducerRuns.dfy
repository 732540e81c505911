/** What the client task keeps true: its window always shows the output log, its messages carry the
    log's ciphertext cut at character boundaries, and where a position can go wrong. */
module ProducerRuns {
  import opened ByteSeqs
  import opened Utf8
  import opened Keystreams
  import opened Producer

  // ----- The invariant -----

  /** The content is the log from `contentOffset` on, and both positions are character boundaries. */
  ghost predicate TaskOk(t: Task, log: Bytes) {
    && WellFormed(log)
    && (t.status != Faulted ==>
          && t.contentOffset <= t.seqnum <= |log|
          && t.content == log[t.contentOffset..]
          && IsCharBoundary(log, t.contentOffset)
          && IsCharBoundary(log, t.seqnum)
          && t.seqOutdated <= 2)
  }

  /** The decoder appends whole characters, and reported positions are boundaries of the log. */
  ghost predicate EventOk(e: Event, log: Bytes) {
    match e
    case Output(text) => WellFormed(text)
    case Finish(text) => WellFormed(text)
    case Sync(seq2) => seq2 <= |log| && IsCharBoundary(log, seq2)
    case Other => true
  }

  /** A message is a non-empty piece of the log's ciphertext that starts and ends at character
      boundaries. */
  ghost predicate MessageOk(key: Keystream, log: Bytes, m: TerminalData) {
    && |m.data| > 0
    && m.seq0 + |m.data| <= |log|
    && m.data == Segment(key, m.seq0, log[m.seq0..m.seq0 + |m.data|])
    && IsCharBoundary(log, m.seq0)
    && IsCharBoundary(log, m.seq0 + |m.data|)
  }

  // ----- One turn -----

  /** What the three stages work on: a window on the log that may lag behind any number of bytes. */
  ghost predicate Window(t: Task, log: Bytes) {
    && WellFormed(log)
    && t.contentOffset <= |log|
    && t.content == log[t.contentOffset..]
    && t.seqnum <= |log|
    && IsCharBoundary(log, t.contentOffset)
    && IsCharBoundary(log, t.seqnum)
  }

  lemma GrowWindow(log: Bytes, text: Bytes, i: nat, j: nat)
    requires WellFormed(log) && WellFormed(text)
    requires i <= |log| && j <= |log| && IsCharBoundary(log, i) && IsCharBoundary(log, j)
    ensures WellFormed(log + text)
    ensures IsCharBoundary(log + text, i) && IsCharBoundary(log + text, j)
    ensures (log + text)[i..] == log[i..] + text
  {
    DecodeAppend(log, text);
    BoundaryAppend(log, text, i);
    BoundaryAppend(log, text, j);
  }

  lemma ReceiveWindow(t: Task, log: Bytes, e: Event)
    requires TaskOk(t, log) && t.status == Live && EventOk(e, log)
    ensures Window(Receive(t, e), Grow(t, log, e))
    ensures Receive(t, e).status != Faulted
  {
    match e
    case Output(text) => GrowWindow(log, text, t.contentOffset, t.seqnum);
    case Finish(text) => GrowWindow(log, text, t.contentOffset, t.seqnum);
    case _ =>
  }

  /** Inside the window, positions of the content are positions of the log. */
  lemma WindowBoundary(t: Task, log: Bytes, i: nat)
    requires Window(t, log) && i <= |t.content|
    ensures IsCharBoundary(t.content, i) <==> IsCharBoundary(log, t.contentOffset + i)
  {
  }

  lemma WindowWellFormed(t: Task, log: Bytes)
    requires Window(t, log)
    ensures WellFormed(t.content)
  {
    BoundaryIffWellFormedCut(log, t.contentOffset);
  }

  /** A chunk starts exactly at the position believed to be the server's, and reaches the end of the
      content or at least 65533 bytes further. */
  lemma ChunkExtent(t: Task, log: Bytes)
    requires Window(t, log) && t.contentOffset <= t.seqnum < End(t)
    ensures t.contentOffset + ChunkStart(t) == t.seqnum
    ensures ChunkEnd(t) == |t.content| || ChunkEnd(t) >= ChunkStart(t) + CONTENT_CHUNK_SIZE - 3
    ensures |t.content| <= ChunkStart(t) + CONTENT_CHUNK_SIZE ==> ChunkEnd(t) == |t.content|
    ensures ChunkEnd(t) <= ChunkStart(t) + CONTENT_CHUNK_SIZE
    ensures IsCharBoundary(log, t.contentOffset + ChunkEnd(t))
  {
    hide WellFormed;
    WindowBoundary(t, log, t.seqnum - t.contentOffset);
    WindowWellFormed(t, log);
    BoundaryNearby(t.content, Min(ChunkStart(t) + CONTENT_CHUNK_SIZE, |t.content|));
    WindowBoundary(t, log, ChunkEnd(t));
  }

  lemma CutOk(key: Keystream, t: Task, log: Bytes, start: nat, end: nat)
    requires t.contentOffset <= |log| && t.content == log[t.contentOffset..] && start < end <= |t.content|
    requires IsCharBoundary(log, t.contentOffset + start) && IsCharBoundary(log, t.contentOffset + end)
    ensures MessageOk(key, log, Cut(key, t, start, end))
    ensures |Cut(key, t, start, end).data| == end - start
  {
    SliceOfDrop(log, t.contentOffset, start, end);
  }

  /** The stage faults exactly when the believed position lies before the window, sends exactly when
      the content reaches past it, and then advances it by what it sent. */
  lemma SendOk(key: Keystream, t: Task, log: Bytes)
    requires Window(t, log) && t.status != Faulted
    ensures var (t', message) := Send(key, t);
            && Window(t', log)
            && t'.contentOffset == t.contentOffset && t'.content == t.content
            && (t'.status == Faulted <==> t.seqnum < t.contentOffset)
            && (t'.status != Faulted ==> t'.status == t.status)
            && (message.Some? <==> t.contentOffset <= t.seqnum < End(t))
            && (message.Some? ==>
                  && MessageOk(key, log, message.value)
                  && message.value.seq0 == t.seqnum
                  && t'.seqnum == t.seqnum + |message.value.data|
                  && t'.seqOutdated == 0)
            && (message.None? ==> t'.seqnum == t.seqnum && t'.seqOutdated == t.seqOutdated)
  {
    if t.contentOffset <= t.seqnum < End(t) {
      hide WellFormed, Segment;
      ChunkExtent(t, log);
      CutOk(key, t, log, ChunkStart(t), ChunkEnd(t));
    }
  }

  /** Pruning keeps at least eight mebibytes before the position believed to be the server's, and
      no more than three bytes beyond that. */
  lemma PruneOk(t: Task, log: Bytes)
    requires Window(t, log) && t.contentOffset <= t.seqnum && t.status != Faulted
    ensures var t' := PruneContent(t);
            && (t'.status == Faulted <==> |t.content| > CONTENT_PRUNE_BYTES && t.seqnum < CONTENT_ROLLING_BYTES)
            && t'.seqnum == t.seqnum && t'.seqOutdated == t.seqOutdated
            && Window(t', log)
            && t.contentOffset <= t'.contentOffset <= t.seqnum
            && (t'.contentOffset != t.contentOffset ==> t'.contentOffset + CONTENT_ROLLING_BYTES <= t.seqnum)
            && (|t.content| <= CONTENT_PRUNE_BYTES || t.seqnum < CONTENT_ROLLING_BYTES
                || t.seqnum <= t'.contentOffset + CONTENT_ROLLING_BYTES + 3)
  {
    if |t.content| > CONTENT_PRUNE_BYTES && t.seqnum >= CONTENT_ROLLING_BYTES
       && t.seqnum - CONTENT_ROLLING_BYTES > t.contentOffset {
      var i := t.seqnum - CONTENT_ROLLING_BYTES - t.contentOffset;
      WindowWellFormed(t, log);
      BoundaryNearby(t.content, i);
      WindowBoundary(t, log, PrevCharBoundary(t.content, i));
    }
  }

  /** One turn of the loop keeps the invariant, and what it sends is a proper piece of the log. */
  lemma IterateOk(key: Keystream, t: Task, log: Bytes, e: Event)
    requires TaskOk(t, log) && EventOk(e, log)
    ensures var (t', message) := Iterate(key, t, e);
            && TaskOk(t', Grow(t, log, e))
            && (message.Some? ==> MessageOk(key, Grow(t, log, e), message.value))
  {
    if t.status == Live {
      var log' := Grow(t, log, e);
      ReceiveWindow(t, log, e);
      var r := Receive(t, e);
      SendOk(key, r, log');
      var s := Send(key, r).0;
      if s.status != Faulted {
        PruneOk(s, log');
      }
    }
  }

  // ----- Faults -----

  /** The event makes the task believe an older position of the server. */
  predicate Rewinds(t: Task, e: Event) {
    e.Sync? && e.seq2 < t.seqnum && t.seqOutdated + 1 >= 3
  }

  /** A subtraction goes below zero exactly when the task adopts a position before its window, or
      when the content is over the pruning limit while fewer than eight mebibytes were sent. */
  lemma FaultIff(key: Keystream, t: Task, log: Bytes, e: Event)
    requires TaskOk(t, log) && t.status == Live && EventOk(e, log)
    ensures var r := Receive(t, e);
            Iterate(key, t, e).0.status == Faulted <==>
              || (Rewinds(t, e) && e.seq2 < t.contentOffset)
              || (|r.content| > CONTENT_PRUNE_BYTES && Send(key, r).0.seqnum < CONTENT_ROLLING_BYTES)
  {
    var log' := Grow(t, log, e);
    ReceiveWindow(t, log, e);
    var r := Receive(t, e);
    SendOk(key, r, log');
    var s := Send(key, r).0;
    if s.status != Faulted {
      PruneOk(s, log');
    }
  }

  // ----- Runs without a rewind -----

  /** Nothing is waiting to be sent and the content is within its limit. */
  predicate CaughtUp(t: Task) {
    t.status != Faulted && t.seqnum == End(t) && |t.content| <= CONTENT_PRUNE_BYTES
  }

  /** No event of the run makes the task rewind. */
  ghost predicate NoRewind(key: Keystream, t: Task, events: seq<Event>)
    decreases |events|
  {
    events == [] || (!Rewinds(t, events[0]) && NoRewind(key, Iterate(key, t, events[0]).0, events[1..]))
  }

  /** Every event fits the log at its time, and one read decodes to at most one chunk. */
  ghost predicate EventsOk(key: Keystream, t: Task, log: Bytes, events: seq<Event>)
    decreases |events|
  {
    events == [] ||
    (&& EventOk(events[0], log)
     && (events[0].Output? || events[0].Finish? ==> |events[0].text| <= CONTENT_CHUNK_SIZE)
     && EventsOk(key, Iterate(key, t, events[0]).0, Grow(t, log, events[0]), events[1..]))
  }

  /** From the caught-up state, one send covers everything new. */
  lemma SendCatchesUp(key: Keystream, r: Task, log: Bytes)
    requires Window(r, log) && r.status != Faulted
    requires r.contentOffset <= r.seqnum <= End(r) <= r.seqnum + CONTENT_CHUNK_SIZE
    ensures var (s, message) := Send(key, r);
            && Window(s, log) && s.status == r.status && s.contentOffset == r.contentOffset && s.content == r.content
            && s.seqnum == End(s)
            && message ==
                 (if r.seqnum < |log| then Some(TerminalData(r.seqnum, Segment(key, r.seqnum, log[r.seqnum..])))
                  else None)
  {
    SendOk(key, r, log);
    if r.seqnum < End(r) {
      ChunkExtent(r, log);
      SliceOfDrop(log, r.contentOffset, ChunkStart(r), ChunkEnd(r));
      assert r.content[ChunkStart(r)..ChunkEnd(r)] == log[r.seqnum..|log|] == log[r.seqnum..];
    }
  }

  lemma CaughtUpTurn(key: Keystream, t: Task, log: Bytes, e: Event)
    requires TaskOk(t, log) && CaughtUp(t) && EventOk(e, log) && !Rewinds(t, e)
    requires e.Output? || e.Finish? ==> |e.text| <= CONTENT_CHUNK_SIZE
    ensures var (t', message) := Iterate(key, t, e);
            var log' := Grow(t, log, e);
            && CaughtUp(t') && End(t') == |log'| && log <= log'
            && message == if |log| < |log'| then Some(TerminalData(|log|, Segment(key, |log|, log'[|log|..]))) else None
  {
    if t.status == Live {
      var log' := Grow(t, log, e);
      ReceiveWindow(t, log, e);
      var r := Receive(t, e);
      assert r.seqnum == |log| && r.contentOffset == t.contentOffset;
      assert End(r) == |log'|;
      SendCatchesUp(key, r, log');
      var s := Send(key, r).0;
      PruneOk(s, log');
    }
  }

  /** The messages are the ciphertext of `log[from..]`, in order, without gap or overlap. */
  ghost predicate Covers(key: Keystream, messages: seq<TerminalData>, from: nat, log: Bytes)
    decreases |messages|
  {
    if messages == [] then from == |log|
    else
      var m := messages[0];
      && m.seq0 == from
      && from + |m.data| <= |log|
      && m.data == Segment(key, from, log[from..from + |m.data|])
      && Covers(key, messages[1..], from + |m.data|, log)
  }

  function Payloads(messages: seq<TerminalData>): seq<Bytes> {
    if messages == [] then [] else [messages[0].data] + Payloads(messages[1..])
  }

  /** Joined, such messages spell the ciphertext of everything from `from` on. */
  lemma {:induction false} CoversFlatten(key: Keystream, messages: seq<TerminalData>, from: nat, log: Bytes)
    requires from <= |log| && Covers(key, messages, from, log)
    ensures Flatten(Payloads(messages)) == Segment(key, from, log[from..])
    decreases |messages|
  {
    if messages == [] {
      assert log[from..] == [];
    } else {
      hide Segment;
      var m := messages[0];
      var next := from + |m.data|;
      CoversFlatten(key, messages[1..], next, log);
      var plain := log[from..next];
      assert log[from..] == plain + log[next..];
      SegmentAppend(key, from, plain, log[next..]);
      var payloads := Payloads(messages);
      assert payloads[0] == m.data && payloads[1..] == Payloads(messages[1..]);
      hide Covers, Payloads;
    }
  }

  lemma CoversHead(key: Keystream, m: TerminalData, rest: seq<TerminalData>, from: nat, log: Bytes)
    requires m.seq0 == from && from + |m.data| <= |log|
    requires m.data == Segment(key, from, log[from..from + |m.data|])
    requires Covers(key, rest, from + |m.data|, log)
    ensures Covers(key, [m] + rest, from, log)
  {
    assert ([m] + rest)[1..] == rest;
  }

  lemma CoversCons(
      key: Keystream, message: Option<TerminalData>, rest: seq<TerminalData>, from: nat, log1: Bytes, log: Bytes)
    requires from <= |log1| && log1 <= log
    requires message == if from < |log1| then Some(TerminalData(from, Segment(key, from, log1[from..]))) else None
    requires Covers(key, rest, |log1|, log)
    ensures Covers(key, Listed(message) + rest, from, log)
  {
    if message.Some? {
      SliceOfPrefix(log1, log, from, |log1|);
      assert log1[from..] == log1[from..|log1|];
      CoversHead(key, message.value, rest, from, log);
    } else {
      assert Listed(message) + rest == rest;
    }
  }

  /** A run without a rewind: no position ever goes below zero, after every turn nothing waits to be
      sent and the content is within its limit, and the messages are the ciphertext of all the
      output, in order, without gap or overlap. */
  lemma {:induction false} NoRewindRun(key: Keystream, t: Task, log: Bytes, events: seq<Event>)
    requires TaskOk(t, log) && CaughtUp(t)
    requires EventsOk(key, t, log, events) && NoRewind(key, t, events)
    ensures var (t', sent) := RunTask(key, t, events);
            var log' := OutputLog(key, t, log, events);
            && TaskOk(t', log') && CaughtUp(t')
            && log <= log'
            && Covers(key, sent, |log|, log')
    decreases |events|
  {
    if events != [] {
      var e, rest := events[0], events[1..];
      hide Iterate, WellFormed, Segment, Covers, TaskOk, IsCharBoundary, CaughtUp, Grow, Rewinds, EventOk, Listed;
      var turn, log1 := Iterate(key, t, e), Grow(t, log, e);
      CaughtUpTurn(key, t, log, e);
      IterateOk(key, t, log, e);
      NoRewindRun(key, turn.0, log1, rest);
      CoversCons(key, turn.1, RunTask(key, turn.0, rest).1, |log|, log1, OutputLog(key, turn.0, log1, rest));
    }
  }
}

/** The client task of one shell: it keeps a window of the decoded output, sends what it believes the
    server lacks, rewinds when the server keeps reporting an older position, and prunes old content.

    Positions are machine words in the source. A subtraction that would go below zero is a fault:
    the task does not get past it and sends nothing more. */
module Producer {
  import opened ByteSeqs
  import opened Utf8
  import opened Keystreams

  const CONTENT_CHUNK_SIZE: nat := 0x1_0000
  const CONTENT_ROLLING_BYTES: nat := 0x80_0000
  const CONTENT_PRUNE_BYTES: nat := 0xC0_0000

  datatype Status = Live | Finished | Faulted

  datatype Task = Task(content: Bytes, contentOffset: nat, seqnum: nat, seqOutdated: nat, status: Status)

  const NEW_TASK: Task := Task([], 0, 0, 0, Live)

  /** What one turn of the loop wakes up for. `text` is what the streaming decoder appends. */
  datatype Event =
    | Output(text: Bytes)
    | Finish(text: Bytes)
    | Sync(seq2: nat)
    | Other

  function End(t: Task): nat {
    t.contentOffset + |t.content|
  }

  /** The event is handled: output is appended, and the third stale report without a send in
      between is believed. */
  function Receive(t: Task, e: Event): Task {
    match e
    case Output(text) => t.(content := t.content + text)
    case Finish(text) => t.(content := t.content + text, status := Finished)
    case Sync(seq2) =>
      if seq2 < t.seqnum then
        t.(seqOutdated := t.seqOutdated + 1, seqnum := if t.seqOutdated + 1 >= 3 then seq2 else t.seqnum)
      else t
    case Other => t
  }

  /** The last character boundary at or before `i`. */
  predicate LastBoundary(s: Bytes, i: nat, r: nat) {
    r <= i && IsCharBoundary(s, r) && forall j :: r < j <= i ==> !IsCharBoundary(s, j)
  }

  /** Where the next chunk starts and ends inside the content. */
  function ChunkStart(t: Task): (r: nat)
    requires t.contentOffset <= t.seqnum
    ensures r <= |t.content|
  {
    PrevCharBoundary(t.content, t.seqnum - t.contentOffset)
  }

  function ChunkEnd(t: Task): (r: nat)
    requires t.contentOffset <= t.seqnum
    ensures ChunkStart(t) <= r <= |t.content|
  {
    PrevCharBoundary(t.content, Min(ChunkStart(t) + CONTENT_CHUNK_SIZE, |t.content|))
  }

  /** The message that carries `content[start..end]` under its position in the stream. */
  function Cut(key: Keystream, t: Task, start: nat, end: nat): TerminalData
    requires start <= end <= |t.content|
  {
    TerminalData(t.contentOffset + start, Segment(key, t.contentOffset + start, t.content[start..end]))
  }

  /** Send one chunk if the server has fallen behind. */
  function Send(key: Keystream, t: Task): (Task, Option<TerminalData>) {
    if End(t) <= t.seqnum then (t, None)
    else if t.seqnum < t.contentOffset then (t.(status := Faulted), None)
    else (t.(seqnum := t.contentOffset + ChunkEnd(t), seqOutdated := 0),
          Some(Cut(key, t, ChunkStart(t), ChunkEnd(t))))
  }

  /** Drop old content once there is too much of it. */
  function PruneContent(t: Task): Task {
    if |t.content| <= CONTENT_PRUNE_BYTES then t
    else if t.seqnum < CONTENT_ROLLING_BYTES then t.(status := Faulted)
    else if t.seqnum - CONTENT_ROLLING_BYTES <= t.contentOffset then t
    else
      var pruned := PrevCharBoundary(t.content, t.seqnum - CONTENT_ROLLING_BYTES - t.contentOffset);
      t.(contentOffset := t.contentOffset + pruned, content := t.content[pruned..])
  }

  /** What pruning is to leave. With more than 12 MiB held, everything goes up to the last boundary that
      is 8 MiB before the position believed to be the server's; a position below 8 MiB is a fault. */
  predicate Pruned(t: Task, t': Task) {
    && t'.seqnum == t.seqnum && t'.seqOutdated == t.seqOutdated
    && var full, keep := |t.content| > 0xC0_0000, t.seqnum - 0x80_0000;
    && t'.status == (if full && keep < 0 then Faulted else t.status)
    && if full && keep > t.contentOffset then
         && t.contentOffset <= t'.contentOffset <= End(t)
         && LastBoundary(t.content, keep - t.contentOffset, t'.contentOffset - t.contentOffset)
         && t'.content == t.content[t'.contentOffset - t.contentOffset..]
       else t'.contentOffset == t.contentOffset && t'.content == t.content
  }

  lemma PrunedContent(t: Task)
    ensures Pruned(t, PruneContent(t))
  {
    hide IsCharBoundary;
  }

  /** One turn of the loop. */
  function Iterate(key: Keystream, t: Task, e: Event): (Task, Option<TerminalData>) {
    if t.status != Live then (t, None)
    else
      var (t1, message) := Send(key, Receive(t, e));
      if t1.status == Faulted then (t1, None) else (PruneContent(t1), message)
  }

  function Listed<T>(o: Option<T>): seq<T> {
    if o.Some? then [o.value] else []
  }

  function RunTask(key: Keystream, t: Task, events: seq<Event>): (Task, seq<TerminalData>)
    decreases |events|
  {
    if events == [] then (t, [])
    else
      var turn := Iterate(key, t, events[0]);
      var rest := RunTask(key, turn.0, events[1..]);
      (rest.0, Listed(turn.1) + rest.1)
  }

  /** The output the terminal produced while the task was alive. */
  function OutputLog(key: Keystream, t: Task, log: Bytes, events: seq<Event>): Bytes
    decreases |events|
  {
    if events == [] then log
    else OutputLog(key, Iterate(key, t, events[0]).0, Grow(t, log, events[0]), events[1..])
  }

  function Grow(t: Task, log: Bytes, e: Event): Bytes {
    if t.status == Live && (e.Output? || e.Finish?) then log + e.text else log
  }

  lemma {:induction false} RunTaskDone(key: Keystream, t: Task, events: seq<Event>)
    requires t.status != Live
    ensures RunTask(key, t, events) == (t, [])
    decreases |events|
  {
    if events != [] {
      RunTaskDone(key, t, events[1..]);
      assert Listed<TerminalData>(None) + [] == [];
    }
  }

  /** The final state and all messages, from a point in the middle of a run. */
  ghost function Remaining(key: Keystream, t: Task, events: seq<Event>, i: nat, sent: seq<TerminalData>)
    : (Task, seq<TerminalData>)
    requires i <= |events|
  {
    var rest := RunTask(key, t, events[i..]);
    (rest.0, sent + rest.1)
  }

  lemma RunTaskStep(key: Keystream, t: Task, events: seq<Event>, i: nat, sent: seq<TerminalData>)
    requires i < |events|
    ensures var turn := Iterate(key, t, events[i]);
            Remaining(key, t, events, i, sent) == Remaining(key, turn.0, events, i + 1, sent + Listed(turn.1))
  {
    assert events[i..][1..] == events[i + 1..];
    var turn := Iterate(key, t, events[i]);
    var rest := RunTask(key, turn.0, events[i + 1..]);
    assert RunTask(key, t, events[i..]) == (rest.0, Listed(turn.1) + rest.1);
    assert sent + (Listed(turn.1) + rest.1) == sent + Listed(turn.1) + rest.1;
  }

  /** The running task, with the variables that its loop updates. */
  class ShellTask {
    const key: Keystream
    var content: Bytes
    var contentOffset: nat
    var seqnum: nat
    var seqOutdated: nat
    var status: Status

    function State(): Task
      reads this
    {
      Task(content, contentOffset, seqnum, seqOutdated, status)
    }

    constructor (key: Keystream)
      ensures State() == NEW_TASK == Task([], 0, 0, 0, Live) && this.key == key
    {
      this.key := key;
      content, contentOffset, seqnum, seqOutdated, status := [], 0, 0, 0, Live;
    }

    /** The select: handle what woke the task up. */
    method HandleEvent(e: Event)
      modifies this
      ensures State() == Receive(old(State()), e)
      ensures contentOffset == old(contentOffset)
      ensures content == old(content) + (if e.Output? || e.Finish? then e.text else [])
      ensures status == if e.Finish? then Finished else old(status)
      ensures var stale := e.Sync? && e.seq2 < old(seqnum);
              && seqOutdated == (if stale then old(seqOutdated) + 1 else old(seqOutdated))
              && seqnum == if stale && old(seqOutdated) >= 2 then e.seq2 else old(seqnum)
    {
      match e {
        case Output(text) => content := content + text;
        case Finish(text) => content, status := content + text, Finished;
        case Sync(seq2) =>
          if seq2 < seqnum {
            seqOutdated := seqOutdated + 1;
            if seqOutdated >= 3 {
              seqnum := seq2;
            }
          }
        case Other =>
      }
    }

    /** Send data if the server has fallen behind. */
    method SendBehind() returns (message: Option<TerminalData>)
      modifies this
      ensures (State(), message) == Send(key, old(State()))
      ensures content == old(content) && contentOffset == old(contentOffset)
      ensures var behind := contentOffset + |content| > old(seqnum);
              && (message.Some? <==> behind && contentOffset <= old(seqnum))
              && status == if behind && old(seqnum) < contentOffset then Faulted else old(status)
      ensures message.None? ==> seqnum == old(seqnum) && seqOutdated == old(seqOutdated)
      ensures message.Some? ==>
                && contentOffset <= message.value.seq0 <= seqnum <= contentOffset + |content| && seqOutdated == 0
                && var start, end := message.value.seq0 - contentOffset, seqnum - contentOffset;
                && LastBoundary(content, old(seqnum) - contentOffset, start)
                && LastBoundary(content, Min(start + 65536, |content|), end)
                && message.value.data == Segment(key, message.value.seq0, content[start..end])
    {
      hide PrevCharBoundary, IsCharBoundary, Segment;
      message := None;
      if contentOffset + |content| > seqnum {
        if seqnum < contentOffset {
          status := Faulted;
        } else {
          var start := PrevCharBoundary(content, seqnum - contentOffset);
          var end := PrevCharBoundary(content, Min(start + CONTENT_CHUNK_SIZE, |content|));
          assert start == ChunkStart(State()) && end == ChunkEnd(State());
          message := Some(Cut(key, State(), start, end));
          seqnum := contentOffset + end;
          seqOutdated := 0;
        }
      }
    }

    /** Forget old content once there is too much of it. */
    method PruneOld()
      modifies this
      ensures State() == PruneContent(old(State()))
      ensures Pruned(old(State()), State())
    {
      PrunedContent(State());
      hide Pruned, PrevCharBoundary;
      if |content| > CONTENT_PRUNE_BYTES {
        if seqnum < CONTENT_ROLLING_BYTES {
          status := Faulted;
        } else if seqnum - CONTENT_ROLLING_BYTES > contentOffset {
          var pruned := PrevCharBoundary(content, seqnum - CONTENT_ROLLING_BYTES - contentOffset);
          contentOffset := contentOffset + pruned;
          content := content[pruned..];
        }
      }
    }

    method Turn(e: Event) returns (message: Option<TerminalData>)
      requires status == Live
      modifies this
      ensures State() == Iterate(key, old(State()), e).0
      ensures message == Iterate(key, old(State()), e).1
      ensures var sent := Send(key, Receive(old(State()), e));
              && State() == (if sent.0.status == Faulted then sent.0 else PruneContent(sent.0))
              && message == if sent.0.status == Faulted then None else sent.1
    {
      HandleEvent(e);
      message := SendBehind();
      if status != Faulted {
        PruneOld();
      }
    }

    /** The loop, over the events the task wakes up for; returns the messages it hands on. */
    method Run(events: seq<Event>) returns (sent: seq<TerminalData>)
      modifies this
      ensures State() == RunTask(key, old(State()), events).0
      ensures sent == RunTask(key, old(State()), events).1
    {
      ghost var t0 := State();
      sent := [];
      var i := 0;
      assert events[0..] == events;
      while status == Live && i < |events|
        invariant 0 <= i <= |events|
        invariant Remaining(key, State(), events, i, sent) == Remaining(key, t0, events, 0, [])
        decreases |events| - i
      {
        RunTaskStep(key, State(), events, i, sent);
        var message := Turn(events[i]);
        sent := sent + Listed(message);
        i := i + 1;
      }
      if status != Live {
        RunTaskDone(key, State(), events[i..]);
      }
      assert [] + RunTask(key, t0, events).1 == RunTask(key, t0, events).1;
      assert sent + [] == sent;
    }
  }
}

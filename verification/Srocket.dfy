/** The browser's reconnecting socket. Messages are numbered in the order in which `send` is called;
    the log records every hand-over of a message to a socket. The environment opens and closes
    sockets and fires timers in any order it can. */
module Srocket {
  import opened ByteSeqs

  const BUFFER_SIZE: nat := 64

  datatype Phase = Connecting | Open | Closed

  datatype HandOver = HandOver(msg: nat, socket: nat)

  datatype State = State(
    ws: Option<nat>,        // the current socket, by its number
    connected: bool,
    buffer: seq<nat>,
    disposed: bool,
    thrown: bool,           // one of the two "invariant violation" errors was raised
    sockets: seq<Phase>,    // every socket ever created
    timers: nat,            // reconnection timers that have not fired
    next: nat,              // number of messages submitted so far
    log: seq<HandOver>,
    refused: seq<nat>)

  datatype Event =
    | SendMessage
    | Opened(socket: nat, greetings: nat)   // `onConnect` sends this many messages
    | SocketClosed(socket: nat)
    | TimerFires
    | Dispose

  function Send(s: State): State {
    var s1 := s.(next := s.next + 1);
    if s.connected && s.ws.Some? then s1.(log := s.log + [HandOver(s.next, s.ws.value)])
    else if |s.buffer| < BUFFER_SIZE then s1.(buffer := s.buffer + [s.next])
    else s1.(refused := s.refused + [s.next])
  }

  function SendMany(s: State, n: nat): State {
    if n == 0 then s else Send(SendMany(s, n - 1))
  }

  function HandAll(msgs: seq<nat>, socket: nat): (r: seq<HandOver>)
    ensures |r| == |msgs|
  {
    if msgs == [] then [] else [HandOver(msgs[0], socket)] + HandAll(msgs[1..], socket)
  }

  /** Send what was queued to the current socket. */
  function Flush(s: State): State {
    if s.ws.None? then s.(thrown := true)
    else s.(log := s.log + HandAll(s.buffer, s.ws.value), buffer := [])
  }

  function StateChange(s: State, connected: bool, greetings: nat): State {
    if s.disposed || connected == s.connected then s
    else
      var s1 := s.(connected := connected);
      if connected then Flush(SendMany(s1, greetings)) else s1
  }

  function Reconnect(s: State): State {
    if s.disposed then s
    else if s.ws.Some? then s.(thrown := true)
    else s.(ws := Some(|s.sockets|), sockets := s.sockets + [Connecting])
  }

  function Act(s: State, e: Event): State {
    match e
    case SendMessage => Send(s)
    case Opened(k, greetings) =>
      if k < |s.sockets| && s.sockets[k] == Connecting then
        StateChange(s.(sockets := s.sockets[k := Open]), true, greetings)
      else s
    case SocketClosed(k) =>
      if k < |s.sockets| && s.sockets[k] != Closed then
        var s1 := StateChange(s.(sockets := s.sockets[k := Closed], ws := None), false, 0);
        s1.(timers := s1.timers + 1)
      else s
    case TimerFires =>
      if s.timers > 0 then Reconnect(s.(timers := s.timers - 1)) else s
    case Dispose => StateChange(s, false, 0).(disposed := true)
  }

  function Run(s: State, events: seq<Event>): State
    decreases |events|
  {
    if events == [] then s else Run(Act(s, events[0]), events[1..])
  }

  const FRESH: State := State(None, false, [], false, false, [], 0, 0, [], [])

  /** The constructor ends by connecting. */
  function Created(): State {
    Reconnect(FRESH)
  }

  // ----- Messages are accounted for -----

  function Upto(n: nat): seq<nat> {
    if n == 0 then [] else Upto(n - 1) + [n - 1]
  }

  function Msgs(log: seq<HandOver>): seq<nat> {
    if log == [] then [] else [log[0].msg] + Msgs(log[1..])
  }

  lemma {:induction false} MsgsAppend(a: seq<HandOver>, b: seq<HandOver>)
    ensures Msgs(a + b) == Msgs(a) + Msgs(b)
  {
    if a == [] {
      assert a + b == b;
    } else {
      assert (a + b)[1..] == a[1..] + b;
      MsgsAppend(a[1..], b);
    }
  }

  lemma {:induction false} HandAllMsgs(msgs: seq<nat>, socket: nat)
    ensures Msgs(HandAll(msgs, socket)) == msgs
  {
    if msgs != [] {
      HandAllMsgs(msgs[1..], socket);
      assert HandAll(msgs, socket)[1..] == HandAll(msgs[1..], socket);
    }
  }

  predicate Increasing(msgs: seq<nat>) {
    forall i, j :: 0 <= i < j < |msgs| ==> msgs[i] < msgs[j]
  }

  /** Every message submitted was handed over, waits, or was refused, and only one of these, once. */
  ghost predicate Once(handed: seq<nat>, buffer: seq<nat>, refused: seq<nat>, next: nat) {
    multiset(handed) + multiset(buffer) + multiset(refused) == multiset(Upto(next))
  }

  /** What waits is in the order in which it was sent. */
  predicate InOrder(buffer: seq<nat>, next: nat) {
    && Increasing(buffer)
    && forall i :: 0 <= i < |buffer| ==> buffer[i] < next
  }

  ghost predicate Accounted(s: State) {
    && Once(Msgs(s.log), s.buffer, s.refused, s.next)
    && InOrder(s.buffer, s.next)
    && |s.buffer| <= BUFFER_SIZE
  }

  // ----- The invariant -----

  /** There is at most one live socket and it is the current one; a reconnection is pending exactly
      when there is none, until disposal; connected means the current socket is open, and then
      nothing is queued. */
  predicate SocketsOk(s: State) {
    && !s.thrown
    && (s.ws.Some? ==> s.ws.value + 1 == |s.sockets| && s.sockets[s.ws.value] != Closed)
    && (forall k :: 0 <= k < |s.sockets| && s.ws != Some(k) ==> s.sockets[k] == Closed)
    && (s.disposed || s.timers + (if s.ws.Some? then 1 else 0) == 1)
    && (s.connected <==> s.ws.Some? && s.sockets[s.ws.value] == Open && !s.disposed)
    && (s.connected ==> s.buffer == [])
  }

  ghost predicate SrocketOk(s: State) {
    SocketsOk(s) && Accounted(s)
  }

  lemma OnceMore(handed: seq<nat>, buffer: seq<nat>, refused: seq<nat>, next: nat)
    requires Once(handed, buffer, refused, next)
    ensures Once(handed + [next], buffer, refused, next + 1)
    ensures Once(handed, buffer + [next], refused, next + 1)
    ensures Once(handed, buffer, refused + [next], next + 1)
  {
    assert Upto(next + 1) == Upto(next) + [next];
    hide Upto;
  }

  lemma OnceFlushed(handed: seq<nat>, buffer: seq<nat>, refused: seq<nat>, next: nat)
    requires Once(handed, buffer, refused, next)
    ensures Once(handed + buffer, [], refused, next)
  {
    hide Upto;
  }

  lemma InOrderMore(buffer: seq<nat>, next: nat)
    requires InOrder(buffer, next)
    ensures InOrder(buffer + [next], next + 1)
    ensures InOrder(buffer, next + 1)
  {
  }

  lemma SendOk(s: State)
    requires Accounted(s)
    ensures Accounted(Send(s))
  {
    hide Once, InOrder, Msgs;
    OnceMore(Msgs(s.log), s.buffer, s.refused, s.next);
    InOrderMore(s.buffer, s.next);
    if s.connected && s.ws.Some? {
      HandOverMsgs(s.log, s.next, s.ws.value);
    }
  }

  lemma HandOverMsgs(log: seq<HandOver>, msg: nat, socket: nat)
    ensures Msgs(log + [HandOver(msg, socket)]) == Msgs(log) + [msg]
  {
    MsgsAppend(log, [HandOver(msg, socket)]);
    assert Msgs([HandOver(msg, socket)]) == [msg];
  }

  lemma {:induction false} SendManyOk(s: State, n: nat)
    requires Accounted(s)
    ensures Accounted(SendMany(s, n))
  {
    hide Accounted, Send;
    if n == 0 {
    } else {
      SendManyOk(s, n - 1);
      SendOk(SendMany(s, n - 1));
    }
  }

  /** While connected, messages go straight to the current socket, in order. */
  lemma {:induction false} SendManyConnected(s: State, n: nat)
    requires s.connected && s.ws.Some?
    ensures SendMany(s, n) == s.(next := s.next + n, log := s.log + HandAll(Range(s.next, n), s.ws.value))
  {
    if n == 0 {
      assert s.log + [] == s.log;
    } else {
      hide HandAll, Range;
      SendManyConnected(s, n - 1);
      HandRange(s.next, n, s.ws.value);
      AppendThree(s.log, HandAll(Range(s.next, n - 1), s.ws.value), [HandOver(s.next + n - 1, s.ws.value)]);
    }
  }

  lemma HandRange(from: nat, n: nat, socket: nat)
    requires n > 0
    ensures HandAll(Range(from, n), socket) == HandAll(Range(from, n - 1), socket) + [HandOver(from + n - 1, socket)]
  {
    assert Range(from, n) == Range(from, n - 1) + [from + n - 1];
    hide HandAll, Range;
    HandAllSnoc(Range(from, n - 1), from + n - 1, socket);
  }

  /** The `n` numbers from `from` on. */
  function Range(from: nat, n: nat): seq<nat> {
    if n == 0 then [] else Range(from, n - 1) + [from + n - 1]
  }

  lemma {:induction false} HandAllSnoc(msgs: seq<nat>, msg: nat, socket: nat)
    ensures HandAll(msgs + [msg], socket) == HandAll(msgs, socket) + [HandOver(msg, socket)]
  {
    if msgs == [] {
      assert [] + [msg] == [msg];
    } else {
      assert (msgs + [msg])[1..] == msgs[1..] + [msg];
      HandAllSnoc(msgs[1..], msg, socket);
    }
  }

  /** Messages in the order of their numbers, and all to one socket. */
  lemma {:induction false} HandAllAt(msgs: seq<nat>, socket: nat, i: nat)
    requires i < |msgs|
    ensures HandAll(msgs, socket)[i] == HandOver(msgs[i], socket)
  {
    if i > 0 { HandAllAt(msgs[1..], socket, i - 1); }
  }

  lemma {:induction false} RangeAt(from: nat, n: nat, i: nat)
    requires i < n
    ensures |Range(from, n)| == n && Range(from, n)[i] == from + i
  {
    if n > 1 { RangeAt(from, n - 1, if i < n - 1 then i else 0); }
  }

  lemma FlushOk(s: State)
    requires Accounted(s) && s.ws.Some?
    ensures Accounted(Flush(s))
  {
    hide Once, Msgs, HandAll;
    MsgsAppend(s.log, HandAll(s.buffer, s.ws.value));
    HandAllMsgs(s.buffer, s.ws.value);
    OnceFlushed(Msgs(s.log), s.buffer, s.refused, s.next);
  }

  /** A socket opening: the greetings of `onConnect` go out first, then everything that was queued,
      in the order in which it was sent, all to that socket, and nothing stays queued. */
  lemma OpenedFlushes(s: State, k: nat, greetings: nat)
    requires SrocketOk(s) && k < |s.sockets| && s.sockets[k] == Connecting && !s.disposed
    ensures var s' := Act(s, Opened(k, greetings));
            && SrocketOk(s')
            && s'.log == s.log + HandAll(Range(s.next, greetings), k) + HandAll(s.buffer, k)
            && s'.buffer == [] && s'.connected && s'.ws == Some(k)
            && s'.refused == s.refused && s'.next == s.next + greetings && s'.sockets == s.sockets[k := Open]
            && Increasing(s.buffer)
  {
    hide HandAll, Range, Increasing, SendMany, Once, Send;
    var s1 := s.(sockets := s.sockets[k := Open], connected := true);
    assert Increasing(s.buffer);
    AccountedFrame(s, s1);
    hide Accounted;
    SendManyOk(s1, greetings);
    SendManyConnected(s1, greetings);
    FlushOk(SendMany(s1, greetings));
  }

  lemma AccountedFrame(s: State, s': State)
    requires Accounted(s)
    requires s'.log == s.log && s'.buffer == s.buffer && s'.refused == s.refused && s'.next == s.next
    ensures Accounted(s')
  {
  }

  /** A message is refused exactly when the socket is not connected and the queue is full. */
  lemma RefusedIff(s: State)
    requires SrocketOk(s)
    ensures Act(s, SendMessage).refused != s.refused <==> !s.connected && |s.buffer| == BUFFER_SIZE
    ensures Act(s, SendMessage).refused != s.refused ==> Act(s, SendMessage).refused == s.refused + [s.next]
  {
  }

  lemma SocketClosedOk(s: State, k: nat)
    requires SocketsOk(s)
    ensures SocketsOk(Act(s, SocketClosed(k)))
  {
  }

  lemma TimerOk(s: State)
    requires SocketsOk(s)
    ensures SocketsOk(Act(s, TimerFires))
  {
  }

  lemma QuietFrame(s: State, e: Event)
    requires e.SocketClosed? || e.TimerFires? || e.Dispose?
    ensures var s' := Act(s, e);
            s'.log == s.log && s'.buffer == s.buffer && s'.refused == s.refused && s'.next == s.next
  {
  }

  lemma ActOk(s: State, e: Event)
    requires SrocketOk(s)
    ensures SrocketOk(Act(s, e))
  {
    hide Accounted;
    match e
    case SendMessage => SendOk(s);
    case Opened(k, greetings) =>
      if k < |s.sockets| && s.sockets[k] == Connecting && !s.disposed {
        OpenedFlushes(s, k, greetings);
      } else {
        AccountedFrame(s, Act(s, e));
      }
    case SocketClosed(k) => QuietFrame(s, e); AccountedFrame(s, Act(s, e)); SocketClosedOk(s, k);
    case TimerFires => QuietFrame(s, e); AccountedFrame(s, Act(s, e)); TimerOk(s);
    case Dispose => QuietFrame(s, e); AccountedFrame(s, Act(s, e));
  }

  lemma {:induction false} RunOk(s: State, events: seq<Event>)
    requires SrocketOk(s)
    ensures SrocketOk(Run(s, events))
    decreases |events|
  {
    if events != [] {
      hide SrocketOk, Act;
      ActOk(s, events[0]);
      RunOk(Act(s, events[0]), events[1..]);
    }
  }

  lemma {:induction false} UptoOnce(n: nat, x: nat)
    ensures multiset(Upto(n))[x] == if x < n then 1 else 0
  {
    if n > 0 { UptoOnce(n - 1, x); }
  }

  lemma {:induction false} MsgsAt(log: seq<HandOver>, i: nat)
    requires i < |log|
    ensures |Msgs(log)| == |log| && Msgs(log)[i] == log[i].msg
  {
    if i > 0 { MsgsAt(log[1..], i - 1); } else if |log| > 1 { MsgsAt(log[1..], 0); }
  }

  lemma TwicePresent(msgs: seq<nat>, i: nat, j: nat)
    requires i < j < |msgs| && msgs[i] == msgs[j]
    ensures multiset(msgs)[msgs[i]] >= 2
  {
    assert msgs == msgs[..i] + [msgs[i]] + msgs[i + 1..j] + [msgs[j]] + msgs[j + 1..];
  }

  /** Over every run of sends, openings, closings, timers and disposal: neither error is ever raised,
      no message is handed over twice, and every message is accounted for. */
  lemma AtMostOnce(events: seq<Event>)
    ensures var s := Run(Created(), events);
            && !s.thrown
            && SocketsOk(s)
            && (forall i, j :: 0 <= i < j < |s.log| ==> s.log[i].msg != s.log[j].msg)
            && (forall i :: 0 <= i < |s.log| ==> s.log[i].msg !in s.buffer && s.log[i].msg !in s.refused)
            && |s.log| + |s.buffer| + |s.refused| == s.next
  {
    RunOk(Created(), events);
    var s := Run(Created(), events);
    hide Run, SocketsOk;
    forall i, j | 0 <= i < j < |s.log| ensures s.log[i].msg != s.log[j].msg {
      NotTwice(s, i, j);
    }
    forall i | 0 <= i < |s.log| ensures s.log[i].msg !in s.buffer && s.log[i].msg !in s.refused {
      NotElsewhere(s, i);
    }
    Sizes(s);
  }

  lemma NotTwice(s: State, i: nat, j: nat)
    requires Accounted(s) && i < j < |s.log|
    ensures s.log[i].msg != s.log[j].msg
  {
    MsgsAt(s.log, i);
    MsgsAt(s.log, j);
    UptoOnce(s.next, s.log[i].msg);
    if s.log[i].msg == s.log[j].msg {
      TwicePresent(Msgs(s.log), i, j);
    }
  }

  lemma NotElsewhere(s: State, i: nat)
    requires Accounted(s) && i < |s.log|
    ensures s.log[i].msg !in s.buffer && s.log[i].msg !in s.refused
  {
    var x := s.log[i].msg;
    MsgsAt(s.log, i);
    UptoOnce(s.next, x);
    assert x in multiset(Msgs(s.log));
  }

  lemma {:induction false} UptoLength(n: nat)
    ensures |Upto(n)| == n
  {
    if n > 0 { UptoLength(n - 1); }
  }

  lemma Sizes(s: State)
    requires Accounted(s)
    ensures |s.log| + |s.buffer| + |s.refused| == s.next
  {
    UptoLength(s.next);
    if s.log != [] { MsgsAt(s.log, 0); }
    assert |multiset(Msgs(s.log)) + multiset(s.buffer) + multiset(s.refused)| == |multiset(Upto(s.next))|;
  }

  // ----- Every event from a proper state, outright -----

  lemma SentIs(s: State)
    requires SocketsOk(s)
    ensures Act(s, SendMessage) == s.(
              next := s.next + 1,
              log := s.log + (if s.ws.Some? && s.connected then [HandOver(s.next, s.ws.value)] else []),
              buffer := s.buffer + (if !s.connected && |s.buffer| < 64 then [s.next] else []),
              refused := s.refused + (if !s.connected && |s.buffer| >= 64 then [s.next] else []))
  {
  }

  lemma ClosedIs(s: State, k: nat)
    requires SocketsOk(s) && k < |s.sockets| && s.sockets[k] != Closed
    ensures Act(s, SocketClosed(k)) == s.(
              sockets := s.sockets[k := Closed], ws := None, connected := false, timers := s.timers + 1)
  {
  }

  lemma TimerIs(s: State)
    requires SocketsOk(s) && s.timers > 0
    ensures Act(s, TimerFires) == if s.disposed then s.(timers := s.timers - 1)
                                  else s.(timers := s.timers - 1, ws := Some(|s.sockets|),
                                          sockets := s.sockets + [Connecting])
  {
  }

  lemma DisposedIs(s: State)
    requires SocketsOk(s)
    ensures Act(s, Dispose) == s.(disposed := true, connected := false)
  {
  }

  lemma OpenedIs(s: State, k: nat, greetings: nat)
    requires SrocketOk(s) && k < |s.sockets| && s.sockets[k] == Connecting
    ensures var s' := Act(s, Opened(k, greetings));
            && s'.sockets == s.sockets[k := Open] && s'.disposed == s.disposed
            && (s.disposed ==> s' == s.(sockets := s.sockets[k := Open]))
            && (!s.disposed ==>
                  && s'.connected && s'.ws == Some(k) && s'.buffer == []
                  && s'.log == s.log + HandAll(Range(s.next, greetings), k) + HandAll(s.buffer, k))
  {
    hide HandAll, Range, Increasing, Once, Send, Accounted;
    if !s.disposed { OpenedFlushes(s, k, greetings); }
  }

  // ----- The object -----

  /** The socket with its own fields, and the browser beneath it: the sockets it created, the timers
      that run, and the record of what was handed over. */
  class Socket {
    var ws: Option<nat>
    var connected: bool
    var buffer: seq<nat>
    var disposed: bool

    var thrown: bool
    var sockets: seq<Phase>
    var timers: nat
    var next: nat
    var log: seq<HandOver>
    var refused: seq<nat>

    function Now(): (s: State)
      reads this
    {
      State(ws, connected, buffer, disposed, thrown, sockets, timers, next, log, refused)
    }

    constructor ()
      ensures Now() == Created() && SrocketOk(Now())
    {
      ws, connected, buffer, disposed := None, false, [], false;
      thrown, sockets, timers, next, log, refused := false, [], 0, 0, [], [];
      new;
      Redial();
    }

    /** The message is handed to the open socket, else queued, else refused. */
    method Submit()
      requires SrocketOk(Now())
      modifies this
      ensures Now() == Act(old(Now()), SendMessage) && SrocketOk(Now())
      ensures ws == old(ws) && connected == old(connected) && disposed == old(disposed) && next == old(next) + 1
      ensures log == old(log) + (if connected && ws.Some? then [HandOver(old(next), ws.value)] else [])
      ensures buffer == old(buffer) + (if !connected && |old(buffer)| < 64 then [old(next)] else [])
      ensures refused == old(refused) + (if !connected && |old(buffer)| >= 64 then [old(next)] else [])
    {
      ActOk(Now(), SendMessage);
      SentIs(Now());
      hide SrocketOk, SocketsOk, Send;
      HandOrQueue();
    }

    method HandOrQueue()
      modifies this
      ensures Now() == Send(old(Now()))
    {
      if connected && ws.Some? {
        log := log + [HandOver(next, ws.value)];
      } else if |buffer| < BUFFER_SIZE {
        buffer := buffer + [next];
      } else {
        refused := refused + [next];
      }
      next := next + 1;
    }

    method Retire()
      requires SrocketOk(Now())
      modifies this
      ensures Now() == Act(old(Now()), Dispose) && SrocketOk(Now())
      ensures Now() == old(Now()).(disposed := true, connected := false)
    {
      ActOk(Now(), Dispose);
      DisposedIs(Now());
      hide SrocketOk, SocketsOk, StateChange;
      ChangeState(false, 0);
      disposed := true;
    }

    method OnOpen(k: nat, greetings: nat)
      requires SrocketOk(Now()) && k < |sockets| && sockets[k] == Connecting
      modifies this
      ensures Now() == Act(old(Now()), Opened(k, greetings)) && SrocketOk(Now())
      ensures disposed ==> Now() == old(Now()).(sockets := old(sockets)[k := Open])
      ensures !disposed ==>
                && connected && ws == Some(k) && sockets == old(sockets)[k := Open] && buffer == []
                && log == old(log) + HandAll(Range(old(next), greetings), k) + HandAll(old(buffer), k)
    {
      hide SrocketOk, StateChange, HandAll, Range;
      ghost var before := Now();
      OpenedIs(before, k, greetings);
      sockets := sockets[k := Open];
      ChangeState(true, greetings);
      assert Now() == Act(before, Opened(k, greetings));
      ActOk(before, Opened(k, greetings));
    }

    method OnClose(k: nat)
      requires SrocketOk(Now()) && k < |sockets| && sockets[k] != Closed
      modifies this
      ensures Now() == Act(old(Now()), SocketClosed(k)) && SrocketOk(Now())
      ensures Now() == old(Now()).(sockets := old(sockets)[k := Closed], ws := None, connected := false,
                                   timers := old(timers) + 1)
    {
      ClosedIs(Now(), k);
      hide SrocketOk, SocketsOk, StateChange;
      ghost var before := Now();
      sockets := sockets[k := Closed];
      ws := None;
      ChangeState(false, 0);
      timers := timers + 1;
      assert Now() == Act(before, SocketClosed(k));
      ActOk(before, SocketClosed(k));
    }

    method OnTimer()
      requires SrocketOk(Now()) && timers > 0
      modifies this
      ensures Now() == Act(old(Now()), TimerFires) && SrocketOk(Now())
      ensures disposed ==> Now() == old(Now()).(timers := old(timers) - 1)
      ensures !disposed ==>
                Now() == old(Now()).(timers := old(timers) - 1, ws := Some(|old(sockets)|),
                                     sockets := old(sockets) + [Connecting])
    {
      TimerIs(Now());
      hide SrocketOk, SocketsOk, Reconnect;
      ghost var before := Now();
      timers := timers - 1;
      Redial();
      assert Now() == Act(before, TimerFires);
      ActOk(before, TimerFires);
    }

    method Redial()
      modifies this
      ensures Now() == Reconnect(old(Now()))
    {
      if disposed {
        return;
      }
      if ws.Some? {
        thrown := true;
        return;
      }
      ws := Some(|sockets|);
      sockets := sockets + [Connecting];
    }

    method ChangeState(up: bool, greetings: nat)
      modifies this
      ensures Now() == StateChange(old(Now()), up, greetings)
    {
      if disposed || up == connected {
        return;
      }
      connected := up;
      if up {
        Greet(greetings);
        FlushQueue();
      }
    }

    method Greet(greetings: nat)
      modifies this
      ensures Now() == SendMany(old(Now()), greetings)
    {
      ghost var s1 := Now();
      hide Send;
      for i := 0 to greetings
        invariant Now() == SendMany(s1, i)
      {
        HandOrQueue();
      }
    }

    method FlushQueue()
      modifies this
      ensures Now() == Flush(old(Now()))
      ensures ws.Some? ==> Now() == old(Now()).(log := old(log) + HandAll(old(buffer), ws.value), buffer := [])
    {
      if ws.None? {
        thrown := true;
        return;
      }
      ghost var start := log;
      var queued, socket := buffer, ws.value;
      for i := 0 to |queued|
        invariant Now() == old(Now()).(log := start + HandAll(queued[..i], socket))
      {
        HandAllSnoc(queued[..i], queued[i], socket);
        assert queued[..i + 1] == queued[..i] + [queued[i]];
        log := log + [HandOver(queued[i], socket)];
      }
      assert queued[..|queued|] == queued;
      buffer := [];
    }
  }
}

/** Bringing the server's set of shells in line with the client's table after a reconnection: the hello
    names the keys of the table, the server registers those it does not know, reports the positions of
    its open shells, and the client has the ones that are not in its table closed. The table is not the
    set of running shells: a shell whose task ends by itself keeps its key. */
module Reconciliation {
  import opened ByteSeqs
  import opened KeyedLists
  import opened ShellStore
  import opened SessionModel
  import opened Hello
  import opened Sessions

  function Elements(ids: seq<Sid>): set<Sid> {
    if ids == [] then {} else {ids[0]} + Elements(ids[1..])
  }

  // ----- The two halves on session values -----

  function RecoverShells(s: SessionState, ids: seq<Sid>): SessionState
    decreases |ids|
  {
    if ids == [] then s else RecoverShells(Apply(s, AddShell(ids[0], 0, 0)).0, ids[1..])
  }

  function CloseShells(s: SessionState, ids: seq<Sid>): SessionState
    decreases |ids|
  {
    if ids == [] then s else CloseShells(Apply(s, CloseShell(ids[0])).0, ids[1..])
  }

  /** Recovery opens exactly the named shells that were unknown; a closed shell stays closed. */
  lemma {:induction false} RecoverOpens(s: SessionState, ids: seq<Sid>)
    requires SessionOk(s)
    ensures SessionOk(RecoverShells(s, ids))
    ensures OpenIds(RecoverShells(s, ids).shells) == OpenIds(s.shells) + (Elements(ids) - s.shells.Keys)
    ensures ClosedIds(RecoverShells(s, ids).shells) == ClosedIds(s.shells)
    decreases |ids|
  {
    hide SessionOk, OpenIds, ClosedIds, Apply;
    if ids == [] {
      assert OpenIds(s.shells) + ({} - s.shells.Keys) == OpenIds(s.shells);
    } else {
      AddOpens(s, ids[0]);
      RecoverOpens(Apply(s, AddShell(ids[0], 0, 0)).0, ids[1..]);
      NewOnes(OpenIds(s.shells), s.shells.Keys, ids[0], Elements(ids[1..]));
    }
  }

  /** What the session holds after `before` has been recovered into it: everything it held, and for each new
      shell an empty record and a window of 24 rows and 80 columns at the origin, behind the others. */
  predicate Recovered(s: SessionState, r: SessionState) {
    && r.metadata == s.metadata && r.nextSid == s.nextSid && r.nextUid == s.nextUid
    && s.shells.Keys <= r.shells.Keys
    && (forall id :: id in r.shells ==>
          r.shells[id] == if id in s.shells then s.shells[id] else Shell(0, [], 0, 0, false))
    && s.source <= r.source
    && (forall i :: |s.source| <= i < |r.source| ==>
          r.source[i].id !in s.shells && r.source[i].value == Winsize(0, 0, 24, 80))
  }

  lemma {:induction false} RecoverAdds(s: SessionState, ids: seq<Sid>)
    ensures Recovered(s, RecoverShells(s, ids))
    ensures RecoverShells(s, ids).shells.Keys == s.shells.Keys + Elements(ids)
    decreases |ids|
  {
    hide Recovered, Apply;
    if ids == [] {
      NothingRecovered(s);
    } else {
      var s1 := Apply(s, AddShell(ids[0], 0, 0)).0;
      OneRecovered(s, ids[0]);
      RecoverAdds(s1, ids[1..]);
      RecoveredBoth(s, s1, RecoverShells(s1, ids[1..]));
    }
  }

  lemma NothingRecovered(s: SessionState)
    ensures Recovered(s, s)
  {
  }

  lemma OneRecovered(s: SessionState, id: Sid)
    ensures Recovered(s, Apply(s, AddShell(id, 0, 0)).0)
    ensures Apply(s, AddShell(id, 0, 0)).0.shells.Keys == s.shells.Keys + {id}
  {
  }

  lemma RecoveredBoth(s: SessionState, s1: SessionState, r: SessionState)
    requires Recovered(s, s1) && Recovered(s1, r)
    ensures Recovered(s, r)
  {
    forall i | |s.source| <= i < |r.source|
      ensures r.source[i].id !in s.shells && r.source[i].value == Winsize(0, 0, 24, 80)
    {
      if i < |s1.source| { assert r.source[i] == s1.source[i]; }
    }
  }

  /** Closing leaves every record in the session and marks those of the named shells. */
  lemma {:induction false} CloseMarks(s: SessionState, ids: seq<Sid>)
    ensures var r := CloseShells(s, ids);
            && r.metadata == s.metadata && r.nextSid == s.nextSid && r.nextUid == s.nextUid
            && r.shells == map id | id in s.shells ::
                             s.shells[id].(closed := s.shells[id].closed || id in Elements(ids))
    decreases |ids|
  {
    if ids == [] {
    } else {
      hide Without;
      CloseMarks(Apply(s, CloseShell(ids[0])).0, ids[1..]);
    }
  }

  lemma NewOnes(open: set<Sid>, known: set<Sid>, id: Sid, later: set<Sid>)
    ensures open + ({id} - known) + (later - (known + {id})) == open + (({id} + later) - known)
  {
  }

  lemma AddOpens(s: SessionState, id: Sid)
    requires SessionOk(s)
    ensures var s' := Apply(s, AddShell(id, 0, 0)).0;
            && SessionOk(s')
            && OpenIds(s'.shells) == OpenIds(s.shells) + ({id} - s.shells.Keys)
            && ClosedIds(s'.shells) == ClosedIds(s.shells)
            && s'.shells.Keys == s.shells.Keys + {id}
  {
    hide SessionOk;
    ApplyKeeps(s, AddShell(id, 0, 0));
  }

  lemma {:induction false} CloseCloses(s: SessionState, ids: seq<Sid>)
    requires SessionOk(s)
    ensures SessionOk(CloseShells(s, ids))
    ensures OpenIds(CloseShells(s, ids).shells) == OpenIds(s.shells) - Elements(ids)
    decreases |ids|
  {
    hide SessionOk, OpenIds, Apply;
    if ids == [] {
      assert OpenIds(s.shells) - {} == OpenIds(s.shells);
    } else {
      CloseOne(s, ids[0]);
      CloseCloses(Apply(s, CloseShell(ids[0])).0, ids[1..]);
      assert OpenIds(s.shells) - {ids[0]} - Elements(ids[1..]) == OpenIds(s.shells) - ({ids[0]} + Elements(ids[1..]));
    }
  }

  lemma CloseOne(s: SessionState, id: Sid)
    requires SessionOk(s)
    ensures SessionOk(Apply(s, CloseShell(id)).0)
    ensures OpenIds(Apply(s, CloseShell(id)).0.shells) == OpenIds(s.shells) - {id}
  {
    hide SessionOk;
    ApplyKeeps(s, CloseShell(id));
  }

  /** From any starting pair of sets: after the recovery and one exchange, the server's open shells are
      exactly those in the client's table, except the ones the server had already closed. */
  lemma Reconciled(s: SessionState, keys: set<Sid>, named: seq<Sid>, unknown: seq<Sid>)
    requires SessionOk(s) && Elements(named) == keys
    requires Elements(unknown) == SequenceNumbers(RecoverShells(s, named).shells).Keys - keys
    ensures var s' := CloseShells(RecoverShells(s, named), unknown);
            && SessionOk(s')
            && OpenIds(s'.shells) == keys - ClosedIds(s.shells)
            && OpenIds(s'.shells) <= Ids(s'.source)
  {
    RecoverOpens(s, named);
    var r := RecoverShells(s, named);
    CloseCloses(r, unknown);
    assert SequenceNumbers(r.shells).Keys == OpenIds(r.shells);
    assert s.shells.Keys == OpenIds(s.shells) + ClosedIds(s.shells);
    assert OpenIds(s.shells) !! ClosedIds(s.shells);
  }

  // ----- The client -----

  /** The announcement of a shell that was started. */
  datatype NewShell = NewShell(id: Sid, x: int, y: int)

  /** The controller's side: its table of shells, and how to reach the server. A key leaves the table only
      when the server asks to close the shell; `live` are the keys whose task has not ended. */
  class Controller {
    const name: string
    const token: string
    var shellsTx: set<Sid>
    var live: set<Sid>

    constructor (name: string, token: string)
      ensures this.name == name && this.token == token && shellsTx == {} && live == {}
    {
      this.name, this.token := name, token;
      shellsTx, live := {}, {};
    }

    /** What is in the table without a task behind it. */
    ghost function Ended(): set<Sid>
      reads this
    {
      shellsTx - live
    }

    /** The hello of a connection: the keys are named in some order, each once. */
    method HelloString() returns (hello: string, ids: seq<Sid>)
      ensures hello == PrintHello(name, token, ids) && Elements(ids) == shellsTx && |ids| == |shellsTx|
      ensures shellsTx == {} ==> ids == [] && hello == name + "," + token
      ensures shellsTx != {} ==> hello == name + "," + token + ";" + Join(Decimals(ids), ',')
    {
      hello := name + "," + token;
      ids := Keys();
      if shellsTx != {} {
        hello := hello + ";";
        hello := hello + Join(Decimals(ids), ',');
        assert hello == name + "," + token + (";" + Join(Decimals(ids), ','));
      } else {
        assert ids == [] && hello + "" == hello;
      }
    }

    /** The keys in the order in which they happen to be visited. */
    method Keys() returns (order: seq<Sid>)
      ensures Elements(order) == shellsTx && |order| == |shellsTx|
    {
      order := [];
      var todo := shellsTx;
      while todo != {}
        invariant todo <= shellsTx && Elements(order) == shellsTx - todo && |order| + |todo| == |shellsTx|
        decreases |todo|
      {
        var sid :| sid in todo;
        ElementsAppend(order, sid);
        order, todo := order + [sid], todo - {sid};
      }
    }

    /** The server asks for a new shell: it is started and its first message announces it; a
        duplicate is ignored. */
    method HandleCreate(id: Sid, x: int, y: int) returns (announced: Option<NewShell>)
      modifies this
      ensures shellsTx == old(shellsTx) + {id}
      ensures live == if id in old(shellsTx) then old(live) else old(live) + {id}
      ensures announced == if id in old(shellsTx) then None else Some(NewShell(id, x, y))
    {
      announced := None;
      if id !in shellsTx {
        shellsTx, live := shellsTx + {id}, live + {id};
        announced := Some(NewShell(id, x, y));
      }
    }

    /** The server asks to close a shell; the answer is sent whether or not it was known. */
    method HandleClose(id: Sid) returns (closedShell: Sid)
      modifies this
      ensures shellsTx == old(shellsTx) - {id} && live == old(live) - {id} && closedShell == id
    {
      shellsTx, live := shellsTx - {id}, live - {id};
      closedShell := id;
    }

    /** The task of a shell ends by itself: it tells the server, and its key stays in the table. */
    method TaskEnds(id: Sid) returns (closedShell: Sid)
      requires id in live
      modifies this
      ensures shellsTx == old(shellsTx) && live == old(live) - {id} && closedShell == id
    {
      live := live - {id};
      closedShell := id;
    }

    /** Reported positions go to the keys of the table; each other shell is answered as closed. */
    method HandleSync(seqnums: map<Sid, nat>) returns (forwarded: map<Sid, nat>, unknown: seq<Sid>)
      ensures forwarded == map id | id in seqnums && id in shellsTx :: seqnums[id]
      ensures Elements(unknown) == seqnums.Keys - shellsTx
    {
      hide Elements;
      forwarded, unknown := map[], [];
      var todo := seqnums.Keys;
      NoElements();
      while todo != {}
        invariant todo <= seqnums.Keys
        invariant forwarded == map id | id in seqnums && id in shellsTx && id !in todo :: seqnums[id]
        invariant Elements(unknown) == seqnums.Keys - shellsTx - todo
        decreases |todo|
      {
        var id :| id in todo;
        if id in shellsTx {
          forwarded := forwarded[id := seqnums[id]];
        } else {
          ElementsAppend(unknown, id);
          unknown := unknown + [id];
        }
        todo := todo - {id};
      }
    }
  }

  lemma NoElements()
    ensures Elements([]) == {}
  {
  }

  lemma {:induction false} ElementsAppend(ids: seq<Sid>, id: Sid)
    ensures Elements(ids + [id]) == Elements(ids) + {id}
  {
    if ids == [] {
      assert [] + [id] == [id];
    } else {
      assert (ids + [id])[1..] == ids[1..] + [id];
      ElementsAppend(ids[1..], id);
    }
  }

  // ----- The server -----

  /** The server's half of the hello. It fails when name and token cannot be parsed, the token is not
      valid for the name, or there is no such session. Otherwise every shell it names and the session
      does not know is registered, and all the named ones are ordered to be resized. */
  method RecoverFromHello(sessions: map<string, Session>, validToken: (string, string) -> bool, hello: string)
    returns (session: Session?, resized: seq<Sid>)
    modifies sessions.Values
    ensures session != null <==> AcceptsHello(sessions.Keys, validToken, hello)
    ensures var greeting := ParseHello(hello);
            session != null <==> greeting.Some? && validToken(greeting.value.name, greeting.value.token)
                                 && greeting.value.name in sessions
    ensures session != null ==>
      && session == sessions[ParseHello(hello).value.name]
      && resized == ParseHello(hello).value.ids
      && session.State() == RecoverShells(old(session.State()), resized)
    ensures forall s :: s in sessions.Values && s != session ==> s.State() == old(s.State())
  {
    hide ParseHello;
    var greeting := ParseHello(hello);
    session, resized := null, [];
    if AcceptsHello(sessions.Keys, validToken, hello) {
      session, resized := sessions[greeting.value.name], greeting.value.ids;
      RegisterAll(session, resized);
    }
  }

  method RegisterAll(session: Session, ids: seq<Sid>)
    modifies session
    ensures session.State() == RecoverShells(old(session.State()), ids)
  {
    hide Apply;
    var todo := ids;
    while todo != []
      invariant RecoverShells(session.State(), todo) == RecoverShells(old(session.State()), ids)
      decreases |todo|
    {
      var r := session.AddShell(todo[0], 0, 0);
      todo := todo[1..];
    }
  }

  predicate AcceptsHello(names: set<string>, validToken: (string, string) -> bool, hello: string) {
    var greeting := ParseHello(hello);
    greeting.Some? && validToken(greeting.value.name, greeting.value.token) && greeting.value.name in names
  }

  /** The client's answers to a report arrive: each of those shells is closed. */
  method HandleClosedShells(session: Session, ids: seq<Sid>)
    modifies session
    ensures session.State() == CloseShells(old(session.State()), ids)
  {
    var todo := ids;
    while todo != []
      invariant CloseShells(session.State(), todo) == CloseShells(old(session.State()), ids)
      decreases |todo|
    {
      var r := session.CloseShell(todo[0]);
      todo := todo[1..];
    }
  }

  /** A whole reconnection without loss or concurrent changes, through the printed message. The open shells
      are then the keys of the table that the server had not closed; those of them that have no task are
      exactly the ended ones that it had not closed. */
  method Reconnect(controller: Controller, sessions: map<string, Session>, validToken: (string, string) -> bool)
    requires controller.name in sessions && SessionOk(sessions[controller.name].State())
    requires validToken(controller.name, controller.token)
    requires ',' !in controller.name && ';' !in controller.name && ';' !in controller.token
    modifies sessions.Values
    ensures SessionOk(sessions[controller.name].State())
    ensures OpenIds(sessions[controller.name].shells)
         == controller.shellsTx - ClosedIds(old(sessions[controller.name].shells))
    ensures OpenIds(sessions[controller.name].shells) - controller.live
         == controller.Ended() - ClosedIds(old(sessions[controller.name].shells))
  {
    hide Join, Decimals, Elements, RecoverShells, CloseShells;
    ghost var before, keys := sessions[controller.name].State(), controller.shellsTx;
    var hello, ids := controller.HelloString();
    HelloRoundTripIff(controller.name, controller.token, ids);
    hide ParseHello, PrintHello, SessionOk;
    var session, resized := RecoverFromHello(sessions, validToken, hello);
    var seqnums := session.SequenceNumbers();
    var forwarded, unknown := controller.HandleSync(seqnums);
    HandleClosedShells(session, unknown);
    Reconciled(before, keys, ids, unknown);
  }

  /** A shell is created and ends, and the server learns of it; then the session is lost and replaced by an
      empty one. The first reconnection opens the ended shell again, and the second one leaves it open. */
  method EndedShellReopens(
      controller: Controller, sessions: map<string, Session>, validToken: (string, string) -> bool, id: Sid)
    requires controller.shellsTx == {} && controller.live == {}
    requires controller.name in sessions && SessionOk(sessions[controller.name].State())
    requires sessions[controller.name].shells == map[]
    requires validToken(controller.name, controller.token)
    requires ',' !in controller.name && ';' !in controller.name && ';' !in controller.token
    modifies controller, sessions.Values
    ensures controller.live == {} && OpenIds(sessions[controller.name].shells) == {id}
  {
    hide SessionOk;
    var announced := controller.HandleCreate(id, 0, 0);
    var closed := controller.TaskEnds(id);
    assert ClosedIds(sessions[controller.name].shells) == {};
    Reconnect(controller, sessions, validToken);
    assert controller.shellsTx == {id} && id !in ClosedIds(sessions[controller.name].shells);
    Reconnect(controller, sessions, validToken);
  }
}

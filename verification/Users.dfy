/** The list of connected users. Each change is made to the server's map first and broadcast as a
    difference afterwards; an observer first subscribes to the broadcast, then reads the map, then
    applies the differences it is sent, some of which the map it read may already contain. */
module Users {
  import opened ByteSeqs
  import opened KeyedLists
  import opened Numbers

  type Uid = nat

  datatype User = User(name: string, cursor: Option<(int, int)>, focus: Option<nat>, canWrite: bool)

  datatype Diff = Diff(uid: Uid, update: Option<User>)

  type UserEntry = Entry<Uid, User>

  type UserMap = map<Uid, User>

  /** Differences a receiver may have unread before it is cut off. */
  const BROADCAST_CAPACITY: nat := 16

  function Get(users: UserMap, uid: Uid): Option<User> {
    if uid in users then Some(users[uid]) else None
  }

  function ApplyDiff(users: UserMap, d: Diff): UserMap {
    if d.update.Some? then users[d.uid := d.update.value] else users - {d.uid}
  }

  function ApplyAll(users: UserMap, diffs: seq<Diff>): UserMap
    decreases |diffs|
  {
    if diffs == [] then users else ApplyAll(ApplyDiff(users, diffs[0]), diffs[1..])
  }

  /** Changes already made but not yet broadcast, at most one for each user. */
  type Pending = map<Uid, Option<User>>

  function ApplyPending(users: UserMap, pending: Pending): UserMap {
    map uid | uid in users.Keys + pending.Keys && (uid in pending ==> pending[uid].Some?) ::
      if uid in pending then pending[uid].value else users[uid]
  }

  // ----- The browser's list -----

  function AsMap(list: seq<UserEntry>): (m: UserMap)
    ensures m.Keys == Ids(list)
  {
    if list == [] then map[] else AsMap(list[1..])[list[0].id := list[0].value]
  }

  /** The browser's handler: drop the user's entry, and put the new one at the end if there is one. */
  function HandleDiff(list: seq<UserEntry>, d: Diff): seq<UserEntry> {
    Without(list, d.uid) + (if d.update.Some? then [Entry(d.uid, d.update.value)] else [])
  }

  lemma {:induction false} WithoutMap(list: seq<UserEntry>, uid: Uid)
    ensures AsMap(Without(list, uid)) == AsMap(list) - {uid}
  {
    if list == [] {
    } else {
      WithoutMap(list[1..], uid);
      if list[0].id != uid {
        assert Without(list, uid)[1..] == Without(list[1..], uid);
      } else {
        assert Without(list, uid) == Without(list[1..], uid);
      }
    }
  }

  lemma {:induction false} AppendMap(list: seq<UserEntry>, e: UserEntry)
    requires e.id !in Ids(list)
    ensures AsMap(list + [e]) == AsMap(list)[e.id := e.value]
  {
    if list == [] {
      assert [] + [e] == [e];
    } else {
      assert (list + [e])[1..] == list[1..] + [e];
      AppendMap(list[1..], e);
    }
  }

  /** The handler does to the list what the difference does to the map. */
  lemma HandleDiffMap(list: seq<UserEntry>, d: Diff)
    ensures AsMap(HandleDiff(list, d)) == ApplyDiff(AsMap(list), d)
    ensures Distinct(list) ==> Distinct(HandleDiff(list, d))
  {
    WithoutMap(list, d.uid);
    WithoutId(list, d.uid);
    var rest := Without(list, d.uid);
    if d.update.Some? {
      AppendMap(rest, Entry(d.uid, d.update.value));
      AppendEntry(rest, Entry(d.uid, d.update.value));
    } else {
      assert rest + [] == rest;
    }
  }

  /** The map that a list stands for, by positions. */
  lemma {:induction false} AsMapAt(list: seq<UserEntry>, i: nat)
    requires i < |list| && Distinct(list)
    ensures list[i].id in AsMap(list) && AsMap(list)[list[i].id] == list[i].value
    decreases i
  {
    OthersDiffer(list, i);
    if i > 0 { AsMapAt(list[1..], i - 1); }
  }

  /** The handler by positions: the user's entry goes from where it was, the others keep their order, and a
      new entry comes last. */
  lemma HandleDiffOrder(list: seq<UserEntry>, d: Diff, i: nat)
    requires Distinct(list)
    ensures var added := if d.update.Some? then [Entry(d.uid, d.update.value)] else [];
            && (i < |list| && list[i].id == d.uid ==> HandleDiff(list, d) == list[..i] + list[i + 1..] + added)
            && (d.uid !in Ids(list) ==> HandleDiff(list, d) == list + added)
  {
    WithoutId(list, d.uid);
    if i < |list| { WithoutAt(list, i); }
    hide Without, Ids, Distinct;
  }

  // ----- One user at a time -----

  /** What becomes of one user's value when differences are applied. */
  function ValueAfter(v: Option<User>, diffs: seq<Diff>, uid: Uid): Option<User>
    decreases |diffs|
  {
    if diffs == [] then v else ValueAfter(if diffs[0].uid == uid then diffs[0].update else v, diffs[1..], uid)
  }

  lemma {:induction false} ApplyAllAt(users: UserMap, diffs: seq<Diff>, uid: Uid)
    ensures Get(ApplyAll(users, diffs), uid) == ValueAfter(Get(users, uid), diffs, uid)
    decreases |diffs|
  {
    if diffs != [] {
      ApplyAllAt(ApplyDiff(users, diffs[0]), diffs[1..], uid);
    }
  }

  lemma {:induction false} ValueAfterSnoc(v: Option<User>, diffs: seq<Diff>, d: Diff, uid: Uid)
    ensures ValueAfter(v, diffs + [d], uid) == if d.uid == uid then d.update else ValueAfter(v, diffs, uid)
    decreases |diffs|
  {
    if diffs == [] {
      assert [] + [d] == [d];
    } else {
      assert (diffs + [d])[1..] == diffs[1..] + [d];
      ValueAfterSnoc(if diffs[0].uid == uid then diffs[0].update else v, diffs[1..], d, uid);
    }
  }

  // ----- The hub and its observers -----

  /** An observer has subscribed and not yet read the map, or shows a list. */
  datatype Observer = Listening(queue: seq<Diff>) | Viewing(list: seq<UserEntry>, queue: seq<Diff>)

  datatype Hub = Hub(users: UserMap, pending: Pending, observers: map<nat, Observer>)

  datatype Action =
    | UserScope(uid: Uid, user: User)      // added and broadcast under one lock
    | BeginUpdate(uid: Uid, user: User)    // changed in the map
    | BeginRemove(uid: Uid)                // removed from the map
    | Broadcast(uid: Uid)                  // the change is broadcast
    | SubscribeBroadcast(o: nat)
    | SendUsers(o: nat, list: seq<UserEntry>)  // the map, listed in any order
    | Forward(o: nat)                      // the next difference reaches the browser
    | Leave(o: nat)

  function Enqueue(observer: Observer, d: Diff): Observer {
    observer.(queue := observer.queue + [d])
  }

  /** Every observer gets the difference; one that has fallen too far behind is cut off. */
  function Deliver(observers: map<nat, Observer>, d: Diff): map<nat, Observer> {
    map o | o in observers && |observers[o].queue| < BROADCAST_CAPACITY :: Enqueue(observers[o], d)
  }

  /** An observer with sixteen unread differences is cut off by the next one; any other gets it last. */
  lemma DeliverIff(observers: map<nat, Observer>, d: Diff, o: nat)
    ensures o in Deliver(observers, d) <==> o in observers && |observers[o].queue| < 16
    ensures o in Deliver(observers, d) ==>
              Deliver(observers, d)[o] == observers[o].(queue := observers[o].queue + [d])
  {
  }

  function Act(h: Hub, a: Action): Hub {
    match a
    case UserScope(uid, user) =>
      if uid in h.users || uid in h.pending then h
      else h.(users := h.users[uid := user], observers := Deliver(h.observers, Diff(uid, Some(user))))
    case BeginUpdate(uid, user) =>
      if uid !in h.users || uid in h.pending then h
      else h.(users := h.users[uid := user], pending := h.pending[uid := Some(user)])
    case BeginRemove(uid) =>
      if uid in h.pending then h
      else h.(users := h.users - {uid}, pending := h.pending[uid := None])
    case Broadcast(uid) =>
      if uid !in h.pending then h
      else h.(pending := h.pending - {uid}, observers := Deliver(h.observers, Diff(uid, h.pending[uid])))
    case SubscribeBroadcast(o) =>
      if o in h.observers then h else h.(observers := h.observers[o := Listening([])])
    case SendUsers(o, list) =>
      if o in h.observers && h.observers[o].Listening? && Distinct(list) && AsMap(list) == h.users then
        h.(observers := h.observers[o := Viewing(list, h.observers[o].queue)])
      else h
    case Forward(o) =>
      if o in h.observers && h.observers[o].Viewing? && h.observers[o].queue != [] then
        var v := h.observers[o];
        h.(observers := h.observers[o := Viewing(HandleDiff(v.list, v.queue[0]), v.queue[1..])])
      else h
    case Leave(o) => h.(observers := h.observers - {o})
  }

  function Run(h: Hub, actions: seq<Action>): Hub
    decreases |actions|
  {
    if actions == [] then h else Run(Act(h, actions[0]), actions[1..])
  }

  const EMPTY_HUB: Hub := Hub(map[], map[], map[])

  // ----- Convergence -----

  /** What one user's value will be for an observer that starts from `v`. */
  function Eventually(v: Option<User>, queue: seq<Diff>, pending: Pending, uid: Uid): Option<User> {
    if uid in pending then pending[uid] else ValueAfter(v, queue, uid)
  }

  /** The map an observer starts from: what it shows, or what it would read now. */
  function Base(h: Hub, observer: Observer): UserMap {
    if observer.Viewing? then AsMap(observer.list) else h.users
  }

  ghost predicate ObserverOk(h: Hub, observer: Observer) {
    && (observer.Viewing? ==> Distinct(observer.list))
    && forall uid: Uid :: Eventually(Get(Base(h, observer), uid), observer.queue, h.pending, uid) == Get(h.users, uid)
  }

  ghost predicate HubOk(h: Hub) {
    && (forall uid :: uid in h.pending ==> h.pending[uid] == Get(h.users, uid))
    && (forall o :: o in h.observers ==> ObserverOk(h, h.observers[o]))
  }

  /** The map changes at one user whose change is now pending. */
  lemma BeginOk(h: Hub, h': Hub, observer: Observer, uid: Uid)
    requires ObserverOk(h, observer) && uid !in h.pending
    requires h'.pending == h.pending[uid := Get(h'.users, uid)]
    requires forall k: Uid :: k != uid ==> Get(h'.users, k) == Get(h.users, k)
    ensures ObserverOk(h', observer)
  {
    forall k: Uid ensures Eventually(Get(Base(h', observer), k), observer.queue, h'.pending, k) == Get(h'.users, k) {
      assert Eventually(Get(Base(h, observer), k), observer.queue, h.pending, k) == Get(h.users, k);
    }
  }

  /** A difference that agrees with the map is enqueued, and the change is no longer pending. */
  lemma DeliverOk(h: Hub, h': Hub, observer: Observer, d: Diff)
    requires ObserverOk(h, observer)
    requires h'.pending == h.pending - {d.uid} && Get(h'.users, d.uid) == d.update
    requires forall k: Uid :: k != d.uid ==> Get(h'.users, k) == Get(h.users, k)
    ensures ObserverOk(h', Enqueue(observer, d))
  {
    var after := Enqueue(observer, d);
    forall k: Uid ensures Eventually(Get(Base(h', after), k), after.queue, h'.pending, k) == Get(h'.users, k) {
      assert Eventually(Get(Base(h, observer), k), observer.queue, h.pending, k) == Get(h.users, k);
      ValueAfterSnoc(Get(Base(h', after), k), observer.queue, d, k);
    }
  }

  lemma ForwardOk(h: Hub, observer: Observer)
    requires ObserverOk(h, observer) && observer.Viewing? && observer.queue != []
    ensures ObserverOk(h, Viewing(HandleDiff(observer.list, observer.queue[0]), observer.queue[1..]))
  {
    var d := observer.queue[0];
    HandleDiffMap(observer.list, d);
    var after := Viewing(HandleDiff(observer.list, d), observer.queue[1..]);
    forall k: Uid ensures Eventually(Get(AsMap(after.list), k), after.queue, h.pending, k) == Get(h.users, k) {
      assert Eventually(Get(Base(h, observer), k), observer.queue, h.pending, k) == Get(h.users, k);
    }
  }

  /** One action of anyone keeps every observer on course. */
  lemma ActOk(h: Hub, a: Action)
    requires HubOk(h)
    ensures HubOk(Act(h, a))
  {
    hide ObserverOk;
    var h' := Act(h, a);
    match a
    case UserScope(uid, user) =>
      if h' != h {
        forall o | o in h'.observers ensures ObserverOk(h', h'.observers[o]) {
          DeliverOk(h, h', h.observers[o], Diff(uid, Some(user)));
        }
      }
    case BeginUpdate(uid, user) =>
      if uid in h.users && uid !in h.pending {
        forall o | o in h'.observers ensures ObserverOk(h', h'.observers[o]) {
          BeginOk(h, h', h.observers[o], uid);
        }
      }
    case BeginRemove(uid) =>
      if uid !in h.pending {
        forall o | o in h'.observers ensures ObserverOk(h', h'.observers[o]) {
          BeginOk(h, h', h.observers[o], uid);
        }
      }
    case Broadcast(uid) =>
      if uid in h.pending {
        forall o | o in h'.observers ensures ObserverOk(h', h'.observers[o]) {
          DeliverOk(h, h', h.observers[o], Diff(uid, h.pending[uid]));
        }
      }
    case Forward(o) =>
      FramedObservers(h, h');
      if h' != h { ForwardOk(h, h.observers[o]); }
    case SubscribeBroadcast(o) =>
      ListeningOk(h);
      FramedObservers(h, h');
    case SendUsers(o, list) =>
      if h' != h { SendUsersOk(h, h.observers[o], list); }
      FramedObservers(h, h');
    case Leave(o) =>
      FramedObservers(h, h');
  }

  /** Observers are judged against the users and the pending changes only. */
  lemma FramedObservers(h: Hub, h': Hub)
    requires h'.users == h.users && h'.pending == h.pending
    ensures forall x: Observer :: ObserverOk(h, x) <==> ObserverOk(h', x)
  {
  }

  lemma ListeningOk(h: Hub)
    requires forall uid :: uid in h.pending ==> h.pending[uid] == Get(h.users, uid)
    ensures ObserverOk(h, Listening([]))
  {
  }

  lemma SendUsersOk(h: Hub, observer: Observer, list: seq<UserEntry>)
    requires ObserverOk(h, observer) && observer.Listening? && Distinct(list) && AsMap(list) == h.users
    ensures ObserverOk(h, Viewing(list, observer.queue))
  {
  }

  lemma {:induction false} RunOk(h: Hub, actions: seq<Action>)
    requires HubOk(h)
    ensures HubOk(Run(h, actions))
    decreases |actions|
  {
    if actions != [] {
      hide HubOk, Act;
      ActOk(h, actions[0]);
      RunOk(Act(h, actions[0]), actions[1..]);
    }
  }

  /** At every reachable state, for every observer: applying the differences in its queue and the
      changes not yet broadcast to the list it shows gives exactly the server's users. */
  lemma ViewsConverge(actions: seq<Action>, o: nat)
    requires var h := Run(EMPTY_HUB, actions); o in h.observers && h.observers[o].Viewing?
    ensures var h := Run(EMPTY_HUB, actions);
            var v := h.observers[o];
            && Distinct(v.list)
            && ApplyPending(ApplyAll(AsMap(v.list), v.queue), h.pending) == h.users
            && (v.queue == [] && h.pending == map[] ==> AsMap(v.list) == h.users)
  {
    RunOk(EMPTY_HUB, actions);
    var h := Run(EMPTY_HUB, actions);
    hide Run;
    ViewConverges(h, h.observers[o]);
  }

  lemma ViewConverges(h: Hub, v: Observer)
    requires v.Viewing? && ObserverOk(h, v)
    ensures ApplyPending(ApplyAll(AsMap(v.list), v.queue), h.pending) == h.users
    ensures v.queue == [] && h.pending == map[] ==> AsMap(v.list) == h.users
  {
    var m := ApplyAll(AsMap(v.list), v.queue);
    var shown := ApplyPending(m, h.pending);
    forall uid: Uid ensures Get(shown, uid) == Get(h.users, uid) {
      ApplyAllAt(AsMap(v.list), v.queue, uid);
      assert Eventually(Get(Base(h, v), uid), v.queue, h.pending, uid) == Get(h.users, uid);
    }
    SameMaps(shown, h.users);
    if v.queue == [] && h.pending == map[] {
      assert shown == m;
    }
  }

  lemma SameMaps(a: UserMap, b: UserMap)
    requires forall uid: Uid :: Get(a, uid) == Get(b, uid)
    ensures a == b
  {
    forall uid: Uid ensures uid in a <==> uid in b {
      assert Get(a, uid) == Get(b, uid);
    }
    forall uid | uid in a ensures a[uid] == b[uid] {
      assert Get(a, uid) == Get(b, uid);
    }
  }

  // ----- Replaying differences -----

  lemma {:induction false} LastWriteWins(v: Option<User>, w: Option<User>, diffs: seq<Diff>, uid: Uid)
    ensures ValueAfter(v, diffs, uid) == ValueAfter(w, diffs, uid)
         || (ValueAfter(v, diffs, uid) == v && ValueAfter(w, diffs, uid) == w)
    decreases |diffs|
  {
    if diffs != [] {
      var d := diffs[0];
      LastWriteWins(if d.uid == uid then d.update else v, if d.uid == uid then d.update else w, diffs[1..], uid);
    }
  }

  /** Differences are idempotent as a whole: a map that already contains them is not changed by
      receiving the same series again. */
  lemma ReplayChangesNothing(users: UserMap, diffs: seq<Diff>)
    ensures ApplyAll(ApplyAll(users, diffs), diffs) == ApplyAll(users, diffs)
  {
    var once := ApplyAll(users, diffs);
    forall uid: Uid ensures Get(ApplyAll(once, diffs), uid) == Get(once, uid) {
      ApplyAllAt(once, diffs, uid);
      ApplyAllAt(users, diffs, uid);
      LastWriteWins(Get(users, uid), Get(once, uid), diffs, uid);
    }
    SameMaps(ApplyAll(once, diffs), once);
  }

  // ----- The server's table -----

  function NewUser(uid: Uid, canWrite: bool): User {
    User("User " + Decimal(uid), None, None, canWrite)
  }

  /** The server's map of users, with the differences it has broadcast. */
  class UserTable {
    var users: UserMap
    var sent: seq<Diff>

    constructor ()
      ensures users == map[] && sent == []
    {
      users, sent := map[], [];
    }

    /** A user joins; the name is derived from the id. Fails if the id is taken. */
    method UserScope(uid: Uid, canWrite: bool) returns (ok: bool)
      modifies this
      ensures ok <==> uid !in old(users)
      ensures users == if ok then old(users)[uid := User("User " + Decimal(uid), None, None, canWrite)] else old(users)
      ensures sent == old(sent) + (if ok then [Diff(uid, Some(NewUser(uid, canWrite)))] else [])
      ensures users == ApplyAll(old(users), sent[|old(sent)|..])
    {
      ok := uid !in users;
      if ok {
        var user := NewUser(uid, canWrite);
        users := users[uid := user];
        sent := sent + [Diff(uid, Some(user))];
      }
    }

    /** A callback changes a user in place; fails if there is no such user. */
    method UpdateUser(uid: Uid, f: User -> User) returns (ok: bool)
      modifies this
      ensures ok <==> uid in old(users)
      ensures users == if ok then old(users)[uid := f(old(users)[uid])] else old(users)
      ensures sent == old(sent) + (if ok then [Diff(uid, Some(f(old(users)[uid])))] else [])
      ensures users == ApplyAll(old(users), sent[|old(sent)|..])
    {
      ok := uid in users;
      if ok {
        users := users[uid := f(users[uid])];
        sent := sent + [Diff(uid, Some(users[uid]))];
      }
    }

    /** The removal is broadcast even when the user was not there. */
    method RemoveUser(uid: Uid)
      modifies this
      ensures users == old(users) - {uid}
      ensures sent == old(sent) + [Diff(uid, None)]
      ensures users == ApplyAll(old(users), sent[|old(sent)|..])
    {
      users := users - {uid};
      sent := sent + [Diff(uid, None)];
    }

    /** `list_users`: the map as a list, in whatever order its entries come. */
    method ListUsers() returns (list: seq<UserEntry>)
      ensures Distinct(list) && AsMap(list) == users
    {
      hide AsMap, Distinct, Ids;
      list := [];
      var todo := users.Keys;
      ListedNone();
      while todo != {}
        invariant todo <= users.Keys && Distinct(list)
        invariant AsMap(list) == users - todo
        decreases |todo|
      {
        var uid :| uid in todo;
        AppendMap(list, Entry(uid, users[uid]));
        AppendEntry(list, Entry(uid, users[uid]));
        assert users - (todo - {uid}) == (users - todo)[uid := users[uid]];
        list := list + [Entry(uid, users[uid])];
        todo := todo - {uid};
      }
    }
  }

  lemma ListedNone()
    ensures var none: seq<UserEntry> := []; Distinct(none) && AsMap(none) == map[]
  {
  }
}

/** The pool of native Aerospike clients, one cache slot per (session, connection).

    Every stretch of code between two awaits is one atomic action; any task may
    run next.  The global lock never spans an await, so a section under it is
    atomic.  A native client is a number, minted in order.  Closing a client
    never aborts the caller (the close exceptions are swallowed and logged). */
module ClientPool {
  import opened Prelude

  type Client = nat
  type LockId = nat
  type TaskId = nat

  datatype Key = Key(session: Option<string>, conn: string)

  /** Where a call is suspended. */
  datatype Pc =
    | GetWait(key: Key, lock: LockId)                                 // waiting for the slot lock
    | GetProfile(key: Key, lock: LockId)                              // awaiting the stored profile
    | GetConnect(key: Key, lock: LockId, built: Client)               // awaiting connect()
    | GetCleanup(key: Key, lock: LockId, built: Client)               // closing a half-open client
    | GetSwap(key: Key, lock: LockId, built: Client, stale: Client)   // closing the replaced client
    | EvictWait(key: Key, lock: LockId)
    | EvictInvalidate(key: Key, lock: LockId, popped: Option<Client>)
    | EvictClose(key: Key, lock: LockId, victim: Client)
    | SessionInvalidate(rest: seq<Client>)
    | SessionClose(rest: seq<Client>)
    | AllClearing                                                     // awaiting the info cache
    | AllClose(rest: seq<Client>, count: nat)
    | Returned(key: Key, client: Client)
    | Ended

  datatype State = State(
    clients: map<Key, Client>,
    connLocks: map<Key, LockId>,
    owner: map<LockId, TaskId>,
    gauge: int,
    minted: nat,
    nextLock: nat,
    closed: set<Client>,
    tasks: seq<Pc>)

  datatype Action =
    | StartGet(key: Key)
    | StartEvict(key: Key)
    | EnterGet(t: TaskId, connected: bool)
    | ProfileReady(t: TaskId, usable: bool)
    | ConnectDone(t: TaskId, ok: bool)
    | CleanedUp(t: TaskId)
    | StaleClosed(t: TaskId)
    | EnterEvict(t: TaskId)
    | Invalidated(t: TaskId)
    | VictimClosed(t: TaskId)
    | StartSession(session: string, order: seq<Key>)
    | SessionInvalidated(t: TaskId)
    | SessionClosed(t: TaskId)
    | StartAll
    | TakeAll(t: TaskId, order: seq<Key>)
    | AllClosed(t: TaskId)

  const Init := State(map[], map[], map[], 0, 0, 0, {}, [])

  // ----- program -------------------------------------------------------------

  predicate InFlight(pc: Pc) {
    pc.GetWait? || pc.EvictWait? || Holds(pc)
  }

  predicate Holds(pc: Pc) {
    pc.GetProfile? || pc.GetConnect? || pc.GetCleanup? || pc.GetSwap? || pc.EvictInvalidate? || pc.EvictClose?
  }

  /** `order` lists exactly the cached keys selected by `session` (all of them for None). */
  predicate Lists(s: State, session: Option<string>, order: seq<Key>) {
    && Distinct(order)
    && (forall k :: k in order ==> k in s.clients && (session.Some? ==> k.session == session))
    && (forall k :: k in s.clients && (session.Some? ==> k.session == session) ==> k in order)
  }

  predicate At(s: State, t: TaskId) { t < |s.tasks| }

  predicate Enabled(s: State, a: Action) {
    match a
    case StartGet(_) => true
    case StartEvict(_) => true
    case EnterGet(t, _) => At(s, t) && s.tasks[t].GetWait? && s.tasks[t].lock !in s.owner
    case ProfileReady(t, _) => At(s, t) && s.tasks[t].GetProfile?
    case ConnectDone(t, _) => At(s, t) && s.tasks[t].GetConnect?
    case CleanedUp(t) => At(s, t) && s.tasks[t].GetCleanup?
    case StaleClosed(t) => At(s, t) && s.tasks[t].GetSwap?
    case EnterEvict(t) => At(s, t) && s.tasks[t].EvictWait? && s.tasks[t].lock !in s.owner
    case Invalidated(t) => At(s, t) && s.tasks[t].EvictInvalidate?
    case VictimClosed(t) => At(s, t) && s.tasks[t].EvictClose?
    case StartSession(sid, order) => Lists(s, Some(sid), order)
    case SessionInvalidated(t) => At(s, t) && s.tasks[t].SessionInvalidate?
    case SessionClosed(t) => At(s, t) && s.tasks[t].SessionClose? && s.tasks[t].rest != []
    case StartAll => true
    case TakeAll(t, order) => At(s, t) && s.tasks[t].AllClearing? && Lists(s, None, order)
    case AllClosed(t) => At(s, t) && s.tasks[t].AllClose? && s.tasks[t].rest != []
  }

  function Goto(s: State, t: TaskId, pc: Pc): State
    requires At(s, t)
  {
    s.(tasks := s.tasks[t := pc])
  }

  function Spawn(s: State, pc: Pc): State { s.(tasks := s.tasks + [pc]) }

  /** The call leaves its critical section. */
  function Leave(s: State, t: TaskId, pc: Pc): State
    requires At(s, t) && Holds(s.tasks[t])
  {
    Goto(s.(owner := s.owner - {s.tasks[t].lock}), t, pc)
  }

  /** `_get_conn_lock`: the slot's lock, created on first use. */
  function WithLock(s: State, key: Key): State {
    if key in s.connLocks then s else s.(connLocks := s.connLocks[key := s.nextLock], nextLock := s.nextLock + 1)
  }

  function GetStarted(s: State, key: Key): State {
    var s1 := WithLock(s, key);
    Spawn(s1, GetWait(key, s1.connLocks[key]))
  }

  function EvictStarted(s: State, key: Key): State {
    var s1 := WithLock(s, key);
    Spawn(s1, EvictWait(key, s1.connLocks[key]))
  }

  /** `get_client` has the slot lock: a connected cached client is returned at once. */
  function GetEntered(s: State, t: TaskId, connected: bool): State
    requires At(s, t) && s.tasks[t].GetWait? && s.tasks[t].lock !in s.owner
  {
    var pc := s.tasks[t];
    if pc.key in s.clients && connected then
      Goto(s, t, Returned(pc.key, s.clients[pc.key]))
    else
      Goto(s.(owner := s.owner[pc.lock := t]), t, GetProfile(pc.key, pc.lock))
  }

  /** The profile is missing or its target is blocked, or a native client is constructed. */
  function GetProfiled(s: State, t: TaskId, usable: bool): State
    requires At(s, t) && s.tasks[t].GetProfile?
  {
    var pc := s.tasks[t];
    if usable then
      Goto(s.(minted := s.minted + 1), t, GetConnect(pc.key, pc.lock, s.minted))
    else
      Leave(s, t, Ended)
  }

  function GetConnected(s: State, t: TaskId, ok: bool): State
    requires At(s, t) && s.tasks[t].GetConnect?
  {
    var pc := s.tasks[t];
    if !ok then
      Goto(s, t, GetCleanup(pc.key, pc.lock, pc.built))
    else if pc.key in s.clients then
      Goto(s, t, GetSwap(pc.key, pc.lock, pc.built, s.clients[pc.key]))
    else
      Leave(s.(clients := s.clients[pc.key := pc.built], gauge := s.gauge + 1), t, Returned(pc.key, pc.built))
  }

  function GetCleanedUp(s: State, t: TaskId): State
    requires At(s, t) && s.tasks[t].GetCleanup?
  {
    Leave(s.(closed := s.closed + {s.tasks[t].built}), t, Ended)
  }

  /** The stale client is closed and taken off the gauge, the new one cached and counted. */
  function GetSwapped(s: State, t: TaskId): State
    requires At(s, t) && s.tasks[t].GetSwap?
  {
    var pc := s.tasks[t];
    Leave(s.(closed := s.closed + {pc.stale}, clients := s.clients[pc.key := pc.built], gauge := s.gauge - 1 + 1),
          t, Returned(pc.key, pc.built))
  }

  function EvictEntered(s: State, t: TaskId): State
    requires At(s, t) && s.tasks[t].EvictWait? && s.tasks[t].lock !in s.owner
  {
    var pc := s.tasks[t];
    var popped := if pc.key in s.clients then Some(s.clients[pc.key]) else None;
    Goto(s.(owner := s.owner[pc.lock := t], clients := s.clients - {pc.key}), t,
         EvictInvalidate(pc.key, pc.lock, popped))
  }

  function EvictInvalidated(s: State, t: TaskId): State
    requires At(s, t) && s.tasks[t].EvictInvalidate?
  {
    var pc := s.tasks[t];
    if pc.popped.None? then Leave(s, t, Ended)
    else Goto(s, t, EvictClose(pc.key, pc.lock, pc.popped.value))
  }

  function EvictClosed(s: State, t: TaskId): State
    requires At(s, t) && s.tasks[t].EvictClose?
  {
    Leave(s.(closed := s.closed + {s.tasks[t].victim}, gauge := s.gauge - 1), t, Ended)
  }

  function Keys(order: seq<Key>): set<Key> { set k | k in order }

  function Pick(clients: map<Key, Client>, order: seq<Key>): seq<Client>
    requires forall k :: k in order ==> k in clients
  {
    seq(|order|, i requires 0 <= i < |order| => assert order[i] in order; clients[order[i]])
  }

  function SessionPc(rest: seq<Client>): Pc { if rest == [] then Ended else SessionInvalidate(rest) }

  function AllPc(rest: seq<Client>, count: nat): Pc { if rest == [] then Ended else AllClose(rest, count) }

  /** `close_session` takes its clients out of the cache and throws their locks away. */
  function SessionTaken(s: State, session: string, order: seq<Key>): State
    requires Lists(s, Some(session), order)
  {
    Spawn(s.(clients := s.clients - Keys(order), connLocks := s.connLocks - Keys(order)),
          SessionPc(Pick(s.clients, order)))
  }

  function SessionNext(s: State, t: TaskId): State
    requires At(s, t) && s.tasks[t].SessionInvalidate?
  {
    Goto(s, t, SessionClose(s.tasks[t].rest))
  }

  function SessionShut(s: State, t: TaskId): State
    requires At(s, t) && s.tasks[t].SessionClose? && s.tasks[t].rest != []
  {
    var rest := s.tasks[t].rest;
    Goto(s.(closed := s.closed + {rest[0]}, gauge := s.gauge - 1), t, SessionPc(rest[1..]))
  }

  /** `close_all` empties the cache and throws every lock away. */
  function AllTaken(s: State, t: TaskId, order: seq<Key>): State
    requires At(s, t) && s.tasks[t].AllClearing? && Lists(s, None, order)
  {
    Goto(s.(clients := map[], connLocks := map[]), t, AllPc(Pick(s.clients, order), |order|))
  }

  /** The gauge is settled once, after the last close. */
  function AllShut(s: State, t: TaskId): State
    requires At(s, t) && s.tasks[t].AllClose? && s.tasks[t].rest != []
  {
    var rest, count := s.tasks[t].rest, s.tasks[t].count;
    Goto(s.(closed := s.closed + {rest[0]}, gauge := if |rest| == 1 then s.gauge - count else s.gauge),
         t, AllPc(rest[1..], count))
  }

  function Do(s: State, a: Action): State
    requires Enabled(s, a)
  {
    match a
    case StartGet(key) => GetStarted(s, key)
    case StartEvict(key) => EvictStarted(s, key)
    case EnterGet(t, connected) => GetEntered(s, t, connected)
    case ProfileReady(t, usable) => GetProfiled(s, t, usable)
    case ConnectDone(t, ok) => GetConnected(s, t, ok)
    case CleanedUp(t) => GetCleanedUp(s, t)
    case StaleClosed(t) => GetSwapped(s, t)
    case EnterEvict(t) => EvictEntered(s, t)
    case Invalidated(t) => EvictInvalidated(s, t)
    case VictimClosed(t) => EvictClosed(s, t)
    case StartSession(session, order) => SessionTaken(s, session, order)
    case SessionInvalidated(t) => SessionNext(s, t)
    case SessionClosed(t) => SessionShut(s, t)
    case StartAll => Spawn(s, AllClearing)
    case TakeAll(t, order) => AllTaken(s, t, order)
    case AllClosed(t) => AllShut(s, t)
  }

  // ----- invariant -----------------------------------------------------------

  /** A place a native client can be in. */
  datatype Place = Cached(key: Key) | HeldBy(task: TaskId) | Closed

  predicate Carries(pc: Pc, c: Client) {
    match pc
    case GetConnect(_, _, built) => c == built
    case GetCleanup(_, _, built) => c == built
    case GetSwap(_, _, built, _) => c == built
    case EvictInvalidate(_, _, popped) => popped == Some(c)
    case EvictClose(_, _, victim) => c == victim
    case SessionInvalidate(rest) => c in rest
    case SessionClose(rest) => c in rest
    case AllClose(rest, _) => c in rest
    case _ => false
  }

  predicate Located(clients: map<Key, Client>, tasks: seq<Pc>, closed: set<Client>, c: Client, p: Place) {
    match p
    case Cached(key) => key in clients && clients[key] == c
    case HeldBy(t) => t < |tasks| && Carries(tasks[t], c)
    case Closed => c in closed
  }

  ghost predicate Somewhere(clients: map<Key, Client>, tasks: seq<Pc>, closed: set<Client>, c: Client) {
    exists p :: Located(clients, tasks, closed, c, p)
  }

  /** Every client ever constructed is in exactly one place, and nothing else is anywhere. */
  ghost predicate Conserved(clients: map<Key, Client>, tasks: seq<Pc>, closed: set<Client>, minted: nat) {
    && (forall c: Client :: c < minted ==> Somewhere(clients, tasks, closed, c))
    && (forall c: Client, p :: Located(clients, tasks, closed, c, p) ==> c < minted)
    && (forall c: Client, p, q :: Located(clients, tasks, closed, c, p) && Located(clients, tasks, closed, c, q) ==> p == q)
  }

  predicate RestDistinct(s: State) {
    && (forall t :: 0 <= t < |s.tasks| && (s.tasks[t].SessionInvalidate? || s.tasks[t].SessionClose?)
          ==> Distinct(s.tasks[t].rest) && s.tasks[t].rest != [])
    && (forall t :: 0 <= t < |s.tasks| && s.tasks[t].AllClose? ==> Distinct(s.tasks[t].rest) && s.tasks[t].rest != [])
  }

  /** A call in flight refers to the registered lock of its slot, and two slots never share one. */
  predicate Registered(connLocks: map<Key, LockId>, nextLock: nat, tasks: seq<Pc>) {
    && (forall k :: k in connLocks ==> connLocks[k] < nextLock)
    && (forall k, l :: k in connLocks && l in connLocks && connLocks[k] == connLocks[l] ==> k == l)
    && (forall t :: 0 <= t < |tasks| && InFlight(tasks[t]) ==>
          tasks[t].key in connLocks && connLocks[tasks[t].key] == tasks[t].lock)
  }

  /** A lock is owned by exactly the call inside its critical section. */
  predicate Owned(owner: map<LockId, TaskId>, tasks: seq<Pc>) {
    && (forall t :: 0 <= t < |tasks| && Holds(tasks[t]) ==> tasks[t].lock in owner && owner[tasks[t].lock] == t)
    && (forall l :: l in owner ==> owner[l] < |tasks| && Holds(tasks[owner[l]]) && tasks[owner[l]].lock == l)
  }

  predicate Locking(s: State) {
    Registered(s.connLocks, s.nextLock, s.tasks) && Owned(s.owner, s.tasks)
  }

  /** The client being replaced is still the cached one. */
  predicate Swapping(s: State) {
    forall t :: 0 <= t < |s.tasks| && s.tasks[t].GetSwap? ==>
      s.tasks[t].key in s.clients && s.clients[s.tasks[t].key] == s.tasks[t].stale
  }

  /** What a suspended call still has to take off the gauge. */
  function Owed(pc: Pc): nat {
    match pc
    case EvictInvalidate(_, _, popped) => if popped.Some? then 1 else 0
    case EvictClose(_, _, _) => 1
    case SessionInvalidate(rest) => |rest|
    case SessionClose(rest) => |rest|
    case AllClose(_, count) => count
    case _ => 0
  }

  function TotalOwed(tasks: seq<Pc>): nat {
    if tasks == [] then 0 else TotalOwed(tasks[..|tasks| - 1]) + Owed(tasks[|tasks| - 1])
  }

  predicate Gauged(s: State) { s.gauge == |s.clients.Keys| + TotalOwed(s.tasks) }

  ghost predicate Inv(s: State) {
    Locking(s) && Swapping(s) && RestDistinct(s) && Gauged(s) && Conserved(s.clients, s.tasks, s.closed, s.minted)
  }

  /** The slots whose lock an action throws away. */
  function Dropped(s: State, a: Action): set<Key> {
    match a
    case StartSession(_, order) => Keys(order)
    case TakeAll(_, _) => s.connLocks.Keys
    case _ => {}
  }

  /** No call is in flight on a slot whose lock the action throws away. */
  predicate Quiet(s: State, a: Action) {
    forall t :: 0 <= t < |s.tasks| && InFlight(s.tasks[t]) ==> s.tasks[t].key !in Dropped(s, a)
  }

  // ----- locks ---------------------------------------------------------------

  predicate SameSlot(pc: Pc, was: Pc) {
    InFlight(pc) ==> InFlight(was) && pc.key == was.key && pc.lock == was.lock
  }

  lemma RegisteredMove(locks: map<Key, LockId>, next: nat, tasks: seq<Pc>, t: nat, pc: Pc)
    requires Registered(locks, next, tasks) && t < |tasks| && SameSlot(pc, tasks[t])
    ensures Registered(locks, next, tasks[t := pc])
  {
  }

  lemma RegisteredSpawn(locks: map<Key, LockId>, next: nat, tasks: seq<Pc>, pc: Pc)
    requires Registered(locks, next, tasks)
    requires InFlight(pc) ==> pc.key in locks && locks[pc.key] == pc.lock
    ensures Registered(locks, next, tasks + [pc])
  {
  }

  lemma RegisteredNew(locks: map<Key, LockId>, next: nat, tasks: seq<Pc>, key: Key)
    requires Registered(locks, next, tasks) && key !in locks
    ensures Registered(locks[key := next], next + 1, tasks)
  {
  }

  lemma RegisteredDrop(locks: map<Key, LockId>, next: nat, tasks: seq<Pc>, keys: set<Key>)
    requires Registered(locks, next, tasks)
    requires forall t :: 0 <= t < |tasks| && InFlight(tasks[t]) ==> tasks[t].key !in keys
    ensures Registered(locks - keys, next, tasks)
  {
  }

  lemma OwnedSpawn(owner: map<LockId, TaskId>, tasks: seq<Pc>, pc: Pc)
    requires Owned(owner, tasks) && !Holds(pc)
    ensures Owned(owner, tasks + [pc])
  {
  }

  lemma OwnedMove(owner: map<LockId, TaskId>, tasks: seq<Pc>, t: nat, pc: Pc)
    requires Owned(owner, tasks) && t < |tasks|
    requires Holds(pc) == Holds(tasks[t]) && SameSlot(pc, tasks[t])
    ensures Owned(owner, tasks[t := pc])
  {
  }

  lemma OwnedEnter(owner: map<LockId, TaskId>, tasks: seq<Pc>, t: nat, pc: Pc)
    requires Owned(owner, tasks) && t < |tasks| && !Holds(tasks[t])
    requires Holds(pc) && pc.lock !in owner
    ensures Owned(owner[pc.lock := t], tasks[t := pc])
  {
  }

  lemma OwnedLeave(owner: map<LockId, TaskId>, tasks: seq<Pc>, t: nat, pc: Pc)
    requires Owned(owner, tasks) && t < |tasks| && Holds(tasks[t]) && !Holds(pc)
    ensures Owned(owner - {tasks[t].lock}, tasks[t := pc])
  {
  }

  /** What an action of a running call does to the lock it refers to. */
  predicate LockStep(s: State, s': State, t: TaskId) {
    && At(s, t) && At(s', t) && s'.tasks == s.tasks[t := s'.tasks[t]]
    && SameSlot(s'.tasks[t], s.tasks[t])
    && s'.connLocks == s.connLocks && s'.nextLock == s.nextLock
    && s'.owner == (if Holds(s'.tasks[t]) == Holds(s.tasks[t]) then s.owner
                    else if Holds(s'.tasks[t]) then s.owner[s'.tasks[t].lock := t]
                    else s.owner - {s.tasks[t].lock})
    && (Holds(s'.tasks[t]) && !Holds(s.tasks[t]) ==> s'.tasks[t].lock !in s.owner)
  }

  lemma LockStepKeeps(s: State, s': State, t: TaskId)
    requires Locking(s) && LockStep(s, s', t)
    ensures Locking(s')
  {
    var pc := s'.tasks[t];
    RegisteredMove(s.connLocks, s.nextLock, s.tasks, t, pc);
    if Holds(pc) == Holds(s.tasks[t]) {
      OwnedMove(s.owner, s.tasks, t, pc);
    } else if Holds(pc) {
      OwnedEnter(s.owner, s.tasks, t, pc);
    } else {
      OwnedLeave(s.owner, s.tasks, t, pc);
    }
  }

  /** The slot lock gives mutual exclusion per slot. */
  lemma OneHolder(s: State, t: TaskId, u: TaskId)
    requires Locking(s) && At(s, t) && At(s, u)
    requires Holds(s.tasks[t]) && Holds(s.tasks[u]) && s.tasks[t].key == s.tasks[u].key
    ensures t == u
  {
    assert s.owner[s.tasks[t].lock] == t && s.owner[s.tasks[u].lock] == u;
  }

  // ----- replacing a stale client --------------------------------------------

  predicate AloneInSlot(s: State, t: TaskId)
    requires At(s, t) && InFlight(s.tasks[t])
  {
    forall u :: 0 <= u < |s.tasks| && u != t && Holds(s.tasks[u]) ==> s.tasks[u].key != s.tasks[t].key
  }

  lemma InsideAlone(s: State, t: TaskId)
    requires Locking(s) && At(s, t) && InFlight(s.tasks[t])
    requires Holds(s.tasks[t]) || s.tasks[t].lock !in s.owner
    ensures AloneInSlot(s, t)
  {
    forall u | 0 <= u < |s.tasks| && u != t && Holds(s.tasks[u]) ensures s.tasks[u].key != s.tasks[t].key {
      assert s.owner[s.tasks[u].lock] == u;
    }
  }

  /** A call changes the cache only in its own slot. */
  predicate OnlyOwnSlot(s: State, s': State, t: TaskId) {
    && At(s, t) && At(s', t) && s'.tasks == s.tasks[t := s'.tasks[t]] && InFlight(s.tasks[t])
    && (forall k :: k in s.clients && k != s.tasks[t].key ==> k in s'.clients && s'.clients[k] == s.clients[k])
    && (s'.tasks[t].GetSwap? ==> s'.tasks[t].key in s'.clients && s'.clients[s'.tasks[t].key] == s'.tasks[t].stale)
  }

  lemma OwnSlotKeepsSwapping(s: State, s': State, t: TaskId)
    requires Swapping(s) && OnlyOwnSlot(s, s', t) && AloneInSlot(s, t)
    ensures Swapping(s')
  {
    forall u | 0 <= u < |s'.tasks| && s'.tasks[u].GetSwap?
      ensures s'.tasks[u].key in s'.clients && s'.clients[s'.tasks[u].key] == s'.tasks[u].stale
    {
      if u != t {
        assert Holds(s.tasks[u]);
      }
    }
  }

  // ----- the gauge -----------------------------------------------------------

  lemma {:induction false} OwedAppend(tasks: seq<Pc>, pc: Pc)
    ensures TotalOwed(tasks + [pc]) == TotalOwed(tasks) + Owed(pc)
  {
    assert (tasks + [pc])[..|tasks|] == tasks;
  }

  lemma {:induction false} OwedUpdate(tasks: seq<Pc>, t: nat, pc: Pc)
    requires t < |tasks|
    ensures TotalOwed(tasks[t := pc]) == TotalOwed(tasks) - Owed(tasks[t]) + Owed(pc)
  {
    var n := |tasks| - 1;
    if t == n {
      assert tasks[t := pc][..n] == tasks[..n];
    } else {
      OwedUpdate(tasks[..n], t, pc);
      assert tasks[t := pc][..n] == tasks[..n][t := pc];
    }
  }

  lemma OneMore(m: map<Key, Client>, k: Key, c: Client)
    ensures |m[k := c].Keys| == if k in m then |m.Keys| else |m.Keys| + 1
  {
    assert m[k := c].Keys == m.Keys + {k};
  }

  lemma OneLess(m: map<Key, Client>, k: Key)
    ensures |(m - {k}).Keys| == if k in m then |m.Keys| - 1 else |m.Keys|
  {
    assert (m - {k}).Keys == m.Keys - {k};
  }

  lemma {:induction false} KeysCount(order: seq<Key>)
    requires Distinct(order)
    ensures |Keys(order)| == |order|
  {
    if order != [] {
      var n := |order| - 1;
      KeysCount(order[..n]);
      assert order[n] !in order[..n];
      assert Keys(order) == Keys(order[..n]) + {order[n]};
    }
  }

  lemma TakenCount(m: map<Key, Client>, order: seq<Key>)
    requires Distinct(order) && Keys(order) <= m.Keys
    ensures |(m - Keys(order)).Keys| == |m.Keys| - |order|
  {
    KeysCount(order);
    assert (m - Keys(order)).Keys == m.Keys - Keys(order);
  }

  /** The change of the gauge is matched by the change of cached plus owed clients. */
  predicate GaugeStep(s: State, s': State, t: TaskId) {
    && At(s, t) && At(s', t) && s'.tasks == s.tasks[t := s'.tasks[t]]
    && s'.gauge - |s'.clients.Keys| - Owed(s'.tasks[t]) == s.gauge - |s.clients.Keys| - Owed(s.tasks[t])
  }

  lemma GaugeStepKeeps(s: State, s': State, t: TaskId)
    requires Gauged(s) && GaugeStep(s, s', t)
    ensures Gauged(s')
  {
    OwedUpdate(s.tasks, t, s'.tasks[t]);
  }

  // ----- conservation --------------------------------------------------------

  lemma SamePlaces(clients: map<Key, Client>, tasks: seq<Pc>, closed: set<Client>, minted: nat, tasks': seq<Pc>)
    requires Conserved(clients, tasks, closed, minted)
    requires |tasks| <= |tasks'|
    requires forall t :: 0 <= t < |tasks| ==> forall c: Client :: Carries(tasks'[t], c) <==> Carries(tasks[t], c)
    requires forall t :: |tasks| <= t < |tasks'| ==> forall c: Client :: !Carries(tasks'[t], c)
    ensures Conserved(clients, tasks', closed, minted)
  {
    forall c: Client | c < minted ensures Somewhere(clients, tasks', closed, c) {
      assert Somewhere(clients, tasks, closed, c);
      var p :| Located(clients, tasks, closed, c, p);
      assert Located(clients, tasks', closed, c, p);
    }
    forall c: Client, p | Located(clients, tasks', closed, c, p) ensures Located(clients, tasks, closed, c, p) {
    }
  }

  lemma Minting(clients: map<Key, Client>, tasks: seq<Pc>, closed: set<Client>, minted: nat, t: TaskId, pc: Pc)
    requires Conserved(clients, tasks, closed, minted) && t < |tasks|
    requires forall c: Client :: !Carries(tasks[t], c)
    requires forall c: Client :: Carries(pc, c) <==> c == minted
    ensures Conserved(clients, tasks[t := pc], closed, minted + 1)
  {
    var tasks' := tasks[t := pc];
    forall c: Client | c < minted + 1 ensures Somewhere(clients, tasks', closed, c) {
      if c == minted {
        assert Located(clients, tasks', closed, c, HeldBy(t));
      } else {
        assert Somewhere(clients, tasks, closed, c);
        var p :| Located(clients, tasks, closed, c, p);
        assert Located(clients, tasks', closed, c, p);
      }
    }
    forall c: Client, p | Located(clients, tasks', closed, c, p)
      ensures if c == minted then p == HeldBy(t) else Located(clients, tasks, closed, c, p)
    {
      assert c == minted ==> !Located(clients, tasks, closed, c, p);
    }
  }

  lemma Closing(clients: map<Key, Client>, tasks: seq<Pc>, closed: set<Client>, minted: nat, t: TaskId, pc: Pc, gone: Client)
    requires Conserved(clients, tasks, closed, minted) && t < |tasks|
    requires Carries(tasks[t], gone)
    requires forall c: Client :: Carries(pc, c) <==> Carries(tasks[t], c) && c != gone
    ensures Conserved(clients, tasks[t := pc], closed + {gone}, minted)
  {
    var tasks', closed' := tasks[t := pc], closed + {gone};
    assert Located(clients, tasks, closed, gone, HeldBy(t));
    forall c: Client | c < minted ensures Somewhere(clients, tasks', closed', c) {
      if c == gone {
        assert Located(clients, tasks', closed', c, Closed);
      } else {
        assert Somewhere(clients, tasks, closed, c);
        var p :| Located(clients, tasks, closed, c, p);
        assert Located(clients, tasks', closed', c, p);
      }
    }
    forall c: Client, p | Located(clients, tasks', closed', c, p)
      ensures if c == gone then p == Closed else Located(clients, tasks, closed, c, p)
    {
      if c == gone && p != Closed {
        assert Located(clients, tasks, closed, c, p);
      }
    }
  }

  lemma Caching(clients: map<Key, Client>, tasks: seq<Pc>, closed: set<Client>, minted: nat, t: TaskId, pc: Pc,
                key: Key, built: Client)
    requires Conserved(clients, tasks, closed, minted) && t < |tasks|
    requires Carries(tasks[t], built) && (forall c: Client :: Carries(tasks[t], c) ==> c == built)
    requires forall c: Client :: !Carries(pc, c)
    ensures key !in clients ==> Conserved(clients[key := built], tasks[t := pc], closed, minted)
    ensures key in clients ==> Conserved(clients[key := built], tasks[t := pc], closed + {clients[key]}, minted)
  {
    var clients', tasks' := clients[key := built], tasks[t := pc];
    var closed' := if key in clients then closed + {clients[key]} else closed;
    assert Located(clients, tasks, closed, built, HeldBy(t));
    assert key in clients ==> Located(clients, tasks, closed, clients[key], Cached(key));
    forall c: Client | c < minted ensures Somewhere(clients', tasks', closed', c) {
      if c == built {
        assert Located(clients', tasks', closed', c, Cached(key));
      } else if key in clients && c == clients[key] {
        assert Located(clients', tasks', closed', c, Closed);
      } else {
        assert Somewhere(clients, tasks, closed, c);
        var p :| Located(clients, tasks, closed, c, p);
        assert Located(clients', tasks', closed', c, p);
      }
    }
    forall c: Client, p | Located(clients', tasks', closed', c, p)
      ensures if c == built then p == Cached(key)
              else if key in clients && c == clients[key] then p == Closed
              else Located(clients, tasks, closed, c, p)
    {
      if p != Cached(key) && (p != Closed || c in closed) {
        assert Located(clients, tasks, closed, c, p);
      }
    }
  }

  lemma Taking(clients: map<Key, Client>, tasks: seq<Pc>, closed: set<Client>, minted: nat, keys: set<Key>,
               tasks': seq<Pc>, t: TaskId)
    requires Conserved(clients, tasks, closed, minted)
    requires t < |tasks'| && |tasks| <= |tasks'| <= |tasks| + 1 && (|tasks'| > |tasks| ==> t == |tasks|)
    requires forall u :: 0 <= u < |tasks| && u != t ==> tasks'[u] == tasks[u]
    requires forall c: Client :: t < |tasks| ==> !Carries(tasks[t], c)
    requires forall c: Client :: Carries(tasks'[t], c) <==> exists k :: k in keys && k in clients && clients[k] == c
    ensures Conserved(clients - keys, tasks', closed, minted)
  {
    var clients' := clients - keys;
    forall c: Client | c < minted ensures Somewhere(clients', tasks', closed, c) {
      assert Somewhere(clients, tasks, closed, c);
      var p :| Located(clients, tasks, closed, c, p);
      if p.Cached? && p.key in keys {
        assert Located(clients', tasks', closed, c, HeldBy(t));
      } else {
        assert Located(clients', tasks', closed, c, p);
      }
    }
    forall c: Client, p | Located(clients', tasks', closed, c, p)
      ensures if p == HeldBy(t) then exists k :: k in keys && Located(clients, tasks, closed, c, Cached(k))
              else Located(clients, tasks, closed, c, p)
    {
      if p == HeldBy(t) {
        var k :| k in keys && k in clients && clients[k] == c;
        assert Located(clients, tasks, closed, c, Cached(k));
      }
    }
  }

  // ----- every action keeps the invariant ------------------------------------

  /** What an action of call `t` owes to locks, cache and gauge. */
  predicate CallStep(s: State, s': State, t: TaskId) {
    && LockStep(s, s', t) && GaugeStep(s, s', t) && OnlyOwnSlot(s, s', t)
    && (Holds(s.tasks[t]) || s.tasks[t].lock !in s.owner)
    && !s'.tasks[t].SessionInvalidate? && !s'.tasks[t].SessionClose? && !s'.tasks[t].AllClose?
  }

  lemma CallStepKeeps(s: State, s': State, t: TaskId)
    requires Locking(s) && Swapping(s) && RestDistinct(s) && Gauged(s) && CallStep(s, s', t)
    ensures Locking(s') && Swapping(s') && RestDistinct(s') && Gauged(s')
  {
    LockStepKeeps(s, s', t);
    InsideAlone(s, t);
    OwnSlotKeepsSwapping(s, s', t);
    GaugeStepKeeps(s, s', t);
  }

  lemma GetProfiledLock(s: State, t: TaskId, usable: bool)
    requires At(s, t) && s.tasks[t].GetProfile?
    ensures LockStep(s, GetProfiled(s, t, usable), t) && OnlyOwnSlot(s, GetProfiled(s, t, usable), t)
  {
  }

  lemma GetProfiledGauge(s: State, t: TaskId, usable: bool)
    requires At(s, t) && s.tasks[t].GetProfile?
    ensures GaugeStep(s, GetProfiled(s, t, usable), t)
  {
  }

  lemma GetProfiledCall(s: State, t: TaskId, usable: bool)
    requires At(s, t) && s.tasks[t].GetProfile?
    ensures CallStep(s, GetProfiled(s, t, usable), t)
  {
    hide LockStep, OnlyOwnSlot, GaugeStep;
    GetProfiledLock(s, t, usable);
    GetProfiledGauge(s, t, usable);
  }

  lemma GetConnectedLock(s: State, t: TaskId, ok: bool)
    requires At(s, t) && s.tasks[t].GetConnect?
    ensures LockStep(s, GetConnected(s, t, ok), t) && OnlyOwnSlot(s, GetConnected(s, t, ok), t)
  {
  }

  lemma GetConnectedGauge(s: State, t: TaskId, ok: bool)
    requires At(s, t) && s.tasks[t].GetConnect?
    ensures GaugeStep(s, GetConnected(s, t, ok), t)
  {
    OneMore(s.clients, s.tasks[t].key, s.tasks[t].built);
  }

  lemma GetConnectedCall(s: State, t: TaskId, ok: bool)
    requires At(s, t) && s.tasks[t].GetConnect?
    ensures CallStep(s, GetConnected(s, t, ok), t)
  {
    GetConnectedLock(s, t, ok);
    GetConnectedGauge(s, t, ok);
    hide LockStep, OnlyOwnSlot, GaugeStep;
  }

  lemma EvictEnteredLock(s: State, t: TaskId)
    requires At(s, t) && s.tasks[t].EvictWait? && s.tasks[t].lock !in s.owner
    ensures LockStep(s, EvictEntered(s, t), t) && OnlyOwnSlot(s, EvictEntered(s, t), t)
  {
  }

  lemma EvictEnteredGauge(s: State, t: TaskId)
    requires At(s, t) && s.tasks[t].EvictWait? && s.tasks[t].lock !in s.owner
    ensures GaugeStep(s, EvictEntered(s, t), t)
  {
    OneLess(s.clients, s.tasks[t].key);
  }

  lemma EvictEnteredCall(s: State, t: TaskId)
    requires At(s, t) && s.tasks[t].EvictWait? && s.tasks[t].lock !in s.owner
    ensures CallStep(s, EvictEntered(s, t), t)
  {
    EvictEnteredLock(s, t);
    EvictEnteredGauge(s, t);
    hide LockStep, OnlyOwnSlot, GaugeStep;
  }

  lemma EvictInvalidatedLock(s: State, t: TaskId)
    requires At(s, t) && s.tasks[t].EvictInvalidate?
    ensures LockStep(s, EvictInvalidated(s, t), t) && OnlyOwnSlot(s, EvictInvalidated(s, t), t)
  {
  }

  lemma EvictInvalidatedGauge(s: State, t: TaskId)
    requires At(s, t) && s.tasks[t].EvictInvalidate?
    ensures GaugeStep(s, EvictInvalidated(s, t), t)
  {
  }

  lemma EvictInvalidatedCall(s: State, t: TaskId)
    requires At(s, t) && s.tasks[t].EvictInvalidate?
    ensures CallStep(s, EvictInvalidated(s, t), t)
  {
    EvictInvalidatedLock(s, t);
    EvictInvalidatedGauge(s, t);
    hide LockStep, OnlyOwnSlot, GaugeStep;
  }

  lemma GetEnteredKeeps(s: State, t: TaskId, connected: bool)
    requires Inv(s) && At(s, t) && s.tasks[t].GetWait? && s.tasks[t].lock !in s.owner
    ensures Inv(GetEntered(s, t, connected))
  {
    var s' := GetEntered(s, t, connected);
    CallStepKeeps(s, s', t);
    SamePlaces(s.clients, s.tasks, s.closed, s.minted, s'.tasks);
  }

  lemma GetProfiledKeeps(s: State, t: TaskId, usable: bool)
    requires Inv(s) && At(s, t) && s.tasks[t].GetProfile?
    ensures Inv(GetProfiled(s, t, usable))
  {
    hide CallStep, Conserved, Locking, Swapping, Gauged, RestDistinct;
    var s' := GetProfiled(s, t, usable);
    GetProfiledCall(s, t, usable);
    CallStepKeeps(s, s', t);
    if usable {
      Minting(s.clients, s.tasks, s.closed, s.minted, t, s'.tasks[t]);
    } else {
      SamePlaces(s.clients, s.tasks, s.closed, s.minted, s'.tasks);
    }
  }

  lemma GetConnectedKeeps(s: State, t: TaskId, ok: bool)
    requires Inv(s) && At(s, t) && s.tasks[t].GetConnect?
    ensures Inv(GetConnected(s, t, ok))
  {
    var s', pc := GetConnected(s, t, ok), s.tasks[t];
    GetConnectedCall(s, t, ok);
    CallStepKeeps(s, s', t);
    if ok && pc.key !in s.clients {
      Caching(s.clients, s.tasks, s.closed, s.minted, t, s'.tasks[t], pc.key, pc.built);
    } else {
      SamePlaces(s.clients, s.tasks, s.closed, s.minted, s'.tasks);
    }
  }

  lemma GetCleanedUpKeeps(s: State, t: TaskId)
    requires Inv(s) && At(s, t) && s.tasks[t].GetCleanup?
    ensures Inv(GetCleanedUp(s, t))
  {
    var s' := GetCleanedUp(s, t);
    CallStepKeeps(s, s', t);
    Closing(s.clients, s.tasks, s.closed, s.minted, t, s'.tasks[t], s.tasks[t].built);
  }

  lemma GetSwappedKeeps(s: State, t: TaskId)
    requires Inv(s) && At(s, t) && s.tasks[t].GetSwap?
    ensures Inv(GetSwapped(s, t))
  {
    var s', pc := GetSwapped(s, t), s.tasks[t];
    OneMore(s.clients, pc.key, pc.built);
    CallStepKeeps(s, s', t);
    Caching(s.clients, s.tasks, s.closed, s.minted, t, s'.tasks[t], pc.key, pc.built);
  }

  lemma EvictEnteredKeeps(s: State, t: TaskId)
    requires Inv(s) && At(s, t) && s.tasks[t].EvictWait? && s.tasks[t].lock !in s.owner
    ensures Inv(EvictEntered(s, t))
  {
    var s', pc := EvictEntered(s, t), s.tasks[t];
    EvictEnteredCall(s, t);
    CallStepKeeps(s, s', t);
    Taking(s.clients, s.tasks, s.closed, s.minted, {pc.key}, s'.tasks, t);
  }

  lemma EvictInvalidatedKeeps(s: State, t: TaskId)
    requires Inv(s) && At(s, t) && s.tasks[t].EvictInvalidate?
    ensures Inv(EvictInvalidated(s, t))
  {
    var s' := EvictInvalidated(s, t);
    EvictInvalidatedCall(s, t);
    CallStepKeeps(s, s', t);
    SamePlaces(s.clients, s.tasks, s.closed, s.minted, s'.tasks);
  }

  lemma EvictClosedLock(s: State, t: TaskId)
    requires At(s, t) && s.tasks[t].EvictClose?
    ensures LockStep(s, EvictClosed(s, t), t) && OnlyOwnSlot(s, EvictClosed(s, t), t)
  {
  }

  lemma EvictClosedGauge(s: State, t: TaskId)
    requires At(s, t) && s.tasks[t].EvictClose?
    ensures GaugeStep(s, EvictClosed(s, t), t)
  {
  }

  lemma EvictClosedCall(s: State, t: TaskId)
    requires At(s, t) && s.tasks[t].EvictClose?
    ensures CallStep(s, EvictClosed(s, t), t)
  {
    EvictClosedLock(s, t);
    EvictClosedGauge(s, t);
    hide LockStep, OnlyOwnSlot, GaugeStep;
  }

  lemma EvictClosedKeeps(s: State, t: TaskId)
    requires Inv(s) && At(s, t) && s.tasks[t].EvictClose?
    ensures Inv(EvictClosed(s, t))
  {
    var s' := EvictClosed(s, t);
    EvictClosedCall(s, t);
    hide CallStep, Conserved, Locking, Swapping, Gauged, RestDistinct;
    CallStepKeeps(s, s', t);
    Closing(s.clients, s.tasks, s.closed, s.minted, t, s'.tasks[t], s.tasks[t].victim);
  }

  lemma SpawnLocking(s: State, pc: Pc)
    requires Locking(s) && !Holds(pc)
    requires InFlight(pc) ==> pc.key in s.connLocks && s.connLocks[pc.key] == pc.lock
    ensures Locking(Spawn(s, pc))
  {
    RegisteredSpawn(s.connLocks, s.nextLock, s.tasks, pc);
    OwnedSpawn(s.owner, s.tasks, pc);
    hide Registered, Owned;
  }

  lemma SpawnRest(s: State, pc: Pc)
    requires Swapping(s) && RestDistinct(s) && Gauged(s)
    requires !Holds(pc) && !pc.SessionInvalidate? && !pc.SessionClose? && !pc.AllClose?
    ensures Swapping(Spawn(s, pc)) && RestDistinct(Spawn(s, pc)) && Gauged(Spawn(s, pc))
  {
    OwedAppend(s.tasks, pc);
    hide TotalOwed;
  }

  /** A new task holds no lock and no client. */
  lemma SpawnKeeps(s: State, pc: Pc)
    requires Inv(s) && !Holds(pc) && !pc.SessionInvalidate? && !pc.SessionClose? && !pc.AllClose?
    requires InFlight(pc) ==> pc.key in s.connLocks && s.connLocks[pc.key] == pc.lock
    ensures Inv(Spawn(s, pc))
  {
    SpawnLocking(s, pc);
    SpawnRest(s, pc);
    hide Locking, Swapping, RestDistinct, Gauged, Conserved;
    SamePlaces(s.clients, s.tasks, s.closed, s.minted, s.tasks + [pc]);
  }

  lemma WithLockKeeps(s: State, key: Key)
    requires Inv(s)
    ensures Inv(WithLock(s, key)) && key in WithLock(s, key).connLocks
  {
    if key !in s.connLocks {
      RegisteredNew(s.connLocks, s.nextLock, s.tasks, key);
    }
  }

  lemma PickDistinct(s: State, order: seq<Key>)
    requires Conserved(s.clients, s.tasks, s.closed, s.minted)
    requires Distinct(order) && forall k :: k in order ==> k in s.clients
    ensures Distinct(Pick(s.clients, order))
    ensures forall c: Client :: c in Pick(s.clients, order) <==>
                                exists k :: k in Keys(order) && k in s.clients && s.clients[k] == c
  {
    var rest := Pick(s.clients, order);
    forall i, j | 0 <= i < j < |rest| ensures rest[i] != rest[j] {
      assert Located(s.clients, s.tasks, s.closed, rest[i], Cached(order[i]));
      assert Located(s.clients, s.tasks, s.closed, rest[j], Cached(order[j]));
    }
    forall k | k in Keys(order) ensures s.clients[k] in rest {
      var i :| 0 <= i < |order| && order[i] == k;
      assert rest[i] == s.clients[k];
    }
  }

  lemma SessionTakenLocking(s: State, session: string, order: seq<Key>)
    requires Locking(s) && Lists(s, Some(session), order) && Quiet(s, StartSession(session, order))
    ensures Locking(SessionTaken(s, session, order))
  {
    var pc := SessionPc(Pick(s.clients, order));
    RegisteredDrop(s.connLocks, s.nextLock, s.tasks, Keys(order));
    RegisteredSpawn(s.connLocks - Keys(order), s.nextLock, s.tasks, pc);
    OwnedSpawn(s.owner, s.tasks, pc);
  }

  lemma SessionTakenSwapping(s: State, session: string, order: seq<Key>)
    requires Locking(s) && Swapping(s) && Lists(s, Some(session), order) && Quiet(s, StartSession(session, order))
    ensures Swapping(SessionTaken(s, session, order))
  {
    var s' := SessionTaken(s, session, order);
    hide Locking;
    forall u | 0 <= u < |s'.tasks| && s'.tasks[u].GetSwap?
      ensures s'.tasks[u].key in s'.clients && s'.clients[s'.tasks[u].key] == s'.tasks[u].stale
    {
      assert InFlight(s.tasks[u]);
    }
  }

  lemma OwedBySweep(clients: map<Key, Client>, order: seq<Key>)
    requires forall k :: k in order ==> k in clients
    ensures Owed(SessionPc(Pick(clients, order))) == |order| == Owed(AllPc(Pick(clients, order), |order|))
  {
  }

  lemma SessionTakenGauge(s: State, session: string, order: seq<Key>)
    requires Gauged(s) && Lists(s, Some(session), order)
    ensures Gauged(SessionTaken(s, session, order))
  {
    OrderCached(s, Some(session), order);
    TakenCount(s.clients, order);
    OwedBySweep(s.clients, order);
    OwedAppend(s.tasks, SessionPc(Pick(s.clients, order)));
    hide Owed, TotalOwed, Lists, SessionPc, Pick, Keys;
  }

  lemma OrderCached(s: State, session: Option<string>, order: seq<Key>)
    requires Lists(s, session, order)
    ensures Distinct(order) && Keys(order) <= s.clients.Keys && forall k :: k in order ==> k in s.clients
  {
  }

  lemma SessionTakenPlaces(s: State, session: string, order: seq<Key>)
    requires Conserved(s.clients, s.tasks, s.closed, s.minted) && RestDistinct(s) && Lists(s, Some(session), order)
    ensures var s' := SessionTaken(s, session, order);
            Conserved(s'.clients, s'.tasks, s'.closed, s'.minted) && RestDistinct(s')
  {
    var s' := SessionTaken(s, session, order);
    PickDistinct(s, order);
    hide Conserved;
    Taking(s.clients, s.tasks, s.closed, s.minted, Keys(order), s'.tasks, |s.tasks|);
  }

  lemma SessionTakenKeeps(s: State, session: string, order: seq<Key>)
    requires Inv(s) && Lists(s, Some(session), order) && Quiet(s, StartSession(session, order))
    ensures Inv(SessionTaken(s, session, order))
  {
    hide Conserved, Locking, Swapping, Gauged, RestDistinct, Quiet, Lists, SessionTaken;
    SessionTakenLocking(s, session, order);
    SessionTakenSwapping(s, session, order);
    SessionTakenGauge(s, session, order);
    SessionTakenPlaces(s, session, order);
  }

  lemma AllTakenLocking(s: State, t: TaskId, order: seq<Key>)
    requires Locking(s) && At(s, t) && s.tasks[t].AllClearing? && Lists(s, None, order) && Quiet(s, TakeAll(t, order))
    ensures Locking(AllTaken(s, t, order))
  {
    var s' := AllTaken(s, t, order);
    RegisteredMove(s.connLocks, s.nextLock, s.tasks, t, s'.tasks[t]);
    RegisteredDrop(s.connLocks, s.nextLock, s'.tasks, s.connLocks.Keys);
    OwnedMove(s.owner, s.tasks, t, s'.tasks[t]);
  }

  lemma NoneInFlight(s: State, t: TaskId, order: seq<Key>)
    requires Locking(s) && Quiet(s, TakeAll(t, order))
    ensures forall u :: 0 <= u < |s.tasks| ==> !InFlight(s.tasks[u])
  {
  }

  lemma AllTakenSwapping(s: State, t: TaskId, order: seq<Key>)
    requires Locking(s) && Swapping(s) && At(s, t) && s.tasks[t].AllClearing? && Lists(s, None, order) && Quiet(s, TakeAll(t, order))
    ensures Swapping(AllTaken(s, t, order))
  {
    NoneInFlight(s, t, order);
    var tasks := AllTaken(s, t, order).tasks;
    hide Locking, Quiet, Lists, AllTaken;
    assert forall u :: 0 <= u < |tasks| ==> !tasks[u].GetSwap? by { NoSwapAfter(s, t, order); }
  }

  lemma NoSwapAfter(s: State, t: TaskId, order: seq<Key>)
    requires At(s, t) && s.tasks[t].AllClearing? && Lists(s, None, order)
    requires forall u :: 0 <= u < |s.tasks| ==> !InFlight(s.tasks[u])
    ensures var tasks := AllTaken(s, t, order).tasks; forall u :: 0 <= u < |tasks| ==> !tasks[u].GetSwap?
  {
  }

  lemma AllTakenGauge(s: State, t: TaskId, order: seq<Key>)
    requires Gauged(s) && At(s, t) && s.tasks[t].AllClearing? && Lists(s, None, order)
    ensures Gauged(AllTaken(s, t, order))
  {
    KeysCount(order);
    assert Keys(order) == s.clients.Keys;
    OwedUpdate(s.tasks, t, AllPc(Pick(s.clients, order), |order|));
  }

  lemma AllTakenPlaces(s: State, t: TaskId, order: seq<Key>)
    requires Conserved(s.clients, s.tasks, s.closed, s.minted) && RestDistinct(s)
    requires At(s, t) && s.tasks[t].AllClearing? && Lists(s, None, order)
    ensures var s' := AllTaken(s, t, order);
            Conserved(s'.clients, s'.tasks, s'.closed, s'.minted) && RestDistinct(s')
  {
    var s' := AllTaken(s, t, order);
    PickDistinct(s, order);
    hide Conserved;
    Taking(s.clients, s.tasks, s.closed, s.minted, Keys(order), s'.tasks, t);
    assert Keys(order) == s.clients.Keys;
    assert s.clients - Keys(order) == map[];
  }

  lemma AllTakenKeeps(s: State, t: TaskId, order: seq<Key>)
    requires Inv(s) && At(s, t) && s.tasks[t].AllClearing? && Lists(s, None, order) && Quiet(s, TakeAll(t, order))
    ensures Inv(AllTaken(s, t, order))
  {
    hide Conserved, Locking, Swapping, Gauged, RestDistinct, Quiet, Lists, AllTaken;
    AllTakenLocking(s, t, order);
    AllTakenSwapping(s, t, order);
    AllTakenGauge(s, t, order);
    AllTakenPlaces(s, t, order);
  }

  /** What a closing step of a sweep owes. */
  predicate SweepStep(s: State, s': State, t: TaskId) {
    && LockStep(s, s', t) && GaugeStep(s, s', t)
    && s'.clients == s.clients && !InFlight(s'.tasks[t])
    && (s'.tasks[t].SessionInvalidate? || s'.tasks[t].SessionClose? || s'.tasks[t].AllClose?
        ==> Distinct(s'.tasks[t].rest) && s'.tasks[t].rest != [])
  }

  lemma SweepStepKeeps(s: State, s': State, t: TaskId)
    requires Locking(s) && Swapping(s) && RestDistinct(s) && Gauged(s) && SweepStep(s, s', t)
    ensures Locking(s') && Swapping(s') && RestDistinct(s') && Gauged(s')
  {
    LockStepKeeps(s, s', t);
    GaugeStepKeeps(s, s', t);
  }

  lemma SessionNextKeeps(s: State, t: TaskId)
    requires Inv(s) && At(s, t) && s.tasks[t].SessionInvalidate?
    ensures Inv(SessionNext(s, t))
  {
    var s' := SessionNext(s, t);
    SweepStepKeeps(s, s', t);
    SamePlaces(s.clients, s.tasks, s.closed, s.minted, s'.tasks);
  }

  lemma HeadOnce(rest: seq<Client>, c: Client)
    requires Distinct(rest) && rest != []
    ensures c in rest[1..] <==> c in rest && c != rest[0]
    ensures Distinct(rest[1..])
  {
    assert rest == [rest[0]] + rest[1..];
  }

  lemma SessionShutKeeps(s: State, t: TaskId)
    requires Inv(s) && At(s, t) && s.tasks[t].SessionClose? && s.tasks[t].rest != []
    ensures Inv(SessionShut(s, t))
  {
    var s', rest := SessionShut(s, t), s.tasks[t].rest;
    forall c: Client ensures c in rest[1..] <==> c in rest && c != rest[0] { HeadOnce(rest, c); }
    HeadOnce(rest, 0);
    SweepStepKeeps(s, s', t);
    Closing(s.clients, s.tasks, s.closed, s.minted, t, s'.tasks[t], rest[0]);
  }

  lemma AllShutKeeps(s: State, t: TaskId)
    requires Inv(s) && At(s, t) && s.tasks[t].AllClose? && s.tasks[t].rest != []
    ensures Inv(AllShut(s, t))
  {
    var s', rest := AllShut(s, t), s.tasks[t].rest;
    forall c: Client ensures c in rest[1..] <==> c in rest && c != rest[0] { HeadOnce(rest, c); }
    HeadOnce(rest, 0);
    SweepStepKeeps(s, s', t);
    Closing(s.clients, s.tasks, s.closed, s.minted, t, s'.tasks[t], rest[0]);
  }

  /** One action of any task, a sweep only when no call is in flight on a slot it drops. */
  lemma StepKeepsInv(s: State, a: Action)
    requires Inv(s) && Enabled(s, a) && Quiet(s, a)
    ensures Inv(Do(s, a))
  {
    hide Inv, WithLock, GetEntered, GetProfiled, GetConnected, GetCleanedUp, GetSwapped, EvictEntered, EvictInvalidated,
      EvictClosed, SessionTaken, SessionNext, SessionShut, AllTaken, AllShut, Quiet, Lists;
    match a
    case StartGet(key) =>
      WithLockKeeps(s, key);
      SpawnKeeps(WithLock(s, key), GetWait(key, WithLock(s, key).connLocks[key]));
    case StartEvict(key) =>
      WithLockKeeps(s, key);
      SpawnKeeps(WithLock(s, key), EvictWait(key, WithLock(s, key).connLocks[key]));
    case EnterGet(t, connected) => GetEnteredKeeps(s, t, connected);
    case ProfileReady(t, usable) => GetProfiledKeeps(s, t, usable);
    case ConnectDone(t, ok) => GetConnectedKeeps(s, t, ok);
    case CleanedUp(t) => GetCleanedUpKeeps(s, t);
    case StaleClosed(t) => GetSwappedKeeps(s, t);
    case EnterEvict(t) => EvictEnteredKeeps(s, t);
    case Invalidated(t) => EvictInvalidatedKeeps(s, t);
    case VictimClosed(t) => EvictClosedKeeps(s, t);
    case StartSession(session, order) => SessionTakenKeeps(s, session, order);
    case SessionInvalidated(t) => SessionNextKeeps(s, t);
    case SessionClosed(t) => SessionShutKeeps(s, t);
    case StartAll => SpawnKeeps(s, AllClearing);
    case TakeAll(t, order) => AllTakenKeeps(s, t, order);
    case AllClosed(t) => AllShutKeeps(s, t);
  }

  // ----- whole runs ----------------------------------------------------------

  predicate CanRun(s: State, acts: seq<Action>)
    decreases |acts|
  {
    acts == [] || (Enabled(s, acts[0]) && CanRun(Do(s, acts[0]), acts[1..]))
  }

  function After(s: State, acts: seq<Action>): State
    requires CanRun(s, acts)
    decreases |acts|
  {
    if acts == [] then s else After(Do(s, acts[0]), acts[1..])
  }

  /** Every sweep of the run finds no call in flight on a slot it drops. */
  predicate QuietRun(s: State, acts: seq<Action>)
    requires CanRun(s, acts)
    decreases |acts|
  {
    acts == [] || (Quiet(s, acts[0]) && QuietRun(Do(s, acts[0]), acts[1..]))
  }

  lemma {:induction false} RunKeepsInv(s: State, acts: seq<Action>)
    requires Inv(s) && CanRun(s, acts) && QuietRun(s, acts)
    ensures Inv(After(s, acts))
    decreases |acts|
  {
    if acts != [] {
      StepKeepsInv(s, acts[0]);
      RunKeepsInv(Do(s, acts[0]), acts[1..]);
    }
  }

  lemma InitInv()
    ensures Inv(Init)
  {
    assert TotalOwed(Init.tasks) == 0;
  }

  predicate Exclusive(s: State) {
    forall t, u | 0 <= t < |s.tasks| && 0 <= u < |s.tasks| && Holds(s.tasks[t]) && Holds(s.tasks[u]) ::
      s.tasks[t].key == s.tasks[u].key ==> t == u
  }

  lemma InvExclusive(s: State)
    requires Locking(s)
    ensures Exclusive(s)
  {
    forall t, u | 0 <= t < |s.tasks| && 0 <= u < |s.tasks| && Holds(s.tasks[t]) && Holds(s.tasks[u])
                  && s.tasks[t].key == s.tasks[u].key
      ensures t == u
    {
      OneHolder(s, t, u);
    }
  }

  predicate Quiescent(s: State) {
    forall t :: 0 <= t < |s.tasks| ==> s.tasks[t].Returned? || s.tasks[t].Ended?
  }

  lemma {:induction false} NothingOwed(tasks: seq<Pc>)
    requires forall t :: 0 <= t < |tasks| ==> tasks[t].Returned? || tasks[t].Ended?
    ensures TotalOwed(tasks) == 0
  {
    if tasks != [] {
      NothingOwed(tasks[..|tasks| - 1]);
    }
  }

  /** Conservation of native clients, one builder per slot, and the gauge, in every interleaving. */
  lemma PoolSafety(acts: seq<Action>)
    requires CanRun(Init, acts) && QuietRun(Init, acts)
    ensures var s := After(Init, acts);
            && (forall c: Client :: c < s.minted ==> Somewhere(s.clients, s.tasks, s.closed, c))
            && (forall c: Client, p, q ::
                  Located(s.clients, s.tasks, s.closed, c, p) && Located(s.clients, s.tasks, s.closed, c, q) ==> p == q)
            && Exclusive(s)
            && s.gauge == |s.clients.Keys| + TotalOwed(s.tasks)
            && (Quiescent(s) ==> s.gauge == |s.clients.Keys|)
  {
    InitInv();
    RunKeepsInv(Init, acts);
    var s := After(Init, acts);
    InvExclusive(s);
    if Quiescent(s) {
      NothingOwed(s.tasks);
    }
  }

  lemma ReturnsOwnSlot(s: State, t: TaskId, connected: bool, ok: bool)
    requires At(s, t)
    ensures Enabled(s, EnterGet(t, connected)) ==> CachesReturned(s, GetEntered(s, t, connected), t)
    ensures Enabled(s, ConnectDone(t, ok)) ==> CachesReturned(s, GetConnected(s, t, ok), t)
    ensures Enabled(s, StaleClosed(t)) ==> CachesReturned(s, GetSwapped(s, t), t)
  {
  }

  predicate CachesReturned(s: State, s': State, t: TaskId)
    requires At(s, t) && InFlight(s.tasks[t])
  {
    At(s', t) && (s'.tasks[t].Returned? ==>
      && s'.tasks[t].key == s.tasks[t].key && s'.tasks[t].key in s'.clients
      && s'.clients[s'.tasks[t].key] == s'.tasks[t].client)
  }

  lemma CachedNotClosed(clients: map<Key, Client>, tasks: seq<Pc>, closed: set<Client>, minted: nat, key: Key)
    requires Conserved(clients, tasks, closed, minted) && key in clients
    ensures clients[key] !in closed
  {
    assert Located(clients, tasks, closed, clients[key], Cached(key));
    assert !Located(clients, tasks, closed, clients[key], Closed);
  }

  /** `get_client` returns the client cached in its own slot, and that client is not closed. */
  lemma ReturnsCached(s: State, a: Action)
    requires a.EnterGet? || a.ConnectDone? || a.StaleClosed?
    requires Inv(s) && Enabled(s, a) && Do(s, a).tasks[a.t].Returned?
    ensures CachesReturned(s, Do(s, a), a.t)
    ensures Do(s, a).tasks[a.t].client !in Do(s, a).closed
  {
    var s', t := Do(s, a), a.t;
    ReturnsOwnSlot(s, t, a.EnterGet? && a.connected, a.ConnectDone? && a.ok);
    assert CachesReturned(s, s', t);
    assert Inv(s') by { StepKeepsInv(s, a); }
    CachedNotClosed(s'.clients, s'.tasks, s'.closed, s'.minted, s'.tasks[t].key);
  }

  // ----- dropping locks under a call -----------------------------------------

  ghost predicate BreaksExclusion(s: State, acts: seq<Action>) {
    CanRun(s, acts) && QuietRun(s, acts) && !Exclusive(After(s, acts))
  }

  lemma Prepend(s: State, a: Action, rest: seq<Action>)
    requires Enabled(s, a) && Quiet(s, a) && CanRun(Do(s, a), rest) && QuietRun(Do(s, a), rest)
    ensures CanRun(s, [a] + rest) && QuietRun(s, [a] + rest) && After(s, [a] + rest) == After(Do(s, a), rest)
  {
    hide Do, Enabled, Quiet;
    assert ([a] + rest)[1..] == rest;
  }

  lemma QuietUnlessSweep(s: State, a: Action)
    requires !a.StartSession? && !a.TakeAll?
    ensures Quiet(s, a)
  {
  }

  lemma RunTwo(s: State, a: Action, b: Action)
    requires Enabled(s, a) && Enabled(Do(s, a), b)
    requires !a.StartSession? && !a.TakeAll? && !b.StartSession? && !b.TakeAll?
    ensures CanRun(s, [a, b]) && QuietRun(s, [a, b]) && After(s, [a, b]) == Do(Do(s, a), b)
  {
    hide Do, Enabled, Quiet;
    QuietUnlessSweep(s, a);
    QuietUnlessSweep(Do(s, a), b);
    Prepend(Do(s, a), b, []);
    Prepend(s, a, [b] + []);
    assert [a] + ([b] + []) == [a, b];
  }

  /** A fresh `get_client` on a dropped slot gets a new lock and walks in. */
  lemma NewcomerEnters(s: State, key: Key)
    requires key !in s.connLocks && key !in s.clients && s.nextLock !in s.owner
    ensures var acts := [StartGet(key), EnterGet(|s.tasks|, false)];
            && CanRun(s, acts) && QuietRun(s, acts)
            && var s' := After(s, acts);
               && s'.tasks == s.tasks + [GetProfile(key, s.nextLock)]
               && s'.owner == s.owner[s.nextLock := |s.tasks|] && s'.clients == s.clients
  {
    var a, b := StartGet(key), EnterGet(|s.tasks|, false);
    var s1 := Do(s, a);
    assert s1.tasks[|s.tasks|] == GetWait(key, s.nextLock);
    RunTwo(s, a, b);
  }

  /** What a sweep leaves of a slot with a call `u` in flight: no lock, no client, and the
      call still on the old lock (owned by a call in the same slot, or free). */
  predicate Stranded(s: State, u: TaskId) {
    && At(s, u) && InFlight(s.tasks[u])
    && s.tasks[u].key !in s.connLocks && s.tasks[u].key !in s.clients
    && s.nextLock !in s.owner && s.nextLock != s.tasks[u].lock
    && if s.tasks[u].lock in s.owner
       then var h := s.owner[s.tasks[u].lock];
            At(s, h) && Holds(s.tasks[h]) && s.tasks[h].key == s.tasks[u].key
       else !Holds(s.tasks[u])
  }

  lemma CallUnderLock(s: State, u: TaskId)
    requires Locking(s) && At(s, u) && InFlight(s.tasks[u])
    ensures s.nextLock !in s.owner && s.nextLock != s.tasks[u].lock
    ensures if s.tasks[u].lock in s.owner
            then var h := s.owner[s.tasks[u].lock];
                 At(s, h) && Holds(s.tasks[h]) && s.tasks[h].key == s.tasks[u].key
            else !Holds(s.tasks[u])
  {
    if s.nextLock in s.owner {
      assert InFlight(s.tasks[s.owner[s.nextLock]]);
      assert false;
    }
  }

  lemma SessionStrands(s: State, session: string, order: seq<Key>, u: TaskId)
    requires Locking(s) && Enabled(s, StartSession(session, order))
    requires At(s, u) && InFlight(s.tasks[u]) && s.tasks[u].key in Keys(order)
    ensures Stranded(SessionTaken(s, session, order), u)
  {
    CallUnderLock(s, u);
  }

  lemma AllStrands(s: State, t: TaskId, order: seq<Key>, u: TaskId)
    requires Locking(s) && Enabled(s, TakeAll(t, order))
    requires At(s, u) && InFlight(s.tasks[u])
    ensures Stranded(AllTaken(s, t, order), u)
  {
    CallUnderLock(s, u);
    assert s.tasks[u].lock in s.owner ==> s.owner[s.tasks[u].lock] != t;
  }

  lemma TwoHolders(s: State, t: TaskId, u: TaskId)
    requires At(s, t) && At(s, u) && t != u && Holds(s.tasks[t]) && Holds(s.tasks[u]) && s.tasks[t].key == s.tasks[u].key
    ensures !Exclusive(s)
  {
  }

  /** The newcomer finds another call of the slot already inside. */
  lemma NewcomerCollides(s: State, key: Key, h: TaskId)
    requires key !in s.connLocks && key !in s.clients && s.nextLock !in s.owner
    requires At(s, h) && Holds(s.tasks[h]) && s.tasks[h].key == key
    ensures BreaksExclusion(s, [StartGet(key), EnterGet(|s.tasks|, false)])
  {
    NewcomerEnters(s, key);
    TwoHolders(After(s, [StartGet(key), EnterGet(|s.tasks|, false)]), h, |s.tasks|);
  }

  /** A stranded call that waits for its free old lock walks in on it. */
  lemma StrandedEnters(s: State, u: TaskId) returns (a: Action)
    requires Stranded(s, u) && s.tasks[u].lock !in s.owner
    ensures Enabled(s, a) && Quiet(s, a)
    ensures var s1, key := Do(s, a), s.tasks[u].key;
            && key !in s1.connLocks && key !in s1.clients && s1.nextLock !in s1.owner && |s1.tasks| == |s.tasks|
            && At(s1, u) && Holds(s1.tasks[u]) && s1.tasks[u].key == key
  {
    a := if s.tasks[u].GetWait? then EnterGet(u, false) else EnterEvict(u);
    QuietUnlessSweep(s, a);
  }

  /** A newcomer on a stranded slot ends up beside the stranded call or its predecessor. */
  lemma StrandedBreaks(s: State, u: TaskId) returns (acts: seq<Action>)
    requires Stranded(s, u)
    ensures BreaksExclusion(s, acts)
  {
    var key := s.tasks[u].key;
    acts := [StartGet(key), EnterGet(|s.tasks|, false)];
    if s.tasks[u].lock in s.owner {
      NewcomerCollides(s, key, s.owner[s.tasks[u].lock]);
    } else {
      var enter := StrandedEnters(s, u);
      hide Do, Enabled, Quiet, Stranded, Exclusive, Holds;
      NewcomerCollides(Do(s, enter), key, u);
      Prepend(s, enter, acts);
      acts := [enter] + acts;
    }
  }

  /** An action keeps the slots exclusive in every continuation exactly when no call is in
      flight on a slot whose lock it throws away. */
  lemma SweepSafeIffQuiet(s: State, a: Action)
    requires Inv(s) && Enabled(s, a)
    ensures Quiet(s, a) <==> forall acts :: !BreaksExclusion(Do(s, a), acts)
  {
    var s' := Do(s, a);
    if Quiet(s, a) {
      StepKeepsInv(s, a);
      forall acts ensures !BreaksExclusion(s', acts) {
        if CanRun(s', acts) && QuietRun(s', acts) {
          RunKeepsInv(s', acts);
          InvExclusive(After(s', acts));
        }
      }
    } else {
      var u :| 0 <= u < |s.tasks| && InFlight(s.tasks[u]) && s.tasks[u].key in Dropped(s, a);
      if a.StartSession? {
        SessionStrands(s, a.session, a.order, u);
      } else {
        AllStrands(s, a.t, a.order, u);
      }
      var acts := StrandedBreaks(s', u);
    }
  }

  // ----- the manager itself --------------------------------------------------

  /** The manager's dictionaries and gauge, with the event loop (`owner`, `tasks`) and the
      native layer (`minted`, `closed`) it runs against.  A method is one stretch of code
      between two awaits; `t` is the resumed call. */
  class ClientManager {
    var clients: map<Key, Client>
    var connLocks: map<Key, LockId>
    var gauge: int
    var nextLock: nat
    var owner: map<LockId, TaskId>
    var tasks: seq<Pc>
    var minted: nat
    var closed: set<Client>

    ghost function View(): State
      reads this
    {
      State(clients, connLocks, owner, gauge, minted, nextLock, closed, tasks)
    }

    constructor ()
      ensures View() == Init
    {
      clients, connLocks, owner, gauge := map[], map[], map[], 0;
      minted, nextLock, closed, tasks := 0, 0, {}, [];
    }

    method GetConnLock(key: Key) returns (lock: LockId)
      modifies this`connLocks, this`nextLock
      ensures View() == WithLock(old(View()), key) && lock == connLocks[key]
    {
      if key !in connLocks {
        connLocks := connLocks[key := nextLock];
        nextLock := nextLock + 1;
      }
      lock := connLocks[key];
    }

    method BeginGet(key: Key)
      modifies this
      ensures View() == Do(old(View()), StartGet(key))
    {
      var lock := GetConnLock(key);
      tasks := tasks + [GetWait(key, lock)];
    }

    method BeginEvict(key: Key)
      modifies this
      ensures View() == Do(old(View()), StartEvict(key))
    {
      var lock := GetConnLock(key);
      tasks := tasks + [EvictWait(key, lock)];
    }

    method EnterGetSection(t: TaskId, connected: bool)
      requires Enabled(View(), EnterGet(t, connected))
      modifies this`owner, this`tasks
      ensures View() == Do(old(View()), EnterGet(t, connected))
      ensures tasks[t].Returned? <==> old(tasks)[t].key in clients && connected
      ensures tasks[t].Returned? ==> tasks[t].client == clients[old(tasks)[t].key] && owner == old(owner)
    {
      var key, lock := tasks[t].key, tasks[t].lock;
      if key in clients {
        var client := clients[key];
        if connected {
          tasks := tasks[t := Returned(key, client)];
          return;
        }
      }
      owner := owner[lock := t];
      tasks := tasks[t := GetProfile(key, lock)];
    }

    method BuildClient(t: TaskId, usable: bool)
      requires Enabled(View(), ProfileReady(t, usable))
      modifies this`owner, this`tasks, this`minted
      ensures View() == Do(old(View()), ProfileReady(t, usable))
    {
      var key, lock := tasks[t].key, tasks[t].lock;
      if !usable {
        owner := owner - {lock};
        tasks := tasks[t := Ended];
        return;
      }
      var client := minted;
      minted := minted + 1;
      tasks := tasks[t := GetConnect(key, lock, client)];
    }

    method FinishConnect(t: TaskId, ok: bool)
      requires Enabled(View(), ConnectDone(t, ok))
      modifies this`clients, this`gauge, this`owner, this`tasks
      ensures View() == Do(old(View()), ConnectDone(t, ok))
    {
      var key, lock, client := tasks[t].key, tasks[t].lock, tasks[t].built;
      if !ok {
        tasks := tasks[t := GetCleanup(key, lock, client)];
        return;
      }
      if key in clients {
        tasks := tasks[t := GetSwap(key, lock, client, clients[key])];
        return;
      }
      clients := clients[key := client];
      gauge := gauge + 1;
      owner := owner - {lock};
      tasks := tasks[t := Returned(key, client)];
    }

    method FinishCleanup(t: TaskId)
      requires Enabled(View(), CleanedUp(t))
      modifies this`closed, this`owner, this`tasks
      ensures View() == Do(old(View()), CleanedUp(t))
    {
      closed := closed + {tasks[t].built};
      owner := owner - {tasks[t].lock};
      tasks := tasks[t := Ended];
    }

    method FinishSwap(t: TaskId)
      requires Enabled(View(), StaleClosed(t))
      modifies this`clients, this`gauge, this`closed, this`owner, this`tasks
      ensures View() == Do(old(View()), StaleClosed(t))
    {
      var key, client := tasks[t].key, tasks[t].built;
      closed := closed + {tasks[t].stale};
      gauge := gauge - 1;
      clients := clients[key := client];
      gauge := gauge + 1;
      owner := owner - {tasks[t].lock};
      tasks := tasks[t := Returned(key, client)];
    }

    method EnterEvictSection(t: TaskId)
      requires Enabled(View(), EnterEvict(t))
      modifies this`clients, this`owner, this`tasks
      ensures View() == Do(old(View()), EnterEvict(t))
    {
      var key, lock := tasks[t].key, tasks[t].lock;
      var popped := if key in clients then Some(clients[key]) else None;
      clients := clients - {key};
      owner := owner[lock := t];
      tasks := tasks[t := EvictInvalidate(key, lock, popped)];
    }

    method FinishInvalidate(t: TaskId)
      requires Enabled(View(), Invalidated(t))
      modifies this`owner, this`tasks
      ensures View() == Do(old(View()), Invalidated(t))
    {
      var key, lock, popped := tasks[t].key, tasks[t].lock, tasks[t].popped;
      if popped.Some? {
        tasks := tasks[t := EvictClose(key, lock, popped.value)];
      } else {
        owner := owner - {lock};
        tasks := tasks[t := Ended];
      }
    }

    method FinishEvict(t: TaskId)
      requires Enabled(View(), VictimClosed(t))
      modifies this`gauge, this`closed, this`owner, this`tasks
      ensures View() == Do(old(View()), VictimClosed(t))
    {
      closed := closed + {tasks[t].victim};
      gauge := gauge - 1;
      owner := owner - {tasks[t].lock};
      tasks := tasks[t := Ended];
    }

    /** The cached keys of one session, or of all: the list comprehension of both sweeps. */
    method CachedKeys(session: Option<string>) returns (order: seq<Key>)
      ensures Lists(View(), session, order)
    {
      order := [];
      var rest := clients.Keys;
      while rest != {}
        invariant rest <= clients.Keys
        invariant Distinct(order) && forall k :: k in order ==> k in clients && k !in rest
        invariant forall k :: k in order ==> (session.Some? ==> k.session == session)
        invariant forall k :: k in clients && k !in rest && (session.Some? ==> k.session == session) ==> k in order
        decreases rest
      {
        var k :| k in rest;
        rest := rest - {k};
        if session.None? || k.session == session {
          order := order + [k];
        }
      }
    }

    method CloseSession(session: string) returns (order: seq<Key>)
      modifies this`clients, this`connLocks, this`tasks
      ensures Enabled(old(View()), StartSession(session, order))
      ensures View() == Do(old(View()), StartSession(session, order))
    {
      order := CachedKeys(Some(session));
      var victims := Pick(clients, order);
      clients := clients - Keys(order);
      connLocks := connLocks - Keys(order);
      tasks := tasks + [SessionPc(victims)];
    }

    method SessionInvalidateDone(t: TaskId)
      requires Enabled(View(), SessionInvalidated(t))
      modifies this`tasks
      ensures View() == Do(old(View()), SessionInvalidated(t))
    {
      tasks := tasks[t := SessionClose(tasks[t].rest)];
    }

    method SessionCloseDone(t: TaskId)
      requires Enabled(View(), SessionClosed(t))
      modifies this`gauge, this`closed, this`tasks
      ensures View() == Do(old(View()), SessionClosed(t))
    {
      var rest := tasks[t].rest;
      closed := closed + {rest[0]};
      gauge := gauge - 1;
      tasks := tasks[t := SessionPc(rest[1..])];
    }

    method CloseAll()
      modifies this`tasks
      ensures View() == Do(old(View()), StartAll)
    {
      tasks := tasks + [AllClearing];
    }

    method CloseAllTake(t: TaskId) returns (order: seq<Key>)
      requires At(View(), t) && tasks[t].AllClearing?
      modifies this`clients, this`connLocks, this`tasks
      ensures Enabled(old(View()), TakeAll(t, order))
      ensures View() == Do(old(View()), TakeAll(t, order))
    {
      order := CachedKeys(None);
      var victims := Pick(clients, order);
      clients := map[];
      connLocks := map[];
      tasks := tasks[t := AllPc(victims, |order|)];
    }

    method CloseAllDone(t: TaskId)
      requires Enabled(View(), AllClosed(t))
      modifies this`gauge, this`closed, this`tasks
      ensures View() == Do(old(View()), AllClosed(t))
    {
      var rest, count := tasks[t].rest, tasks[t].count;
      closed := closed + {rest[0]};
      if |rest| == 1 {
        gauge := gauge - count;
      }
      tasks := tasks[t := AllPc(rest[1..], count)];
    }
  }
}

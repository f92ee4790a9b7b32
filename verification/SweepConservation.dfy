/** What a sweep does to conservation and to the gauge of the client pool, said at the sweep: it
    is harmless in every continuation exactly when every call in flight on a slot it drops is
    already past the cache. */
module SweepConservation {
  import opened Prelude
  import opened ClientPool
  import opened PoolConservation

  /** A call that may still read or write its slot. */
  predicate Touching(pc: Pc) { pc.GetWait? || pc.EvictWait? || pc.GetProfile? || pc.GetConnect? || pc.GetSwap? }

  predicate Harmless(s: State, a: Action) {
    forall t :: 0 <= t < |s.tasks| && InFlight(s.tasks[t]) && s.tasks[t].key in Dropped(s, a) ==> !Touching(s.tasks[t])
  }

  // ----- an invariant that forgets the calls past the cache -----------------------

  predicate TouchingRegistered(connLocks: map<Key, LockId>, nextLock: nat, tasks: seq<Pc>) {
    && (forall k :: k in connLocks ==> connLocks[k] < nextLock)
    && (forall k, l :: k in connLocks && l in connLocks && connLocks[k] == connLocks[l] ==> k == l)
    && (forall t :: 0 <= t < |tasks| && Touching(tasks[t]) ==>
          tasks[t].key in connLocks && connLocks[tasks[t].key] == tasks[t].lock)
  }

  predicate Guarding(s: State) {
    TouchingRegistered(s.connLocks, s.nextLock, s.tasks) && Owned(s.owner, s.tasks) && Swapping(s)
  }

  lemma TouchingMove(locks: map<Key, LockId>, next: nat, tasks: seq<Pc>, t: nat, pc: Pc)
    requires TouchingRegistered(locks, next, tasks) && t < |tasks|
    requires Touching(pc) ==> Touching(tasks[t]) && pc.key == tasks[t].key && pc.lock == tasks[t].lock
    ensures TouchingRegistered(locks, next, tasks[t := pc])
  {
  }

  lemma TouchingSpawn(locks: map<Key, LockId>, next: nat, tasks: seq<Pc>, pc: Pc)
    requires TouchingRegistered(locks, next, tasks)
    requires Touching(pc) ==> pc.key in locks && locks[pc.key] == pc.lock
    ensures TouchingRegistered(locks, next, tasks + [pc])
  {
  }

  lemma TouchingNew(locks: map<Key, LockId>, next: nat, tasks: seq<Pc>, key: Key)
    requires TouchingRegistered(locks, next, tasks) && key !in locks
    ensures TouchingRegistered(locks[key := next], next + 1, tasks)
  {
  }

  lemma TouchingDrop(locks: map<Key, LockId>, next: nat, tasks: seq<Pc>, keys: set<Key>)
    requires TouchingRegistered(locks, next, tasks)
    requires forall t :: 0 <= t < |tasks| && Touching(tasks[t]) ==> tasks[t].key !in keys
    ensures TouchingRegistered(locks - keys, next, tasks)
  {
  }

  lemma OwnedStep(s: State, s': State, t: TaskId)
    requires Owned(s.owner, s.tasks) && LockStep(s, s', t)
    ensures Owned(s'.owner, s'.tasks)
  {
    var pc := s'.tasks[t];
    if Holds(pc) == Holds(s.tasks[t]) {
      OwnedMove(s.owner, s.tasks, t, pc);
    } else if Holds(pc) {
      OwnedEnter(s.owner, s.tasks, t, pc);
    } else {
      OwnedLeave(s.owner, s.tasks, t, pc);
    }
  }

  /** No other call is about to replace the client of the slot this one may touch. */
  lemma NoOtherSwap(s: State, t: TaskId, u: TaskId)
    requires TouchingRegistered(s.connLocks, s.nextLock, s.tasks) && Owned(s.owner, s.tasks)
    requires At(s, t) && At(s, u) && u != t && Touching(s.tasks[t]) && s.tasks[u].GetSwap?
    requires Holds(s.tasks[t]) || s.tasks[t].lock !in s.owner
    ensures s.tasks[u].key != s.tasks[t].key
  {
    assert s.owner[s.tasks[u].lock] == u;
  }

  lemma SwappingStep(s: State, s': State, t: TaskId)
    requires Guarding(s) && OnlyOwnSlot(s, s', t) && (Holds(s.tasks[t]) || s.tasks[t].lock !in s.owner)
    requires Touching(s.tasks[t]) || s'.clients == s.clients
    ensures Swapping(s')
  {
    forall u | 0 <= u < |s'.tasks| && s'.tasks[u].GetSwap?
      ensures s'.tasks[u].key in s'.clients && s'.clients[s'.tasks[u].key] == s'.tasks[u].stale
    {
      if u != t && Touching(s.tasks[t]) {
        NoOtherSwap(s, t, u);
      }
    }
  }

  /** What a step of one call must do to keep the guard. */
  lemma CallGuarding(s: State, s': State, t: TaskId)
    requires Guarding(s) && CallStep(s, s', t)
    requires Touching(s'.tasks[t]) ==> Touching(s.tasks[t])
    requires Touching(s.tasks[t]) || s'.clients == s.clients
    ensures Guarding(s')
  {
    OwnedStep(s, s', t);
    SwappingStep(s, s', t);
    TouchingMove(s.connLocks, s.nextLock, s.tasks, t, s'.tasks[t]);
    hide TouchingRegistered, Owned, Swapping;
  }

  lemma GetEnteredCall(s: State, t: TaskId, connected: bool)
    requires At(s, t) && s.tasks[t].GetWait? && s.tasks[t].lock !in s.owner
    ensures CallStep(s, GetEntered(s, t, connected), t)
  {
  }

  lemma GetCleanedUpCall(s: State, t: TaskId)
    requires At(s, t) && s.tasks[t].GetCleanup?
    ensures CallStep(s, GetCleanedUp(s, t), t)
  {
  }

  lemma GetSwappedCall(s: State, t: TaskId)
    requires At(s, t) && s.tasks[t].GetSwap? && s.tasks[t].key in s.clients
    ensures CallStep(s, GetSwapped(s, t), t)
  {
    OneMore(s.clients, s.tasks[t].key, s.tasks[t].built);
  }

  lemma StartGuarding(s: State, key: Key, pc: Pc)
    requires Guarding(s) && (pc.GetWait? || pc.EvictWait?) && pc.key == key
    requires key in WithLock(s, key).connLocks && pc.lock == WithLock(s, key).connLocks[key]
    ensures Guarding(Spawn(WithLock(s, key), pc))
  {
    var s1 := WithLock(s, key);
    if key !in s.connLocks {
      TouchingNew(s.connLocks, s.nextLock, s.tasks, key);
    }
    TouchingSpawn(s1.connLocks, s1.nextLock, s1.tasks, pc);
    OwnedSpawn(s.owner, s.tasks, pc);
    hide TouchingRegistered, Owned;
  }

  /** A task of a sweep holds no lock and touches no slot. */
  lemma SweepTaskGuarding(s: State, s': State, t: TaskId)
    requires Guarding(s) && At(s, t) && At(s', t) && s'.tasks == s.tasks[t := s'.tasks[t]]
    requires !InFlight(s.tasks[t]) && !InFlight(s'.tasks[t])
    requires s'.connLocks == s.connLocks && s'.nextLock == s.nextLock && s'.owner == s.owner && s'.clients == s.clients
    ensures Guarding(s')
  {
    TouchingMove(s.connLocks, s.nextLock, s.tasks, t, s'.tasks[t]);
    OwnedMove(s.owner, s.tasks, t, s'.tasks[t]);
    hide TouchingRegistered, Owned;
  }

  lemma SessionGuarding(s: State, session: string, order: seq<Key>)
    requires Guarding(s) && Lists(s, Some(session), order) && Harmless(s, StartSession(session, order))
    ensures Guarding(SessionTaken(s, session, order))
  {
    var s', pc := SessionTaken(s, session, order), SessionPc(Pick(s.clients, order));
    assert forall t :: 0 <= t < |s.tasks| && Touching(s.tasks[t]) ==> s.tasks[t].key !in Keys(order);
    TouchingDrop(s.connLocks, s.nextLock, s.tasks, Keys(order));
    TouchingSpawn(s.connLocks - Keys(order), s.nextLock, s.tasks, pc);
    OwnedSpawn(s.owner, s.tasks, pc);
    hide TouchingRegistered, Owned, Lists, Harmless, Keys, Pick;
    forall u | 0 <= u < |s'.tasks| && s'.tasks[u].GetSwap?
      ensures s'.tasks[u].key in s'.clients && s'.clients[s'.tasks[u].key] == s'.tasks[u].stale
    {
      assert Touching(s.tasks[u]);
    }
  }

  lemma AllGuarding(s: State, t: TaskId, order: seq<Key>)
    requires Guarding(s) && At(s, t) && s.tasks[t].AllClearing? && Lists(s, None, order) && Harmless(s, TakeAll(t, order))
    ensures Guarding(AllTaken(s, t, order))
  {
    var s' := AllTaken(s, t, order);
    assert forall u :: 0 <= u < |s.tasks| ==> !Touching(s.tasks[u]);
    OwnedMove(s.owner, s.tasks, t, s'.tasks[t]);
    hide Owned, Lists, Harmless, Keys, Pick;
    assert forall u :: 0 <= u < |s'.tasks| ==> !Touching(s'.tasks[u]);
  }

  lemma QuietIsHarmless(s: State, a: Action)
    requires Quiet(s, a)
    ensures Harmless(s, a)
  {
  }

  lemma LockMade(s: State, key: Key)
    ensures key in WithLock(s, key).connLocks
  {
  }

  lemma GetGuarding(s: State, a: Action)
    requires Guarding(s) && Enabled(s, a)
    requires a.EnterGet? || a.ProfileReady? || a.ConnectDone? || a.CleanedUp? || a.StaleClosed?
    ensures Guarding(Do(s, a))
  {
    hide Guarding, CallStep;
    match a
    case EnterGet(t, connected) => GetEnteredCall(s, t, connected); CallGuarding(s, Do(s, a), t);
    case ProfileReady(t, usable) => GetProfiledCall(s, t, usable); CallGuarding(s, Do(s, a), t);
    case ConnectDone(t, ok) => GetConnectedCall(s, t, ok); CallGuarding(s, Do(s, a), t);
    case CleanedUp(t) => GetCleanedUpCall(s, t); CallGuarding(s, Do(s, a), t);
    case StaleClosed(t) => SwapCached(s, t); GetSwappedCall(s, t); CallGuarding(s, Do(s, a), t);
  }

  lemma EvictGuarding(s: State, a: Action)
    requires Guarding(s) && Enabled(s, a) && (a.EnterEvict? || a.Invalidated? || a.VictimClosed?)
    ensures Guarding(Do(s, a))
  {
    hide Guarding, CallStep;
    match a
    case EnterEvict(t) => EvictEnteredCall(s, t); CallGuarding(s, Do(s, a), t);
    case Invalidated(t) => EvictInvalidatedCall(s, t); CallGuarding(s, Do(s, a), t);
    case VictimClosed(t) => EvictClosedCall(s, t); CallGuarding(s, Do(s, a), t);
  }

  lemma SweepGuarding(s: State, a: Action)
    requires Guarding(s) && Enabled(s, a) && Harmless(s, a)
    requires a.StartSession? || a.TakeAll? || a.StartAll? || a.SessionInvalidated? || a.SessionClosed? || a.AllClosed?
    ensures Guarding(Do(s, a))
  {
    hide Guarding, Harmless, Lists, SessionTaken, AllTaken;
    match a
    case StartSession(session, order) => SessionGuarding(s, session, order);
    case TakeAll(t, order) => AllGuarding(s, t, order);
    case SessionInvalidated(t) => SweepTaskGuarding(s, Do(s, a), t);
    case SessionClosed(t) => SweepTaskGuarding(s, Do(s, a), t);
    case AllClosed(t) => SweepTaskGuarding(s, Do(s, a), t);
    case StartAll => ClearingGuarding(s);
  }

  lemma StepGuarding(s: State, a: Action)
    requires Guarding(s) && Enabled(s, a) && Harmless(s, a)
    ensures Guarding(Do(s, a))
  {
    hide Guarding, Harmless, Enabled;
    if a.StartGet? || a.StartEvict? {
      LockMade(s, a.key);
      hide WithLock;
      var lock := WithLock(s, a.key).connLocks[a.key];
      StartGuarding(s, a.key, if a.StartGet? then GetWait(a.key, lock) else EvictWait(a.key, lock));
    } else {
      hide Do;
      if a.EnterGet? || a.ProfileReady? || a.ConnectDone? || a.CleanedUp? || a.StaleClosed? {
        GetGuarding(s, a);
      } else if a.EnterEvict? || a.Invalidated? || a.VictimClosed? {
        EvictGuarding(s, a);
      } else {
        SweepGuarding(s, a);
      }
    }
  }

  lemma ClearingGuarding(s: State)
    requires Guarding(s)
    ensures Guarding(Spawn(s, AllClearing))
  {
    TouchingSpawn(s.connLocks, s.nextLock, s.tasks, AllClearing);
    OwnedSpawn(s.owner, s.tasks, AllClearing);
    hide TouchingRegistered, Owned;
  }

  lemma SwapCached(s: State, t: TaskId)
    requires Guarding(s) && At(s, t) && s.tasks[t].GetSwap?
    ensures s.tasks[t].key in s.clients && s.clients[s.tasks[t].key] == s.tasks[t].stale
  {
  }

  // ----- harmless sweeps, in every quiet continuation -----------------------------

  ghost predicate Kept(s: State) { Placed(s) && Gauged(s) }

  lemma StepKept(s: State, a: Action)
    requires Kept(s) && Guarding(s) && Enabled(s, a) && Harmless(s, a)
    ensures Kept(Do(s, a)) && Guarding(Do(s, a))
  {
    hide Placed, Gauged, Guarding, Harmless, Do;
    StepGuarding(s, a);
    if a.StaleClosed? {
      SwapCached(s, a.t);
      SwapConservesIff(s, a.t);
      SwapGaugedIff(s, a.t);
    } else {
      UnsweptPlaced(s, a);
      UnsweptGauged(s, a);
    }
  }

  lemma {:induction false} RunKept(s: State, acts: seq<Action>)
    requires Kept(s) && Guarding(s) && CanRun(s, acts) && QuietRun(s, acts)
    ensures Kept(After(s, acts))
    decreases |acts|
  {
    hide Kept, Guarding, Quiet, Harmless, Do;
    if acts != [] {
      QuietIsHarmless(s, acts[0]);
      StepKept(s, acts[0]);
      RunKept(Do(s, acts[0]), acts[1..]);
    }
  }

  lemma InvKept(s: State)
    requires Inv(s)
    ensures Kept(s) && Guarding(s)
  {
    forall t | 0 <= t < |s.tasks| && s.tasks[t].GetSwap? ensures s.tasks[t].stale < s.minted && s.tasks[t].stale != s.tasks[t].built {
      CachedIsOther(s, t, s.tasks[t].key, s.tasks[t].built);
    }
    assert TouchingRegistered(s.connLocks, s.nextLock, s.tasks) by { hide Conserved, Gauged; }
    hide Conserved, TouchingRegistered;
  }

  // ----- breaking runs ---------------------------------------------------------------

  /** A run without a sweep at whose end clients are not conserved and the gauge is wrong. */
  ghost predicate Breaks(s: State, acts: seq<Action>) {
    CanRun(s, acts) && QuietRun(s, acts) && !Placed(After(s, acts)) && !Gauged(After(s, acts))
  }

  predicate Sweeping(a: Action) { a.StartSession? || a.TakeAll? }

  lemma OneBefore(s: State, a: Action, rest: seq<Action>)
    requires Enabled(s, a) && !Sweeping(a) && Breaks(Do(s, a), rest)
    ensures Breaks(s, [a] + rest)
  {
    hide Do, Enabled, Quiet, Placed, Gauged;
    QuietUnlessSweep(s, a);
    Prepend(s, a, rest);
  }

  /** Neither a sweep nor a replacement. */
  predicate Ordinary(a: Action) { !a.StartSession? && !a.TakeAll? && !a.StaleClosed? }

  predicate AllOrdinary(acts: seq<Action>) { forall i :: 0 <= i < |acts| ==> Ordinary(acts[i]) }

  lemma {:induction false} RunBefore(s: State, pre: seq<Action>, rest: seq<Action>)
    requires CanRun(s, pre) && AllOrdinary(pre) && Breaks(After(s, pre), rest)
    ensures Breaks(s, pre + rest)
    decreases |pre|
  {
    hide Breaks, Do, Enabled;
    if pre == [] {
      assert pre + rest == rest;
    } else {
      assert Ordinary(pre[0]);
      RunBefore(Do(s, pre[0]), pre[1..], rest);
      OneBefore(s, pre[0], pre[1..] + rest);
      assert pre + rest == [pre[0]] + (pre[1..] + rest);
    }
  }

  lemma OrdinaryKept(s: State, a: Action)
    requires Kept(s) && Enabled(s, a) && !a.StaleClosed?
    ensures Kept(Do(s, a))
  {
    hide Placed, Gauged, Do, Enabled;
    UnsweptPlaced(s, a);
    UnsweptGauged(s, a);
  }

  lemma {:induction false} OrdinaryRunKept(s: State, pre: seq<Action>)
    requires Kept(s) && CanRun(s, pre) && AllOrdinary(pre)
    ensures Kept(After(s, pre))
    decreases |pre|
  {
    hide Kept, Do, Enabled;
    if pre != [] {
      assert Ordinary(pre[0]);
      OrdinaryKept(s, pre[0]);
      OrdinaryRunKept(Do(s, pre[0]), pre[1..]);
    }
  }

  lemma RunOne(s: State, a: Action)
    requires Enabled(s, a)
    ensures CanRun(s, [a]) && After(s, [a]) == Do(s, a)
  {
    hide Enabled, Do;
    assert [a][1..] == [];
    assert CanRun(Do(s, a), []) && After(Do(s, a), []) == Do(s, a);
  }

  lemma RunPair(s: State, a: Action, b: Action)
    requires Enabled(s, a) && Enabled(Do(s, a), b)
    ensures CanRun(s, [a, b]) && After(s, [a, b]) == Do(Do(s, a), b)
  {
    hide Enabled, Do;
    RunOne(Do(s, a), b);
    assert [a, b][1..] == [b];
  }

  lemma RunFour(s: State, a: Action, b: Action, c: Action, d: Action)
    requires Enabled(s, a) && Enabled(Do(s, a), b) && Enabled(Do(Do(s, a), b), c) && Enabled(Do(Do(Do(s, a), b), c), d)
    ensures CanRun(s, [a, b, c, d]) && After(s, [a, b, c, d]) == Do(Do(Do(Do(s, a), b), c), d)
  {
    hide Enabled, Do;
    RunPair(Do(Do(s, a), b), c, d);
    assert [b, c, d][1..] == [c, d];
    assert CanRun(Do(s, a), [b, c, d]) && After(Do(s, a), [b, c, d]) == After(Do(Do(s, a), b), [c, d]);
    assert [a, b, c, d][1..] == [b, c, d];
  }

  /** A replacement about to close a client that was taken away and not closed yet. */
  lemma SwapBreaks(s: State, u: TaskId)
    requires Kept(s) && At(s, u) && s.tasks[u].GetSwap? && s.tasks[u].key !in s.clients && s.tasks[u].stale !in s.closed
    ensures Breaks(s, [StaleClosed(u)])
  {
    hide Placed, Gauged, Do;
    SwapConservesIff(s, u);
    SwapGaugedIff(s, u);
    QuietUnlessSweep(s, StaleClosed(u));
    assert CanRun(Do(s, StaleClosed(u)), []) && QuietRun(Do(s, StaleClosed(u)), []);
    hide Enabled, Quiet;
    Prepend(s, StaleClosed(u), []);
    assert [StaleClosed(u)] + [] == [StaleClosed(u)];
  }

  /** The slot is empty and has no lock; call `u` is in flight on it under an old one. */
  predicate Adrift(s: State, u: TaskId) {
    && At(s, u) && InFlight(s.tasks[u])
    && s.tasks[u].key !in s.connLocks && s.tasks[u].key !in s.clients
    && s.nextLock !in s.owner && s.nextLock != s.tasks[u].lock
  }

  /** The pool after a newcomer has been served on an empty slot without a lock. */
  function Served(s: State, key: Key): State {
    s.(connLocks := s.connLocks[key := s.nextLock], nextLock := s.nextLock + 1, clients := s.clients[key := s.minted],
       minted := s.minted + 1, gauge := s.gauge + 1, tasks := s.tasks + [Returned(key, s.minted)])
  }

  /** A newcomer's call whose connection succeeds, up to what it finds in its slot then. */
  function Newcomer(n: TaskId, key: Key): seq<Action> {
    [StartGet(key), EnterGet(n, false), ProfileReady(n, true), ConnectDone(n, true)]
  }

  lemma ServedRun(s: State, key: Key)
    requires key !in s.connLocks && key !in s.clients && s.nextLock !in s.owner
    ensures CanRun(s, Newcomer(|s.tasks|, key)) && After(s, Newcomer(|s.tasks|, key)) == Served(s, key)
  {
    var n, l := |s.tasks|, s.nextLock;
    var s1 := Do(s, StartGet(key));
    assert s1 == s.(connLocks := s.connLocks[key := l], nextLock := l + 1, tasks := s.tasks + [GetWait(key, l)]);
    var s2 := Do(s1, EnterGet(n, false));
    assert s2 == s1.(owner := s.owner[l := n], tasks := s.tasks + [GetProfile(key, l)]);
    var s3 := Do(s2, ProfileReady(n, true));
    assert s3 == s2.(minted := s.minted + 1, tasks := s.tasks + [GetConnect(key, l, s.minted)]);
    assert s.owner[l := n] - {l} == s.owner;
    assert Do(s3, ConnectDone(n, true)).tasks == s.tasks + [Returned(key, s.minted)];
    RunFour(s, StartGet(key), EnterGet(n, false), ProfileReady(n, true), ConnectDone(n, true));
  }

  lemma ServedKept(s: State, key: Key)
    requires Kept(s) && key !in s.connLocks && key !in s.clients && s.nextLock !in s.owner
    ensures Kept(Served(s, key))
  {
    hide Kept, CanRun, After, Served;
    ServedRun(s, key);
    OrdinaryRunKept(s, Newcomer(|s.tasks|, key));
  }

  lemma BeforeServed(s: State, key: Key, rest: seq<Action>)
    requires key !in s.connLocks && key !in s.clients && s.nextLock !in s.owner && Breaks(Served(s, key), rest)
    ensures Breaks(s, Newcomer(|s.tasks|, key) + rest)
  {
    hide Breaks, CanRun, After, Served;
    ServedRun(s, key);
    RunBefore(s, Newcomer(|s.tasks|, key), rest);
  }

  /** A replacement in flight finds its stale client evicted before it can close it. */
  lemma EvictedUnderSwap(s: State, u: TaskId) returns (acts: seq<Action>)
    requires Kept(s) && At(s, u) && s.tasks[u].GetSwap?
    requires var key := s.tasks[u].key;
             && key in s.clients && s.clients[key] == s.tasks[u].stale
             && key in s.connLocks && s.connLocks[key] !in s.owner
    ensures Breaks(s, acts)
  {
    var key, w := s.tasks[u].key, |s.tasks|;
    var s1 := Do(s, StartEvict(key));
    var s2 := Do(s1, EnterEvict(w));
    assert s1.tasks[w] == EvictWait(key, s.connLocks[key]) && s1.tasks[u] == s.tasks[u];
    PoppedUnderSwap(s1, u, w);
    acts := [EnterEvict(w)] + [StaleClosed(u)];
    UnsweptPlaced(s, StartEvict(key));
    UnsweptGauged(s, StartEvict(key));
    hide Do, Placed, Gauged;
    PoppedBreaks(s1, u, w);
    hide Enabled, Breaks;
    OneBefore(s, StartEvict(key), acts);
    acts := [StartEvict(key)] + acts;
  }

  /** An eviction that may enter takes the stale client away. */
  lemma PoppedUnderSwap(s: State, u: TaskId, w: TaskId)
    requires At(s, u) && s.tasks[u].GetSwap? && At(s, w) && s.tasks[w].EvictWait? && s.tasks[w].lock !in s.owner
    requires s.tasks[w].key == s.tasks[u].key && s.tasks[u].key in s.clients && s.clients[s.tasks[u].key] == s.tasks[u].stale
    ensures var s2 := Do(s, EnterEvict(w));
            && At(s2, u) && s2.tasks[u] == s.tasks[u] && s.tasks[u].key !in s2.clients && s2.closed == s.closed
            && At(s2, w) && Carries(s2.tasks[w], s.tasks[u].stale)
  {
  }

  lemma PoppedBreaks(s: State, u: TaskId, w: TaskId)
    requires Kept(s) && At(s, u) && s.tasks[u].GetSwap? && At(s, w) && s.tasks[w].EvictWait? && s.tasks[w].lock !in s.owner
    requires s.tasks[w].key == s.tasks[u].key && s.tasks[u].key in s.clients && s.clients[s.tasks[u].key] == s.tasks[u].stale
    ensures Breaks(s, [EnterEvict(w)] + [StaleClosed(u)])
  {
    var s2 := Do(s, EnterEvict(w));
    PoppedUnderSwap(s, u, w);
    CachedNotClosed(s.clients, s.tasks, s.closed, s.minted, s.tasks[u].key);
    UnsweptPlaced(s, EnterEvict(w));
    UnsweptGauged(s, EnterEvict(w));
    hide Do, Placed, Gauged, Breaks;
    SwapBreaks(s2, u);
    OneBefore(s, EnterEvict(w), [StaleClosed(u)]);
  }

  lemma ConnectBreaks(s: State, u: TaskId) returns (acts: seq<Action>)
    requires Kept(s) && Adrift(s, u) && s.tasks[u].GetConnect?
    ensures Breaks(s, acts)
  {
    hide Kept, Breaks;
    var key, a := s.tasks[u].key, ConnectDone(u, true);
    ServedKept(s, key);
    var s4 := Served(s, key);
    assert Do(s4, a) == s4.(tasks := s4.tasks[u := GetSwap(key, s.tasks[u].lock, s.tasks[u].built, s.minted)]);
    OrdinaryKept(s4, a);
    var rest := EvictedUnderSwap(Do(s4, a), u);
    OneBefore(s4, a, rest);
    BeforeServed(s, key, [a] + rest);
    acts := Newcomer(|s.tasks|, key) + ([a] + rest);
  }

  lemma ProfileBreaks(s: State, u: TaskId) returns (acts: seq<Action>)
    requires Kept(s) && Adrift(s, u) && s.tasks[u].GetProfile?
    ensures Breaks(s, acts)
  {
    var a := ProfileReady(u, true);
    assert Adrift(Do(s, a), u) && Do(s, a).tasks[u].GetConnect?;
    UnsweptPlaced(s, a);
    UnsweptGauged(s, a);
    hide Placed, Gauged, Do, Adrift, Breaks;
    acts := ConnectBreaks(Do(s, a), u);
    OneBefore(s, a, acts);
    acts := [a] + acts;
  }

  lemma GetWaitBreaks(s: State, u: TaskId) returns (acts: seq<Action>)
    requires Kept(s) && Adrift(s, u) && s.tasks[u].GetWait? && s.tasks[u].lock !in s.owner
    ensures Breaks(s, acts)
  {
    var a := EnterGet(u, false);
    assert Adrift(Do(s, a), u) && Do(s, a).tasks[u].GetProfile?;
    UnsweptPlaced(s, a);
    UnsweptGauged(s, a);
    hide Placed, Gauged, Do, Adrift, Breaks;
    acts := ProfileBreaks(Do(s, a), u);
    OneBefore(s, a, acts);
    acts := [a] + acts;
  }

  /** The pool with a second newcomer that finds the cached client disconnected and is about to
      replace it. */
  function Replacing(s: State, key: Key): State
    requires key in s.connLocks && key in s.clients
  {
    s.(minted := s.minted + 1, owner := s.owner[s.connLocks[key] := |s.tasks|],
       tasks := s.tasks + [GetSwap(key, s.connLocks[key], s.minted, s.clients[key])])
  }

  lemma ReplacingRun(s: State, key: Key)
    requires key in s.connLocks && s.connLocks[key] !in s.owner && key in s.clients
    ensures CanRun(s, Newcomer(|s.tasks|, key)) && After(s, Newcomer(|s.tasks|, key)) == Replacing(s, key)
  {
    var n, l := |s.tasks|, s.connLocks[key];
    var s1 := Do(s, StartGet(key));
    assert s1 == s.(tasks := s.tasks + [GetWait(key, l)]);
    var s2 := Do(s1, EnterGet(n, false));
    assert s2 == s.(owner := s.owner[l := n], tasks := s.tasks + [GetProfile(key, l)]);
    var s3 := Do(s2, ProfileReady(n, true));
    assert s3 == s2.(minted := s.minted + 1, tasks := s.tasks + [GetConnect(key, l, s.minted)]);
    assert Do(s3, ConnectDone(n, true)).tasks == s.tasks + [GetSwap(key, l, s.minted, s.clients[key])];
    RunFour(s, StartGet(key), EnterGet(n, false), ProfileReady(n, true), ConnectDone(n, true));
  }

  lemma ReplacingKept(s: State, key: Key)
    requires Kept(s) && key in s.connLocks && s.connLocks[key] !in s.owner && key in s.clients
    ensures Kept(Replacing(s, key))
  {
    hide Kept, CanRun, After, Replacing;
    ReplacingRun(s, key);
    OrdinaryRunKept(s, Newcomer(|s.tasks|, key));
  }

  lemma BeforeReplacing(s: State, key: Key, rest: seq<Action>)
    requires key in s.connLocks && s.connLocks[key] !in s.owner && key in s.clients && Breaks(Replacing(s, key), rest)
    ensures Breaks(s, Newcomer(|s.tasks|, key) + rest)
  {
    hide Breaks, CanRun, After, Replacing;
    ReplacingRun(s, key);
    RunBefore(s, Newcomer(|s.tasks|, key), rest);
  }

  lemma EvictWaitBreaks(s: State, u: TaskId) returns (acts: seq<Action>)
    requires Kept(s) && Adrift(s, u) && s.tasks[u].EvictWait? && s.tasks[u].lock !in s.owner
    ensures Breaks(s, acts)
  {
    hide Kept, Breaks;
    var key, x := s.tasks[u].key, |s.tasks| + 1;
    ServedKept(s, key);
    var s4 := Served(s, key);
    ReplacingKept(s4, key);
    var s8 := Replacing(s4, key);
    assert s8.tasks[x] == GetSwap(key, s.nextLock, s4.minted, s.minted) && s8.tasks[u] == s.tasks[u];
    PoppedBreaks(s8, x, u);
    var last := [EnterEvict(u)] + [StaleClosed(x)];
    BeforeReplacing(s4, key, last);
    BeforeServed(s, key, Newcomer(x, key) + last);
    acts := Newcomer(|s.tasks|, key) + (Newcomer(x, key) + last);
  }

  // ----- from the sweep to a breaking run -------------------------------------------

  /** What a call past the cache leaves when it lets go of its lock. */
  predicate LeftBy(s: State, s': State, h: TaskId, u: TaskId)
    requires At(s, h) && Holds(s.tasks[h]) && At(s, u)
  {
    Adrift(s', u) && s'.tasks[u] == s.tasks[u] && s'.owner == s.owner - {s.tasks[h].lock}
  }

  lemma LeavesNow(s: State, h: TaskId, u: TaskId, a: Action)
    requires Kept(s) && Adrift(s, u) && h != u && At(s, h) && Holds(s.tasks[h]) && Enabled(s, a)
    requires a == CleanedUp(h) || a == VictimClosed(h) || (a == Invalidated(h) && s.tasks[h].popped.None?)
    ensures Kept(Do(s, a)) && LeftBy(s, Do(s, a), h, u)
  {
    assert LeftBy(s, Do(s, a), h, u);
    hide Placed, Gauged, Do, LeftBy, Adrift;
    UnsweptPlaced(s, a);
    UnsweptGauged(s, a);
  }

  lemma ClosesNext(s: State, h: TaskId, u: TaskId)
    requires Kept(s) && Adrift(s, u) && h != u && At(s, h) && s.tasks[h].EvictInvalidate? && s.tasks[h].popped.Some?
    ensures var s1 := Do(s, Invalidated(h));
            && Kept(s1) && Adrift(s1, u) && s1.tasks[u] == s.tasks[u] && s1.owner == s.owner
            && At(s1, h) && s1.tasks[h].EvictClose? && s1.tasks[h].lock == s.tasks[h].lock
  {
    var s1 := Do(s, Invalidated(h));
    assert Adrift(s1, u) && s1.tasks[h].EvictClose?;
    hide Placed, Gauged, Adrift;
    UnsweptPlaced(s, Invalidated(h));
    UnsweptGauged(s, Invalidated(h));
  }

  /** Call `h` past the cache lets go of its lock. */
  lemma HolderLeaves(s: State, h: TaskId, u: TaskId) returns (pre: seq<Action>)
    requires Kept(s) && Adrift(s, u) && h != u && At(s, h) && Holds(s.tasks[h]) && !Touching(s.tasks[h])
    ensures CanRun(s, pre) && AllOrdinary(pre) && Kept(After(s, pre)) && LeftBy(s, After(s, pre), h, u)
  {
    hide Kept, Adrift, Do;
    if s.tasks[h].EvictInvalidate? && s.tasks[h].popped.Some? {
      ClosesNext(s, h, u);
      LeavesNow(Do(s, Invalidated(h)), h, u, VictimClosed(h));
      RunPair(s, Invalidated(h), VictimClosed(h));
      pre := [Invalidated(h), VictimClosed(h)];
    } else {
      var a := if s.tasks[h].GetCleanup? then CleanedUp(h) else if s.tasks[h].EvictClose? then VictimClosed(h) else Invalidated(h);
      LeavesNow(s, h, u, a);
      RunOne(s, a);
      pre := [a];
    }
  }

  lemma FreeBreaks(s: State, u: TaskId) returns (acts: seq<Action>)
    requires At(s, u) && Kept(s) && Adrift(s, u) && (s.tasks[u].GetWait? || s.tasks[u].EvictWait?) && s.tasks[u].lock !in s.owner
    ensures Breaks(s, acts)
  {
    hide Kept, Adrift, Breaks;
    if s.tasks[u].GetWait? {
      acts := GetWaitBreaks(s, u);
    } else {
      acts := EvictWaitBreaks(s, u);
    }
  }

  /** Call `u` touches the slot and holds its lock, or waits for a free one, or waits for a call
      past the cache. */
  predicate Ready(s: State, u: TaskId)
    requires At(s, u)
  {
    && Touching(s.tasks[u])
    && (s.tasks[u].GetSwap? ==> s.tasks[u].stale !in s.closed)
    && (!Holds(s.tasks[u]) && s.tasks[u].lock in s.owner ==>
          var h := s.owner[s.tasks[u].lock];
          h != u && At(s, h) && Holds(s.tasks[h]) && s.tasks[h].lock == s.tasks[u].lock && !Touching(s.tasks[h]))
  }

  lemma AdriftBreaks(s: State, u: TaskId) returns (acts: seq<Action>)
    requires At(s, u) && Kept(s) && Adrift(s, u) && Ready(s, u)
    ensures Breaks(s, acts)
  {
    hide Kept, Breaks;
    if s.tasks[u].GetSwap? {
      acts := [StaleClosed(u)];
      SwapBreaks(s, u);
    } else if s.tasks[u].GetConnect? {
      acts := ConnectBreaks(s, u);
    } else if s.tasks[u].GetProfile? {
      acts := ProfileBreaks(s, u);
    } else if s.tasks[u].lock !in s.owner {
      acts := FreeBreaks(s, u);
    } else {
      var pre := HolderLeaves(s, s.owner[s.tasks[u].lock], u);
      hide Adrift, After;
      var rest := FreeBreaks(After(s, pre), u);
      RunBefore(s, pre, rest);
      acts := pre + rest;
    }
  }

  /** The call to follow: the touching one, or the touching one it waits for. */
  lemma Culprit(s: State, u: TaskId) returns (v: TaskId)
    requires Locking(s) && Swapping(s) && Conserved(s.clients, s.tasks, s.closed, s.minted)
    requires At(s, u) && Touching(s.tasks[u])
    ensures At(s, v) && Touching(s.tasks[v]) && s.tasks[v].key == s.tasks[u].key && Ready(s, v)
  {
    v := if !Holds(s.tasks[u]) && s.tasks[u].lock in s.owner && Touching(s.tasks[s.owner[s.tasks[u].lock]])
         then s.owner[s.tasks[u].lock] else u;
    assert s.tasks[v].key == s.tasks[u].key by { hide Conserved; }
    if s.tasks[v].GetSwap? {
      CachedNotClosed(s.clients, s.tasks, s.closed, s.minted, s.tasks[v].key);
    }
    hide Conserved, Registered, Swapping;
  }

  lemma ReadyAfterSweep(s: State, s1: State, v: TaskId)
    requires At(s, v) && Ready(s, v) && s1.owner == s.owner && s1.closed == s.closed && |s.tasks| <= |s1.tasks|
    requires forall u :: 0 <= u < |s.tasks| && InFlight(s.tasks[u]) ==> s1.tasks[u] == s.tasks[u]
    ensures At(s1, v) && Ready(s1, v)
  {
  }

  lemma SweepAdrift(s: State, a: Action, u: TaskId) returns (v: TaskId)
    requires Inv(s) && Enabled(s, a) && Sweeping(a)
    requires At(s, u) && Touching(s.tasks[u]) && s.tasks[u].key in Dropped(s, a)
    ensures At(Do(s, a), v) && Adrift(Do(s, a), v) && Ready(Do(s, a), v)
  {
    v := Culprit(s, u);
    if a.StartSession? {
      SessionStrands(s, a.session, a.order, v);
    } else {
      AllStrands(s, a.t, a.order, v);
    }
    assert Adrift(Do(s, a), v);
    hide Locking, Swapping, RestDistinct, Gauged, Conserved, Ready, Stranded, Adrift, Lists;
    ReadyAfterSweep(s, Do(s, a), v);
  }

  lemma HarmlessKeeps(s: State, a: Action, acts: seq<Action>)
    requires Inv(s) && Enabled(s, a) && Harmless(s, a) && CanRun(Do(s, a), acts) && QuietRun(Do(s, a), acts)
    ensures Placed(After(Do(s, a), acts)) && Gauged(After(Do(s, a), acts))
  {
    hide Inv, Guarding, Harmless, Enabled, Do, CanRun, QuietRun, After, Placed, Gauged;
    InvKept(s);
    StepKept(s, a);
    RunKept(Do(s, a), acts);
  }

  lemma HarmfulBreaks(s: State, a: Action) returns (acts: seq<Action>)
    requires Inv(s) && Enabled(s, a) && Sweeping(a) && !Harmless(s, a)
    ensures Breaks(Do(s, a), acts)
  {
    hide Inv, Guarding, Enabled, Do, Kept, Ready, Adrift, Breaks, Dropped;
    var u :| 0 <= u < |s.tasks| && InFlight(s.tasks[u]) && s.tasks[u].key in Dropped(s, a) && Touching(s.tasks[u]);
    InvKept(s);
    OrdinaryKept(s, a);
    var v := SweepAdrift(s, a, u);
    acts := AdriftBreaks(Do(s, a), v);
  }

  /** From any reachable state a session or shutdown sweep keeps clients conserved and the gauge
      right in every otherwise quiet continuation if and only if no call in flight on a slot it
      drops may still touch that slot; calls that only clean up or close are harmless.  Where it
      is not so, one run breaks both. */
  lemma SweepConservesIff(s: State, a: Action)
    requires Inv(s) && Enabled(s, a) && Sweeping(a)
    ensures Harmless(s, a) <==>
            forall acts :: CanRun(Do(s, a), acts) && QuietRun(Do(s, a), acts) ==> Placed(After(Do(s, a), acts))
    ensures Harmless(s, a) <==>
            forall acts :: CanRun(Do(s, a), acts) && QuietRun(Do(s, a), acts) ==> Gauged(After(Do(s, a), acts))
  {
    hide Inv, Harmless, Enabled, Do, CanRun, QuietRun, After, Placed, Gauged;
    var s1 := Do(s, a);
    if Harmless(s, a) {
      forall acts | CanRun(s1, acts) && QuietRun(s1, acts) ensures Placed(After(s1, acts)) && Gauged(After(s1, acts)) {
        HarmlessKeeps(s, a, acts);
      }
    } else {
      var acts := HarmfulBreaks(s, a);
      assert CanRun(s1, acts) && QuietRun(s1, acts) && !Placed(After(s1, acts)) && !Gauged(After(s1, acts));
    }
  }

  // ----- one such run from the start ---------------------------------------------------

  lemma {:induction false} RunOn(s: State, pre: seq<Action>, rest: seq<Action>)
    requires CanRun(s, pre) && CanRun(After(s, pre), rest)
    ensures CanRun(s, pre + rest) && After(s, pre + rest) == After(After(s, pre), rest)
    decreases |pre|
  {
    hide Do, Enabled;
    if pre == [] {
      assert pre + rest == rest;
    } else {
      RunOn(Do(s, pre[0]), pre[1..], rest);
      assert (pre + rest)[0] == pre[0] && (pre + rest)[1..] == pre[1..] + rest;
    }
  }

  lemma InitKept()
    ensures Kept(Init)
  {
    InitInv();
    InvKept(Init);
  }

  /** The pool in which one client is cached and a second call is about to replace it. */
  lemma FirstReplacement(key: Key)
    ensures var s := Replacing(Served(Init, key), key);
            && CanRun(Init, Newcomer(0, key) + Newcomer(1, key)) && After(Init, Newcomer(0, key) + Newcomer(1, key)) == s
            && Kept(s) && At(s, 1) && s.tasks[1].GetSwap? && s.tasks[1].key == key && s.tasks[1].stale == 0
            && s.clients == map[key := 0] && s.closed == {}
  {
    var s1 := Served(Init, key);
    assert |s1.tasks| == 1;
    InitKept();
    hide Kept, CanRun, After;
    ServedRun(Init, key);
    ServedKept(Init, key);
    ReplacingRun(s1, key);
    ReplacingKept(s1, key);
    RunOn(Init, Newcomer(0, key), Newcomer(1, key));
  }

  /** From the start: two calls fill a session's slot and begin to replace its client, the session
      is closed, and the replacement then closes a client that is not there any more. */
  lemma SweepBreaksFromStart(session: string, conn: string) returns (acts: seq<Action>)
    ensures CanRun(Init, acts) && !Placed(After(Init, acts)) && !Gauged(After(Init, acts))
  {
    var key, order := Key(Some(session), conn), [Key(Some(session), conn)];
    var pre, sweep := Newcomer(0, key) + Newcomer(1, key), StartSession(session, order);
    var s := Replacing(Served(Init, key), key);
    FirstReplacement(key);
    assert Lists(s, Some(session), order);
    assert key !in Do(s, sweep).clients;
    hide Kept, Breaks, CanRun, After, Served, Replacing, Newcomer, Lists;
    OrdinaryKept(s, sweep);
    SwapBreaks(Do(s, sweep), 1);
    EndsBroken(s, sweep, [StaleClosed(1)]);
    acts := pre + ([sweep] + [StaleClosed(1)]);
    RunOn(Init, pre, [sweep] + [StaleClosed(1)]);
  }

  lemma EndsBroken(s: State, a: Action, rest: seq<Action>)
    requires Enabled(s, a) && Breaks(Do(s, a), rest)
    ensures CanRun(s, [a] + rest) && !Placed(After(s, [a] + rest)) && !Gauged(After(s, [a] + rest))
  {
    hide Enabled, Do, Placed, Gauged;
    assert ([a] + rest)[1..] == rest;
  }
}

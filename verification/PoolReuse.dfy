/** When `get_client` reuses the cached client of its slot, and when a client is built at all. */
module PoolReuse {
  import opened Prelude
  import opened ClientPool

  /** Inside its slot a call returns at once exactly when a connected client is cached there, and then
      nothing else in the pool changes; otherwise it goes on alone in the slot, and only its lock moves. */
  lemma ReturnsAtOnceIff(s: State, t: TaskId, connected: bool)
    requires Enabled(s, EnterGet(t, connected))
    ensures var s', key, lock := Do(s, EnterGet(t, connected)), s.tasks[t].key, s.tasks[t].lock;
            && (s'.tasks[t].Returned? <==> key in s.clients && connected)
            && (s'.tasks[t].Returned? ==>
                  s'.tasks[t].client == s.clients[key] && s' == s.(tasks := s'.tasks) && s'.tasks == s.tasks[t := s'.tasks[t]])
            && (!s'.tasks[t].Returned? ==>
                  && s'.owner == s.owner[lock := t] && s'.tasks == s.tasks[t := GetProfile(key, lock)]
                  && s' == s.(owner := s'.owner, tasks := s'.tasks))
  {
  }

  // ----- clients are built only where they are missing ------------------------------

  predicate Building(pc: Pc) { pc.GetProfile? || pc.GetConnect? || pc.GetCleanup? || pc.GetSwap? }

  /** Action `j` let call `t` into a slot that was empty or held a disconnected client. */
  predicate FoundNothing(acts: seq<Action>, t: TaskId, j: nat)
    requires CanRun(Init, acts)
  {
    && j < |acts| && acts[j].EnterGet? && acts[j].t == t && CanRun(Init, acts[..j])
    && var before := After(Init, acts[..j]);
       At(before, t) && before.tasks[t].GetWait? && (before.tasks[t].key !in before.clients || !acts[j].connected)
  }

  lemma {:induction false} RunSnoc(s: State, acts: seq<Action>)
    requires CanRun(s, acts) && acts != []
    ensures var n := |acts| - 1;
            CanRun(s, acts[..n]) && Enabled(After(s, acts[..n]), acts[n]) && After(s, acts) == Do(After(s, acts[..n]), acts[n])
    decreases |acts|
  {
    hide Do, Enabled;
    var n := |acts| - 1;
    if n > 0 {
      RunSnoc(Do(s, acts[0]), acts[1..]);
      assert acts[1..][..n - 1] == acts[..n][1..];
    }
  }

  lemma {:induction false} RunPrefix(s: State, acts: seq<Action>, i: nat)
    requires CanRun(s, acts) && i <= |acts|
    ensures CanRun(s, acts[..i])
    decreases |acts|
  {
    hide Do, Enabled;
    if i < |acts| {
      RunSnoc(s, acts);
      RunPrefix(s, acts[..|acts| - 1], i);
      assert acts[..|acts| - 1][..i] == acts[..i];
    } else {
      assert acts[..i] == acts;
    }
  }

  /** The task an action moves; a new one is the last. */
  function Actor(s: State, a: Action): TaskId {
    match a
    case StartGet(_) => |s.tasks|
    case StartEvict(_) => |s.tasks|
    case StartSession(_, _) => |s.tasks|
    case StartAll => |s.tasks|
    case _ => a.t
  }

  predicate OthersStay(s: State, s': State, t: TaskId) {
    |s.tasks| <= |s'.tasks| <= |s.tasks| + 1 && (forall u :: 0 <= u < |s'.tasks| && u != t ==> u < |s.tasks| && s'.tasks[u] == s.tasks[u])
  }

  lemma CallLeavesOthers(s: State, a: Action)
    requires Enabled(s, a) && (a.EnterGet? || a.ProfileReady? || a.ConnectDone? || a.CleanedUp? || a.StaleClosed?)
    ensures OthersStay(s, Do(s, a), a.t)
  {
  }

  lemma OneTaskMoves(s: State, a: Action)
    requires Enabled(s, a)
    ensures OthersStay(s, Do(s, a), Actor(s, a))
  {
    hide Lists, Pick, Keys, SessionPc, AllPc;
    if a.EnterGet? || a.ProfileReady? || a.ConnectDone? || a.CleanedUp? || a.StaleClosed? {
      CallLeavesOthers(s, a);
    }
  }

  lemma NotBuilding(s: State, a: Action)
    requires Enabled(s, a) && !(a.EnterGet? || a.ProfileReady? || a.ConnectDone? || a.CleanedUp? || a.StaleClosed?)
    ensures Actor(s, a) < |Do(s, a).tasks| && !Building(Do(s, a).tasks[Actor(s, a)])
  {
    hide Lists, Pick, Keys, OthersStay;
  }

  /** A step that makes `t` build let it in, or it was building already. */
  lemma BuildingStep(s: State, a: Action, s': State, t: TaskId)
    requires At(s', t) && Building(s'.tasks[t]) && Enabled(s, a) && s' == Do(s, a)
    ensures At(s, t) && (Building(s.tasks[t]) || s.tasks[t].GetWait?) && s'.tasks[t].key == s.tasks[t].key
    ensures Building(s.tasks[t]) || (a.EnterGet? && a.t == t && (s.tasks[t].key !in s.clients || !a.connected))
  {
    OneTaskMoves(s, a);
    if t != Actor(s, a) {
      hide Do, Enabled;
    } else if a.EnterGet? || a.ProfileReady? || a.ConnectDone? || a.CleanedUp? || a.StaleClosed? {
      CallBuilds(s, a);
    } else {
      NotBuilding(s, a);
    }
  }

  lemma CallBuilds(s: State, a: Action)
    requires Enabled(s, a) && (a.EnterGet? || a.ProfileReady? || a.ConnectDone? || a.CleanedUp? || a.StaleClosed?)
    requires Building(Do(s, a).tasks[a.t])
    ensures Do(s, a).tasks[a.t].key == s.tasks[a.t].key
    ensures Building(s.tasks[a.t])
            || (a.EnterGet? && s.tasks[a.t].GetWait? && (s.tasks[a.t].key !in s.clients || !a.connected))
  {
  }

  lemma {:induction false} BuildingEntered(acts: seq<Action>, t: TaskId) returns (j: nat)
    requires CanRun(Init, acts) && At(After(Init, acts), t) && Building(After(Init, acts).tasks[t])
    ensures FoundNothing(acts, t, j)
    decreases |acts|
  {
    hide Do, Enabled, Building;
    NothingAtFirst(t);
    var n := |acts| - 1;
    var front := acts[..n];
    RunSnoc(Init, acts);
    BuildingStep(After(Init, front), acts[n], After(Init, acts), t);
    if Building(After(Init, front).tasks[t]) {
      j := BuildingEntered(front, t);
      assert front[..j] == acts[..j];
    } else {
      j := n;
    }
  }

  lemma NothingAtFirst(t: TaskId)
    ensures !At(Init, t)
  {
  }

  /** In any run, a client is built by a call only if that call was let into its slot while the slot
      was empty or its client disconnected. */
  lemma BuildsOnlyWhereMissing(acts: seq<Action>, i: nat, t: TaskId) returns (j: nat)
    requires CanRun(Init, acts) && i < |acts| && acts[i] == ProfileReady(t, true)
    ensures j < i && CanRun(Init, acts[..i]) && FoundNothing(acts[..i], t, j)
  {
    RunPrefix(Init, acts, i);
    RunPrefix(Init, acts, i + 1);
    RunSnoc(Init, acts[..i + 1]);
    assert acts[..i + 1][..i] == acts[..i];
    hide Do, CanRun, After, FoundNothing;
    var s := After(Init, acts[..i]);
    assert At(s, t) && Building(s.tasks[t]);
    j := BuildingEntered(acts[..i], t);
    EnteredBefore(acts[..i], t, j);
  }

  lemma EnteredBefore(acts: seq<Action>, t: TaskId, j: nat)
    requires CanRun(Init, acts) && FoundNothing(acts, t, j)
    ensures j < |acts|
  {
  }

  /** The calls whose profile was found usable. */
  function Builds(acts: seq<Action>): nat {
    if acts == [] then 0
    else Builds(acts[..|acts| - 1]) + if acts[|acts| - 1].ProfileReady? && acts[|acts| - 1].usable then 1 else 0
  }

  lemma MintStep(s: State, a: Action)
    requires Enabled(s, a)
    ensures Do(s, a).minted == s.minted + if a.ProfileReady? && a.usable then 1 else 0
  {
    hide Lists, Pick, Keys, SessionPc, AllPc;
  }

  /** In any run one client is built for each usable profile, and no other. */
  lemma {:induction false} OneClientEachBuild(acts: seq<Action>)
    requires CanRun(Init, acts)
    ensures After(Init, acts).minted == Builds(acts)
    decreases |acts|
  {
    hide Do, Enabled;
    if acts != [] {
      var front := acts[..|acts| - 1];
      RunSnoc(Init, acts);
      OneClientEachBuild(front);
      MintStep(After(Init, front), acts[|acts| - 1]);
    }
  }

  // ----- a connected client is shared until it is taken away -------------------------

  /** Client `c` is cached under `key` and no call is about to put another one there. */
  predicate Shared(s: State, key: Key, c: Client) {
    && key in s.clients && s.clients[key] == c
    && forall t :: 0 <= t < |s.tasks| && Building(s.tasks[t]) ==> s.tasks[t].key != key
  }

  /** The action neither takes the client of `key` away nor finds it disconnected. */
  predicate Spares(s: State, a: Action, key: Key)
    requires Enabled(s, a)
  {
    match a
    case EnterGet(t, connected) => s.tasks[t].key == key ==> connected
    case EnterEvict(t) => s.tasks[t].key != key
    case StartSession(_, order) => key !in order
    case TakeAll(_, _) => false
    case _ => true
  }

  predicate SparesAll(s: State, acts: seq<Action>, key: Key)
    requires CanRun(s, acts)
    decreases |acts|
  {
    acts == [] || (Spares(s, acts[0], key) && SparesAll(Do(s, acts[0]), acts[1..], key))
  }

  lemma CacheStays(s: State, a: Action, key: Key, c: Client)
    requires Shared(s, key, c) && Enabled(s, a) && Spares(s, a, key)
    ensures key in Do(s, a).clients && Do(s, a).clients[key] == c
  {
    hide Lists, Pick, SessionPc, AllPc;
  }

  lemma SharedStep(s: State, a: Action, key: Key, c: Client)
    requires Shared(s, key, c) && Enabled(s, a) && Spares(s, a, key)
    ensures Shared(Do(s, a), key, c)
    ensures a.EnterGet? && s.tasks[a.t].key == key ==> Do(s, a).tasks[a.t] == Returned(key, c)
  {
    CacheStays(s, a, key, c);
    if a.EnterGet? {
      ReturnsAtOnceIff(s, a.t, a.connected);
    }
    var s' := Do(s, a);
    hide Do;
    forall t | 0 <= t < |s'.tasks| && Building(s'.tasks[t]) ensures s'.tasks[t].key != key {
      BuildingStep(s, a, s', t);
    }
  }

  lemma {:induction false} SharedRun(s: State, acts: seq<Action>, key: Key, c: Client)
    requires Shared(s, key, c) && CanRun(s, acts) && SparesAll(s, acts, key)
    ensures Shared(After(s, acts), key, c)
    decreases |acts|
  {
    hide Shared, Spares, Do, Enabled;
    if acts != [] {
      SharedStep(s, acts[0], key, c);
      SharedRun(Do(s, acts[0]), acts[1..], key, c);
    }
  }

  /** Whatever else goes on in the pool: until the slot is evicted, swept or found disconnected, every
      call let into it returns the one cached client. */
  lemma SharedByAll(s: State, acts: seq<Action>, key: Key, c: Client, t: TaskId)
    requires Shared(s, key, c) && CanRun(s, acts) && SparesAll(s, acts, key)
    requires var s' := After(s, acts); Enabled(s', EnterGet(t, true)) && s'.tasks[t].key == key
    ensures Do(After(s, acts), EnterGet(t, true)).tasks[t] == Returned(key, c)
  {
    SharedRun(s, acts, key, c);
    hide Shared, CanRun, After, SparesAll;
    SharedStep(After(s, acts), EnterGet(t, true), key, c);
  }

  // ----- what a sweep takes -----------------------------------------------------------

  lemma PickedIff(clients: map<Key, Client>, order: seq<Key>, c: Client)
    requires forall k :: k in order ==> k in clients
    ensures c in Pick(clients, order) <==> exists k :: k in order && clients[k] == c
  {
    var picked := Pick(clients, order);
    if c in picked {
      var i :| 0 <= i < |picked| && picked[i] == c;
      assert order[i] in order;
    }
    if k :| k in order && clients[k] == c {
      var i :| 0 <= i < |order| && order[i] == k;
      assert picked[i] == c;
    }
  }

  /** Closing a session takes its own cached clients, all of them, to be closed, and their locks; the
      clients and locks of every other session, and of the REST path, stay. */
  lemma SessionTakesIff(s: State, session: string, order: seq<Key>, k: Key, c: Client)
    requires Enabled(s, StartSession(session, order))
    ensures var s' := Do(s, StartSession(session, order));
            && (k in s'.clients <==> k in s.clients && k.session != Some(session))
            && (k in s'.clients ==> s'.clients[k] == s.clients[k])
            && (k in s'.connLocks <==> k in s.connLocks && !(k in s.clients && k.session == Some(session)))
            && (k in s'.connLocks ==> s'.connLocks[k] == s.connLocks[k])
            && |s'.tasks| == |s.tasks| + 1
            && var last := s'.tasks[|s.tasks|];
               ((exists q :: q in s.clients && q.session == Some(session) && s.clients[q] == c)
                <==> last.SessionInvalidate? && c in last.rest)
  {
    PickedIff(s.clients, order, c);
  }

  /** Shutting down takes every cached client, and every lock. */
  lemma ShutdownTakesAll(s: State, t: TaskId, order: seq<Key>, c: Client)
    requires Enabled(s, TakeAll(t, order))
    ensures var s' := Do(s, TakeAll(t, order));
            && s'.clients == map[] && s'.connLocks == map[]
            && ((exists q :: q in s.clients && s.clients[q] == c) <==> s'.tasks[t].AllClose? && c in s'.tasks[t].rest)
            && (s'.tasks[t].AllClose? ==> s'.tasks[t].count == |s'.tasks[t].rest|)
  {
    PickedIff(s.clients, order, c);
  }

  // ----- one call, outcome by outcome ---------------------------------------------------

  /** A built client is cached and returned if and only if it connected, at once where the slot is empty,
      and after the cached one was closed where it is not; one that did not connect is closed, the slot
      keeps what it had, and the call ends.  A call with no usable profile ends having built nothing. */
  lemma CallOutcomes(s: State, t: TaskId, ok: bool)
    requires At(s, t)
    ensures s.tasks[t].GetProfile? ==>
              Do(s, ProfileReady(t, false)) == s.(owner := s.owner - {s.tasks[t].lock}, tasks := s.tasks[t := Ended])
    ensures s.tasks[t].GetConnect? ==>
              var s', key, built := Do(s, ConnectDone(t, ok)), s.tasks[t].key, s.tasks[t].built;
              && (s'.tasks[t] == Returned(key, built) <==> ok && key !in s.clients)
              && (s'.tasks[t].GetSwap? <==> ok && key in s.clients) && (s'.tasks[t].GetCleanup? <==> !ok)
              && s'.clients == (if ok && key !in s.clients then s.clients[key := built] else s.clients)
              && s'.closed == s.closed && (s'.tasks[t].GetSwap? ==> s'.tasks[t].stale == s.clients[key])
    ensures s.tasks[t].GetCleanup? ==>
              Do(s, CleanedUp(t)) == s.(closed := s.closed + {s.tasks[t].built}, owner := s.owner - {s.tasks[t].lock},
                                        tasks := s.tasks[t := Ended])
    ensures s.tasks[t].GetSwap? ==>
              var s' := Do(s, StaleClosed(t));
              && s'.tasks[t] == Returned(s.tasks[t].key, s.tasks[t].built) && s'.closed == s.closed + {s.tasks[t].stale}
              && s'.clients == s.clients[s.tasks[t].key := s.tasks[t].built]
  {
  }

  /** An eviction takes the client of its own slot and no other, keeps every lock, and closes exactly
      the client it took; with nothing to take it ends without closing any. */
  lemma EvictionOutcomes(s: State, t: TaskId)
    requires At(s, t)
    ensures Enabled(s, EnterEvict(t)) ==>
              var s', key := Do(s, EnterEvict(t)), s.tasks[t].key;
              && s'.clients == s.clients - {key} && s'.connLocks == s.connLocks && s'.closed == s.closed
              && s'.tasks[t].EvictInvalidate? && s'.tasks[t].popped == (if key in s.clients then Some(s.clients[key]) else None)
    ensures s.tasks[t].EvictInvalidate? ==>
              var s', popped := Do(s, Invalidated(t)), s.tasks[t].popped;
              && s'.clients == s.clients && s'.closed == s.closed
              && (s'.tasks[t].EvictClose? <==> popped.Some?) && (s'.tasks[t] == Ended <==> popped.None?)
              && (popped.Some? ==> s'.tasks[t].victim == popped.value)
    ensures s.tasks[t].EvictClose? ==>
              var s' := Do(s, VictimClosed(t));
              s'.closed == s.closed + {s.tasks[t].victim} && s'.tasks[t] == Ended && s'.clients == s.clients
  {
  }
}

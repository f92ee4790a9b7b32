/** Conservation and the gauge of the client pool in every run, whatever the sweeps find in
    flight: the one step that can break them, and when it does. */
module PoolConservation {
  import opened Prelude
  import opened ClientPool

  // ----- conservation without any lock ------------------------------------------

  /** A call about to close a stale client knows a client that was built, and not its own. */
  predicate SwapsKnown(s: State) {
    forall t :: 0 <= t < |s.tasks| && s.tasks[t].GetSwap? ==> s.tasks[t].stale < s.minted && s.tasks[t].stale != s.tasks[t].built
  }

  ghost predicate Placed(s: State) {
    Conserved(s.clients, s.tasks, s.closed, s.minted) && RestDistinct(s) && SwapsKnown(s)
  }

  /** The stale client is still the one cached in the slot; or the slot is empty and the client
      has already been closed. */
  predicate SwapSafe(s: State, t: TaskId)
    requires At(s, t) && s.tasks[t].GetSwap?
  {
    if s.tasks[t].key in s.clients then s.clients[s.tasks[t].key] == s.tasks[t].stale else s.tasks[t].stale in s.closed
  }

  lemma StartKeepsPlaced(s: State, s1: State, pc: Pc)
    requires Placed(s) && s1 == s.(connLocks := s1.connLocks, nextLock := s1.nextLock)
    requires pc.GetWait? || pc.EvictWait? || pc.AllClearing?
    ensures Placed(Spawn(s1, pc))
  {
    SamePlaces(s.clients, s.tasks, s.closed, s.minted, s.tasks + [pc]);
    hide Conserved;
  }

  /** What a step of one task leaves of the bookkeeping about rests and swaps. */
  predicate TaskStep(s: State, s': State, t: TaskId) {
    && At(s, t) && At(s', t) && s'.tasks == s.tasks[t := s'.tasks[t]] && s.minted <= s'.minted
    && (s'.tasks[t].GetSwap? ==> s'.tasks[t].stale < s'.minted && s'.tasks[t].stale != s'.tasks[t].built)
    && (s'.tasks[t].SessionInvalidate? || s'.tasks[t].SessionClose? || s'.tasks[t].AllClose?
        ==> Distinct(s'.tasks[t].rest) && s'.tasks[t].rest != [])
  }

  lemma TaskStepKeeps(s: State, s': State, t: TaskId)
    requires RestDistinct(s) && SwapsKnown(s) && TaskStep(s, s', t)
    ensures RestDistinct(s') && SwapsKnown(s')
  {
  }

  lemma CachedIsOther(s: State, t: TaskId, key: Key, built: Client)
    requires Conserved(s.clients, s.tasks, s.closed, s.minted) && At(s, t) && Carries(s.tasks[t], built) && key in s.clients
    ensures s.clients[key] < s.minted && s.clients[key] != built
  {
    assert Located(s.clients, s.tasks, s.closed, s.clients[key], Cached(key));
    assert Located(s.clients, s.tasks, s.closed, built, HeldBy(t));
  }

  lemma GetStepsPlaced(s: State, a: Action)
    requires Placed(s) && Enabled(s, a) && (a.EnterGet? || a.ProfileReady? || a.CleanedUp?)
    ensures Placed(Do(s, a))
  {
    var s', t := Do(s, a), a.t;
    assert TaskStep(s, s', t);
    TaskStepKeeps(s, s', t);
    hide RestDistinct, SwapsKnown, TaskStep;
    if a.ProfileReady? && a.usable {
      Minting(s.clients, s.tasks, s.closed, s.minted, t, s'.tasks[t]);
    } else if a.CleanedUp? {
      Closing(s.clients, s.tasks, s.closed, s.minted, t, s'.tasks[t], s.tasks[t].built);
    } else {
      SamePlaces(s.clients, s.tasks, s.closed, s.minted, s'.tasks);
    }
  }

  lemma ConnectPlaced(s: State, t: TaskId, ok: bool)
    requires Placed(s) && At(s, t) && s.tasks[t].GetConnect?
    ensures Placed(GetConnected(s, t, ok))
  {
    var s', pc := GetConnected(s, t, ok), s.tasks[t];
    if pc.key in s.clients {
      CachedIsOther(s, t, pc.key, pc.built);
    }
    assert TaskStep(s, s', t);
    TaskStepKeeps(s, s', t);
    hide RestDistinct, SwapsKnown, TaskStep;
    if ok && pc.key !in s.clients {
      Caching(s.clients, s.tasks, s.closed, s.minted, t, s'.tasks[t], pc.key, pc.built);
    } else {
      SamePlaces(s.clients, s.tasks, s.closed, s.minted, s'.tasks);
    }
  }

  lemma EvictStepsPlaced(s: State, a: Action)
    requires Placed(s) && Enabled(s, a) && (a.EnterEvict? || a.Invalidated? || a.VictimClosed?)
    ensures Placed(Do(s, a))
  {
    var s', t := Do(s, a), a.t;
    assert TaskStep(s, s', t);
    TaskStepKeeps(s, s', t);
    hide RestDistinct, SwapsKnown, TaskStep;
    if a.EnterEvict? {
      Taking(s.clients, s.tasks, s.closed, s.minted, {s.tasks[t].key}, s'.tasks, t);
    } else if a.VictimClosed? {
      Closing(s.clients, s.tasks, s.closed, s.minted, t, s'.tasks[t], s.tasks[t].victim);
    } else {
      SamePlaces(s.clients, s.tasks, s.closed, s.minted, s'.tasks);
    }
  }

  lemma ShutPlaced(s: State, t: TaskId)
    requires Placed(s) && At(s, t) && (s.tasks[t].SessionClose? || s.tasks[t].AllClose?) && s.tasks[t].rest != []
    ensures s.tasks[t].SessionClose? ==> Placed(SessionShut(s, t))
    ensures s.tasks[t].AllClose? ==> Placed(AllShut(s, t))
  {
    var rest := s.tasks[t].rest;
    var s' := if s.tasks[t].SessionClose? then SessionShut(s, t) else AllShut(s, t);
    forall c: Client ensures c in rest[1..] <==> c in rest && c != rest[0] { HeadOnce(rest, c); }
    HeadOnce(rest, 0);
    assert TaskStep(s, s', t);
    TaskStepKeeps(s, s', t);
    hide RestDistinct, SwapsKnown, TaskStep;
    Closing(s.clients, s.tasks, s.closed, s.minted, t, s'.tasks[t], rest[0]);
  }

  lemma NextPlaced(s: State, t: TaskId)
    requires Placed(s) && At(s, t) && s.tasks[t].SessionInvalidate?
    ensures Placed(SessionNext(s, t))
  {
    var s' := SessionNext(s, t);
    TaskStepKeeps(s, s', t);
    hide RestDistinct, SwapsKnown;
    SamePlaces(s.clients, s.tasks, s.closed, s.minted, s'.tasks);
  }

  lemma TakenPlaced(s: State, a: Action)
    requires Placed(s) && Enabled(s, a) && (a.StartSession? || a.TakeAll?)
    ensures Placed(Do(s, a))
  {
    match a
    case StartSession(session, order) =>
      SessionTakenPlaces(s, session, order);
      hide Conserved, RestDistinct, Lists;
    case TakeAll(t, order) =>
      AllTakenPlaces(s, t, order);
      hide Conserved, RestDistinct, Lists;
  }

  lemma UnsweptPlaced(s: State, a: Action)
    requires Placed(s) && Enabled(s, a) && !a.StaleClosed?
    ensures Placed(Do(s, a))
  {
    hide Placed, GetConnected, SessionTaken, SessionNext, SessionShut, AllTaken, AllShut, GetEntered, GetProfiled, GetCleanedUp,
      EvictEntered, EvictInvalidated, EvictClosed, Lists;
    match a
    case StartGet(key) => StartKeepsPlaced(s, WithLock(s, key), GetWait(key, WithLock(s, key).connLocks[key]));
    case StartEvict(key) => StartKeepsPlaced(s, WithLock(s, key), EvictWait(key, WithLock(s, key).connLocks[key]));
    case StartAll => StartKeepsPlaced(s, s, AllClearing);
    case EnterGet(_, _) => GetStepsPlaced(s, a);
    case ProfileReady(_, _) => GetStepsPlaced(s, a);
    case CleanedUp(_) => GetStepsPlaced(s, a);
    case ConnectDone(t, ok) => ConnectPlaced(s, t, ok);
    case EnterEvict(_) => EvictStepsPlaced(s, a);
    case Invalidated(_) => EvictStepsPlaced(s, a);
    case VictimClosed(_) => EvictStepsPlaced(s, a);
    case StartSession(_, _) => TakenPlaced(s, a);
    case TakeAll(_, _) => TakenPlaced(s, a);
    case SessionInvalidated(t) => NextPlaced(s, t);
    case SessionClosed(t) => ShutPlaced(s, t);
    case AllClosed(t) => ShutPlaced(s, t);
  }

  lemma SwapEmptySlot(s: State, t: TaskId)
    requires Placed(s) && At(s, t) && s.tasks[t].GetSwap? && s.tasks[t].key !in s.clients && s.tasks[t].stale in s.closed
    ensures var s' := GetSwapped(s, t); Conserved(s'.clients, s'.tasks, s'.closed, s'.minted)
  {
    var s', pc := GetSwapped(s, t), s.tasks[t];
    Caching(s.clients, s.tasks, s.closed, s.minted, t, s'.tasks[t], pc.key, pc.built);
    assert s.closed + {pc.stale} == s.closed;
  }

  /** Not safe: the cached client is overwritten and is nowhere, or the stale one is somewhere
      else and closed as well. */
  lemma UnsafeSwapLoses(s: State, t: TaskId)
    requires Placed(s) && At(s, t) && s.tasks[t].GetSwap? && !SwapSafe(s, t)
    ensures var s' := GetSwapped(s, t); !Conserved(s'.clients, s'.tasks, s'.closed, s'.minted)
  {
    var s', pc := GetSwapped(s, t), s.tasks[t];
    assert Located(s'.clients, s'.tasks, s'.closed, pc.stale, Closed);
    if pc.key in s.clients {
      OverwrittenNowhere(s, t);
    } else {
      assert Somewhere(s.clients, s.tasks, s.closed, pc.stale);
      var p :| Located(s.clients, s.tasks, s.closed, pc.stale, p);
      assert p != HeldBy(t) && p != Cached(pc.key) && p != Closed;
      assert Located(s'.clients, s'.tasks, s'.closed, pc.stale, p);
    }
  }

  lemma OverwrittenNowhere(s: State, t: TaskId)
    requires Placed(s) && At(s, t) && s.tasks[t].GetSwap? && s.tasks[t].key in s.clients
    requires s.clients[s.tasks[t].key] != s.tasks[t].stale
    ensures var s', c := GetSwapped(s, t), s.clients[s.tasks[t].key];
            c < s'.minted && !Somewhere(s'.clients, s'.tasks, s'.closed, c)
  {
    var s', pc := GetSwapped(s, t), s.tasks[t];
    var c := s.clients[pc.key];
    CachedIsOther(s, t, pc.key, pc.built);
    assert Located(s.clients, s.tasks, s.closed, c, Cached(pc.key));
    forall p ensures !Located(s'.clients, s'.tasks, s'.closed, c, p) {
      if Located(s'.clients, s'.tasks, s'.closed, c, p) {
        assert p != Cached(pc.key);
        assert Located(s.clients, s.tasks, s.closed, c, p);
        assert false;
      }
    }
  }

  /** Closing a stale client keeps every client in one place exactly when the swap is safe. */
  lemma SwapConservesIff(s: State, t: TaskId)
    requires Placed(s) && Enabled(s, StaleClosed(t))
    ensures Placed(Do(s, StaleClosed(t))) <==> SwapSafe(s, t)
  {
    var s', pc := GetSwapped(s, t), s.tasks[t];
    if !SwapSafe(s, t) {
      UnsafeSwapLoses(s, t);
    } else {
      TaskStepKeeps(s, s', t);
      if pc.key in s.clients {
        Caching(s.clients, s.tasks, s.closed, s.minted, t, s'.tasks[t], pc.key, pc.built);
      } else {
        SwapEmptySlot(s, t);
      }
    }
    hide Conserved, RestDistinct, SwapsKnown, SwapSafe;
  }

  ghost predicate ConservedThroughout(s: State, acts: seq<Action>)
    requires CanRun(s, acts)
    decreases |acts|
  {
    Placed(s) && (acts == [] || ConservedThroughout(Do(s, acts[0]), acts[1..]))
  }

  predicate EverySwapSafe(s: State, acts: seq<Action>)
    requires CanRun(s, acts)
    decreases |acts|
  {
    acts == [] || ((acts[0].StaleClosed? ==> SwapSafe(s, acts[0].t)) && EverySwapSafe(Do(s, acts[0]), acts[1..]))
  }

  lemma {:induction false} ConservedRun(s: State, acts: seq<Action>)
    requires Placed(s) && CanRun(s, acts)
    ensures ConservedThroughout(s, acts) <==> EverySwapSafe(s, acts)
    decreases |acts|
  {
    if acts != [] {
      if acts[0].StaleClosed? {
        SwapConservesIff(s, acts[0].t);
      } else {
        UnsweptPlaced(s, acts[0]);
      }
      hide Do, Placed, SwapSafe;
      if Placed(Do(s, acts[0])) {
        ConservedRun(Do(s, acts[0]), acts[1..]);
      }
    }
  }

  /** Whatever the sweeps do: native clients are conserved throughout a run if and only if every
      replaced client is, when its replacement closes it, still the one cached in the slot (or
      already closed with the slot empty). */
  lemma ConservedIffSwapsSafe(acts: seq<Action>)
    requires CanRun(Init, acts)
    ensures ConservedThroughout(Init, acts) <==> EverySwapSafe(Init, acts)
  {
    InitInv();
    ConservedRun(Init, acts);
  }

  // ----- the gauge alone --------------------------------------------------------

  lemma EnterGauge(s: State, t: TaskId, connected: bool)
    requires At(s, t) && s.tasks[t].GetWait? && s.tasks[t].lock !in s.owner
    ensures GaugeStep(s, GetEntered(s, t, connected), t)
  {
  }

  lemma CleanupGauge(s: State, t: TaskId)
    requires At(s, t) && s.tasks[t].GetCleanup?
    ensures GaugeStep(s, GetCleanedUp(s, t), t)
  {
  }

  lemma NextGauge(s: State, t: TaskId)
    requires At(s, t) && s.tasks[t].SessionInvalidate?
    ensures GaugeStep(s, SessionNext(s, t), t)
  {
  }

  lemma ShutGauge(s: State, t: TaskId)
    requires At(s, t) && (s.tasks[t].SessionClose? || s.tasks[t].AllClose?) && s.tasks[t].rest != []
    ensures s.tasks[t].SessionClose? ==> GaugeStep(s, SessionShut(s, t), t)
    ensures s.tasks[t].AllClose? ==> GaugeStep(s, AllShut(s, t), t)
  {
  }

  lemma StartGauge(s: State, s1: State, pc: Pc)
    requires Gauged(s) && s1 == s.(connLocks := s1.connLocks, nextLock := s1.nextLock) && Owed(pc) == 0
    ensures Gauged(Spawn(s1, pc))
  {
    OwedAppend(s.tasks, pc);
    hide Owed, TotalOwed;
  }

  lemma UnsweptGauged(s: State, a: Action)
    requires Gauged(s) && Enabled(s, a) && !a.StaleClosed?
    ensures Gauged(Do(s, a))
  {
    hide Gauged, GaugeStep, GetConnected, SessionTaken, SessionNext, SessionShut, AllTaken, AllShut, GetEntered, GetProfiled,
      GetCleanedUp, EvictEntered, EvictInvalidated, EvictClosed, Lists;
    match a
    case StartGet(key) => StartGauge(s, WithLock(s, key), GetWait(key, WithLock(s, key).connLocks[key]));
    case StartEvict(key) => StartGauge(s, WithLock(s, key), EvictWait(key, WithLock(s, key).connLocks[key]));
    case StartAll => StartGauge(s, s, AllClearing);
    case EnterGet(t, connected) => EnterGauge(s, t, connected); GaugeStepKeeps(s, Do(s, a), t);
    case ProfileReady(t, usable) => GetProfiledGauge(s, t, usable); GaugeStepKeeps(s, Do(s, a), t);
    case CleanedUp(t) => CleanupGauge(s, t); GaugeStepKeeps(s, Do(s, a), t);
    case SessionInvalidated(t) => NextGauge(s, t); GaugeStepKeeps(s, Do(s, a), t);
    case ConnectDone(t, ok) => GetConnectedGauge(s, t, ok); GaugeStepKeeps(s, Do(s, a), t);
    case EnterEvict(t) => EvictEnteredGauge(s, t); GaugeStepKeeps(s, Do(s, a), t);
    case Invalidated(t) => EvictInvalidatedGauge(s, t); GaugeStepKeeps(s, Do(s, a), t);
    case VictimClosed(t) => EvictClosedGauge(s, t); GaugeStepKeeps(s, Do(s, a), t);
    case StartSession(session, order) => SessionTakenGauge(s, session, order);
    case TakeAll(t, order) => AllTakenGauge(s, t, order);
    case SessionClosed(t) => ShutGauge(s, t); GaugeStepKeeps(s, Do(s, a), t);
    case AllClosed(t) => ShutGauge(s, t); GaugeStepKeeps(s, Do(s, a), t);
  }

  /** The replacement leaves the gauge right exactly when it finds its slot occupied. */
  lemma SwapGaugedIff(s: State, t: TaskId)
    requires Gauged(s) && Enabled(s, StaleClosed(t))
    ensures Gauged(Do(s, StaleClosed(t))) <==> s.tasks[t].key in s.clients
  {
    var pc := s.tasks[t];
    OneMore(s.clients, pc.key, pc.built);
    OwedUpdate(s.tasks, t, Returned(pc.key, pc.built));
    hide TotalOwed;
  }

  predicate GaugedThroughout(s: State, acts: seq<Action>)
    requires CanRun(s, acts)
    decreases |acts|
  {
    Gauged(s) && (acts == [] || GaugedThroughout(Do(s, acts[0]), acts[1..]))
  }

  predicate EverySwapFindsSlot(s: State, acts: seq<Action>)
    requires CanRun(s, acts)
    decreases |acts|
  {
    acts == []
    || ((acts[0].StaleClosed? ==> s.tasks[acts[0].t].key in s.clients) && EverySwapFindsSlot(Do(s, acts[0]), acts[1..]))
  }

  lemma {:induction false} GaugedRun(s: State, acts: seq<Action>)
    requires Gauged(s) && CanRun(s, acts)
    ensures GaugedThroughout(s, acts) <==> EverySwapFindsSlot(s, acts)
    decreases |acts|
  {
    if acts != [] {
      if acts[0].StaleClosed? {
        SwapGaugedIff(s, acts[0].t);
      } else {
        UnsweptGauged(s, acts[0]);
      }
      hide Do, Gauged;
      if Gauged(Do(s, acts[0])) {
        GaugedRun(Do(s, acts[0]), acts[1..]);
      }
    }
  }

  /** Whatever the sweeps do: the gauge is right throughout a run if and only if every replacement
      finds its slot occupied when it closes the stale client. */
  lemma GaugedIffSlotsFound(acts: seq<Action>)
    requires CanRun(Init, acts)
    ensures GaugedThroughout(Init, acts) <==> EverySwapFindsSlot(Init, acts)
  {
    InitInv();
    GaugedRun(Init, acts);
  }

  /** A sweep that takes a slot whose stale client a call is about to close makes that step break
      both: the client is closed by the call and by the sweep, and the gauge drops twice. */
  lemma SweepUnderSwapBreaks(s: State, session: string, order: seq<Key>, t: TaskId)
    requires Inv(s) && SwapsKnown(s) && Lists(s, Some(session), order)
    requires At(s, t) && s.tasks[t].GetSwap? && s.tasks[t].key in Keys(order)
    ensures var s1 := SessionTaken(s, session, order);
            && Enabled(s1, StaleClosed(t))
            && Placed(s1) && !Placed(Do(s1, StaleClosed(t)))
            && Gauged(s1) && !Gauged(Do(s1, StaleClosed(t)))
  {
    CachedNotClosed(s.clients, s.tasks, s.closed, s.minted, s.tasks[t].key);
    UnsweptPlaced(s, StartSession(session, order));
    UnsweptGauged(s, StartSession(session, order));
    var s1 := SessionTaken(s, session, order);
    hide Inv, Placed, Gauged, Lists;
    SwapConservesIff(s1, t);
    SwapGaugedIff(s1, t);
  }
}

/** Hydrating the cluster registry behind a single-flight promise.  A call awaits its fetch and
    its body between its start and its settling; everything else runs in one turn. */
module Hydration {
  import opened Prelude

  datatype ClusterEntry = ClusterEntry(id: string, displayName: string, apiUrl: string)

  datatype Registry = Registry(defaultClusterId: string, clusters: seq<ClusterEntry>)

  datatype State = State(
    promises: nat,               // created so far: 0..promises
    resolved: set<nat>,
    cached: Option<nat>,         // hydrationPromise
    resolver: Option<nat>,       // resolveHydration, named by the promise it resolves
    primer: Option<nat>,         // the call that created the latest pending promise
    calls: nat,
    inFlight: set<nat>,
    registry: Option<Registry>,
    currentClusterId: Option<string>,
    registryError: Option<string>)

  datatype Action =
    | Start
    | Succeed(call: nat, data: Registry)
    | Reject(call: nat, msg: Option<string>)   // the message, where the failure was reported to the store
    | Ask                                      // getHydrationPromise
    | Choose(id: string)

  function Init(persisted: Option<string>): State { State(0, {}, None, None, None, 0, {}, None, persisted, None) }

  // ----- the steps -----------------------------------------------------------

  function Ensured(s: State): State {
    if s.cached.Some? then s
    else s.(promises := s.promises + 1, cached := Some(s.promises), resolver := Some(s.promises), primer := Some(s.calls))
  }

  function Settled(s: State): State {
    if s.resolver.Some? then s.(resolver := None, resolved := s.resolved + {s.resolver.value})
    else if s.cached.None? then s.(promises := s.promises + 1, cached := Some(s.promises), resolved := s.resolved + {s.promises})
    else s
  }

  predicate Listed(r: Registry, id: string) { exists i :: 0 <= i < |r.clusters| && r.clusters[i].id == id }

  /** The choice kept when a registry arrives. */
  function Kept(current: Option<string>, r: Registry): string {
    if current.Some? && current.value != "" && Listed(r, current.value) then current.value else r.defaultClusterId
  }

  predicate Enabled(s: State, a: Action) {
    match a
    case Succeed(c, _) => c in s.inFlight
    case Reject(c, _) => c in s.inFlight
    case _ => true
  }

  function Do(s: State, a: Action): State
    requires Enabled(s, a)
  {
    match a
    case Start => Ensured(s).(calls := s.calls + 1, inFlight := s.inFlight + {s.calls})
    case Succeed(c, r) =>
      Settled(s.(registry := Some(r), currentClusterId := Some(Kept(s.currentClusterId, r)), registryError := None))
        .(inFlight := s.inFlight - {c})
    case Reject(c, msg) =>
      Settled(s.(registryError := if msg.Some? then msg else s.registryError))
        .(cached := None, resolver := None, inFlight := s.inFlight - {c})
    case Ask => if s.cached.Some? then s else s.(promises := s.promises + 1, resolved := s.resolved + {s.promises})
    case Choose(id) => s.(currentClusterId := Some(id))
  }

  // ----- the invariant -------------------------------------------------------

  predicate Pending(s: State, p: nat) { p < s.promises && p !in s.resolved }

  /** The only unresolved promise is the cached one whose resolver is held, and the call that
      primed it has not settled. */
  predicate Inv(s: State) {
    && (forall p :: p in s.resolved ==> p < s.promises)
    && (forall c :: c in s.inFlight ==> c < s.calls)
    && (forall p: nat :: p < s.promises ==> (p !in s.resolved <==> s.resolver == Some(p)))
    && (s.cached.Some? ==> s.cached.value < s.promises)
    && (s.resolver.Some? ==> s.cached == s.resolver && s.primer.Some? && s.primer.value in s.inFlight)
  }

  lemma StepKeepsInv(s: State, a: Action)
    requires Inv(s) && Enabled(s, a)
    ensures Inv(Do(s, a))
  {
  }

  predicate CanRun(s: State, acts: seq<Action>)
    decreases |acts|
  {
    acts == [] || (Enabled(s, acts[0]) && CanRun(Do(s, acts[0]), acts[1..]))
  }

  function After(s: State, acts: seq<Action>): State
    requires CanRun(s, acts)
    decreases |acts|
  {
    if acts == [] then s else After(Do(s, acts[0]), acts[1..])
  }

  lemma {:induction false} RunKeepsInv(s: State, acts: seq<Action>)
    requires Inv(s) && CanRun(s, acts)
    ensures Inv(After(s, acts))
    decreases |acts|
  {
    if acts != [] {
      StepKeepsInv(s, acts[0]);
      RunKeepsInv(Do(s, acts[0]), acts[1..]);
    }
  }

  /** Hydration never strands a waiter: in every run at most one promise is unresolved, it is the
      cached one, and it is so only while a call is in flight. */
  lemma NoWaiterStranded(persisted: Option<string>, acts: seq<Action>)
    requires CanRun(Init(persisted), acts)
    ensures var s := After(Init(persisted), acts);
            && (forall p: nat :: Pending(s, p) ==> s.cached == Some(p) == s.resolver && s.primer.Some? && s.primer.value in s.inFlight)
            && (s.inFlight == {} ==> forall p: nat :: p < s.promises ==> p in s.resolved)
  {
    RunKeepsInv(Init(persisted), acts);
  }

  predicate Settles(a: Action) { a.Succeed? || a.Reject? }

  /** A promise goes from pending to resolved exactly when the next call settles, whichever call
      that is and however it ends. */
  lemma ResolvedIffSettled(s: State, a: Action, p: nat)
    requires Inv(s) && Enabled(s, a) && Pending(s, p)
    ensures Pending(Do(s, a), p) <==> !Settles(a)
  {
  }

  lemma {:induction false} PendingUntilSettled(s: State, acts: seq<Action>, p: nat)
    requires Inv(s) && CanRun(s, acts) && Pending(s, p)
    ensures Pending(After(s, acts), p) <==> forall i :: 0 <= i < |acts| ==> !Settles(acts[i])
    decreases |acts|
  {
    if acts != [] {
      var s' := Do(s, acts[0]);
      StepKeepsInv(s, acts[0]);
      ResolvedIffSettled(s, acts[0], p);
      assert acts == [acts[0]] + acts[1..];
      if Pending(s', p) {
        PendingUntilSettled(s', acts[1..], p);
      } else {
        ResolvedStays(s', acts[1..], p);
      }
    }
  }

  lemma {:induction false} ResolvedStays(s: State, acts: seq<Action>, p: nat)
    requires CanRun(s, acts) && p in s.resolved
    ensures p in After(s, acts).resolved
    decreases |acts|
  {
    if acts != [] {
      ResolvedStays(Do(s, acts[0]), acts[1..], p);
    }
  }

  /** A later call waits for itself only if no earlier call is still out: here a retry's promise
      resolves with no registry and the retry in flight, because an older call failed. */
  lemma StaleFailureReleasesRetry()
    ensures var acts := [Start, Start, Reject(0, None), Start, Reject(1, None)];
            CanRun(Init(None), acts)
            && var s := After(Init(None), acts);
               s.inFlight == {2} && s.registry.None? && s.promises == 2 && s.resolved == {0, 1}
  {
    var s0 := Init(None);
    var s1 := Do(s0, Start);
    var s2 := Do(s1, Start);
    var s3 := Do(s2, Reject(0, None));
    var s4 := Do(s3, Start);
    var s5 := Do(s4, Reject(1, None));
    assert s2.inFlight == {0, 1} && s2.resolver == Some(0) && s2.promises == 1;
    assert s3.inFlight == {1} && s3.resolved == {0} && s3.cached.None? && s3.calls == 2;
    assert s4.inFlight == {1, 2} && s4.resolver == Some(1) && s4.promises == 2;
    assert s5.inFlight == {2} && s5.resolved == {0, 1};
    assert CanRun(s5, []) && After(s5, []) == s5;
    assert CanRun(s4, [Reject(1, None)]) && After(s4, [Reject(1, None)]) == s5;
    assert CanRun(s3, [Start, Reject(1, None)]) && After(s3, [Start, Reject(1, None)]) == s5;
    assert CanRun(s2, [Reject(0, None), Start, Reject(1, None)]) && After(s2, [Reject(0, None), Start, Reject(1, None)]) == s5;
    var tail := [Start, Reject(0, None), Start, Reject(1, None)];
    assert tail[1..] == [Reject(0, None), Start, Reject(1, None)];
    assert CanRun(s1, tail) && After(s1, tail) == s5;
    var acts := [Start, Start, Reject(0, None), Start, Reject(1, None)];
    assert acts[1..] == tail;
  }

  // ----- runs told from their actions alone -----------------------------------

  lemma {:induction false} RunSnoc(s: State, acts: seq<Action>)
    requires CanRun(s, acts) && acts != []
    ensures var n := |acts| - 1;
            CanRun(s, acts[..n]) && Enabled(After(s, acts[..n]), acts[n]) && After(s, acts) == Do(After(s, acts[..n]), acts[n])
    decreases |acts|
  {
    hide Do, Enabled;
    var n := |acts| - 1;
    if n > 0 {
      RunSnoc(Do(s, acts[0]), acts[1..]);
      assert acts[1..][..n - 1] == acts[..n][1..];
    }
  }

  /** The call that settled last succeeded. */
  predicate LastSucceeded(acts: seq<Action>) {
    exists k :: 0 <= k < |acts| && acts[k].Succeed? && forall m :: k < m < |acts| ==> !Settles(acts[m])
  }

  /** A hydration began, and no call has settled since; and it did not begin on top of a success. */
  predicate Waiting(acts: seq<Action>) {
    exists k :: 0 <= k < |acts| && acts[k].Start? && !LastSucceeded(acts[..k]) && forall m :: k < m < |acts| ==> !Settles(acts[m])
  }

  lemma LastSucceededSnoc(acts: seq<Action>, a: Action)
    ensures LastSucceeded(acts + [a]) <==> a.Succeed? || (!Settles(a) && LastSucceeded(acts))
  {
    var all := acts + [a];
    assert forall k :: 0 <= k < |acts| ==> all[k] == acts[k];
    assert all[|acts|] == a;
  }

  lemma WaitingSnoc(acts: seq<Action>, a: Action)
    ensures Waiting(acts + [a]) <==> !Settles(a) && (Waiting(acts) || (a.Start? && !LastSucceeded(acts)))
  {
    hide LastSucceeded;
    var all := acts + [a];
    assert forall k :: 0 <= k < |acts| ==> all[k] == acts[k] && all[..k] == acts[..k];
    assert all[|acts|] == a && all[..|acts|] == acts;
  }

  lemma {:induction false} CacheTold(persisted: Option<string>, acts: seq<Action>)
    requires CanRun(Init(persisted), acts)
    ensures var s := After(Init(persisted), acts);
            && Inv(s) && (s.resolver.Some? <==> Waiting(acts)) && (s.cached.Some? <==> Waiting(acts) || LastSucceeded(acts))
            && !(Waiting(acts) && LastSucceeded(acts))
    decreases |acts|
  {
    RunKeepsInv(Init(persisted), acts);
    if acts != [] {
      var front, last := acts[..|acts| - 1], acts[|acts| - 1];
      RunSnoc(Init(persisted), acts);
      CacheTold(persisted, front);
      assert acts == front + [last];
      WaitingSnoc(front, last);
      LastSucceededSnoc(front, last);
      hide Waiting, LastSucceeded, CanRun, After;
    }
  }

  /** The promise `getHydrationPromise` returns. */
  function Handed(s: State): nat { if s.cached.Some? then s.cached.value else s.promises }

  /** In any run a caller of `getHydrationPromise` is made to wait if and only if a hydration began, not
      on top of a success, and no call has settled since. */
  lemma AskWaitsIff(persisted: Option<string>, acts: seq<Action>)
    requires CanRun(Init(persisted), acts)
    ensures var s := After(Init(persisted), acts);
            && (Pending(Do(s, Ask), Handed(s)) <==> Waiting(acts))
            && (s.cached.Some? ==> Do(s, Ask) == s) && (s.cached.None? ==> Do(s, Ask).cached.None? && Do(s, Ask).promises == s.promises + 1)
  {
    CacheTold(persisted, acts);
    hide Waiting, LastSucceeded, CanRun, After;
  }

  /** The single flight: only a failure lets go of the promise once there is one. */
  lemma {:induction false} OnePromise(s: State, acts: seq<Action>)
    requires CanRun(s, acts) && s.cached.Some? && forall i :: 0 <= i < |acts| ==> !acts[i].Reject?
    ensures After(s, acts).cached == s.cached
    decreases |acts|
  {
    if acts != [] {
      assert !acts[0].Reject? && Do(s, acts[0]).cached == s.cached;
      hide Do, Enabled;
      OnePromise(Do(s, acts[0]), acts[1..]);
    }
  }

  /** The calls begun so far. */
  function Begun(acts: seq<Action>): nat {
    if acts == [] then 0 else Begun(acts[..|acts| - 1]) + if acts[|acts| - 1].Start? then 1 else 0
  }

  predicate SettledIn(acts: seq<Action>, call: nat) { exists k :: 0 <= k < |acts| && Settles(acts[k]) && acts[k].call == call }

  lemma SettledInSnoc(acts: seq<Action>, a: Action, call: nat)
    ensures SettledIn(acts + [a], call) <==> SettledIn(acts, call) || (Settles(a) && a.call == call)
  {
    var all := acts + [a];
    assert forall k :: 0 <= k < |acts| ==> all[k] == acts[k];
    assert all[|acts|] == a;
  }

  lemma {:induction false} CallsTold(persisted: Option<string>, acts: seq<Action>)
    requires CanRun(Init(persisted), acts)
    ensures var s := After(Init(persisted), acts);
            && s.calls == Begun(acts)
            && (forall c: nat :: c in s.inFlight <==> c < Begun(acts) && !SettledIn(acts, c))
            && (forall c: nat :: SettledIn(acts, c) ==> c < Begun(acts))
    decreases |acts|
  {
    if acts != [] {
      var front, last := acts[..|acts| - 1], acts[|acts| - 1];
      RunSnoc(Init(persisted), acts);
      CallsTold(persisted, front);
      assert acts == front + [last];
      forall c: nat ensures SettledIn(acts, c) <==> SettledIn(front, c) || (Settles(last) && last.call == c) {
        SettledInSnoc(front, last, c);
      }
      hide SettledIn, CanRun, After, Listed;
    }
  }

  /** A call settles at most once, and only after it began: in flight are the calls begun and not settled. */
  lemma InFlightIff(persisted: Option<string>, acts: seq<Action>, call: nat)
    requires CanRun(Init(persisted), acts)
    ensures call in After(Init(persisted), acts).inFlight <==> call < Begun(acts) && !SettledIn(acts, call)
  {
    CallsTold(persisted, acts);
  }

  /** The last success brought `data`. */
  predicate Brought(acts: seq<Action>, data: Registry) {
    exists k :: 0 <= k < |acts| && acts[k].Succeed? && acts[k].data == data && forall m :: k < m < |acts| ==> !acts[m].Succeed?
  }

  /** `msg` was reported, and nothing has been reported or brought since. */
  predicate Reported(acts: seq<Action>, msg: string) {
    exists k :: 0 <= k < |acts| && acts[k].Reject? && acts[k].msg == Some(msg)
                && forall m :: k < m < |acts| ==> !acts[m].Succeed? && (acts[m].Reject? ==> acts[m].msg.None?)
  }

  lemma ToldSnoc(acts: seq<Action>, a: Action, data: Registry, msg: string)
    ensures Brought(acts + [a], data) <==> if a.Succeed? then a.data == data else Brought(acts, data)
    ensures Reported(acts + [a], msg) <==>
            (a.Reject? && a.msg == Some(msg)) || (!a.Succeed? && (a.Reject? ==> a.msg.None?) && Reported(acts, msg))
  {
    var all := acts + [a];
    assert forall k :: 0 <= k < |acts| ==> all[k] == acts[k];
    assert all[|acts|] == a;
  }

  /** In any run the store holds the registry brought last, and shows the error reported last unless a
      registry was brought since. */
  lemma {:induction false} StoreIff(persisted: Option<string>, acts: seq<Action>, data: Registry, msg: string)
    requires CanRun(Init(persisted), acts)
    ensures var s := After(Init(persisted), acts);
            (s.registry == Some(data) <==> Brought(acts, data)) && (s.registryError == Some(msg) <==> Reported(acts, msg))
    decreases |acts|
  {
    if acts != [] {
      var front, last := acts[..|acts| - 1], acts[|acts| - 1];
      RunSnoc(Init(persisted), acts);
      StoreIff(persisted, front, data, msg);
      assert acts == front + [last];
      ToldSnoc(front, last, data, msg);
      hide Brought, Reported, CanRun, After, Listed;
    }
  }

  // ----- the active cluster --------------------------------------------------

  function Find(clusters: seq<ClusterEntry>, id: string): Option<ClusterEntry> {
    if clusters == [] then None
    else if clusters[0].id == id then Some(clusters[0])
    else Find(clusters[1..], id)
  }

  /** `getActiveCluster` */
  function ActiveCluster(s: State): Option<ClusterEntry> {
    if s.registry.None? then None
    else
      var r := s.registry.value;
      var chosen := if s.currentClusterId.Some? then Find(r.clusters, s.currentClusterId.value) else None;
      if chosen.Some? then chosen
      else if Find(r.clusters, r.defaultClusterId).Some? then Find(r.clusters, r.defaultClusterId)
      else if r.clusters != [] then Some(r.clusters[0])
      else None
  }

  lemma {:induction false} FindFinds(clusters: seq<ClusterEntry>, id: string)
    ensures Find(clusters, id).Some? <==> exists i :: 0 <= i < |clusters| && clusters[i].id == id
    ensures Find(clusters, id).Some? ==> Find(clusters, id).value in clusters && Find(clusters, id).value.id == id
  {
    if clusters != [] {
      FindFinds(clusters[1..], id);
      if exists i :: 0 <= i < |clusters| && clusters[i].id == id {
        var i :| 0 <= i < |clusters| && clusters[i].id == id;
        assert i > 0 ==> clusters[1..][i - 1] == clusters[i];
      }
      if exists i :: 0 <= i < |clusters[1..]| && clusters[1..][i].id == id {
        var i :| 0 <= i < |clusters[1..]| && clusters[1..][i].id == id;
        assert clusters[i + 1].id == id;
      }
    }
  }

  /** There is an active cluster exactly when the registry lists one, and it is always a listed
      one: the user's choice if that is listed, else the default if that is, else the first. */
  lemma ActiveClusterIff(s: State)
    requires s.registry.Some?
    ensures var r, current := s.registry.value, s.currentClusterId;
            && (ActiveCluster(s).Some? <==> r.clusters != [])
            && (ActiveCluster(s).Some? ==>
                  var active := ActiveCluster(s).value;
                  && active in r.clusters
                  && (if current.Some? && Listed(r, current.value) then active.id == current.value
                      else if Listed(r, r.defaultClusterId) then active.id == r.defaultClusterId
                      else active == r.clusters[0]))
  {
    var r := s.registry.value;
    FindFinds(r.clusters, r.defaultClusterId);
    if s.currentClusterId.Some? {
      FindFinds(r.clusters, s.currentClusterId.value);
    }
  }

  /** Choosing a listed cluster makes it the active one at once. */
  lemma ChoiceIsActive(s: State, id: string)
    requires s.registry.Some? && Listed(s.registry.value, id)
    ensures var s' := Do(s, Choose(id));
            ActiveCluster(s').Some? && ActiveCluster(s').value.id == id && s' == s.(currentClusterId := s'.currentClusterId)
  {
    FindFinds(s.registry.value.clusters, id);
  }

  /** When a registry arrives, the active cluster is the user's earlier choice if it is listed,
      else the default if that is listed, else the first. */
  lemma ChoiceSurvivesHydration(s: State, call: nat, r: Registry)
    requires Enabled(s, Succeed(call, r)) && r.clusters != []
    ensures var s' := Do(s, Succeed(call, r));
            && ActiveCluster(s').Some?
            && var active := ActiveCluster(s').value;
               if s.currentClusterId.Some? && s.currentClusterId.value != "" && Listed(r, s.currentClusterId.value)
               then active.id == s.currentClusterId.value
               else if Listed(r, r.defaultClusterId) then active.id == r.defaultClusterId
               else active == r.clusters[0]
  {
    FindFinds(r.clusters, r.defaultClusterId);
    FindFinds(r.clusters, Kept(s.currentClusterId, r));
  }

  // ----- the module's variables ------------------------------------------------

  class ClusterSelector {
    var promises: nat
    var resolved: set<nat>
    var hydrationPromise: Option<nat>
    var resolveHydration: Option<nat>
    var primer: Option<nat>
    var calls: nat
    var inFlight: set<nat>
    var registry: Option<Registry>
    var currentClusterId: Option<string>
    var registryError: Option<string>

    function View(): State
      reads this
    {
      State(promises, resolved, hydrationPromise, resolveHydration, primer, calls, inFlight, registry, currentClusterId, registryError)
    }

    constructor (persisted: Option<string>)
      ensures View() == Init(persisted)
    {
      promises, resolved, calls, inFlight := 0, {}, 0, {};
      hydrationPromise, resolveHydration, primer := None, None, None;
      registry, currentClusterId, registryError := None, persisted, None;
    }

    method EnsurePendingPromise() returns (p: nat)
      modifies this
      ensures View() == Ensured(old(View())) && hydrationPromise == Some(p)
    {
      if hydrationPromise.Some? {
        return hydrationPromise.value;
      }
      p := promises;
      promises := promises + 1;
      hydrationPromise, resolveHydration, primer := Some(p), Some(p), Some(calls);
    }

    method SettleHydration()
      modifies this
      ensures View() == Settled(old(View()))
    {
      if resolveHydration.Some? {
        var r := resolveHydration.value;
        resolveHydration := None;
        resolved := resolved + {r};
      } else if hydrationPromise.None? {
        hydrationPromise := Some(promises);
        resolved := resolved + {promises};
        promises := promises + 1;
      }
    }

    /** The loop behind `new Set(registry.clusters.map((c) => c.id))`. */
    method SetRegistry(data: Registry)
      modifies this`registry, this`currentClusterId, this`registryError
      ensures View() == old(View()).(registry := Some(data), currentClusterId := Some(Kept(old(currentClusterId), data)), registryError := None)
    {
      var ids: set<string>, i := {}, 0;
      while i < |data.clusters|
        invariant i <= |data.clusters| && forall id :: id in ids <==> exists j :: 0 <= j < i && data.clusters[j].id == id
      {
        ids := ids + {data.clusters[i].id};
        i := i + 1;
      }
      var valid := if currentClusterId.Some? && currentClusterId.value != "" && currentClusterId.value in ids
                   then currentClusterId.value else data.defaultClusterId;
      registry, currentClusterId, registryError := Some(data), Some(valid), None;
    }

    /** `hydrateClusterRegistry` up to its first await. */
    method BeginHydrate() returns (call: nat)
      modifies this
      ensures View() == Do(old(View()), Start) && call == old(calls)
    {
      var _ := EnsurePendingPromise();
      call := calls;
      calls := calls + 1;
      inFlight := inFlight + {call};
    }

    /** The rest of it when the body is a registry. */
    method FinishHydrate(call: nat, data: Registry)
      requires call in inFlight
      modifies this
      ensures View() == Do(old(View()), Succeed(call, data))
    {
      SetRegistry(data);
      SettleHydration();
      inFlight := inFlight - {call};
    }

    /** The rest of it when anything goes wrong. */
    method FailHydrate(call: nat, msg: Option<string>)
      requires call in inFlight
      modifies this
      ensures View() == Do(old(View()), Reject(call, msg))
    {
      if msg.Some? {
        registryError := msg;
      }
      SettleHydration();
      hydrationPromise := None;
      resolveHydration := None;
      inFlight := inFlight - {call};
    }

    method GetHydrationPromise() returns (p: nat)
      requires Inv(View())
      modifies this`promises, this`resolved
      ensures View() == Do(old(View()), Ask) && p < promises
      ensures p == Handed(old(View()))
    {
      if hydrationPromise.Some? {
        return hydrationPromise.value;
      }
      p := promises;
      promises := promises + 1;
      resolved := resolved + {p};
    }

    method SetCurrentClusterId(id: string)
      modifies this`currentClusterId
      ensures View() == Do(old(View()), Choose(id))
    {
      currentClusterId := Some(id);
    }
  }
}

/** The signing-key cache of the OIDC middleware: a TTL, a stale-grace window and two
    back-offs, used by concurrent calls that share one lock.  Time is one clock that never
    goes backwards; every `time.time()` samples it. */
module JwksCache {
  import opened Prelude

  type Time = real
  type Kid = string
  type Jwk = string
  type Index = map<Kid, Jwk>

  const KID_MISS_BACKOFF: Time := 30.0
  const STALE_GRACE: Time := 3600.0
  const STALE_REFRESH_BACKOFF: Time := 30.0

  /** How one `_refresh_jwks` ends: an index is installed, `_AuthError` is raised, or
      something else escapes (a body that is not JSON, say). */
  datatype Outcome = Installed(index: Index) | AuthFailed | Escaped

  datatype Reason = TtlExpired | KidMissing

  datatype Pc =
    | Waiting(kid: Kid)
    | Refreshing(kid: Kid, now: Time, reason: Reason)   // holds the lock
    | Returned(kid: Kid, now: Time, key: Option<Jwk>)
    | Raised(kid: Kid)

  datatype Install = Install(at: Time, index: Index)

  /** A TTL refresh made while stale keys were servable, and how it ended. */
  datatype Attempt = Attempt(at: Time, outcome: Option<Outcome>)

  datatype State = State(
    ttl: Time,
    clock: Time,
    index: Index,
    expiresAt: Time,
    lastKidMiss: Time,
    lastFailed: Time,
    lock: Option<nat>,
    tasks: seq<Pc>,
    // history
    installs: seq<Install>,
    kidMisses: seq<Time>,
    staleAttempts: seq<Attempt>)

  datatype Action =
    | Tick(d: Time)
    | Call(kid: Kid)
    | Enter(t: nat)
    | RefreshDone(t: nat, outcome: Outcome)

  function Init(ttl: Time, clock: Time): State {
    State(ttl, clock, map[], 0.0, 0.0, 0.0, None, [], [], [], [])
  }

  function Lookup(index: Index, kid: Kid): Option<Jwk> { if kid in index then Some(index[kid]) else None }

  predicate CanServeStale(s: State, now: Time) {
    s.index != map[] && now - s.expiresAt <= STALE_GRACE
  }

  predicate InRefreshBackoff(s: State, now: Time) {
    CanServeStale(s, now) && now - s.lastFailed < STALE_REFRESH_BACKOFF
  }

  predicate Enabled(s: State, a: Action) {
    match a
    case Tick(d) => d >= 0.0
    case Call(_) => true
    case Enter(t) => t < |s.tasks| && s.tasks[t].Waiting? && s.lock.None?
    case RefreshDone(t, _) => t < |s.tasks| && s.tasks[t].Refreshing?
  }

  /** The check before the lock. */
  function Called(s: State, kid: Kid): State {
    if kid in s.index && s.clock < s.expiresAt then
      s.(tasks := s.tasks + [Returned(kid, s.clock, Some(s.index[kid]))])
    else
      s.(tasks := s.tasks + [Waiting(kid)])
  }

  /** The checks under the lock, up to the refresh if there is one. */
  function Entered(s: State, t: nat): State
    requires Enabled(s, Enter(t))
  {
    var kid, now := s.tasks[t].kid, s.clock;
    if now >= s.expiresAt then
      if InRefreshBackoff(s, now) then
        s.(tasks := s.tasks[t := Returned(kid, now, Lookup(s.index, kid))])
      else
        s.(lock := Some(t), tasks := s.tasks[t := Refreshing(kid, now, TtlExpired)],
           staleAttempts := if CanServeStale(s, now) then s.staleAttempts + [Attempt(now, None)] else s.staleAttempts)
    else if kid !in s.index && now - s.lastKidMiss >= KID_MISS_BACKOFF then
      s.(lastKidMiss := now, kidMisses := s.kidMisses + [now], lock := Some(t),
         tasks := s.tasks[t := Refreshing(kid, now, KidMissing)])
    else
      s.(tasks := s.tasks[t := Returned(kid, now, Lookup(s.index, kid))])
  }

  /** Notes how the running stale attempt ended, if the refresh was one. */
  function Closed(s: State, now: Time, reason: Reason, outcome: Outcome): seq<Attempt> {
    var n := |s.staleAttempts|;
    if reason.TtlExpired? && CanServeStale(s, now) && n > 0 then
      s.staleAttempts[n - 1 := s.staleAttempts[n - 1].(outcome := Some(outcome))]
    else
      s.staleAttempts
  }

  /** The end of the refresh: install, fall back to stale keys, or raise. */
  function Refreshed(s: State, t: nat, outcome: Outcome): State
    requires Enabled(s, RefreshDone(t, outcome))
  {
    var Refreshing(kid, now, reason) := s.tasks[t];
    var s1 := s.(lock := None, staleAttempts := Closed(s, now, reason, outcome));
    match outcome
    case Installed(index) =>
      s1.(index := index, expiresAt := s.clock + s.ttl, installs := s.installs + [Install(s.clock, index)],
          tasks := s.tasks[t := Returned(kid, now, Lookup(index, kid))])
    case AuthFailed =>
      if reason.TtlExpired? && CanServeStale(s, now) then
        s1.(lastFailed := now, tasks := s.tasks[t := Returned(kid, now, Lookup(s.index, kid))])
      else
        s1.(tasks := s.tasks[t := Raised(kid)])
    case Escaped => s1.(tasks := s.tasks[t := Raised(kid)])
  }

  function Do(s: State, a: Action): State
    requires Enabled(s, a)
  {
    match a
    case Tick(d) => s.(clock := s.clock + d)
    case Call(kid) => Called(s, kid)
    case Enter(t) => Entered(s, t)
    case RefreshDone(t, outcome) => Refreshed(s, t, outcome)
  }

  // ----- invariant -----------------------------------------------------------

  predicate Locked(s: State) {
    && (forall t :: 0 <= t < |s.tasks| && s.tasks[t].Refreshing? ==> s.lock == Some(t) && s.tasks[t].now <= s.clock)
    && (s.lock.Some? ==> s.lock.value < |s.tasks| && s.tasks[s.lock.value].Refreshing?)
  }

  /** The cache holds the last installed index, and it expires one TTL after that. */
  predicate LastInstalled(s: State) {
    && s.ttl >= 0.0
    && if s.installs == [] then s.index == map[]
       else var last := s.installs[|s.installs| - 1];
            s.index == last.index && s.expiresAt == last.at + s.ttl && last.at <= s.clock
  }

  predicate KidMissesSpaced(s: State) {
    && Spaced(s.kidMisses, KID_MISS_BACKOFF)
    && (forall i :: 0 <= i < |s.kidMisses| ==> s.kidMisses[i] <= s.lastKidMiss)
  }

  predicate Spaced(times: seq<Time>, gap: Time) {
    forall i, j :: 0 <= i < j < |times| ==> times[j] - times[i] >= gap
  }

  /** The running stale attempt is the only one whose end is not known. */
  predicate AttemptsClosed(s: State) {
    && (forall i :: 0 <= i < |s.staleAttempts| - 1 ==> s.staleAttempts[i].outcome.Some?)
    && var running := s.lock.Some? && s.lock.value < |s.tasks| && s.tasks[s.lock.value].Refreshing?
                      && s.tasks[s.lock.value].reason.TtlExpired? && CanServeStale(s, s.tasks[s.lock.value].now);
       if running then
         && s.staleAttempts != []
         && s.staleAttempts[|s.staleAttempts| - 1] == Attempt(s.tasks[s.lock.value].now, None)
       else s.staleAttempts != [] ==> s.staleAttempts[|s.staleAttempts| - 1].outcome.Some?
  }

  /** How long an attempt keeps the next one away. */
  function Holdoff(ttl: Time, outcome: Outcome): Time {
    match outcome
    case Installed(_) => ttl
    case AuthFailed => STALE_REFRESH_BACKOFF
    case Escaped => 0.0
  }

  predicate AttemptsSpaced(s: State) { HeldOff(s.staleAttempts, s.ttl) }

  predicate HeldOff(attempts: seq<Attempt>, ttl: Time) {
    forall i, j :: 0 <= i < j < |attempts| && attempts[i].outcome.Some? ==>
      attempts[j].at - attempts[i].at >= Holdoff(ttl, attempts[i].outcome.value)
  }

  /** What the fields remember of closed attempts. */
  predicate AttemptsRemembered(s: State) {
    forall i :: 0 <= i < |s.staleAttempts| && s.staleAttempts[i].outcome.Some? ==>
      && s.staleAttempts[i].at <= s.clock
      && match s.staleAttempts[i].outcome.value
         case Installed(_) => s.staleAttempts[i].at + s.ttl <= s.expiresAt
         case AuthFailed => s.staleAttempts[i].at <= s.lastFailed
         case Escaped => true
  }

  predicate Inv(s: State) {
    Locked(s) && LastInstalled(s) && KidMissesSpaced(s) && AttemptsClosed(s) && AttemptsSpaced(s) && AttemptsRemembered(s)
  }

  lemma EnterKeepsFields(s: State, t: nat)
    requires Inv(s) && Enabled(s, Enter(t))
    ensures Locked(Entered(s, t)) && LastInstalled(Entered(s, t)) && KidMissesSpaced(Entered(s, t))
  {
    hide AttemptsClosed, AttemptsSpaced, AttemptsRemembered;
  }

  lemma EnterLeavesAttempts(s: State, t: nat)
    requires Inv(s) && Enabled(s, Enter(t))
    requires !(s.clock >= s.expiresAt && CanServeStale(s, s.clock) && !InRefreshBackoff(s, s.clock))
    ensures AttemptsClosed(Entered(s, t)) && AttemptsSpaced(Entered(s, t)) && AttemptsRemembered(Entered(s, t))
  {
    hide HeldOff;
    assert Entered(s, t).staleAttempts == s.staleAttempts;
  }

  lemma EnterKeepsInv(s: State, t: nat)
    requires Inv(s) && Enabled(s, Enter(t))
    ensures Inv(Entered(s, t))
  {
    EnterKeepsFields(s, t);
    if s.clock >= s.expiresAt && CanServeStale(s, s.clock) && !InRefreshBackoff(s, s.clock) {
      EnterSpacesAttempts(s, t);
    } else {
      EnterLeavesAttempts(s, t);
    }
    hide Locked, LastInstalled, KidMissesSpaced, AttemptsClosed, AttemptsSpaced, AttemptsRemembered, Entered;
  }

  /** A new stale attempt starts only after the previous one's hold-off. */
  lemma EnterSpacesAttempts(s: State, t: nat)
    requires Inv(s) && Enabled(s, Enter(t)) && s.clock >= s.expiresAt
    requires CanServeStale(s, s.clock) && !InRefreshBackoff(s, s.clock)
    ensures AttemptsClosed(Entered(s, t)) && AttemptsSpaced(Entered(s, t)) && AttemptsRemembered(Entered(s, t))
  {
  }

  lemma RefreshKeepsFields(s: State, t: nat, outcome: Outcome)
    requires Inv(s) && Enabled(s, RefreshDone(t, outcome))
    ensures var s' := Refreshed(s, t, outcome); Locked(s') && LastInstalled(s') && KidMissesSpaced(s')
  {
    hide AttemptsClosed, AttemptsSpaced, AttemptsRemembered, Closed;
  }

  /** The log of attempts after a refresh: its own entry, if it has one, is the last. */
  lemma RefreshCloses(s: State, t: nat, outcome: Outcome)
    requires Inv(s) && Enabled(s, RefreshDone(t, outcome))
    ensures var log := Refreshed(s, t, outcome).staleAttempts;
            && |log| == |s.staleAttempts| && (forall i :: 0 <= i < |log| ==> log[i].outcome.Some?)
            && (forall i :: 0 <= i < |log| - 1 ==> log[i] == s.staleAttempts[i])
            && (log == s.staleAttempts
                || (log != [] && log[|log| - 1] == Attempt(s.tasks[t].now, Some(outcome))
                    && s.tasks[t].reason.TtlExpired? && CanServeStale(s, s.tasks[t].now)))
  {
    hide LastInstalled, KidMissesSpaced, HeldOff, AttemptsRemembered;
  }

  lemma RefreshKeepsAttempts(s: State, t: nat, outcome: Outcome)
    requires Inv(s) && Enabled(s, RefreshDone(t, outcome))
    ensures var s' := Refreshed(s, t, outcome); AttemptsClosed(s') && AttemptsSpaced(s')
  {
    RefreshCloses(s, t, outcome);
    hide LastInstalled, KidMissesSpaced, AttemptsRemembered, Closed, CanServeStale;
  }

  lemma RefreshRemembers(s: State, t: nat, outcome: Outcome)
    requires Inv(s) && Enabled(s, RefreshDone(t, outcome))
    ensures AttemptsRemembered(Refreshed(s, t, outcome))
  {
    RefreshCloses(s, t, outcome);
    hide KidMissesSpaced, AttemptsClosed, HeldOff, Closed;
  }

  lemma RefreshKeepsInv(s: State, t: nat, outcome: Outcome)
    requires Inv(s) && Enabled(s, RefreshDone(t, outcome))
    ensures Inv(Refreshed(s, t, outcome))
  {
    hide Locked, LastInstalled, KidMissesSpaced, AttemptsClosed, AttemptsSpaced, AttemptsRemembered, Refreshed;
    RefreshKeepsFields(s, t, outcome);
    RefreshKeepsAttempts(s, t, outcome);
    RefreshRemembers(s, t, outcome);
  }

  lemma StepKeepsInv(s: State, a: Action)
    requires Inv(s) && Enabled(s, a)
    ensures Inv(Do(s, a))
  {
    match a
    case Tick(_) =>
    case Call(_) =>
    case Enter(t) => EnterKeepsInv(s, t);
    case RefreshDone(t, outcome) => RefreshKeepsInv(s, t, outcome);
  }

  // ----- whole runs ----------------------------------------------------------

  predicate CanRun(s: State, acts: seq<Action>)
    decreases |acts|
  {
    acts == [] || (Enabled(s, acts[0]) && CanRun(Do(s, acts[0]), acts[1..]))
  }

  function After(s: State, acts: seq<Action>): State
    requires CanRun(s, acts)
    decreases |acts|
  {
    if acts == [] then s else After(Do(s, acts[0]), acts[1..])
  }

  lemma {:induction false} RunKeepsInv(s: State, acts: seq<Action>)
    requires Inv(s) && CanRun(s, acts)
    ensures Inv(After(s, acts)) && After(s, acts).ttl == s.ttl
    decreases |acts|
  {
    if acts != [] {
      StepKeepsInv(s, acts[0]);
      RunKeepsInv(Do(s, acts[0]), acts[1..]);
    }
  }

  lemma Prepend(s: State, a: Action, acts: seq<Action>)
    requires Enabled(s, a) && CanRun(Do(s, a), acts)
    ensures CanRun(s, [a] + acts) && After(s, [a] + acts) == After(Do(s, a), acts)
  {
    assert ([a] + acts)[1..] == acts;
  }

  function CountIn(times: seq<Time>, a: Time, b: Time): nat {
    if times == [] then 0
    else
      var n := |times| - 1;
      CountIn(times[..n], a, b) + if a <= times[n] <= b then 1 else 0
  }

  lemma {:induction false} CountUpTo(times: seq<Time>, a: Time, b: Time, c: Time)
    requires b <= c && forall i :: 0 <= i < |times| ==> times[i] <= b
    ensures CountIn(times, a, b) == CountIn(times, a, c)
  {
    if times != [] {
      CountUpTo(times[..|times| - 1], a, b, c);
    }
  }

  /** The length of n times spaced by `gap`: n - 1 gaps. */
  function Gaps(gap: Time, n: nat): Time { if n <= 1 then 0.0 else gap + Gaps(gap, n - 1) }

  lemma {:induction false} GapsOf30(n: nat)
    requires n >= 1
    ensures Gaps(30.0, n) == 30.0 * ((n - 1) as real)
  {
    if n > 1 {
      GapsOf30(n - 1);
    }
  }

  /** n times at least `gap` apart need a window of n - 1 gaps. */
  lemma {:induction false} SpacedCount(times: seq<Time>, gap: Time, a: Time, b: Time)
    requires gap >= 0.0 && Spaced(times, gap) && a <= b
    ensures Gaps(gap, CountIn(times, a, b)) <= b - a
    decreases |times|
  {
    if times != [] {
      var n := |times| - 1;
      var last, front := times[n], times[..n];
      if a <= last <= b {
        if a <= last - gap {
          CountUpTo(front, a, last - gap, b);
          SpacedCount(front, gap, a, last - gap);
        } else {
          NoneBelow(front, a, b, last - gap);
        }
      } else {
        SpacedCount(front, gap, a, b);
      }
    }
  }

  lemma {:induction false} NoneBelow(times: seq<Time>, a: Time, b: Time, top: Time)
    requires top < a && forall i :: 0 <= i < |times| ==> times[i] <= top
    ensures CountIn(times, a, b) == 0
  {
    if times != [] {
      NoneBelow(times[..|times| - 1], a, b, top);
    }
  }

  /** Unknown key ids cause at most one refresh per 30 seconds, whatever the calls ask for. */
  lemma KidMissRate(ttl: Time, clock: Time, acts: seq<Action>, a: Time, b: Time)
    requires ttl >= 0.0 && CanRun(Init(ttl, clock), acts) && a <= b
    ensures var n := CountIn(After(Init(ttl, clock), acts).kidMisses, a, b);
            n >= 1 ==> KID_MISS_BACKOFF * ((n - 1) as real) <= b - a
  {
    RunKeepsInv(Init(ttl, clock), acts);
    var times := After(Init(ttl, clock), acts).kidMisses;
    SpacedCount(times, KID_MISS_BACKOFF, a, b);
    if CountIn(times, a, b) >= 1 {
      GapsOf30(CountIn(times, a, b));
    }
  }

  function Times(attempts: seq<Attempt>): seq<Time> {
    seq(|attempts|, i requires 0 <= i < |attempts| => attempts[i].at)
  }

  /** The stale attempts that failed with `_AuthError`. */
  function FailedTimes(attempts: seq<Attempt>): seq<Time> {
    if attempts == [] then []
    else
      var n := |attempts| - 1;
      FailedTimes(attempts[..n]) + if attempts[n].outcome == Some(AuthFailed) then [attempts[n].at] else []
  }

  predicate FailedAt(attempts: seq<Attempt>, i: nat, at: Time) {
    i < |attempts| && attempts[i].outcome == Some(AuthFailed) && attempts[i].at == at
  }

  lemma {:induction false} FailedTimeIsAttempt(attempts: seq<Attempt>, k: nat) returns (i: nat)
    requires k < |FailedTimes(attempts)|
    ensures FailedAt(attempts, i, FailedTimes(attempts)[k])
  {
    var n := |attempts| - 1;
    if k < |FailedTimes(attempts[..n])| {
      i := FailedTimeIsAttempt(attempts[..n], k);
    } else {
      i := n;
    }
  }

  lemma {:induction false} FailedTimesSpaced(attempts: seq<Attempt>, ttl: Time)
    requires HeldOff(attempts, ttl)
    ensures Spaced(FailedTimes(attempts), STALE_REFRESH_BACKOFF)
  {
    if attempts != [] {
      var n := |attempts| - 1;
      var front, before := attempts[..n], FailedTimes(attempts[..n]);
      FailedTimesSpaced(front, ttl);
      if attempts[n].outcome == Some(AuthFailed) {
        forall k | 0 <= k < |before| ensures attempts[n].at - before[k] >= STALE_REFRESH_BACKOFF {
          var i := FailedTimeIsAttempt(front, k);
          assert attempts[i] == front[i];
        }
      }
    }
  }

  /** Every stale attempt keeps the next one of any kind away for its hold-off: 30 seconds after
      an `_AuthError`, one TTL after an install. */
  lemma StaleAttemptHeldOff(ttl: Time, clock: Time, acts: seq<Action>, i: nat, j: nat)
    requires ttl >= 0.0 && CanRun(Init(ttl, clock), acts)
    requires i < j < |After(Init(ttl, clock), acts).staleAttempts|
    ensures var log := After(Init(ttl, clock), acts).staleAttempts;
            && log[i].outcome.Some?
            && log[j].at - log[i].at >= Holdoff(ttl, log[i].outcome.value)
            && (log[i].outcome == Some(AuthFailed) ==> log[j].at - log[i].at >= STALE_REFRESH_BACKOFF)
  {
    InitInv(ttl, clock);
    RunKeepsInv(Init(ttl, clock), acts);
  }

  /** While stale keys are servable, refreshes that fail with `_AuthError` come at most once per
      30 seconds, whatever else happens in the run. */
  lemma StaleAttemptRate(ttl: Time, clock: Time, acts: seq<Action>, a: Time, b: Time)
    requires ttl >= 0.0 && CanRun(Init(ttl, clock), acts) && a <= b
    ensures var n := CountIn(FailedTimes(After(Init(ttl, clock), acts).staleAttempts), a, b);
            n >= 1 ==> STALE_REFRESH_BACKOFF * ((n - 1) as real) <= b - a
  {
    var s := After(Init(ttl, clock), acts);
    assert HeldOff(s.staleAttempts, ttl) by {
      InitInv(ttl, clock);
      RunKeepsInv(Init(ttl, clock), acts);
    }
    hide HeldOff;
    FailedTimesSpaced(s.staleAttempts, ttl);
    SpacedCount(FailedTimes(s.staleAttempts), STALE_REFRESH_BACKOFF, a, b);
    if CountIn(FailedTimes(s.staleAttempts), a, b) >= 1 {
      GapsOf30(CountIn(FailedTimes(s.staleAttempts), a, b));
    }
  }

  predicate NothingEscaped(s: State) {
    forall i :: 0 <= i < |s.staleAttempts| && s.staleAttempts[i].outcome.Some? ==> !s.staleAttempts[i].outcome.value.Escaped?
  }

  function StaleGap(ttl: Time): Time { if ttl < STALE_REFRESH_BACKOFF then ttl else STALE_REFRESH_BACKOFF }

  lemma AttemptTimesSpaced(s: State)
    requires AttemptsClosed(s) && AttemptsSpaced(s) && NothingEscaped(s)
    ensures Spaced(Times(s.staleAttempts), StaleGap(s.ttl))
  {
    var log := s.staleAttempts;
    forall i, j | 0 <= i < j < |log| ensures Times(log)[j] - Times(log)[i] >= StaleGap(s.ttl) {
      assert log[i].outcome.Some?;
    }
  }

  /** The successful attempts included: where nothing but an `_AuthError` ever failed, all stale
      attempts together come at most once per min(TTL, 30 s). */
  lemma AllAttemptsRate(ttl: Time, clock: Time, acts: seq<Action>, a: Time, b: Time)
    requires ttl >= 0.0 && CanRun(Init(ttl, clock), acts) && a <= b
    requires NothingEscaped(After(Init(ttl, clock), acts))
    ensures Gaps(StaleGap(ttl), CountIn(Times(After(Init(ttl, clock), acts).staleAttempts), a, b)) <= b - a
  {
    var s := After(Init(ttl, clock), acts);
    assert Spaced(Times(s.staleAttempts), StaleGap(ttl)) by {
      RunKeepsInv(Init(ttl, clock), acts);
      AttemptTimesSpaced(s);
    }
    SpacedCount(Times(s.staleAttempts), StaleGap(ttl), a, b);
  }

  /** After a stale attempt that failed, the next call is held off exactly when the failure
      was an `_AuthError`: any other error leaves the back-off unarmed. */
  lemma BackoffIffAuthError(s: State, t: nat, outcome: Outcome, later: Time)
    requires Inv(s) && Enabled(s, RefreshDone(t, outcome)) && !outcome.Installed?
    requires s.tasks[t].reason.TtlExpired? && CanServeStale(s, s.tasks[t].now)
    requires s.tasks[t].now - s.lastFailed >= STALE_REFRESH_BACKOFF
    requires s.tasks[t].now <= later < s.tasks[t].now + STALE_REFRESH_BACKOFF
    requires later - s.expiresAt <= STALE_GRACE
    ensures InRefreshBackoff(Refreshed(s, t, outcome), later) <==> outcome.AuthFailed?
  {
  }

  /** Two refreshes at one instant, the first failing with something other than `_AuthError`. */
  lemma EscapeDefeatsBackoff(s: State, kid: Kid) returns (acts: seq<Action>)
    requires Inv(s) && s.lock.None? && kid !in s.index
    requires s.clock >= s.expiresAt && CanServeStale(s, s.clock) && !InRefreshBackoff(s, s.clock)
    ensures CanRun(s, acts)
    ensures var log, n := After(s, acts).staleAttempts, |s.staleAttempts|;
            |log| == n + 2 && log[n].at == log[n + 1].at == s.clock && log[n].outcome == Some(Escaped)
  {
    var t := |s.tasks|;
    var s1 := Do(s, Call(kid));
    var s2 := Do(s1, Enter(t));
    var s3 := Do(s2, RefreshDone(t, Escaped));
    var s4 := Do(s3, Call(kid));
    acts := [];
    Prepend(s4, Enter(t + 1), acts);
    acts := [Enter(t + 1)] + acts;
    Prepend(s3, Call(kid), acts);
    acts := [Call(kid)] + acts;
    Prepend(s2, RefreshDone(t, Escaped), acts);
    acts := [RefreshDone(t, Escaped)] + acts;
    Prepend(s1, Enter(t), acts);
    acts := [Enter(t)] + acts;
    Prepend(s, Call(kid), acts);
    acts := [Call(kid)] + acts;
  }

  /** The cache after its first key "a" was installed and one TTL went by. */
  function Expired(ttl: Time, start: Time): State {
    Init(ttl, start).(clock := start + ttl, index := map["a" := "k"], expiresAt := start + ttl,
                      installs := [Install(start, map["a" := "k"])], tasks := [Returned("a", start, Some("k"))])
  }

  lemma ReachExpired(ttl: Time, start: Time, rest: seq<Action>) returns (acts: seq<Action>)
    requires ttl >= 0.0 && start >= 0.0 && CanRun(Expired(ttl, start), rest)
    ensures CanRun(Init(ttl, start), acts) && After(Init(ttl, start), acts) == After(Expired(ttl, start), rest)
  {
    var installed := RefreshDone(0, Installed(map["a" := "k"]));
    var s1 := Do(Init(ttl, start), Call("a"));
    var s2 := Do(s1, Enter(0));
    var s3 := Do(s2, installed);
    assert Do(s3, Tick(ttl)) == Expired(ttl, start);
    hide After, Do;
    Prepend(s3, Tick(ttl), rest);
    acts := [Tick(ttl)] + rest;
    Prepend(s2, installed, acts);
    acts := [installed] + acts;
    Prepend(s1, Enter(0), acts);
    acts := [Enter(0)] + acts;
    Prepend(Init(ttl, start), Call("a"), acts);
    acts := [Call("a")] + acts;
  }

  /** Whatever the TTL, some run of the cache from its start, at any clock past the back-off,
      refreshes stale keys twice at one instant. */
  lemma BackoffDefeatedFromStart(ttl: Time, start: Time) returns (acts: seq<Action>)
    requires ttl >= 0.0 && start >= STALE_REFRESH_BACKOFF
    ensures CanRun(Init(ttl, start), acts)
    ensures var log := After(Init(ttl, start), acts).staleAttempts;
            |log| == 2 && log[0].at == log[1].at == start + ttl && log[0].outcome == Some(Escaped)
  {
    assert "a" in Expired(ttl, start).index;
    assert Inv(Expired(ttl, start));
    hide After, Do, Inv;
    var rest := EscapeDefeatsBackoff(Expired(ttl, start), "b");
    acts := ReachExpired(ttl, start, rest);
  }

  // ----- staleness -----------------------------------------------------------

  predicate Returns(s: State, a: Action, t: nat)
    requires Enabled(s, a)
  {
    && t < |Do(s, a).tasks| && Do(s, a).tasks[t].Returned? && Do(s, a).tasks[t].key.Some?
    && (t < |s.tasks| ==> !s.tasks[t].Returned?)
  }

  /** A returned key is in the most recently installed index, and the call sampled its time no
      later than one TTL plus the grace window after that install. */
  lemma KeyIsFresh(s: State, a: Action, t: nat)
    requires Inv(s) && Enabled(s, a) && Returns(s, a, t)
    ensures var s', pc := Do(s, a), Do(s, a).tasks[t];
            && s'.installs != []
            && var last := s'.installs[|s'.installs| - 1];
               && pc.kid in last.index && last.index[pc.kid] == pc.key.value
               && pc.now <= last.at + s.ttl + STALE_GRACE
               && (t < |s.tasks| ==> pc.kid == s.tasks[t].kid)
  {
    hide AttemptsClosed, AttemptsSpaced, AttemptsRemembered, KidMissesSpaced, Closed;
  }

  /** The same over whole runs: every key any call ever returns was in the index installed last
      before it, and was at most one TTL plus the grace window old. */
  lemma EveryKeyIsFresh(ttl: Time, clock: Time, acts: seq<Action>, a: Action, t: nat)
    requires ttl >= 0.0 && CanRun(Init(ttl, clock), acts)
    requires Enabled(After(Init(ttl, clock), acts), a) && Returns(After(Init(ttl, clock), acts), a, t)
    ensures var s' := Do(After(Init(ttl, clock), acts), a);
            && s'.installs != []
            && var pc, last := s'.tasks[t], s'.installs[|s'.installs| - 1];
               pc.kid in last.index && last.index[pc.kid] == pc.key.value && pc.now <= last.at + ttl + STALE_GRACE
  {
    hide Do, Inv, CanRun, After;
    InitInv(ttl, clock);
    RunKeepsInv(Init(ttl, clock), acts);
    KeyIsFresh(After(Init(ttl, clock), acts), a, t);
  }

  lemma InitInv(ttl: Time, clock: Time)
    requires ttl >= 0.0
    ensures Inv(Init(ttl, clock))
  {
  }

  /** A refresh ends in an exception exactly when it was not installed and either nothing stale
      may be served, or the refresh was for an unknown key id, or the error was not an `_AuthError`. */
  lemma RaisesIff(s: State, t: nat, outcome: Outcome)
    requires Enabled(s, RefreshDone(t, outcome))
    ensures Do(s, RefreshDone(t, outcome)).tasks[t].Raised? <==>
            !outcome.Installed?
            && (s.index == map[] || s.tasks[t].now > s.expiresAt + STALE_GRACE || s.tasks[t].reason.KidMissing? || outcome.Escaped?)
  {
  }

  /** During an outage a call for a cached key succeeds with that key until the grace window ends. */
  lemma OutageServesCachedKey(s: State, t: nat)
    requires Inv(s) && Enabled(s, Enter(t)) && s.tasks[t].kid in s.index
    requires s.clock <= s.expiresAt + STALE_GRACE
    ensures var s1 := Do(s, Enter(t));
            var s2 := if s1.tasks[t].Refreshing? then Do(s1, RefreshDone(t, AuthFailed)) else s1;
            s2.tasks[t] == Returned(s.tasks[t].kid, s.clock, Some(s.index[s.tasks[t].kid]))
            && s2.index == s.index && s2.lock == None
  {
  }

  // ----- what a call is answered, and when it refreshes ------------------------

  /** Call `t` is answered by this action. */
  predicate Answers(s: State, a: Action, t: nat)
    requires Enabled(s, a)
  {
    t < |Do(s, a).tasks| && Do(s, a).tasks[t].Returned? && (t < |s.tasks| ==> !s.tasks[t].Returned?)
  }

  /** The kids asked for so far, in order. */
  function KidsOf(acts: seq<Action>): seq<Kid> {
    if acts == [] then []
    else KidsOf(acts[..|acts| - 1]) + if acts[|acts| - 1].Call? then [acts[|acts| - 1].kid] else []
  }

  function Asked(tasks: seq<Pc>): seq<Kid> { seq(|tasks|, i requires 0 <= i < |tasks| => tasks[i].kid) }

  lemma StepAsks(s: State, a: Action)
    requires Enabled(s, a)
    ensures Asked(Do(s, a).tasks) == Asked(s.tasks) + if a.Call? then [a.kid] else []
  {
    hide Closed;
  }

  lemma {:induction false} RunSnoc(s: State, acts: seq<Action>)
    requires CanRun(s, acts) && acts != []
    ensures var n := |acts| - 1;
            CanRun(s, acts[..n]) && Enabled(After(s, acts[..n]), acts[n]) && After(s, acts) == Do(After(s, acts[..n]), acts[n])
    decreases |acts|
  {
    hide Do, Enabled;
    var n := |acts| - 1;
    if n > 0 {
      RunSnoc(Do(s, acts[0]), acts[1..]);
      assert acts[1..][..n - 1] == acts[..n][1..];
    }
  }

  lemma {:induction false} TasksAreCalls(ttl: Time, clock: Time, acts: seq<Action>)
    requires CanRun(Init(ttl, clock), acts)
    ensures Asked(After(Init(ttl, clock), acts).tasks) == KidsOf(acts)
    decreases |acts|
  {
    hide Do, Enabled;
    if acts != [] {
      var n := |acts| - 1;
      RunSnoc(Init(ttl, clock), acts);
      TasksAreCalls(ttl, clock, acts[..n]);
      StepAsks(After(Init(ttl, clock), acts[..n]), acts[n]);
    }
  }

  /** The call gets the key of its kid in the index it ends on, or nothing exactly when the kid is not
      there; after an install that is the new index, otherwise the one before. */
  lemma AnswerStep(s: State, a: Action, t: nat)
    requires Enabled(s, a) && Answers(s, a, t)
    ensures var s', pc := Do(s, a), Do(s, a).tasks[t];
            && (pc.key.Some? <==> pc.kid in s'.index)
            && (pc.key.Some? ==> pc.key.value == s'.index[pc.kid])
            && s'.index == if a.RefreshDone? && a.outcome.Installed? then a.outcome.index else s.index
  {
    hide Closed;
  }

  /** In any run: the t-th call ever made, when it is answered, gets the key of the kid it asked for in
      the index it ends on if that kid is there, and no key if and only if it is not. */
  lemma AnsweredIff(ttl: Time, clock: Time, acts: seq<Action>, a: Action, t: nat)
    requires CanRun(Init(ttl, clock), acts) && Enabled(After(Init(ttl, clock), acts), a)
    requires Answers(After(Init(ttl, clock), acts), a, t)
    ensures var s, asked := After(Init(ttl, clock), acts), KidsOf(acts) + if a.Call? then [a.kid] else [];
            var index := if a.RefreshDone? && a.outcome.Installed? then a.outcome.index else s.index;
            && t < |asked|
            && Do(s, a).tasks[t].key == if asked[t] in index then Some(index[asked[t]]) else None
  {
    var s := After(Init(ttl, clock), acts);
    hide CanRun, After, Do, Enabled, Answers;
    TasksAreCalls(ttl, clock, acts);
    StepAsks(s, a);
    assert Answers(s, a, t);
    AnswerStep(s, a, t);
    AnsweredIsTask(s, a, t);
    assert Asked(Do(s, a).tasks)[t] == Do(s, a).tasks[t].kid;
  }

  lemma AnsweredIsTask(s: State, a: Action, t: nat)
    requires Enabled(s, a) && Answers(s, a, t)
    ensures t < |Do(s, a).tasks| && Do(s, a).tasks[t].Returned?
  {
  }

  function LastOf(times: seq<Time>): Time { if times == [] then 0.0 else times[|times| - 1] }

  /** When the current index runs out; the empty one already has. */
  function Expiry(s: State): Time { if s.installs == [] then 0.0 else s.installs[|s.installs| - 1].at + s.ttl }

  /** The fields are the history: the expiry follows the last install, the two back-off marks are the
      last unknown-kid refresh and the last failed attempt on stale keys. */
  predicate Noted(s: State) {
    s.expiresAt == Expiry(s) && s.lastKidMiss == LastOf(s.kidMisses) && s.lastFailed == LastOf(FailedTimes(s.staleAttempts))
  }

  lemma FailedSnoc(attempts: seq<Attempt>, x: Attempt)
    ensures FailedTimes(attempts + [x]) == FailedTimes(attempts) + if x.outcome == Some(AuthFailed) then [x.at] else []
  {
    assert (attempts + [x])[..|attempts|] == attempts;
  }

  lemma EnterNoted(s: State, t: nat)
    requires Noted(s) && Enabled(s, Enter(t))
    ensures Noted(Entered(s, t))
  {
    FailedSnoc(s.staleAttempts, Attempt(s.clock, None));
    hide FailedTimes;
  }

  lemma RefreshNoted(s: State, t: nat, outcome: Outcome)
    requires Inv(s) && Noted(s) && Enabled(s, RefreshDone(t, outcome))
    ensures Noted(Refreshed(s, t, outcome))
  {
    var log, n := s.staleAttempts, |s.staleAttempts|;
    var now := s.tasks[t].now;
    hide LastInstalled, KidMissesSpaced, HeldOff, AttemptsRemembered;
    if s.tasks[t].reason.TtlExpired? && CanServeStale(s, now) {
      assert log == log[..n - 1] + [Attempt(now, None)];
      assert Refreshed(s, t, outcome).staleAttempts == log[..n - 1] + [Attempt(now, Some(outcome))];
      FailedSnoc(log[..n - 1], Attempt(now, None));
      FailedSnoc(log[..n - 1], Attempt(now, Some(outcome)));
    }
    hide FailedTimes;
  }

  lemma {:induction false} RunNoted(ttl: Time, clock: Time, acts: seq<Action>)
    requires ttl >= 0.0 && CanRun(Init(ttl, clock), acts)
    ensures Inv(After(Init(ttl, clock), acts)) && Noted(After(Init(ttl, clock), acts)) && After(Init(ttl, clock), acts).ttl == ttl
    decreases |acts|
  {
    InitInv(ttl, clock);
    RunKeepsInv(Init(ttl, clock), acts);
    if acts != [] {
      var n := |acts| - 1;
      RunSnoc(Init(ttl, clock), acts);
      RunNoted(ttl, clock, acts[..n]);
      hide Inv, CanRun, After, FailedTimes;
      match acts[n]
      case Enter(t) => EnterNoted(After(Init(ttl, clock), acts[..n]), t);
      case RefreshDone(t, outcome) => RefreshNoted(After(Init(ttl, clock), acts[..n]), t, outcome);
      case _ =>
    }
  }

  /** In any run, told from the history alone: a call is answered without the lock if and only if its
      kid is in the index last installed and one TTL has not passed since; and under the lock it
      refreshes if and only if the TTL has passed and there is nothing stale to serve, or the grace
      hour is over, or the last failed attempt is 30 seconds old; or the TTL has not passed, its kid
      is unknown, and the last unknown-kid refresh is 30 seconds old. */
  lemma RefreshesIff(ttl: Time, clock: Time, acts: seq<Action>, kid: Kid, t: nat)
    requires ttl >= 0.0 && CanRun(Init(ttl, clock), acts)
    ensures var s := After(Init(ttl, clock), acts);
            var n, now, expiry := |s.tasks|, s.clock, Expiry(s);
            && (Do(s, Call(kid)).tasks[n].Returned? <==> kid in s.index && now < expiry)
            && (Enabled(s, Enter(t)) ==>
                  (Do(s, Enter(t)).tasks[t].Refreshing? <==>
                   if now >= expiry then s.index == map[] || now - expiry > 3600.0 || now - LastOf(FailedTimes(s.staleAttempts)) >= 30.0
                   else s.tasks[t].kid !in s.index && now - LastOf(s.kidMisses) >= 30.0))
            && s.index == if s.installs == [] then map[] else s.installs[|s.installs| - 1].index
  {
    RunNoted(ttl, clock, acts);
    hide CanRun, After, FailedTimes, Locked, AttemptsClosed, AttemptsSpaced, AttemptsRemembered, KidMissesSpaced;
  }

  /** The middleware's cache fields; `clock` and the suspended calls are the world around it. */
  class OIDCAuthMiddleware {
    const ttl: Time
    var clock: Time
    var jwksByKid: Index
    var expiresAt: Time
    var lastKidMissRefreshAt: Time
    var lastFailedRefreshAt: Time
    var lock: Option<nat>
    var tasks: seq<Pc>
    ghost var installs: seq<Install>
    ghost var kidMisses: seq<Time>
    ghost var staleAttempts: seq<Attempt>

    ghost function View(): State
      reads this
    {
      State(ttl, clock, jwksByKid, expiresAt, lastKidMissRefreshAt, lastFailedRefreshAt, lock, tasks,
            installs, kidMisses, staleAttempts)
    }

    constructor (ttl: Time, clock: Time)
      ensures View() == Init(ttl, clock)
    {
      this.ttl, this.clock := ttl, clock;
      jwksByKid, expiresAt, lastKidMissRefreshAt, lastFailedRefreshAt := map[], 0.0, 0.0, 0.0;
      lock, tasks := None, [];
      installs, kidMisses, staleAttempts := [], [], [];
    }

    /** `_key_for_kid` up to the lock. */
    method KeyForKid(kid: Kid)
      modifies this`tasks
      ensures View() == Do(old(View()), Call(kid))
    {
      var now := clock;
      if kid in jwksByKid && now < expiresAt {
        tasks := tasks + [Returned(kid, now, Some(jwksByKid[kid]))];
        return;
      }
      tasks := tasks + [Waiting(kid)];
    }

    predicate ServesStale(now: Time)
      reads this
    {
      jwksByKid != map[] && now - expiresAt <= STALE_GRACE
    }

    /** The locked section up to the refresh. */
    method EnterLocked(t: nat)
      requires Enabled(View(), Enter(t))
      modifies this
      ensures View() == Do(old(View()), Enter(t))
    {
      var kid, now := tasks[t].kid, clock;
      var ttlExpired, kidMissing := now >= expiresAt, kid !in jwksByKid;
      if ttlExpired {
        var inRefreshBackoff := ServesStale(now) && now - lastFailedRefreshAt < STALE_REFRESH_BACKOFF;
        if !inRefreshBackoff {
          if ServesStale(now) {
            staleAttempts := staleAttempts + [Attempt(now, None)];
          }
          lock := Some(t);
          tasks := tasks[t := Refreshing(kid, now, TtlExpired)];
          return;
        }
      } else if kidMissing && now - lastKidMissRefreshAt >= KID_MISS_BACKOFF {
        lastKidMissRefreshAt := now;
        kidMisses := kidMisses + [now];
        lock := Some(t);
        tasks := tasks[t := Refreshing(kid, now, KidMissing)];
        return;
      }
      tasks := tasks[t := Returned(kid, now, Lookup(jwksByKid, kid))];
    }

    /** The refresh has ended: the rest of the locked section. */
    method FinishRefresh(t: nat, outcome: Outcome)
      requires Enabled(View(), RefreshDone(t, outcome))
      modifies this
      ensures View() == Do(old(View()), RefreshDone(t, outcome))
      ensures outcome.Installed? ==> jwksByKid == outcome.index
      ensures tasks[t].Returned? ==> tasks[t].key == if old(tasks)[t].kid in jwksByKid then Some(jwksByKid[old(tasks)[t].kid]) else None
    {
      var kid, now, reason := tasks[t].kid, tasks[t].now, tasks[t].reason;
      staleAttempts := Closed(View(), now, reason, outcome);
      lock := None;
      if outcome.Installed? {
        jwksByKid := outcome.index;
        expiresAt := clock + ttl;
        installs := installs + [Install(clock, outcome.index)];
      } else if outcome.AuthFailed? && reason.TtlExpired? && ServesStale(now) {
        lastFailedRefreshAt := now;
      } else {
        tasks := tasks[t := Raised(kid)];
        return;
      }
      tasks := tasks[t := Returned(kid, now, Lookup(jwksByKid, kid))];
    }
  }
}

/** Concurrent `update_connection` calls on one stored connection.  A call holds the write lock
    from BEGIN to COMMIT and awaits the database at every statement; readers share its
    connection, so they see its uncommitted write. */
module ConnectionUpdates {
  import opened Prelude
  import opened Profiles
  import Passwords

  datatype Pc =
    | Waiting(u: Update)
    | Begun(u: Update)
    | Merged(u: Update, updated: Profile)
    | Written(u: Update, updated: Profile)
    | Done(u: Update, updated: Profile)
    | Failed(u: Update)

  datatype State = State(
    durable: Row,
    working: Row,              // what this connection sees; equal to `durable` outside a transaction
    lock: Option<nat>,
    tasks: seq<Pc>,
    // history
    acquired: seq<nat>,        // the calls in the order they got the lock
    committed: seq<nat>)       // and in the order they committed

  datatype Action =
    | Call(u: Update)
    | Begin(t: nat)
    | Select(t: nat)
    | WriteRow(t: nat, nonce: nat)
    | Commit(t: nat)
    | Fail(t: nat)             // any exception after BEGIN: rollback

  predicate Critical(pc: Pc) { pc.Begun? || pc.Merged? || pc.Written? }

  predicate Enabled(s: State, a: Action) {
    match a
    case Call(_) => true
    case Begin(t) => t < |s.tasks| && s.tasks[t].Waiting? && s.lock.None?
    case Select(t) => t < |s.tasks| && s.tasks[t].Begun?
    case WriteRow(t, _) => t < |s.tasks| && s.tasks[t].Merged? && Password in s.tasks[t].updated.fields
    case Commit(t) => t < |s.tasks| && s.tasks[t].Written?
    case Fail(t) => t < |s.tasks| && Critical(s.tasks[t])
  }

  function RolledBack(s: State, t: nat): State
    requires t < |s.tasks|
  {
    s.(working := s.durable, lock := None, tasks := s.tasks[t := Failed(s.tasks[t].u)])
  }

  function Do(c: Passwords.Cipher, s: State, a: Action): State
    requires Enabled(s, a)
  {
    match a
    case Call(u) => s.(tasks := s.tasks + [Waiting(u)])
    case Begin(t) => s.(lock := Some(t), acquired := s.acquired + [t], tasks := s.tasks[t := Begun(s.tasks[t].u)])
    case Select(t) =>
      var u := s.tasks[t].u;
      (match ProfileOf(c, s.working)
       case None => RolledBack(s, t)
       case Some(existing) =>
         match BuildMerged(existing, u.data, u.now)
         case None => RolledBack(s, t)
         case Some(updated) => s.(tasks := s.tasks[t := Merged(u, updated)]))
    case WriteRow(t, nonce) =>
      s.(working := RowOf(c, s.tasks[t].updated, nonce), tasks := s.tasks[t := Written(s.tasks[t].u, s.tasks[t].updated)])
    case Commit(t) =>
      s.(durable := s.working, lock := None, committed := s.committed + [t],
         tasks := s.tasks[t := Done(s.tasks[t].u, s.tasks[t].updated)])
    case Fail(t) => RolledBack(s, t)
  }

  // ----- which calls have committed --------------------------------------------

  /** The calls of a list that are done, in its order. */
  function DoneOf(tasks: seq<Pc>, order: seq<nat>): seq<nat> {
    if order == [] then []
    else
      var t := order[|order| - 1];
      DoneOf(tasks, order[..|order| - 1]) + if t < |tasks| && tasks[t].Done? then [t] else []
  }

  lemma {:induction false} DoneOfFrame(tasks: seq<Pc>, tasks': seq<Pc>, order: seq<nat>)
    requires |tasks| <= |tasks'|
    requires forall i :: 0 <= i < |order| ==> order[i] < |tasks| && (tasks[order[i]].Done? <==> tasks'[order[i]].Done?)
    ensures DoneOf(tasks, order) == DoneOf(tasks', order)
  {
    if order != [] {
      DoneOfFrame(tasks, tasks', order[..|order| - 1]);
    }
  }

  /** A call is in the lock order once it is past waiting, and only the last of the order may
      still be inside; the committed calls are those of the order that are done. */
  predicate Ordered(s: State) {
    && Distinct(s.acquired)
    && (forall i :: 0 <= i < |s.acquired| ==> s.acquired[i] < |s.tasks| && !s.tasks[s.acquired[i]].Waiting?)
    && (forall t :: 0 <= t < |s.tasks| && !s.tasks[t].Waiting? ==> t in s.acquired)
    && (s.lock.Some? ==> s.acquired != [] && s.acquired[|s.acquired| - 1] == s.lock.value)
    && s.committed == DoneOf(s.tasks, s.acquired)
  }

  predicate Locked(s: State) {
    && (forall t :: 0 <= t < |s.tasks| ==> (Critical(s.tasks[t]) <==> s.lock == Some(t)))
    && (s.lock.Some? ==> s.lock.value < |s.tasks|)
  }

  predicate InTasks(tasks: seq<Pc>, order: seq<nat>) { forall i :: 0 <= i < |order| ==> order[i] < |tasks| }

  /** The updates of the committed calls. */
  function Updates(tasks: seq<Pc>, order: seq<nat>): seq<Update>
    requires InTasks(tasks, order)
  {
    seq(|order|, i requires 0 <= i < |order| => tasks[order[i]].u)
  }

  /** Every committed call returns the fold up to its own commit. */
  predicate Results(p: Profile, tasks: seq<Pc>, order: seq<nat>) {
    InTasks(tasks, order)
    && forall k :: 0 <= k < |order| ==>
         tasks[order[k]].Done? && tasks[order[k]].updated == Fold(p, Updates(tasks, order)[..k + 1])
  }

  /** A row that reads back as the fold of the committed updates. */
  predicate FoldedRow(c: Passwords.Cipher, p: Profile, tasks: seq<Pc>, order: seq<nat>, row: Row) {
    && Results(p, tasks, order)
    && AllAccepted(p, Updates(tasks, order))
    && ProfileOf(c, row) == Some(Fold(p, Updates(tasks, order)))
  }

  /** The stored row is the fold of the committed updates, and the call inside the transaction
      is about to add exactly its own. */
  predicate Serial(c: Passwords.Cipher, p: Profile, s: State) {
    && FoldedRow(c, p, s.tasks, s.committed, s.durable)
    && (s.lock.Some? && s.lock.value < |s.tasks| ==>
          Inside(c, Fold(p, Updates(s.tasks, s.committed)), s.durable, s.working, s.tasks[s.lock.value]))
    && (s.lock.None? ==> s.working == s.durable)
  }

  /** What the call holding the lock has made of the committed profile. */
  predicate Inside(c: Passwords.Cipher, now: Profile, durable: Row, working: Row, pc: Pc) {
    match pc
    case Begun(_) => working == durable
    case Merged(u, updated) => working == durable && BuildMerged(now, u.data, u.now) == Some(updated)
    case Written(u, updated) => ProfileOf(c, working) == Some(updated) && BuildMerged(now, u.data, u.now) == Some(updated)
    case _ => true
  }

  lemma FoldOneMore(p: Profile, us: seq<Update>, u: Update)
    requires AllAccepted(p, us) && BuildMerged(Fold(p, us), u.data, u.now).Some?
    ensures AllAccepted(p, us + [u])
    ensures Some(Fold(p, us + [u])) == BuildMerged(Fold(p, us), u.data, u.now)
  {
    assert (us + [u])[..|us|] == us;
  }

  /** A merged profile can be stored, and reads back as itself. */
  lemma MergedStores(c: Passwords.Cipher, existing: Profile, u: Update, nonce: nat)
    requires Passwords.Sound(c) && BuildMerged(existing, u.data, u.now).Some?
    ensures var updated := BuildMerged(existing, u.data, u.now).value;
            Password in updated.fields && ProfileOf(c, RowOf(c, updated, nonce)) == Some(updated)
  {
    var updated := BuildMerged(existing, u.data, u.now).value;
    ConstructIsConstructed(existing.id, existing.fields + u.data, existing.createdAt, u.now);
    RowRoundTrip(c, updated, nonce);
  }

  // ----- every step keeps the order and the fold ----------------------------------

  /** A step of call `t` that neither starts nor ends it. */
  predicate Moved(s: State, s': State, t: nat) {
    && t < |s.tasks| == |s'.tasks| && s.lock == Some(t)
    && s'.tasks == s.tasks[t := s'.tasks[t]] && s'.tasks[t].u == s.tasks[t].u && !s'.tasks[t].Waiting?
    && s'.acquired == s.acquired
  }

  lemma DoneKept(s: State, s': State, t: nat)
    requires Ordered(s) && Locked(s) && Moved(s, s', t)
    ensures DoneOf(s'.tasks, s'.acquired) == DoneOf(s.tasks, s.acquired) + if s'.tasks[t].Done? then [t] else []
  {
    var n := |s.acquired| - 1;
    var front := s.acquired[..n];
    assert forall i :: 0 <= i < n ==> s.acquired[i] != t && front[i] == s.acquired[i];
    DoneOfFrame(s.tasks, s'.tasks, front);
    hide DoneOf;
    LastOf(s.tasks, s.acquired);
    LastOf(s'.tasks, s.acquired);
    assert DoneOf(s.tasks, front) + [] == DoneOf(s.tasks, front);
  }

  lemma LockKept(s: State, s': State, t: nat)
    requires Locked(s) && Moved(s, s', t)
    requires s'.lock == (if Critical(s'.tasks[t]) then s.lock else None)
    ensures Locked(s')
  {
  }

  lemma AcquiredKept(s: State, s': State, t: nat)
    requires Ordered(s) && Moved(s, s', t)
    ensures forall i :: 0 <= i < |s'.acquired| ==> s'.acquired[i] < |s'.tasks| && !s'.tasks[s'.acquired[i]].Waiting?
    ensures forall x :: 0 <= x < |s'.tasks| && !s'.tasks[x].Waiting? ==> x in s'.acquired
    ensures s.acquired != [] && s.acquired[|s.acquired| - 1] == t
  {
    hide DoneOf;
    assert t == s.acquired[|s.acquired| - 1];
    forall x | 0 <= x < |s'.tasks| && !s'.tasks[x].Waiting? ensures x in s'.acquired {
      assert x != t ==> s'.tasks[x] == s.tasks[x];
    }
  }

  lemma HolderStays(s: State, s': State, t: nat)
    requires Moved(s, s', t) && s'.lock == (if Critical(s'.tasks[t]) then s.lock else None)
    ensures s'.lock.Some? ==> s'.lock.value == t
  {
  }

  lemma OrderKept(s: State, s': State, t: nat)
    requires Ordered(s) && Locked(s) && Moved(s, s', t)
    requires s'.committed == if s'.tasks[t].Done? then s.committed + [t] else s.committed
    requires s'.lock == (if Critical(s'.tasks[t]) then s.lock else None)
    ensures Ordered(s') && Locked(s')
  {
    hide DoneOf, Locked, Critical;
    DoneKept(s, s', t);
    LockKept(s, s', t);
    AcquiredKept(s, s', t);
    HolderStays(s, s', t);
    assert s.committed + [] == s.committed;
  }

  lemma LastOf(tasks: seq<Pc>, order: seq<nat>)
    requires order != []
    ensures var t := order[|order| - 1];
            DoneOf(tasks, order) == DoneOf(tasks, order[..|order| - 1]) + if t < |tasks| && tasks[t].Done? then [t] else []
  {
  }

  lemma {:induction false} DoneAreDone(tasks: seq<Pc>, order: seq<nat>)
    ensures InTasks(tasks, DoneOf(tasks, order))
    ensures forall i :: 0 <= i < |DoneOf(tasks, order)| ==> tasks[DoneOf(tasks, order)[i]].Done?
  {
    if order != [] {
      DoneAreDone(tasks, order[..|order| - 1]);
    }
  }

  /** A step that changes no committed call's entry keeps the results and the updates. */
  lemma ResultsFrame(p: Profile, tasks: seq<Pc>, tasks': seq<Pc>, order: seq<nat>)
    requires Results(p, tasks, order) && |tasks| <= |tasks'|
    requires forall i :: 0 <= i < |order| ==> tasks'[order[i]] == tasks[order[i]]
    ensures Results(p, tasks', order) && Updates(tasks', order) == Updates(tasks, order)
  {
    hide Fold;
    assert Updates(tasks', order) == Updates(tasks, order);
  }

  lemma CallKeepsSerial(c: Passwords.Cipher, p: Profile, s: State, u: Update)
    requires Locked(s) && Ordered(s) && Serial(c, p, s)
    ensures var s' := Do(c, s, Call(u)); Locked(s') && Ordered(s') && Serial(c, p, s')
  {
    hide Fold, AllAccepted, BuildMerged, ProfileOf, FoldedRow, Updates, Inside;
    var s' := Do(c, s, Call(u));
    DoneOfFrame(s.tasks, s'.tasks, s.acquired);
    DoneAreDone(s.tasks, s.acquired);
    FoldedIn(c, p, s.tasks, s.committed, s.durable);
    FoldedFrame(c, p, s.tasks, s'.tasks, s.committed, s.durable);
  }

  /** The lock order and the tasks when waiting call `t` gets the lock. */
  lemma BeginDone(tasks: seq<Pc>, acquired: seq<nat>, t: nat)
    requires InTasks(tasks, acquired) && t < |tasks| && tasks[t].Waiting? && t !in acquired
    ensures DoneOf(tasks[t := Begun(tasks[t].u)], acquired + [t]) == DoneOf(tasks, acquired)
  {
    var tasks' := tasks[t := Begun(tasks[t].u)];
    assert forall i :: 0 <= i < |acquired| ==> acquired[i] in acquired;
    DoneOfFrame(tasks, tasks', acquired);
    hide DoneOf;
    LastOf(tasks', acquired + [t]);
    assert (acquired + [t])[..|acquired|] == acquired;
  }

  lemma BeginAcquired(tasks: seq<Pc>, acquired: seq<nat>, t: nat)
    requires t < |tasks| && tasks[t].Waiting? && Distinct(acquired)
    requires forall i :: 0 <= i < |acquired| ==> acquired[i] < |tasks| && !tasks[acquired[i]].Waiting?
    requires forall x :: 0 <= x < |tasks| && !tasks[x].Waiting? ==> x in acquired
    ensures var tasks', acquired' := tasks[t := Begun(tasks[t].u)], acquired + [t];
            && InTasks(tasks, acquired) && t !in acquired && Distinct(acquired')
            && (forall i :: 0 <= i < |acquired'| ==> acquired'[i] < |tasks'| && !tasks'[acquired'[i]].Waiting?)
            && (forall x :: 0 <= x < |tasks'| && !tasks'[x].Waiting? ==> x in acquired')
  {
    var tasks', acquired' := tasks[t := Begun(tasks[t].u)], acquired + [t];
    forall x | 0 <= x < |tasks'| && !tasks'[x].Waiting? ensures x in acquired' {
      assert acquired'[|acquired|] == t;
      assert x != t ==> x in acquired;
    }
  }

  lemma BeginLocks(s: State, t: nat)
    requires Locked(s) && s.lock.None? && t < |s.tasks|
    ensures Locked(s.(lock := Some(t), acquired := s.acquired + [t], tasks := s.tasks[t := Begun(s.tasks[t].u)]))
  {
  }

  lemma BeginKeepsOrder(c: Passwords.Cipher, s: State, t: nat)
    requires Locked(s) && Ordered(s) && Enabled(s, Begin(t))
    ensures Locked(Do(c, s, Begin(t))) && Ordered(Do(c, s, Begin(t)))
  {
    hide Locked, InTasks, DoneOf, RolledBack, ProfileOf, BuildMerged, RowOf;
    BeginLocks(s, t);
    BeginAcquired(s.tasks, s.acquired, t);
    BeginDone(s.tasks, s.acquired, t);
  }

  lemma BeginKeepsSerial(c: Passwords.Cipher, p: Profile, s: State, t: nat)
    requires Locked(s) && Ordered(s) && Serial(c, p, s) && Enabled(s, Begin(t))
    ensures var s' := Do(c, s, Begin(t)); Locked(s') && Ordered(s') && Serial(c, p, s')
  {
    BeginKeepsOrder(c, s, t);
    DoneAreDone(s.tasks, s.acquired);
    hide Fold, AllAccepted, BuildMerged, ProfileOf, FoldedRow, Updates, DoneOf;
    FoldedIn(c, p, s.tasks, s.committed, s.durable);
    FoldedFrame(c, p, s.tasks, Do(c, s, Begin(t)).tasks, s.committed, s.durable);
  }

  /** A step inside the transaction that commits nothing. */
  lemma InsideKeepsSerial(c: Passwords.Cipher, p: Profile, s: State, s': State, t: nat)
    requires Locked(s) && Ordered(s) && Serial(c, p, s) && Moved(s, s', t)
    requires !s'.tasks[t].Done? && s'.committed == s.committed && s'.durable == s.durable
    requires s'.lock == (if Critical(s'.tasks[t]) then s.lock else None)
    requires s'.lock.None? ==> s'.working == s.durable
    requires InTasks(s.tasks, s.committed)
    requires s'.lock.Some? ==> Inside(c, Fold(p, Updates(s.tasks, s.committed)), s.durable, s'.working, s'.tasks[t])
    ensures Locked(s') && Ordered(s') && Serial(c, p, s')
  {
    OrderKept(s, s', t);
    CommittedNotHolder(s, t);
    hide Locked, Ordered, Fold, AllAccepted, BuildMerged, ProfileOf, FoldedRow, Inside, Updates, Critical;
    FoldedIn(c, p, s.tasks, s.committed, s.durable);
    FoldedFrame(c, p, s.tasks, s'.tasks, s.committed, s.durable);
  }

  lemma CommittedNotHolder(s: State, t: nat)
    requires Locked(s) && Ordered(s) && s.lock == Some(t)
    ensures forall i :: 0 <= i < |s.committed| ==> s.committed[i] != t
  {
    DoneAreDone(s.tasks, s.acquired);
  }

  lemma SelectKeepsSerial(c: Passwords.Cipher, p: Profile, s: State, t: nat)
    requires Locked(s) && Ordered(s) && Serial(c, p, s) && Enabled(s, Select(t))
    ensures var s' := Do(c, s, Select(t)); Locked(s') && Ordered(s') && Serial(c, p, s')
  {
    hide Fold, AllAccepted, BuildMerged, ProfileOf, Ordered, Updates;
    InsideKeepsSerial(c, p, s, Do(c, s, Select(t)), t);
  }

  lemma WriteKeepsSerial(c: Passwords.Cipher, p: Profile, s: State, t: nat, nonce: nat)
    requires Passwords.Sound(c) && Locked(s) && Ordered(s) && Serial(c, p, s) && Enabled(s, WriteRow(t, nonce))
    ensures var s' := Do(c, s, WriteRow(t, nonce)); Locked(s') && Ordered(s') && Serial(c, p, s')
  {
    hide Fold, AllAccepted, BuildMerged, ProfileOf, RowOf, Ordered, Updates;
    MergedStores(c, Fold(p, Updates(s.tasks, s.committed)), s.tasks[t].u, nonce);
    InsideKeepsSerial(c, p, s, Do(c, s, WriteRow(t, nonce)), t);
  }

  lemma FailKeepsSerial(c: Passwords.Cipher, p: Profile, s: State, t: nat)
    requires Locked(s) && Ordered(s) && Serial(c, p, s) && Enabled(s, Fail(t))
    ensures var s' := Do(c, s, Fail(t)); Locked(s') && Ordered(s') && Serial(c, p, s')
  {
    hide Fold, AllAccepted, BuildMerged, ProfileOf, Ordered, Updates;
    InsideKeepsSerial(c, p, s, Do(c, s, Fail(t)), t);
  }

  /** The committing call's result is the fold up to its own update. */
  lemma ResultsGrow(p: Profile, tasks: seq<Pc>, tasks': seq<Pc>, order: seq<nat>, t: nat)
    requires Results(p, tasks, order) && t < |tasks| == |tasks'| && tasks'[t].Done? && tasks'[t].u == tasks[t].u
    requires forall i :: 0 <= i < |order| ==> tasks'[order[i]] == tasks[order[i]]
    requires tasks'[t].updated == Fold(p, Updates(tasks, order) + [tasks[t].u])
    ensures Results(p, tasks', order + [t]) && Updates(tasks', order + [t]) == Updates(tasks, order) + [tasks[t].u]
  {
    hide Fold;
    var us, us' := Updates(tasks, order), Updates(tasks', order + [t]);
    assert us' == us + [tasks[t].u];
    forall k | 0 <= k < |order| + 1
      ensures var x := (order + [t])[k]; tasks'[x].Done? && tasks'[x].updated == Fold(p, us'[..k + 1])
    {
      if k < |order| {
        assert us'[..k + 1] == us[..k + 1];
      } else {
        assert us'[..k + 1] == us';
      }
    }
  }

  lemma CommitOrder(c: Passwords.Cipher, s: State, t: nat)
    requires Locked(s) && Ordered(s) && Enabled(s, Commit(t))
    ensures s.lock == Some(t) && Locked(Do(c, s, Commit(t))) && Ordered(Do(c, s, Commit(t)))
  {
    hide Ordered;
    OrderKept(s, Do(c, s, Commit(t)), t);
  }

  lemma CommitKeepsSerial(c: Passwords.Cipher, p: Profile, s: State, t: nat)
    requires Locked(s) && Ordered(s) && Serial(c, p, s) && Enabled(s, Commit(t))
    ensures var s' := Do(c, s, Commit(t)); Locked(s') && Ordered(s') && Serial(c, p, s')
  {
    hide Locked, Ordered, Serial, Do;
    CommitOrder(c, s, t);
    CommittedNotHolder(s, t);
    CommitSerial(c, p, s, t);
  }

  lemma CommitSerial(c: Passwords.Cipher, p: Profile, s: State, t: nat)
    requires Serial(c, p, s) && Enabled(s, Commit(t)) && s.lock == Some(t)
    requires forall i :: 0 <= i < |s.committed| ==> s.committed[i] != t
    ensures Serial(c, p, Do(c, s, Commit(t)))
  {
    hide FoldedRow, Fold, AllAccepted, BuildMerged, ProfileOf, Results, Updates;
    FoldedIn(c, p, s.tasks, s.committed, s.durable);
    FoldedGrow(c, p, s.tasks, s.committed, s.durable, t, s.working);
  }

  lemma FoldedIn(c: Passwords.Cipher, p: Profile, tasks: seq<Pc>, order: seq<nat>, row: Row)
    requires FoldedRow(c, p, tasks, order, row)
    ensures InTasks(tasks, order)
  {
  }

  lemma FoldedGrow(c: Passwords.Cipher, p: Profile, tasks: seq<Pc>, order: seq<nat>, row: Row, t: nat, row': Row)
    requires FoldedRow(c, p, tasks, order, row) && InTasks(tasks, order) && t < |tasks| && tasks[t].Written?
    requires Inside(c, Fold(p, Updates(tasks, order)), row, row', tasks[t])
    requires forall i :: 0 <= i < |order| ==> order[i] != t
    ensures FoldedRow(c, p, tasks[t := Done(tasks[t].u, tasks[t].updated)], order + [t], row')
  {
    hide Fold, AllAccepted, BuildMerged, ProfileOf, Results, Updates;
    FoldOneMore(p, Updates(tasks, order), tasks[t].u);
    ResultsGrow(p, tasks, tasks[t := Done(tasks[t].u, tasks[t].updated)], order, t);
  }

  lemma FoldedFrame(c: Passwords.Cipher, p: Profile, tasks: seq<Pc>, tasks': seq<Pc>, order: seq<nat>, row: Row)
    requires FoldedRow(c, p, tasks, order, row) && InTasks(tasks, order) && |tasks| <= |tasks'|
    requires forall i :: 0 <= i < |order| ==> tasks'[order[i]] == tasks[order[i]]
    ensures FoldedRow(c, p, tasks', order, row) && InTasks(tasks', order) && Updates(tasks', order) == Updates(tasks, order)
  {
    hide Fold, AllAccepted, ProfileOf, Results, Updates;
    ResultsFrame(p, tasks, tasks', order);
  }

  lemma StepKeepsSerial(c: Passwords.Cipher, p: Profile, s: State, a: Action)
    requires Passwords.Sound(c) && Locked(s) && Ordered(s) && Serial(c, p, s) && Enabled(s, a)
    ensures Locked(Do(c, s, a)) && Ordered(Do(c, s, a)) && Serial(c, p, Do(c, s, a))
  {
    hide Serial, Ordered, Locked, Do;
    match a
    case Call(u) => CallKeepsSerial(c, p, s, u);
    case Begin(t) => BeginKeepsSerial(c, p, s, t);
    case Select(t) => SelectKeepsSerial(c, p, s, t);
    case WriteRow(t, nonce) => WriteKeepsSerial(c, p, s, t, nonce);
    case Commit(t) => CommitKeepsSerial(c, p, s, t);
    case Fail(t) => FailKeepsSerial(c, p, s, t);
  }

  predicate CanRun(c: Passwords.Cipher, s: State, acts: seq<Action>)
    decreases |acts|
  {
    acts == [] || (Enabled(s, acts[0]) && CanRun(c, Do(c, s, acts[0]), acts[1..]))
  }

  function After(c: Passwords.Cipher, s: State, acts: seq<Action>): State
    requires CanRun(c, s, acts)
    decreases |acts|
  {
    if acts == [] then s else After(c, Do(c, s, acts[0]), acts[1..])
  }

  lemma {:induction false} RunKeepsSerial(c: Passwords.Cipher, p: Profile, s: State, acts: seq<Action>)
    requires Passwords.Sound(c) && Locked(s) && Ordered(s) && Serial(c, p, s) && CanRun(c, s, acts)
    ensures Locked(After(c, s, acts)) && Ordered(After(c, s, acts)) && Serial(c, p, After(c, s, acts))
    decreases |acts|
  {
    hide Serial, Ordered, Locked, Do;
    if acts != [] {
      StepKeepsSerial(c, p, s, acts[0]);
      RunKeepsSerial(c, p, Do(c, s, acts[0]), acts[1..]);
    }
  }

  function Start(row: Row): State { State(row, row, None, [], [], []) }

  lemma StartIsSerial(c: Passwords.Cipher, p: Profile, row: Row)
    requires ProfileOf(c, row) == Some(p)
    ensures Locked(Start(row)) && Ordered(Start(row)) && Serial(c, p, Start(row))
  {
  }

  /** Any interleaving of any updates ends in the row got by applying the updates of the
      committed calls in lock order (`NoLostUpdate` says what that row holds).  A reader on the
      shared connection sees that row or, only while the call holding the lock has written, that
      row with exactly this call's update applied. */
  lemma UpdatesSerialise(c: Passwords.Cipher, p: Profile, row: Row, acts: seq<Action>)
    requires Passwords.Sound(c) && ProfileOf(c, row) == Some(p)
    requires CanRun(c, Start(row), acts)
    ensures var s := After(c, Start(row), acts);
            && InTasks(s.tasks, s.committed)
            && var us := Updates(s.tasks, s.committed);
               && AllAccepted(p, us) && ProfileOf(c, s.durable) == Some(Fold(p, us))
               && (s.working == s.durable
                   || (&& s.lock.Some? && s.lock.value < |s.tasks| && s.tasks[s.lock.value].Written?
                       && var u := s.tasks[s.lock.value].u;
                          AllAccepted(p, us + [u]) && ProfileOf(c, s.working) == Some(Fold(p, us + [u]))))
  {
    StartIsSerial(c, p, row);
    RunKeepsSerial(c, p, Start(row), acts);
    var s := After(c, Start(row), acts);
    hide Fold, AllAccepted, BuildMerged, ProfileOf, Updates, Ordered, CanRun, After;
    if s.working != s.durable {
      FoldOneMore(p, Updates(s.tasks, s.committed), s.tasks[s.lock.value].u);
    }
  }

  /** The calls made so far, in order. */
  function CallsOf(acts: seq<Action>): seq<Update> {
    if acts == [] then []
    else CallsOf(acts[..|acts| - 1]) + if acts[|acts| - 1].Call? then [acts[|acts| - 1].u] else []
  }

  function Asked(tasks: seq<Pc>): seq<Update> { seq(|tasks|, i requires 0 <= i < |tasks| => tasks[i].u) }

  lemma {:induction false} CallsSnoc(a: Action, acts: seq<Action>)
    ensures CallsOf([a] + acts) == (if a.Call? then [a.u] else []) + CallsOf(acts)
  {
    if acts == [] {
      assert ([a] + acts)[..0] == [];
    } else {
      var n := |acts| - 1;
      CallsSnoc(a, acts[..n]);
      assert ([a] + acts)[..n + 1] == [a] + acts[..n];
    }
  }

  lemma {:induction false} TasksAreCalls(c: Passwords.Cipher, s: State, acts: seq<Action>)
    requires CanRun(c, s, acts)
    ensures Asked(After(c, s, acts).tasks) == Asked(s.tasks) + CallsOf(acts)
    decreases |acts|
  {
    if acts == [] {
      assert Asked(s.tasks) + [] == Asked(s.tasks);
    } else {
      var s1 := Do(c, s, acts[0]);
      TasksAreCalls(c, s1, acts[1..]);
      CallsSnoc(acts[0], acts[1..]);
      assert [acts[0]] + acts[1..] == acts;
      StepAsks(c, s, acts[0]);
      var now := if acts[0].Call? then [acts[0].u] else [];
      assert Asked(s.tasks) + now + CallsOf(acts[1..]) == Asked(s.tasks) + (now + CallsOf(acts[1..]));
    }
  }

  lemma StepAsks(c: Passwords.Cipher, s: State, a: Action)
    requires Enabled(s, a)
    ensures Asked(Do(c, s, a).tasks) == Asked(s.tasks) + if a.Call? then [a.u] else []
  {
    hide ProfileOf, BuildMerged, RowOf;
  }

  lemma {:induction false} InDoneOf(tasks: seq<Pc>, order: seq<nat>, t: nat)
    requires Distinct(order)
    ensures t in DoneOf(tasks, order) <==> t in order && t < |tasks| && tasks[t].Done?
    ensures Distinct(DoneOf(tasks, order))
  {
    if order != [] {
      var n := |order| - 1;
      var before, last := DoneOf(tasks, order[..n]), order[n];
      InDoneOf(tasks, order[..n], t);
      InDoneOf(tasks, order[..n], last);
      assert order == order[..n] + [last];
    }
  }

  /** The committed list belongs to the calls: it holds each finished call once and no other, in
      the order the calls got the lock; the k-th task is the k-th call made, and a finished call
      returned the fold up to and including its own update. */
  lemma CommitsAreCalls(c: Passwords.Cipher, p: Profile, row: Row, acts: seq<Action>, t: nat)
    requires Passwords.Sound(c) && ProfileOf(c, row) == Some(p)
    requires CanRun(c, Start(row), acts)
    ensures var s := After(c, Start(row), acts);
            && Asked(s.tasks) == CallsOf(acts)
            && s.committed == DoneOf(s.tasks, s.acquired) && Distinct(s.acquired) && Distinct(s.committed)
            && (t in s.committed <==> t < |s.tasks| && s.tasks[t].Done?)
            && InTasks(s.tasks, s.committed)
            && forall k :: 0 <= k < |s.committed| ==>
                 s.tasks[s.committed[k]].Done?
                 && s.tasks[s.committed[k]].updated == Fold(p, Updates(s.tasks, s.committed)[..k + 1])
  {
    hide CanRun, After, ProfileOf, Fold;
    StartIsSerial(c, p, row);
    RunKeepsSerial(c, p, Start(row), acts);
    TasksAreCalls(c, Start(row), acts);
    assert Asked([]) + CallsOf(acts) == CallsOf(acts);
    InDoneOf(After(c, Start(row), acts).tasks, After(c, Start(row), acts).acquired, t);
  }

  /** What the stored row holds after any run: each field as the last committed update naming it
      set it, else as it was; the id and the creation time as they were. */
  lemma CommittedFieldsSurvive(c: Passwords.Cipher, p: Profile, row: Row, acts: seq<Action>)
    requires Passwords.Sound(c) && ProfileOf(c, row) == Some(p)
    requires CanRun(c, Start(row), acts)
    ensures var s := After(c, Start(row), acts);
            && ProfileOf(c, s.durable).Some? && InTasks(s.tasks, s.committed)
            && var q, us := ProfileOf(c, s.durable).value, Updates(s.tasks, s.committed);
               && q.id == row.id && q.createdAt == row.createdAt
               && forall f: Field :: f in q.fields && f in p.fields && q.fields[f] == LastNamed(p, us, f)
  {
    hide ProfileOf, Fold, AllAccepted, LastNamed, CanRun, After, Updates;
    UpdatesSerialise(c, p, row, acts);
    ReadIsConstructed(c, row);
    var s := After(c, Start(row), acts);
    NoLostUpdate(p, Updates(s.tasks, s.committed));
  }

  // ----- a call left alone --------------------------------------------------------

  /** What the select makes of the row it finds: the call goes on, with nothing stored yet, if and only
      if every field it names is acceptable; otherwise it fails and gives the lock back. */
  lemma SelectIff(c: Passwords.Cipher, s: State, t: nat)
    requires Enabled(s, Select(t)) && ProfileOf(c, s.working).Some?
    ensures var s', u, found := Do(c, s, Select(t)), s.tasks[t].u, ProfileOf(c, s.working).value;
            && (s'.tasks[t].Merged? <==> Acceptable(u.data))
            && (s'.tasks[t].Merged? ==>
                  BuildMerged(found, u.data, u.now) == Some(s'.tasks[t].updated)
                  && s' == s.(tasks := s.tasks[t := Merged(u, s'.tasks[t].updated)]))
            && (!s'.tasks[t].Merged? ==> s' == s.(working := s.durable, lock := None, tasks := s.tasks[t := Failed(u)]))
  {
    ReadIsConstructed(c, s.working);
    hide ProfileOf, BuildMerged, Constructed, Acceptable;
    UpdateIff(ProfileOf(c, s.working).value, s.tasks[t].u.data, s.tasks[t].u.now, Name);
  }

  /** A call inside the transaction can fail at any of its awaits, which takes its write back and frees
      the lock; the lock is only for the taking while it is free. */
  lemma AnyCallCanFail(c: Passwords.Cipher, s: State, t: nat)
    requires t < |s.tasks|
    ensures Enabled(s, Fail(t)) <==> s.tasks[t].Begun? || s.tasks[t].Merged? || s.tasks[t].Written?
    ensures Enabled(s, Fail(t)) ==>
              Do(c, s, Fail(t)) == s.(working := s.durable, lock := None, tasks := s.tasks[t := Failed(s.tasks[t].u)])
    ensures Enabled(s, Begin(t)) <==> s.tasks[t].Waiting? && s.lock == None
  {
  }

  lemma BeginStep(c: Passwords.Cipher, s: State, t: nat)
    requires t < |s.tasks| && s.tasks[t].Waiting? && s.lock.None?
    ensures Enabled(s, Begin(t))
    ensures Do(c, s, Begin(t)) == s.(lock := Some(t), acquired := s.acquired + [t], tasks := s.tasks[t := Begun(s.tasks[t].u)])
  {
  }

  lemma WriteStep(c: Passwords.Cipher, s: State, t: nat, nonce: nat)
    requires t < |s.tasks| && s.tasks[t].Merged? && Password in s.tasks[t].updated.fields
    ensures Enabled(s, WriteRow(t, nonce))
    ensures Do(c, s, WriteRow(t, nonce))
            == s.(working := RowOf(c, s.tasks[t].updated, nonce), tasks := s.tasks[t := Written(s.tasks[t].u, s.tasks[t].updated)])
  {
    hide RowOf;
  }

  lemma CommitStep(c: Passwords.Cipher, s: State, t: nat)
    requires t < |s.tasks| && s.tasks[t].Written?
    ensures Enabled(s, Commit(t))
    ensures Do(c, s, Commit(t))
            == s.(durable := s.working, lock := None, committed := s.committed + [t],
                  tasks := s.tasks[t := Done(s.tasks[t].u, s.tasks[t].updated)])
  {
  }

  lemma RunPair(c: Passwords.Cipher, s: State, a: Action, b: Action)
    requires Enabled(s, a) && Enabled(Do(c, s, a), b)
    ensures CanRun(c, s, [a, b]) && After(c, s, [a, b]) == Do(c, Do(c, s, a), b)
  {
    hide Enabled, Do;
    var s1 := Do(c, s, a);
    assert CanRun(c, Do(c, s1, b), []) && After(c, Do(c, s1, b), []) == Do(c, s1, b);
    assert [b][1..] == [] && CanRun(c, s1, [b]) && After(c, s1, [b]) == Do(c, s1, b);
    assert [a, b][1..] == [b];
  }

  lemma {:induction false} RunOn(c: Passwords.Cipher, s: State, pre: seq<Action>, rest: seq<Action>)
    requires CanRun(c, s, pre) && CanRun(c, After(c, s, pre), rest)
    ensures CanRun(c, s, pre + rest) && After(c, s, pre + rest) == After(c, After(c, s, pre), rest)
    decreases |pre|
  {
    hide Do, Enabled;
    if pre == [] {
      assert pre + rest == rest;
    } else {
      RunOn(c, Do(c, s, pre[0]), pre[1..], rest);
      assert (pre + rest)[0] == pre[0] && (pre + rest)[1..] == pre[1..] + rest;
    }
  }

  /** What a call that got the free lock leaves after its select. */
  lemma BeginSelect(c: Passwords.Cipher, s: State, t: nat)
    requires s.lock.None? && s.working == s.durable && ProfileOf(c, s.durable).Some?
    requires t < |s.tasks| && s.tasks[t].Waiting?
    ensures CanRun(c, s, [Begin(t), Select(t)])
    ensures var s2, u := After(c, s, [Begin(t), Select(t)]), s.tasks[t].u;
            && |s2.tasks| == |s.tasks| && s2.durable == s.durable == s2.working && s2.committed == s.committed
            && (if Acceptable(u.data) then
                  s2.tasks[t].Merged? && s2.tasks[t].u == u
                  && BuildMerged(ProfileOf(c, s.durable).value, u.data, u.now) == Some(s2.tasks[t].updated)
                else s2.tasks[t] == Failed(u) && s2.lock == None)
  {
    BeginStep(c, s, t);
    var s1 := Do(c, s, Begin(t));
    assert Enabled(s1, Select(t));
    hide Do, ProfileOf, BuildMerged, Acceptable, CanRun, After, Enabled;
    SelectIff(c, s1, t);
    RunPair(c, s, Begin(t), Select(t));
  }

  lemma WriteAndCommit(c: Passwords.Cipher, s: State, t: nat, nonce: nat, found: Profile)
    requires Passwords.Sound(c) && t < |s.tasks| && s.tasks[t].Merged?
    requires BuildMerged(found, s.tasks[t].u.data, s.tasks[t].u.now) == Some(s.tasks[t].updated)
    ensures CanRun(c, s, [WriteRow(t, nonce), Commit(t)])
    ensures var u, updated, s' := s.tasks[t].u, s.tasks[t].updated, After(c, s, [WriteRow(t, nonce), Commit(t)]);
            && s'.tasks == s.tasks[t := Done(u, updated)] && s'.committed == s.committed + [t] && s'.lock == None
            && ProfileOf(c, s'.durable) == Some(updated) && s'.working == s'.durable
  {
    hide ProfileOf, BuildMerged, RowOf, CanRun, After, Do, Enabled;
    MergedStores(c, found, s.tasks[t].u, nonce);
    WriteStep(c, s, t, nonce);
    CommitStep(c, Do(c, s, WriteRow(t, nonce)), t);
    RunPair(c, s, WriteRow(t, nonce), Commit(t));
  }

  /** A call that gets the free lock and is left alone: it commits, and the stored row is the one it
      found with its update applied, if every field it names is acceptable; if one is not, it fails, the
      row stays, and the lock is free again. */
  lemma LeftAloneCommitsIff(c: Passwords.Cipher, s: State, t: nat, nonce: nat)
    requires Passwords.Sound(c) && s.lock.None? && s.working == s.durable && ProfileOf(c, s.durable).Some?
    requires t < |s.tasks| && s.tasks[t].Waiting?
    ensures var acts, u := [Begin(t), Select(t)] + [WriteRow(t, nonce), Commit(t)], s.tasks[t].u;
            Acceptable(u.data) ==>
              && CanRun(c, s, acts)
              && var s4 := After(c, s, acts);
                 && |s4.tasks| == |s.tasks| && s4.tasks[t].Done? && s4.tasks[t].u == u && s4.lock == None
                 && s4.committed == s.committed + [t] && s4.working == s4.durable
                 && BuildMerged(ProfileOf(c, s.durable).value, u.data, u.now) == Some(s4.tasks[t].updated) == ProfileOf(c, s4.durable)
    ensures !Acceptable(s.tasks[t].u.data) ==>
              && CanRun(c, s, [Begin(t), Select(t)])
              && var s2 := After(c, s, [Begin(t), Select(t)]);
                 && |s2.tasks| == |s.tasks| && s2.tasks[t] == Failed(s.tasks[t].u) && s2.lock == None
                 && s2.durable == s.durable == s2.working && s2.committed == s.committed
  {
    hide Do, ProfileOf, BuildMerged, Acceptable, CanRun, After, Enabled;
    BeginSelect(c, s, t);
    if Acceptable(s.tasks[t].u.data) {
      WriteAndCommit(c, After(c, s, [Begin(t), Select(t)]), t, nonce, ProfileOf(c, s.durable).value);
      RunOn(c, s, [Begin(t), Select(t)], [WriteRow(t, nonce), Commit(t)]);
    }
  }

  /** The table, and `update_connection` as one call runs it under the lock. */
  class SqliteConnections {
    var rows: map<string, Row>

    constructor (rows: map<string, Row>)
      ensures this.rows == rows
    {
      this.rows := rows;
    }

    /** None: no such row.  Err: the stored row, the merged profile, the encryption (which `fails`) or
        the commit was rejected, and the transaction rolled back. */
    method UpdateConnection(c: Passwords.Cipher, connId: string, u: Update, nonce: nat, fails: bool, commits: bool)
      returns (r: Result<Option<Profile>, Passwords.Error>)
      requires Passwords.Sound(c)
      modifies this
      ensures r.Err? || r.value.None? ==> rows == old(rows)
      ensures connId !in old(rows) <==> r == Ok(None)
      ensures r.Ok? && r.value.Some? <==>
                connId in old(rows) && !fails && commits && ProfileOf(c, old(rows)[connId]).Some? && Acceptable(u.data)
      ensures r.Ok? && r.value.Some? ==>
                && connId in old(rows) && rows.Keys == old(rows).Keys
                && (forall id :: id in rows && id != connId ==> rows[id] == old(rows)[id])
                && ProfileOf(c, old(rows)[connId]).Some?
                && BuildMerged(ProfileOf(c, old(rows)[connId]).value, u.data, u.now) == r.value
                && ProfileOf(c, rows[connId]) == r.value
    {
      hide ProfileOf, BuildMerged, RowOf, Acceptable, Constructed, Passwords.Sound;
      var saved := rows;
      if connId !in rows {
        return Ok(None);
      }
      var existing := ProfileOf(c, rows[connId]);
      if existing.None? {
        return Err(Passwords.KekMismatch);
      }
      var updated := BuildMerged(existing.value, u.data, u.now);
      ReadIsConstructed(c, rows[connId]);
      UpdateIff(existing.value, u.data, u.now, Name);
      if updated.None? || fails {
        return Err(Passwords.KekMissing);
      }
      MergedStores(c, existing.value, u, nonce);
      rows := rows[connId := RowOf(c, updated.value, nonce)];
      if !commits {
        rows := saved;
        return Err(Passwords.KekMissing);
      }
      return Ok(updated);
    }
  }
}

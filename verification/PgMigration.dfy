/** The PostgreSQL schema migration: any number of replicas, statements committed one by
    one, a session lock that a crash releases. */
module PgMigration {
  import opened Prelude
  import opened Schema

  datatype Pc =
    | AtLock
    | AtReadDescription
    | AtReadNote(description: bool)
    | AtRename
    | AtCount
    | AtMerge
    | AtDrop
    | AtAddNote
    | AtLabels
    | AtWorkspaceId
    | AtOwnerId
    | AtSeed
    | AtBackfill
    | AtUnlock(failed: bool)
    | Finished
    | Raised
    | Dead

  datatype State = State(db: Db, lock: Option<nat>, replicas: seq<Pc>)

  /** `Timeout`: the statement raises in its replica, having taken effect or not. */
  datatype Action = Boot | Run(r: nat) | Timeout(r: nat, applied: bool) | Crash(r: nat)

  predicate Critical(pc: Pc) { !(pc.AtLock? || pc.Finished? || pc.Raised? || pc.Dead?) }

  /** What the engine refuses: a statement naming a column that is not there, or adding one that is. */
  predicate Accepted(db: Db, pc: Pc) {
    match pc
    case AtRename => db.hasDescription && !db.hasNote
    case AtCount => db.hasDescription && db.hasNote
    case AtMerge => db.hasDescription && db.hasNote
    case AtDrop => db.hasDescription
    case AtAddNote => !db.hasNote
    case AtSeed => db.hasOwnerId
    case AtBackfill => db.hasWorkspaceId
    case _ => true
  }

  function Execute(db: Db, pc: Pc): Db
    requires Accepted(db, pc)
  {
    match pc
    case AtRename => Renamed(db)
    case AtMerge => Merged(db)
    case AtDrop => DescriptionDropped(db)
    case AtAddNote => NoteAdded(db)
    case AtLabels => LabelsAdded(db)
    case AtWorkspaceId => WorkspaceIdAdded(db)
    case AtOwnerId => OwnerIdAdded(db)
    case AtSeed => Seeded(db)
    case AtBackfill => Backfilled(db)
    case _ => db
  }

  function Next(db: Db, pc: Pc): Pc {
    match pc
    case AtLock => AtReadDescription
    case AtReadDescription => AtReadNote(db.hasDescription)
    case AtReadNote(description) =>
      if description && !db.hasNote then AtRename
      else if description && db.hasNote then AtCount
      else if !description && !db.hasNote then AtAddNote
      else AtLabels
    case AtCount => AtMerge
    case AtMerge => AtDrop
    case AtRename => AtLabels
    case AtDrop => AtLabels
    case AtAddNote => AtLabels
    case AtLabels => AtWorkspaceId
    case AtWorkspaceId => AtOwnerId
    case AtOwnerId => AtSeed
    case AtSeed => AtBackfill
    case AtBackfill => AtUnlock(false)
    case AtUnlock(failed) => if failed then Raised else Finished
    case _ => pc
  }

  predicate Enabled(s: State, a: Action) {
    match a
    case Boot => true
    case Run(r) => r < |s.replicas| && (Critical(s.replicas[r]) || (s.replicas[r].AtLock? && s.lock.None?))
    case Timeout(r, applied) =>
      && r < |s.replicas|
      && (if applied then Critical(s.replicas[r]) && Accepted(s.db, s.replicas[r])
          else Critical(s.replicas[r]) || s.replicas[r].AtLock?)
    case Crash(r) => r < |s.replicas| && (Critical(s.replicas[r]) || s.replicas[r].AtLock?)
  }

  function Do(s: State, a: Action): State
    requires Enabled(s, a)
  {
    match a
    case Boot => s.(replicas := s.replicas + [AtLock])
    case Crash(r) =>
      s.(replicas := s.replicas[r := Dead], lock := if s.lock == Some(r) then None else s.lock)
    case Timeout(r, applied) =>
      var pc := s.replicas[r];
      if pc.AtLock? then s.(replicas := s.replicas[r := Raised])
      else if pc.AtUnlock? then s.(lock := None, replicas := s.replicas[r := Raised])   // its session ends
      else State(if applied then Execute(s.db, pc) else s.db, s.lock, s.replicas[r := AtUnlock(true)])
    case Run(r) =>
      var pc := s.replicas[r];
      if pc.AtLock? then
        s.(lock := Some(r), replicas := s.replicas[r := Next(s.db, pc)])
      else if pc.AtUnlock? then
        s.(lock := None, replicas := s.replicas[r := Next(s.db, pc)])
      else if !Accepted(s.db, pc) then
        s.(replicas := s.replicas[r := AtUnlock(true)])
      else
        State(Execute(s.db, pc), s.lock, s.replicas[r := Next(s.db, pc)])
  }

  /** Whatever has not ended can crash or time out at any point, a new replica can always start, and
      only the lock is ever waited for. */
  lemma AnythingCanFail(s: State, r: nat)
    requires r < |s.replicas|
    ensures var pc := s.replicas[r];
            var ended := pc == Finished || pc == Raised || pc == Dead;
            && Enabled(s, Boot)
            && (Enabled(s, Crash(r)) <==> !ended) && (Enabled(s, Timeout(r, false)) <==> !ended)
            && (Enabled(s, Timeout(r, true)) <==> !ended && pc != AtLock && Accepted(s.db, pc))
            && (Enabled(s, Run(r)) <==> !ended && (pc == AtLock ==> s.lock == None))
  {
  }

  function Columns(db: Db): set<string> {
    (if db.hasDescription then {"description"} else {}) + (if db.hasNote then {"note"} else {})
    + (if db.hasLabels then {"labels"} else {}) + (if db.hasWorkspaceId then {"workspace_id"} else {})
    + (if db.hasOwnerId then {"owner_id"} else {})
  }

  /** The columns a statement reads or changes, and the one it adds without asking. */
  function Mentions(pc: Pc): set<string> {
    match pc
    case AtRename => {"description"}
    case AtCount => {"description", "note"}
    case AtMerge => {"description", "note"}
    case AtDrop => {"description"}
    case AtSeed => {"owner_id"}
    case AtBackfill => {"workspace_id"}
    case _ => {}
  }

  function Adds(pc: Pc): set<string> { if pc == AtRename || pc == AtAddNote then {"note"} else {} }

  /** The engine refuses a statement exactly when it mentions a column that is not there or adds one
      that is. */
  lemma AcceptedIff(db: Db, pc: Pc)
    ensures Accepted(db, pc) <==> Mentions(pc) <= Columns(db) && Adds(pc) !! Columns(db)
  {
  }

  // ----- what the migration is for -------------------------------------------

  /** The table every complete run is meant to leave: the note is the old note, or the old
      description where the note was null; a null workspace becomes the default one. */
  function Target(db: Db): Db {
    Db(false, true, true, true, true,
       map id | id in db.rows ::
         Row(None, OrElse(db.rows[id].note, db.rows[id].description),
             OrElse(db.rows[id].workspace, Some(DEFAULT_WORKSPACE_ID))),
       db.workspaces + {DEFAULT_WORKSPACE_ID})
  }

  /** The migration is idempotent, and what it leaves is left alone by every statement of a further run. */
  lemma TargetIsFixed(db: Db, pc: Pc)
    ensures Target(Target(db)) == Target(db) && WellFormed(Target(db))
    ensures Accepted(Target(db), pc) ==> pc.AtDrop? || Execute(Target(db), pc) == Target(db)
    ensures !Accepted(Target(db), AtDrop)
  {
    assert Target(Target(db)).rows == Target(db).rows;
    if Accepted(Target(db), pc) && !pc.AtDrop? {
      assert Execute(Target(db), pc).rows == Target(db).rows;
    }
  }

  /** What the target holds of each profile: its note, or its description where it had no note, and
      its workspace, or the default one; and every column but `description`. */
  lemma TargetHolds(db: Db, id: string)
    ensures Target(db).rows.Keys == db.rows.Keys && Target(db).workspaces == db.workspaces + {"ws-default"}
    ensures Columns(Target(db)) == {"note", "labels", "workspace_id", "owner_id"}
    ensures id in db.rows ==>
              var was, now := db.rows[id], Target(db).rows[id];
              && now.note == (if was.note.Some? then was.note else was.description)
              && now.workspace == Some(if was.workspace.Some? then was.workspace.value else "ws-default")
  {
  }

  lemma MergeStepsKeepTarget(db: Db)
    requires WellFormed(db) && db.hasDescription
    ensures !db.hasNote ==> Target(Renamed(db)) == Target(db)
    ensures db.hasNote ==> Target(Merged(db)) == Target(db)
    ensures (forall id :: id in db.rows && db.rows[id].note.None? ==> db.rows[id].description.None?)
            ==> Target(DescriptionDropped(db)) == Target(db)
  {
    assert !db.hasNote ==> Target(Renamed(db)).rows == Target(db).rows;
    assert db.hasNote ==> Target(Merged(db)).rows == Target(db).rows;
  }

  lemma BackfillKeepsTarget(db: Db)
    requires db.hasWorkspaceId
    ensures Target(Backfilled(db)) == Target(db)
  {
    assert Target(Backfilled(db)).rows == Target(db).rows;
  }

  /** No statement, once accepted, changes where the migration is heading; dropping
      `description` keeps it only after the merge. */
  lemma StatementKeepsTarget(db: Db, pc: Pc)
    requires WellFormed(db) && Accepted(db, pc)
    requires pc.AtDrop? ==> forall id :: id in db.rows && db.rows[id].note.None? ==> db.rows[id].description.None?
    ensures Target(Execute(db, pc)) == Target(db) && WellFormed(Execute(db, pc))
  {
    StatementsKeepWellFormed(db);
    if db.hasDescription {
      MergeStepsKeepTarget(db);
    }
    if db.hasWorkspaceId {
      BackfillKeepsTarget(db);
    }
    hide WellFormed, Renamed, Merged, DescriptionDropped, Backfilled;
    if Execute(db, pc).rows == db.rows {
      assert Target(Execute(db, pc)).rows == Target(db).rows;
    }
  }

  // ----- invariant -----------------------------------------------------------

  /** What the lock holder may rely on before its next statement. */
  predicate Phase(db: Db, pc: Pc) {
    match pc
    case AtReadNote(description) => description == db.hasDescription
    case AtRename => db.hasDescription && !db.hasNote
    case AtCount => db.hasDescription && db.hasNote
    case AtMerge => db.hasDescription && db.hasNote
    case AtDrop =>
      && db.hasDescription && db.hasNote
      && forall id :: id in db.rows && db.rows[id].note.None? ==> db.rows[id].description.None?
    case AtAddNote => !db.hasDescription && !db.hasNote
    case AtLabels => !db.hasDescription && db.hasNote
    case AtWorkspaceId => !db.hasDescription && db.hasNote && db.hasLabels
    case AtOwnerId => !db.hasDescription && db.hasNote && db.hasLabels && db.hasWorkspaceId
    case AtSeed => !db.hasDescription && db.hasNote && db.hasLabels && db.hasWorkspaceId && db.hasOwnerId
    case AtBackfill =>
      && !db.hasDescription && db.hasNote && db.hasLabels && db.hasWorkspaceId && db.hasOwnerId
      && DEFAULT_WORKSPACE_ID in db.workspaces
    case AtUnlock(failed) => failed || db == Target(db)
    case Finished => db == Target(db)
    case _ => true
  }

  predicate Inv(s: State, db0: Db) {
    && WellFormed(s.db) && Target(s.db) == Target(db0)
    && (forall r :: 0 <= r < |s.replicas| ==> (Critical(s.replicas[r]) <==> s.lock == Some(r)))
    && (s.lock.Some? ==> s.lock.value < |s.replicas|)
    && (forall r :: 0 <= r < |s.replicas| ==> Phase(s.db, s.replicas[r]))
  }

  lemma PhaseAdvances(db: Db, pc: Pc)
    requires WellFormed(db) && Phase(db, pc) && Critical(pc)
    ensures Accepted(db, pc)
    ensures Phase(Execute(db, pc), Next(db, pc))
    ensures db == Target(db) ==> Execute(db, pc) == db
  {
    if pc.AtBackfill? {
      assert Execute(db, pc).rows == Target(Execute(db, pc)).rows;
    }
    if db == Target(db) {
      TargetIsFixed(db, pc);
    }
  }

  lemma StatementAdvances(db: Db, pc: Pc)
    requires WellFormed(db) && Phase(db, pc) && Critical(pc)
    ensures Accepted(db, pc) && WellFormed(Execute(db, pc)) && Target(Execute(db, pc)) == Target(db)
    ensures Phase(Execute(db, pc), Next(db, pc)) && (db == Target(db) ==> Execute(db, pc) == db)
  {
    hide WellFormed, Target, Execute, Next;
    PhaseAdvances(db, pc);
    StatementKeepsTarget(db, pc);
  }

  /** One replica moves: it holds the lock, or nobody does. */
  lemma MoveKeepsInv(s: State, r: nat, db: Db, pc: Pc, db0: Db)
    requires Inv(s, db0) && r < |s.replicas| && (s.lock == Some(r) || s.lock.None?)
    requires WellFormed(db) && Target(db) == Target(s.db) && (s.db == Target(s.db) ==> db == s.db)
    requires Phase(db, pc)
    ensures Inv(State(db, if Critical(pc) then Some(r) else None, s.replicas[r := pc]), db0)
  {
    hide WellFormed, Target;
  }

  /** A replica that is not inside stops. */
  lemma StopKeepsInv(s: State, r: nat, pc: Pc, db0: Db)
    requires Inv(s, db0) && r < |s.replicas| && !Critical(s.replicas[r]) && (pc.Raised? || pc.Dead?)
    ensures Inv(s.(replicas := s.replicas[r := pc]), db0)
  {
    hide WellFormed, Target;
  }

  lemma StatementKeepsInv(s: State, r: nat, db0: Db)
    requires Inv(s, db0) && Enabled(s, Run(r))
    ensures Inv(Do(s, Run(r)), db0)
  {
    hide WellFormed, Target, Execute;
    var pc := s.replicas[r];
    if Critical(pc) {
      StatementAdvances(s.db, pc);
      MoveKeepsInv(s, r, Execute(s.db, pc), Next(s.db, pc), db0);
      UnlockExecutesNothing(s.db, pc);
    } else {
      MoveKeepsInv(s, r, s.db, Next(s.db, pc), db0);
    }
  }

  lemma UnlockExecutesNothing(db: Db, pc: Pc)
    requires Accepted(db, pc)
    ensures pc.AtUnlock? ==> Execute(db, pc) == db
    ensures Critical(pc) ==> (Critical(Next(db, pc)) <==> !pc.AtUnlock?)
  {
  }

  lemma TimeoutKeepsInv(s: State, r: nat, applied: bool, db0: Db)
    requires Inv(s, db0) && Enabled(s, Timeout(r, applied))
    ensures Inv(Do(s, Timeout(r, applied)), db0)
  {
    hide WellFormed, Target, Execute;
    var pc := s.replicas[r];
    if pc.AtLock? {
      StopKeepsInv(s, r, Raised, db0);
    } else {
      StatementAdvances(s.db, pc);
      MoveKeepsInv(s, r, if applied && !pc.AtUnlock? then Execute(s.db, pc) else s.db,
                   if pc.AtUnlock? then Raised else AtUnlock(true), db0);
    }
  }

  lemma CrashKeepsInv(s: State, r: nat, db0: Db)
    requires Inv(s, db0) && Enabled(s, Crash(r))
    ensures Inv(Do(s, Crash(r)), db0)
  {
    hide WellFormed, Target;
    if Critical(s.replicas[r]) {
      MoveKeepsInv(s, r, s.db, Dead, db0);
    } else {
      StopKeepsInv(s, r, Dead, db0);
    }
  }

  lemma StepKeepsInv(s: State, a: Action, db0: Db)
    requires Inv(s, db0) && Enabled(s, a)
    ensures Inv(Do(s, a), db0)
  {
    hide WellFormed, Target, Execute, Accepted, Next;
    match a
    case Boot =>
    case Run(r) => StatementKeepsInv(s, r, db0);
    case Timeout(r, applied) => TimeoutKeepsInv(s, r, applied, db0);
    case Crash(r) => CrashKeepsInv(s, r, db0);
  }

  // ----- whole runs ----------------------------------------------------------

  predicate CanRun(s: State, acts: seq<Action>)
    decreases |acts|
  {
    acts == [] || (Enabled(s, acts[0]) && CanRun(Do(s, acts[0]), acts[1..]))
  }

  function After(s: State, acts: seq<Action>): State
    requires CanRun(s, acts)
    decreases |acts|
  {
    if acts == [] then s else After(Do(s, acts[0]), acts[1..])
  }

  lemma {:induction false} RunKeepsInv(s: State, acts: seq<Action>, db0: Db)
    requires Inv(s, db0) && CanRun(s, acts)
    ensures Inv(After(s, acts), db0)
    decreases |acts|
  {
    if acts != [] {
      StepKeepsInv(s, acts[0], db0);
      RunKeepsInv(Do(s, acts[0]), acts[1..], db0);
    }
  }

  predicate Failing(s: State, r: nat) { r < |s.replicas| && (s.replicas[r].Raised? || s.replicas[r] == AtUnlock(true)) }

  lemma FailingIsTimeout(s: State, a: Action, r: nat, db0: Db)
    requires Inv(s, db0) && Enabled(s, a) && Failing(Do(s, a), r) && !Failing(s, r)
    ensures a.Timeout? && a.r == r
  {
    hide WellFormed, Target, Execute;
    if a.Run? && Critical(s.replicas[a.r]) {
      StatementAdvances(s.db, s.replicas[a.r]);
    }
  }

  /** A replica raises only after one of its own statements timed out. */
  lemma {:induction false} RaisedTimedOut(s: State, acts: seq<Action>, r: nat, db0: Db) returns (i: nat)
    requires Inv(s, db0) && CanRun(s, acts) && !Failing(s, r) && Failing(After(s, acts), r)
    ensures i < |acts| && acts[i].Timeout? && acts[i].r == r
    decreases |acts|
  {
    hide Inv, Do;
    if Failing(Do(s, acts[0]), r) {
      FailingIsTimeout(s, acts[0], r, db0);
      i := 0;
    } else {
      StepKeepsInv(s, acts[0], db0);
      var j := RaisedTimedOut(Do(s, acts[0]), acts[1..], r, db0);
      i := j + 1;
    }
  }

  lemma {:induction false} RunSnoc(s: State, acts: seq<Action>)
    requires CanRun(s, acts) && acts != []
    ensures var n := |acts| - 1;
            CanRun(s, acts[..n]) && Enabled(After(s, acts[..n]), acts[n]) && After(s, acts) == Do(After(s, acts[..n]), acts[n])
    decreases |acts|
  {
    hide Do, Enabled;
    var n := |acts| - 1;
    if n > 0 {
      RunSnoc(Do(s, acts[0]), acts[1..]);
      assert acts[1..][..n - 1] == acts[..n][1..];
    }
  }

  lemma FailingStep(s: State, a: Action, r: nat, db0: Db)
    requires Inv(s, db0) && Enabled(s, a)
    ensures Failing(Do(s, a), r) <==> (a.Timeout? && a.r == r) || (Failing(s, r) && a != Crash(r))
    ensures Gone(Do(s, a), r) <==> Gone(s, r) || a == Crash(r)
  {
    hide WellFormed, Target, Execute;
    if Failing(Do(s, a), r) && !Failing(s, r) {
      FailingIsTimeout(s, a, r, db0);
    }
    hide Accepted;
  }

  predicate Gone(s: State, r: nat) { r < |s.replicas| && s.replicas[r].Dead? }

  /** A statement the engine refuses makes its replica fail; one that times out at the lock or while
      unlocking raises at once, and frees the lock it held; any other that times out, in effect or not,
      keeps the lock and goes on to unlock and raise. */
  lemma FailureFreesLock(s: State, r: nat, applied: bool)
    requires r < |s.replicas|
    ensures Enabled(s, Timeout(r, applied)) && (s.replicas[r].AtLock? || s.replicas[r].AtUnlock?) ==>
              Do(s, Timeout(r, applied)) == State(s.db, if s.replicas[r].AtLock? then s.lock else None, s.replicas[r := Raised])
    ensures Enabled(s, Timeout(r, applied)) && !s.replicas[r].AtLock? && !s.replicas[r].AtUnlock? ==>
              var s' := Do(s, Timeout(r, applied));
              && (applied ==> s'.db == Execute(s.db, s.replicas[r])) && (!applied ==> s'.db == s.db)
              && s'.lock == s.lock && s'.replicas == s.replicas[r := AtUnlock(true)]
    ensures Enabled(s, Run(r)) && !Accepted(s.db, s.replicas[r]) ==> Do(s, Run(r)) == s.(replicas := s.replicas[r := AtUnlock(true)])
  {
  }

  /** A replica is failing or has raised exactly when a statement of its own timed out and it has not
      crashed; it is dead exactly when it crashed. */
  lemma {:induction false} FailsIff(db0: Db, acts: seq<Action>, r: nat)
    requires WellFormed(db0) && CanRun(State(db0, None, []), acts)
    ensures var s := After(State(db0, None, []), acts);
            && (Failing(s, r) <==> (exists i :: 0 <= i < |acts| && acts[i].Timeout? && acts[i].r == r) && Crash(r) !in acts)
            && (Gone(s, r) <==> Crash(r) in acts)
    decreases |acts|
  {
    var s0 := State(db0, None, []);
    if acts != [] {
      var n := |acts| - 1;
      var front, last := acts[..n], acts[n];
      RunSnoc(s0, acts);
      FailsIff(db0, front, r);
      RunKeepsInv(s0, front, db0);
      FailingStep(After(s0, front), last, r, db0);
      assert acts == front + [last];
      hide Failing, Gone, CanRun, After, Inv, WellFormed, Do, Enabled;
      if last.Timeout? && last.r == r {
        assert acts[n].Timeout? && acts[n].r == r;
        NotCrashed(db0, front, last, r);
      }
      assert (exists i :: 0 <= i < |acts| && acts[i].Timeout? && acts[i].r == r) <==>
             (last.Timeout? && last.r == r) || exists i :: 0 <= i < |front| && front[i].Timeout? && front[i].r == r by {
        assert forall i :: 0 <= i < n ==> acts[i] == front[i];
        assert acts[n] == last;
      }
    }
  }

  lemma NotCrashed(db0: Db, front: seq<Action>, last: Action, r: nat)
    requires CanRun(State(db0, None, []), front) && last.Timeout? && last.r == r
    requires Enabled(After(State(db0, None, []), front), last)
    requires Gone(After(State(db0, None, []), front), r) <==> Crash(r) in front
    ensures Crash(r) !in front
  {
    hide CanRun, After;
  }

  /** Whatever replicas start, crash and time out, and wherever: no statement is ever refused, a
      replica raises only if a statement of its own timed out, and once some replica has finished
      the database is the target, and stays it. */
  lemma MigrationSafety(db0: Db, acts: seq<Action>)
    requires WellFormed(db0) && CanRun(State(db0, None, []), acts)
    ensures var s := After(State(db0, None, []), acts);
            && (forall r :: 0 <= r < |s.replicas| && Critical(s.replicas[r]) ==> Accepted(s.db, s.replicas[r]))
            && (forall r: nat :: Failing(s, r) ==> exists i :: 0 <= i < |acts| && acts[i].Timeout? && acts[i].r == r)
            && ((exists r :: 0 <= r < |s.replicas| && s.replicas[r].Finished?) ==> s.db == Target(db0))
  {
    hide WellFormed, Target, CanRun, After;
    var s0 := State(db0, None, []);
    RunKeepsInv(s0, acts, db0);
    var s := After(s0, acts);
    forall r | 0 <= r < |s.replicas| && Critical(s.replicas[r]) ensures Accepted(s.db, s.replicas[r]) {
      PhaseAdvances(s.db, s.replicas[r]);
    }
    forall r: nat | Failing(s, r) ensures exists i :: 0 <= i < |acts| && acts[i].Timeout? && acts[i].r == r {
      var i := RaisedTimedOut(s0, acts, r, db0);
    }
  }

  // ----- a run that is not interrupted ---------------------------------------

  function Remaining(pc: Pc): nat {
    match pc
    case AtLock => 11
    case AtReadDescription => 10
    case AtReadNote(_) => 9
    case AtCount => 8
    case AtMerge => 7
    case AtDrop => 6
    case AtRename => 6
    case AtAddNote => 6
    case AtLabels => 5
    case AtWorkspaceId => 4
    case AtOwnerId => 3
    case AtSeed => 2
    case AtBackfill => 1
    case _ => 0
  }

  function RunsOf(r: nat, n: nat): seq<Action> { seq(n, i => Run(r)) }

  /** From any reachable state, the lock holder finishes if it is left alone and has not failed. */
  lemma {:induction false} HolderFinishes(s: State, db0: Db, r: nat) returns (n: nat)
    requires Inv(s, db0) && s.lock == Some(r) && s.replicas[r] != AtUnlock(true)
    ensures CanRun(s, RunsOf(r, n)) && After(s, RunsOf(r, n)).replicas == s.replicas[r := Finished]
    ensures After(s, RunsOf(r, n)).lock == None
    decreases Remaining(s.replicas[r])
  {
    var s' := Do(s, Run(r));
    StepKeepsInv(s, Run(r), db0);
    if s'.replicas[r].Finished? {
      n := 1;
      assert RunsOf(r, 1)[1..] == [];
    } else {
      PhaseAdvances(s.db, s.replicas[r]);
      var m := HolderFinishes(s', db0, r);
      n := m + 1;
      assert RunsOf(r, n)[1..] == RunsOf(r, m);
      assert s'.replicas[r := Finished] == s.replicas[r := Finished];
    }
  }

  lemma FinishedIsTarget(s: State, db0: Db, r: nat)
    requires Inv(s, db0) && r < |s.replicas| && s.replicas[r].Finished?
    ensures s.db == Target(db0)
  {
    hide Target, WellFormed;
  }

  /** From any state a crashed or finished fleet can leave, one fresh replica completes the migration. */
  lemma FreshReplicaCompletes(db0: Db, acts: seq<Action>) returns (more: seq<Action>)
    requires WellFormed(db0) && CanRun(State(db0, None, []), acts)
    requires After(State(db0, None, []), acts).lock.None?
    ensures var s := After(State(db0, None, []), acts);
            CanRun(s, more) && After(s, more).db == Target(db0) && After(s, more).lock.None?
  {
    var s := After(State(db0, None, []), acts);
    RunKeepsInv(State(db0, None, []), acts, db0);
    var r := |s.replicas|;
    var s1 := Do(s, Boot);
    StepKeepsInv(s, Boot, db0);
    var s2 := Do(s1, Run(r));
    StepKeepsInv(s1, Run(r), db0);
    var n := HolderFinishes(s2, db0, r);
    hide Do, Inv, Target, WellFormed;
    more := [Boot, Run(r)] + RunsOf(r, n);
    assert more[1..] == [Run(r)] + RunsOf(r, n) && more[1..][1..] == RunsOf(r, n);
    RunKeepsInv(s2, RunsOf(r, n), db0);
    FinishedIsTarget(After(s2, RunsOf(r, n)), db0, r);
  }

  /** The statements of an undisturbed run, in order. */
  function StatementsOf(db: Db): seq<Pc> {
    [AtLock, AtReadDescription, AtReadNote(db.hasDescription)] + NotePart(db)
    + [AtLabels, AtWorkspaceId, AtOwnerId, AtSeed, AtBackfill, AtUnlock(false), Finished]
  }

  /** Each program point leads to the next one of that list, and each statement is accepted there. */
  predicate Follows(db: Db, pcs: seq<Pc>)
    decreases |pcs|
  {
    |pcs| <= 1 || (Accepted(db, pcs[0]) && Next(db, pcs[0]) == pcs[1] && Follows(Execute(db, pcs[0]), pcs[1..]))
  }

  /** The columns after a statement: one may be added, `description` may go. */
  lemma Flags(db: Db, pc: Pc)
    requires Accepted(db, pc)
    ensures var d := Execute(db, pc);
            && d.hasDescription == (db.hasDescription && pc != AtRename && pc != AtDrop)
            && d.hasNote == (db.hasNote || pc == AtRename || pc == AtAddNote)
            && d.hasWorkspaceId == (db.hasWorkspaceId || pc == AtWorkspaceId) && d.hasOwnerId == (db.hasOwnerId || pc == AtOwnerId)
  {
  }

  lemma FollowsCons(db: Db, pc: Pc, pcs: seq<Pc>)
    requires Accepted(db, pc) && pcs != [] && Next(db, pc) == pcs[0] && Follows(Execute(db, pc), pcs)
    ensures Follows(db, [pc] + pcs)
  {
    hide Accepted, Execute, Next;
    assert ([pc] + pcs)[1..] == pcs;
  }

  lemma EndFollows(db: Db)
    requires db.hasWorkspaceId
    ensures Follows(db, [AtBackfill] + ([AtUnlock(false)] + [Finished]))
  {
    hide Execute;
    assert Follows(Execute(Execute(db, AtBackfill), AtUnlock(false)), [Finished]);
    hide Follows;
    FollowsCons(Execute(db, AtBackfill), AtUnlock(false), [Finished]);
    FollowsCons(db, AtBackfill, [AtUnlock(false)] + [Finished]);
  }

  lemma TailFollows(db: Db)
    ensures Follows(db, [AtLabels, AtWorkspaceId, AtOwnerId, AtSeed, AtBackfill, AtUnlock(false), Finished])
  {
    hide Execute, Follows;
    var d1 := Execute(db, AtLabels);
    Flags(d1, AtWorkspaceId);
    var d2 := Execute(d1, AtWorkspaceId);
    Flags(d2, AtOwnerId);
    var d3 := Execute(d2, AtOwnerId);
    Flags(d3, AtSeed);
    var end := [AtBackfill] + ([AtUnlock(false)] + [Finished]);
    EndFollows(Execute(d3, AtSeed));
    FollowsCons(d3, AtSeed, end);
    FollowsCons(d2, AtOwnerId, [AtSeed] + end);
    FollowsCons(d1, AtWorkspaceId, [AtOwnerId] + ([AtSeed] + end));
    FollowsCons(db, AtLabels, [AtWorkspaceId] + ([AtOwnerId] + ([AtSeed] + end)));
    assert [AtLabels] + ([AtWorkspaceId] + ([AtOwnerId] + ([AtSeed] + end)))
        == [AtLabels, AtWorkspaceId, AtOwnerId, AtSeed, AtBackfill, AtUnlock(false), Finished];
  }

  /** What comes between reading the columns and adding the new ones. */
  function NotePart(db: Db): seq<Pc> {
    if db.hasDescription then (if db.hasNote then [AtCount, AtMerge, AtDrop] else [AtRename])
    else if db.hasNote then [] else [AtAddNote]
  }

  lemma NotePartFollows(db: Db, tail: seq<Pc>)
    requires tail != [] && tail[0] == AtLabels && forall d: Db :: Follows(d, tail)
    ensures Follows(db, NotePart(db) + tail) && (NotePart(db) + tail)[0] == Next(db, AtReadNote(db.hasDescription))
  {
    hide Execute, Follows;
    if db.hasDescription && db.hasNote {
      var d1 := Execute(db, AtCount);
      Flags(db, AtCount);
      Flags(d1, AtMerge);
      FollowsCons(Execute(d1, AtMerge), AtDrop, tail);
      FollowsCons(d1, AtMerge, [AtDrop] + tail);
      FollowsCons(db, AtCount, [AtMerge] + ([AtDrop] + tail));
      assert NotePart(db) + tail == [AtCount] + ([AtMerge] + ([AtDrop] + tail));
    } else if db.hasDescription {
      FollowsCons(db, AtRename, tail);
    } else if !db.hasNote {
      FollowsCons(db, AtAddNote, tail);
    } else {
      assert NotePart(db) + tail == tail;
    }
  }

  lemma ReadingExecutesNothing(db: Db, pc: Pc)
    requires pc.AtLock? || pc.AtReadDescription? || pc.AtReadNote?
    ensures Accepted(db, pc) && Execute(db, pc) == db
  {
  }

  lemma ReadsFollow(db: Db, all: seq<Pc>)
    requires all != [] && Follows(db, all) && all[0] == Next(db, AtReadNote(db.hasDescription))
    ensures Follows(db, [AtLock] + ([AtReadDescription] + ([AtReadNote(db.hasDescription)] + all)))
  {
    hide Follows;
    ReadingExecutesNothing(db, AtLock);
    ReadingExecutesNothing(db, AtReadDescription);
    ReadingExecutesNothing(db, AtReadNote(db.hasDescription));
    hide Execute, Accepted;
    FollowsCons(db, AtReadNote(db.hasDescription), all);
    FollowsCons(db, AtReadDescription, [AtReadNote(db.hasDescription)] + all);
    FollowsCons(db, AtLock, [AtReadDescription] + ([AtReadNote(db.hasDescription)] + all));
  }

  lemma AllTailsFollow(tail: seq<Pc>)
    requires tail == [AtLabels, AtWorkspaceId, AtOwnerId, AtSeed, AtBackfill, AtUnlock(false), Finished]
    ensures forall d: Db :: Follows(d, tail)
  {
    hide Follows;
    forall d: Db ensures Follows(d, tail) { TailFollows(d); }
  }

  /** The statements one replica executes, alone and undisturbed, whatever columns it finds. */
  lemma RunsThrough(db: Db)
    ensures Follows(db, StatementsOf(db))
  {
    hide Follows, Next, NotePart;
    var tail := [AtLabels, AtWorkspaceId, AtOwnerId, AtSeed, AtBackfill, AtUnlock(false), Finished];
    AllTailsFollow(tail);
    NotePartFollows(db, tail);
    ReadsFollow(db, NotePart(db) + tail);
    assert StatementsOf(db) == [AtLock] + ([AtReadDescription] + ([AtReadNote(db.hasDescription)] + (NotePart(db) + tail)));
  }

  /** The first branch of the migration: `description` becomes `note`. */
  function NoteColumn(db: Db): Db {
    if db.hasDescription && !db.hasNote then Renamed(db)
    else if db.hasDescription && db.hasNote then DescriptionDropped(Merged(db))
    else if !db.hasDescription && !db.hasNote then NoteAdded(db)
    else db
  }

  lemma NoteColumnKeeps(db: Db)
    requires WellFormed(db)
    ensures var d := NoteColumn(db); WellFormed(d) && Target(d) == Target(db) && !d.hasDescription && d.hasNote
  {
    StatementsKeepWellFormed(db);
    if db.hasDescription {
      MergeStepsKeepTarget(db);
      if db.hasNote {
        MergeStepsKeepTarget(Merged(db));
        StatementsKeepWellFormed(Merged(db));
      }
    }
  }

  lemma CompletedIsTarget(db: Db)
    requires WellFormed(db) && !db.hasDescription && db.hasNote
    ensures Backfilled(Seeded(OwnerIdAdded(WorkspaceIdAdded(LabelsAdded(db))))) == Target(db)
  {
    assert Backfilled(Seeded(OwnerIdAdded(WorkspaceIdAdded(LabelsAdded(db))))).rows == Target(db).rows;
  }

  /** The migration as one replica runs it, under the lock. */
  class Postgres {
    var db: Db

    constructor (db: Db)
      ensures this.db == db
    {
      this.db := db;
    }

    method ApplyMigrations()
      requires WellFormed(db)
      modifies this
      ensures db == Target(old(db))
    {
      hide WellFormed, Target;
      var descExists, noteExists := db.hasDescription, db.hasNote;
      NoteColumnKeeps(db);
      if descExists && !noteExists {
        db := Renamed(db);
      } else if descExists && noteExists {
        db := Merged(db);
        db := DescriptionDropped(db);
      } else if !descExists && !noteExists {
        db := NoteAdded(db);
      }
      assert db == NoteColumn(old(db));
      CompletedIsTarget(db);
      db := LabelsAdded(db);
      db := WorkspaceIdAdded(db);
      db := OwnerIdAdded(db);
      db := Seeded(db);
      db := Backfilled(db);
    }
  }
}

/** The SQLite schema migration: one process, each ALTER durable at once, the seed and the
    backfill in one transaction, and a process that may die after any statement. */
module SqliteMigration {
  import opened Prelude
  import opened Schema
  import PgMigration

  /** The table every complete run leaves.  Where `note` already exists `description` stays as it is. */
  function Target(db: Db): Db {
    Db(db.hasDescription && db.hasNote, true, true, true, true,
       map id | id in db.rows ::
         Row(if db.hasNote then db.rows[id].description else None,
             if db.hasNote then db.rows[id].note else db.rows[id].description,
             OrElse(db.rows[id].workspace, Some(DEFAULT_WORKSPACE_ID))),
       db.workspaces + {DEFAULT_WORKSPACE_ID})
  }

  function NoteStep(db: Db): Db {
    if db.hasNote then db else if db.hasDescription then Renamed(db) else NoteAdded(db)
  }

  /** The columns added after the note step, up to durable point `k`. */
  function ColumnsAdded(db: Db, k: nat): Db {
    db.(hasLabels := db.hasLabels || k >= 2, hasWorkspaceId := db.hasWorkspaceId || k >= 3,
        hasOwnerId := db.hasOwnerId || k >= 4)
  }

  /** What is durable when the process dies between durable points `k` and `k + 1`. */
  function Stage(db: Db, k: nat): Db {
    if k == 0 then db
    else if k < 5 then ColumnsAdded(NoteStep(db), k)
    else Backfilled(Seeded(ColumnsAdded(NoteStep(db), 4)))
  }

  /** What that table holds of each profile: where `note` was missing the description is the note now,
      where it was there both stay as they were; and its workspace, or the default one. */
  lemma TargetHolds(db: Db, id: string)
    ensures Target(db).rows.Keys == db.rows.Keys && Target(db).workspaces == db.workspaces + {"ws-default"}
    ensures PgMigration.Columns(Target(db))
            == {"note", "labels", "workspace_id", "owner_id"} + PgMigration.Columns(db) * (if db.hasNote then {"description"} else {})
    ensures id in db.rows ==>
              var was, now := db.rows[id], Target(db).rows[id];
              && (db.hasNote ==> now.note == was.note && now.description == was.description)
              && (!db.hasNote ==> now.note == was.description && now.description == None)
              && now.workspace == Some(if was.workspace.Some? then was.workspace.value else "ws-default")
  {
  }

  lemma NoteStepKeepsTarget(db: Db)
    requires WellFormed(db)
    ensures WellFormed(NoteStep(db)) && Target(NoteStep(db)) == Target(db)
  {
    assert Target(NoteStep(db)).rows == Target(db).rows;
  }

  lemma DataStepKeepsTarget(db: Db)
    requires WellFormed(db) && db.hasWorkspaceId && db.hasOwnerId
    ensures WellFormed(Backfilled(Seeded(db))) && Target(Backfilled(Seeded(db))) == Target(db)
  {
    assert Target(Backfilled(Seeded(db))).rows == Target(db).rows;
  }

  /** A run cut short anywhere does not change where the next complete run ends. */
  lemma StageKeepsTarget(db: Db, k: nat)
    requires WellFormed(db)
    ensures WellFormed(Stage(db, k)) && Target(Stage(db, k)) == Target(db)
  {
    NoteStepKeepsTarget(db);
    var d := ColumnsAdded(NoteStep(db), if k < 5 then k else 4);
    assert Target(d).rows == Target(NoteStep(db)).rows;
    if k >= 5 {
      DataStepKeepsTarget(d);
    }
  }

  lemma CompleteRunReachesTarget(db: Db)
    requires WellFormed(db)
    ensures Stage(db, 5) == Target(db)
  {
    NoteStepRows(db);
    var d := ColumnsAdded(NoteStep(db), 4);
    hide NoteStep, WellFormed;
    assert Backfilled(Seeded(d)).rows == Target(db).rows;
  }

  lemma NoteStepRows(db: Db)
    requires WellFormed(db)
    ensures var d := NoteStep(db);
            && d.hasDescription == (db.hasDescription && db.hasNote) && d.hasNote && d.hasLabels == db.hasLabels
            && d.hasWorkspaceId == db.hasWorkspaceId && d.hasOwnerId == db.hasOwnerId && d.workspaces == db.workspaces
            && d.rows.Keys == db.rows.Keys
            && forall id :: id in db.rows ==>
                 d.rows[id] == Row(if db.hasNote then db.rows[id].description else None,
                                   if db.hasNote then db.rows[id].note else db.rows[id].description, db.rows[id].workspace)
  {
  }

  /** What is durable at each point: the note column first, then one column after the other, then the
      rows; nothing but the columns changes before the last. */
  lemma StageColumns(db: Db, k: nat)
    requires WellFormed(db)
    ensures var d := Stage(db, k);
            && d.hasDescription == (db.hasDescription && (db.hasNote || k == 0)) && d.hasNote == (db.hasNote || k >= 1)
            && d.hasLabels == (db.hasLabels || k >= 2) && d.hasWorkspaceId == (db.hasWorkspaceId || k >= 3)
            && d.hasOwnerId == (db.hasOwnerId || k >= 4)
    ensures k == 0 ==> Stage(db, k) == db
    ensures k < 5 ==> Stage(db, k).workspaces == db.workspaces
    ensures k >= 5 ==> Stage(db, k) == Target(db)
  {
    NoteStepRows(db);
    hide NoteStep, WellFormed;
    if k >= 5 {
      CompleteRunReachesTarget(db);
      assert Stage(db, k) == Stage(db, 5);
    }
  }

  /** Runs that died at the given points, one after the other. */
  function Interrupted(db: Db, cuts: seq<nat>): Db {
    if cuts == [] then db else Stage(Interrupted(db, cuts[..|cuts| - 1]), cuts[|cuts| - 1])
  }

  /** From every legacy layout, any number of partial runs followed by a full one ends exactly
      where one undisturbed run ends, and a further run changes nothing. */
  lemma {:induction false} ResumesFromAnyCrash(db: Db, cuts: seq<nat>)
    requires WellFormed(db)
    ensures WellFormed(Interrupted(db, cuts))
    ensures Stage(Interrupted(db, cuts), 5) == Target(db)
    ensures Stage(Target(db), 5) == Target(db)
  {
    InterruptedKeepsTarget(db, cuts);
    CompleteRunReachesTarget(Interrupted(db, cuts));
    assert Target(Target(db)).rows == Target(db).rows;
    CompleteRunReachesTarget(Target(db));
  }

  lemma {:induction false} InterruptedKeepsTarget(db: Db, cuts: seq<nat>)
    requires WellFormed(db)
    ensures WellFormed(Interrupted(db, cuts)) && Target(Interrupted(db, cuts)) == Target(db)
  {
    if cuts != [] {
      InterruptedKeepsTarget(db, cuts[..|cuts| - 1]);
      StageKeepsTarget(Interrupted(db, cuts[..|cuts| - 1]), cuts[|cuts| - 1]);
    }
  }

  /** The two backends agree on every note exactly when no description would have to be merged
      into an existing note column. */
  lemma BackendsAgreeOnNotes(db: Db)
    requires WellFormed(db)
    ensures (forall id :: id in db.rows ==> Target(db).rows[id].note == PgMigration.Target(db).rows[id].note)
            <==> !(db.hasNote && exists id :: id in db.rows && db.rows[id].note.None? && db.rows[id].description.Some?)
  {
    forall id | id in db.rows
      ensures Target(db).rows[id].note == PgMigration.Target(db).rows[id].note
              <==> !(db.hasNote && db.rows[id].note.None? && db.rows[id].description.Some?)
    {
    }
  }

  class Sqlite {
    var durable: Db
    var pending: Option<Db>   // the open transaction

    constructor (db: Db)
      ensures durable == db && pending == None
    {
      durable, pending := db, None;
    }

    /** Runs the migration; the process dies before or after any statement, `dieAt` of seven says which,
        or not at all; dying loses `pending`. */
    method ApplyMigrations(dieAt: nat) returns (completed: bool, ghost stage: nat)
      requires WellFormed(durable) && pending.None?
      modifies this
      ensures stage == if dieAt >= 7 then 5 else if dieAt >= 4 then 4 else dieAt
      ensures durable == Stage(old(durable), stage) && pending.None?
      ensures completed <==> dieAt >= 7
      ensures completed ==> durable == Target(old(durable))
    {
      ghost var db0 := durable;
      completed, stage := false, 0;
      if dieAt == 0 { return; }
      if !durable.hasNote {
        if durable.hasDescription {
          durable := Renamed(durable);
        } else {
          durable := NoteAdded(durable);
        }
      }
      stage := 1;
      if dieAt == 1 { return; }
      if !durable.hasLabels {
        durable := LabelsAdded(durable);
      }
      stage := 2;
      if dieAt == 2 { return; }
      if !durable.hasWorkspaceId {
        durable := WorkspaceIdAdded(durable);
      }
      stage := 3;
      if dieAt == 3 { return; }
      if !durable.hasOwnerId {
        durable := OwnerIdAdded(durable);
      }
      stage := 4;
      if dieAt == 4 { return; }
      pending := Some(Seeded(durable));
      if dieAt == 5 { pending := None; return; }
      pending := Some(Backfilled(pending.value));
      if dieAt == 6 { pending := None; return; }
      durable, pending := pending.value, None;
      completed, stage := true, 5;
      CompleteRunReachesTarget(db0);
    }
  }
}

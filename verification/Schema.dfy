/** The two tables the schema migrations touch, and the statements they issue.
    A column that does not exist holds None in every row. */
module Schema {
  import opened Prelude

  const DEFAULT_WORKSPACE_ID := "ws-default"

  datatype Row = Row(description: Option<string>, note: Option<string>, workspace: Option<string>)

  datatype Db = Db(
    hasDescription: bool,
    hasNote: bool,
    hasLabels: bool,
    hasWorkspaceId: bool,
    hasOwnerId: bool,           // of the workspaces table
    rows: map<string, Row>,     // connections by id
    workspaces: set<string>)

  predicate WellFormed(db: Db) {
    && (!db.hasDescription ==> forall id :: id in db.rows ==> db.rows[id].description.None?)
    && (!db.hasNote ==> forall id :: id in db.rows ==> db.rows[id].note.None?)
    && (!db.hasWorkspaceId ==> forall id :: id in db.rows ==> db.rows[id].workspace.None?)
  }

  function OrElse(a: Option<string>, b: Option<string>): Option<string> { if a.Some? then a else b }

  // ----- statements; the requires is what the SQL engine demands --------------

  function Renamed(db: Db): Db
    requires db.hasDescription && !db.hasNote
  {
    db.(hasDescription := false, hasNote := true,
        rows := map id | id in db.rows :: db.rows[id].(description := None, note := db.rows[id].description))
  }

  /** UPDATE connections SET note = description WHERE note IS NULL */
  function Merged(db: Db): Db
    requires db.hasDescription && db.hasNote
  {
    db.(rows := map id | id in db.rows :: db.rows[id].(note := OrElse(db.rows[id].note, db.rows[id].description)))
  }

  function DescriptionDropped(db: Db): Db
    requires db.hasDescription
  {
    db.(hasDescription := false, rows := map id | id in db.rows :: db.rows[id].(description := None))
  }

  function NoteAdded(db: Db): Db
    requires !db.hasNote
  {
    db.(hasNote := true)
  }

  function LabelsAdded(db: Db): Db { db.(hasLabels := true) }

  function WorkspaceIdAdded(db: Db): Db { db.(hasWorkspaceId := true) }

  function OwnerIdAdded(db: Db): Db { db.(hasOwnerId := true) }

  /** INSERT of the default workspace, ignored when it is there. */
  function Seeded(db: Db): Db
    requires db.hasOwnerId
  {
    db.(workspaces := db.workspaces + {DEFAULT_WORKSPACE_ID})
  }

  /** UPDATE connections SET workspace_id = default WHERE workspace_id IS NULL */
  function Backfilled(db: Db): Db
    requires db.hasWorkspaceId
  {
    db.(rows := map id | id in db.rows ::
                  db.rows[id].(workspace := OrElse(db.rows[id].workspace, Some(DEFAULT_WORKSPACE_ID))))
  }

  lemma StatementsKeepWellFormed(db: Db)
    requires WellFormed(db)
    ensures db.hasDescription && !db.hasNote ==> WellFormed(Renamed(db))
    ensures db.hasDescription && db.hasNote ==> WellFormed(Merged(db))
    ensures db.hasDescription ==> WellFormed(DescriptionDropped(db))
    ensures !db.hasNote ==> WellFormed(NoteAdded(db))
    ensures WellFormed(LabelsAdded(db)) && WellFormed(WorkspaceIdAdded(db)) && WellFormed(OwnerIdAdded(db))
    ensures db.hasOwnerId ==> WellFormed(Seeded(db))
    ensures db.hasWorkspaceId ==> WellFormed(Backfilled(db))
  {
  }
}

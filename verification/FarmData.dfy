/** The farms database: four tables joined by nullable foreign keys, their
    sequences, and the outbox rows that are committed with new records. */
module FarmData {
  import opened Prelude

  type Id = int
  type User = int

  datatype Kind = Farms | Crops | Activities | Harvests

  datatype Ref = Ref(kind: Kind, id: Id)

  /** One shape for the rows of all four tables. `userId` is the farms column;
      `parent` is a crop's `farmId` and an activity's or harvest's `cropId`;
      `name` is kept apart for farms only, `info` stands for the other columns. */
  datatype Row = Row(userId: Option<User>, parent: Option<Id>, name: string, info: string)

  type Rows = map<Ref, Row>

  /** A creation event as the outbox stores it. */
  datatype Event = Event(ref: Ref, crop: Id, farm: Option<Id>, user: Option<User>)

  /** `used` counts the ids each table's sequence has handed out. */
  datatype Db = Db(rows: Rows, used: map<Kind, nat>, events: seq<Event>)

  function Rank(kind: Kind): nat {
    match kind
    case Farms => 0
    case Crops => 1
    case _ => 2
  }

  function ParentKind(kind: Kind): Kind {
    if kind.Activities? || kind.Harvests? then Crops else Farms
  }

  function ParentRef(ref: Ref, row: Row): Option<Ref> {
    if ref.kind.Farms? || row.parent.None? then None else Some(Ref(ParentKind(ref.kind), row.parent.value))
  }

  /** The user at the end of the chain of relations, if the chain is complete. */
  function OwnerOf(rows: Rows, ref: Ref): Option<User>
    decreases Rank(ref.kind)
  {
    if ref !in rows then None
    else if ref.kind.Farms? then rows[ref].userId
    else if rows[ref].parent.None? then None
    else OwnerOf(rows, Ref(ParentKind(ref.kind), rows[ref].parent.value))
  }

  function NextId(db: Db, kind: Kind): Id {
    Count(db.used, kind) + 1
  }

  // ---- Queries and constraints -------------------------------------------------

  predicate NameTaken(rows: Rows, name: string, user: User) {
    exists ref :: ref in rows && ref.kind.Farms? && rows[ref].name == name && rows[ref].userId == Some(user)
  }

  /** Another farm, of whatever owner, has the name. */
  predicate NameElsewhere(rows: Rows, name: string, farm: Id) {
    exists ref :: ref in rows && ref.kind.Farms? && ref.id != farm && rows[ref].name == name
  }

  predicate HasHarvest(rows: Rows, crop: Id) {
    exists ref :: ref in rows && ref.kind.Harvests? && rows[ref].parent == Some(crop)
  }

  predicate HasChildren(rows: Rows, ref: Ref) {
    exists child :: child in rows && ParentRef(child, rows[child]) == Some(ref)
  }

  /** Every foreign key that is set points at a row. */
  ghost predicate ForeignKeys(rows: Rows) {
    forall ref :: ref in rows && ParentRef(ref, rows[ref]).Some? ==> ParentRef(ref, rows[ref]).value in rows
  }

  ghost predicate UniqueNames(rows: Rows) {
    forall a, b :: (a in rows && b in rows && a.kind.Farms? && b.kind.Farms? && rows[a].userId.Some?
                    && rows[a].name == rows[b].name && rows[a].userId == rows[b].userId) ==> a == b
  }

  // ---- Single statements and transactions ----------------------------------------

  /** A new row of a farm, crop, activity or harvest. */
  function FarmRow(user: User, name: string, info: string): Row {
    Row(Some(user), None, name, info)
  }

  function ChildRow(parent: Id, info: string): Row {
    Row(None, Some(parent), "", info)
  }

  /** INSERT INTO farms, refused when the owner has the name already. The
      sequence moves on either way. */
  function InsertFarm(db: Db, user: User, name: string, info: string): Db {
    var db' := db.(used := Bump(db.used, Farms));
    if NameTaken(db.rows, name, user) then db'
    else db'.(rows := db.rows[Ref(Farms, NextId(db, Farms)) := FarmRow(user, name, info)])
  }

  function Renamed(row: Row, name: Option<string>, info: Option<string>): Row {
    row.(name := if name.Some? then name.value else row.name, info := if info.Some? then info.value else row.info)
  }

  /** The owner has another farm with this row's name. */
  predicate Clashes(rows: Rows, ref: Ref, row: Row) {
    row.userId.Some? && exists other :: other in rows && other != ref && other.kind.Farms?
                                         && rows[other].name == row.name && rows[other].userId == row.userId
  }

  /** UPDATE farms SET ... WHERE id, refused by the unique constraint, and an
      error when there is nothing to set. */
  function UpdateFarmRow(db: Db, farm: Id, name: Option<string>, info: Option<string>): Db {
    var ref := Ref(Farms, farm);
    if ref !in db.rows || (name.None? && info.None?) || Clashes(db.rows, ref, Renamed(db.rows[ref], name, info)) then db
    else db.(rows := db.rows[ref := Renamed(db.rows[ref], name, info)])
  }

  /** `save` of a loaded entity: writes it back, or inserts it again when the
      row has gone in between; its foreign key must still point at a row. */
  function SaveRow(db: Db, ref: Ref, row: Row): Db {
    if ParentRef(ref, row).Some? && ParentRef(ref, row).value !in db.rows then db
    else db.(rows := db.rows[ref := row])
  }

  /** `remove` of a loaded entity, refused while children point at it. */
  function RemoveRow(db: Db, ref: Ref): Db {
    if HasChildren(db.rows, ref) then db else db.(rows := db.rows - {ref})
  }

  /** The event of a new crop, activity or harvest under an asserted parent. */
  function CreationEvent(kind: Kind, id: Id, parent: Id, parentRow: Row, user: User): Event {
    Event(Ref(kind, id), if kind.Crops? then id else parent, if kind.Crops? then Some(parent) else parentRow.parent, Some(user))
  }

  /** The committed transaction: the row and its event together. */
  function CommitCreation(db: Db, kind: Kind, id: Id, parent: Id, info: string, event: Event): Db {
    db.(rows := db.rows[Ref(kind, id) := ChildRow(parent, info)], events := db.events + [event])
  }
}

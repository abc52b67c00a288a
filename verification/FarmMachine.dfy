/** The farms handlers as a labelled machine: any number of consumers serve
    requests, every query, statement and commit is a step, and a handler may
    fail at any of them. */
module FarmMachine {
  import opened Prelude
  import opened Runs
  import opened FarmData

  type Consumer = nat

  datatype Op =
    | CreateFarm(name: string, info: string)
    | UpdateFarm(farm: Id, newName: Option<string>, newInfo: Option<string>)
    | CreateUnder(kind: Kind, parent: Id, info: string)
    | Update(ref: Ref, info: string)
    | Delete(ref: Ref)

  /** How far a handler is. `row` is the entity the ownership check loaded, or
      the farm about to be inserted. */
  datatype Phase =
    | Start
    | Owned(row: Row)
    | Clear(row: Row)
    | Inserted(row: Row, id: Id)
    | Enqueued(row: Row, id: Id)

  datatype Task = Task(user: User, op: Op, phase: Phase)

  /** `born` is history: every row that ever was, as first committed. */
  datatype State = State(db: Db, tasks: map<Consumer, Task>, born: Rows)

  datatype Label =
    | Request(c: Consumer, user: User, op: Op)
    | Check(c: Consumer)
    | CheckFree(c: Consumer)
    | Insert(c: Consumer)
    | Enqueue(c: Consumer)
    | Commit(c: Consumer)
    | Write(c: Consumer)
    | Abort(c: Consumer)

  /** The row whose owner is asserted. */
  function Target(op: Op): Option<Ref> {
    match op
    case CreateFarm(_, _) => None
    case UpdateFarm(farm, _, _) => Some(Ref(Farms, farm))
    case CreateUnder(kind, parent, _) => Some(Ref(ParentKind(kind), parent))
    case Update(ref, _) => Some(ref)
    case Delete(ref) => Some(ref)
  }

  predicate OpOk(op: Op) {
    && (op.CreateUnder? ==> !op.kind.Farms?)
    && (op.Update? ==> !op.ref.kind.Farms?)
  }

  /** The handler looks for a clash before it writes. */
  predicate Looks(op: Op) {
    op.UpdateFarm? || (op.CreateUnder? && op.kind.Harvests?)
  }

  predicate InTransaction(p: Phase) {
    p.Inserted? || p.Enqueued?
  }

  /** A key-share lock: an open transaction inserted a child of the row. */
  ghost predicate Locked(s: State, ref: Ref) {
    exists c :: c in s.tasks && InTransaction(s.tasks[c].phase) && Target(s.tasks[c].op) == Some(ref)
  }

  ghost predicate WriteReady(s: State, t: Task) {
    match t.op
    case CreateFarm(_, _) => t.phase.Clear?
    case UpdateFarm(_, _, _) => t.phase.Clear?
    case CreateUnder(_, _, _) => false
    case Update(_, _) => t.phase.Owned?
    case Delete(ref) => t.phase.Owned? && !Locked(s, ref)
  }

  ghost predicate Enabled(s: State, l: Label) {
    match l
    case Request(c, _, op) => c !in s.tasks && OpOk(op)
    case Check(c) => c in s.tasks && s.tasks[c].phase.Start?
    case CheckFree(c) => c in s.tasks && s.tasks[c].phase.Owned? && Looks(s.tasks[c].op)
    case Insert(c) =>
      c in s.tasks && s.tasks[c].op.CreateUnder? && (if Looks(s.tasks[c].op) then s.tasks[c].phase.Clear? else s.tasks[c].phase.Owned?)
    case Enqueue(c) => c in s.tasks && s.tasks[c].phase.Inserted?
    case Commit(c) => c in s.tasks && s.tasks[c].phase.Enqueued? && s.tasks[c].op.CreateUnder?
    case Write(c) => c in s.tasks && WriteReady(s, s.tasks[c])
    case Abort(c) => c in s.tasks
  }

  function At(s: State, c: Consumer, p: Phase): State
    requires c in s.tasks
  {
    s.(tasks := s.tasks[c := s.tasks[c].(phase := p)])
  }

  function Finished(s: State, c: Consumer): State {
    s.(tasks := s.tasks - {c})
  }

  /** The four `assert...Owner` methods: missing or someone else's is refused. */
  predicate Asserts(rows: Rows, user: User, ref: Ref) {
    ref in rows && OwnerOf(rows, ref) == Some(user)
  }

  function Checked(s: State, c: Consumer): State
    requires c in s.tasks
  {
    var t := s.tasks[c];
    match Target(t.op)
    case Some(ref) => if Asserts(s.db.rows, t.user, ref) then At(s, c, Owned(s.db.rows[ref])) else Finished(s, c)
    case None =>
      if NameTaken(s.db.rows, t.op.name, t.user) then Finished(s, c) else At(s, c, Clear(FarmRow(t.user, t.op.name, t.op.info)))
  }

  /** `updateFarm` skips the look-up for a missing or empty name. */
  function LookedUp(s: State, c: Consumer): State
    requires c in s.tasks && s.tasks[c].phase.Owned? && Looks(s.tasks[c].op)
  {
    var op := s.tasks[c].op;
    var clash := if op.UpdateFarm? then op.newName.Some? && op.newName.value != "" && NameElsewhere(s.db.rows, op.newName.value, op.farm)
                 else HasHarvest(s.db.rows, op.parent);
    if clash then Finished(s, c) else At(s, c, Clear(s.tasks[c].phase.row))
  }

  function RowInserted(s: State, c: Consumer): State
    requires c in s.tasks && s.tasks[c].op.CreateUnder? && (s.tasks[c].phase.Clear? || s.tasks[c].phase.Owned?)
  {
    var op, p := s.tasks[c].op, s.tasks[c].phase;
    var s' := s.(db := s.db.(used := Bump(s.db.used, op.kind)));
    if Ref(ParentKind(op.kind), op.parent) in s.db.rows then At(s', c, Inserted(p.row, NextId(s.db, op.kind))) else Finished(s', c)
  }

  function Committed(s: State, c: Consumer): State
    requires c in s.tasks && s.tasks[c].op.CreateUnder? && s.tasks[c].phase.Enqueued?
  {
    var t := s.tasks[c];
    var ref := Ref(t.op.kind, t.phase.id);
    var event := CreationEvent(t.op.kind, t.phase.id, t.op.parent, t.phase.row, t.user);
    Finished(s, c).(db := CommitCreation(s.db, t.op.kind, t.phase.id, t.op.parent, t.op.info, event),
                    born := s.born[ref := ChildRow(t.op.parent, t.op.info)])
  }

  /** The database after a single-statement write. */
  function Written(db: Db, user: User, op: Op, row: Row): Db {
    match op
    case CreateFarm(name, info) => InsertFarm(db, user, name, info)
    case UpdateFarm(farm, name, info) => UpdateFarmRow(db, farm, name, info)
    case CreateUnder(_, _, _) => db
    case Update(ref, info) => SaveRow(db, ref, row.(info := info))
    case Delete(ref) => RemoveRow(db, ref)
  }

  function Wrote(s: State, c: Consumer): State
    requires c in s.tasks && (s.tasks[c].phase.Clear? || s.tasks[c].phase.Owned?)
  {
    var t := s.tasks[c];
    var db' := Written(s.db, t.user, t.op, t.phase.row);
    var ref := Ref(Farms, NextId(s.db, Farms));
    Finished(s, c).(db := db', born := if t.op.CreateFarm? && ref in db'.rows then s.born[ref := db'.rows[ref]] else s.born)
  }

  ghost function Next(s: State, l: Label): State
    requires Enabled(s, l)
  {
    match l
    case Request(c, user, op) => s.(tasks := s.tasks[c := Task(user, op, Start)])
    case Check(c) => Checked(s, c)
    case CheckFree(c) => LookedUp(s, c)
    case Insert(c) => RowInserted(s, c)
    case Enqueue(c) => At(s, c, Enqueued(s.tasks[c].phase.row, s.tasks[c].phase.id))
    case Commit(c) => Committed(s, c)
    case Write(c) => Wrote(s, c)
    case Abort(c) => Finished(s, c)
  }

  ghost function System(): Machine<State, Label> {
    Machine((s, l) => Enabled(s, l), (s, l) => if Enabled(s, l) then Next(s, l) else s)
  }
}

/** What a call of the farms services does, and the law it keeps: what it
    replies, what it writes and when it refuses. */
module FarmCalls {
  import opened Prelude
  import opened FarmData
  import opened FarmMachine

  datatype Denial = NotFound | Forbidden | Conflict | Rejected

  type Reply = Result<Id, Denial>

  // ---- What a call does ----------------------------------------------------------

  function AssertOwner(rows: Rows, user: User, ref: Ref): Result<Row, Denial> {
    if ref !in rows then Err(NotFound)
    else if OwnerOf(rows, ref) != Some(user) then Err(Forbidden)
    else Ok(rows[ref])
  }

  /** `commits` says whether the creation transaction gets through. */
  function Create(db: Db, user: User, kind: Kind, parent: Id, info: string, commits: bool): (Db, Reply) {
    var owned := AssertOwner(db.rows, user, Ref(ParentKind(kind), parent));
    if owned.Err? then (db, Err(owned.error))
    else if kind.Harvests? && HasHarvest(db.rows, parent) then (db, Err(Conflict))
    else
      var id, db' := NextId(db, kind), db.(used := Bump(db.used, kind));
      if commits then (CommitCreation(db', kind, id, parent, info, CreationEvent(kind, id, parent, owned.value, user)), Ok(id))
      else (db', Err(Rejected))
  }

  function Change(db: Db, user: User, ref: Ref, info: string): (Db, Reply) {
    var owned := AssertOwner(db.rows, user, ref);
    if owned.Err? then (db, Err(owned.error))
    else (db.(rows := db.rows[ref := owned.value.(info := info)]), Ok(ref.id))
  }

  function Remove(db: Db, user: User, ref: Ref): (Db, Reply) {
    var owned := AssertOwner(db.rows, user, ref);
    if owned.Err? then (db, Err(owned.error))
    else (RemoveRow(db, ref), if HasChildren(db.rows, ref) then Err(Rejected) else Ok(ref.id))
  }

  function NewFarm(db: Db, user: User, name: string, info: string): (Db, Reply) {
    if NameTaken(db.rows, name, user) then (db, Err(Conflict))
    else (InsertFarm(db, user, name, info), Ok(NextId(db, Farms)))
  }

  function ChangeFarm(db: Db, user: User, farm: Id, name: Option<string>, info: Option<string>): (Db, Reply) {
    var ref := Ref(Farms, farm);
    var owned := AssertOwner(db.rows, user, ref);
    if owned.Err? then (db, Err(owned.error))
    else if name.Some? && name.value != "" && NameElsewhere(db.rows, name.value, farm) then (db, Err(Conflict))
    else
      (UpdateFarmRow(db, farm, name, info),
       if (name.None? && info.None?) || Clashes(db.rows, ref, Renamed(owned.value, name, info)) then Err(Rejected) else Ok(farm))
  }

  function Serve(db: Db, user: User, op: Op, commits: bool): (Db, Reply) {
    match op
    case CreateFarm(name, info) => NewFarm(db, user, name, info)
    case UpdateFarm(farm, name, info) => ChangeFarm(db, user, farm, name, info)
    case CreateUnder(kind, parent, info) => Create(db, user, kind, parent, info, commits)
    case Update(ref, info) => Change(db, user, ref, info)
    case Delete(ref) => Remove(db, user, ref)
  }

  /** An entity whose owner was asserted a moment ago can be saved. */
  lemma OwnedCanBeSaved(db: Db, user: User, ref: Ref, info: string)
    requires AssertOwner(db.rows, user, ref).Ok?
    ensures SaveRow(db, ref, db.rows[ref].(info := info)) == Change(db, user, ref, info).0
  {
    if ParentRef(ref, db.rows[ref]).Some? {
      assert OwnerOf(db.rows, ref) == OwnerOf(db.rows, ParentRef(ref, db.rows[ref]).value);
    }
  }

  lemma LeavesHaveNoChildren(rows: Rows, ref: Ref)
    requires ref.kind.Activities? || ref.kind.Harvests?
    ensures !HasChildren(rows, ref)
  {
  }

  // ---- What a caller can rely on -----------------------------------------------------

  ghost predicate FarmIsOf(rows: Rows, farm: Option<Id>, user: User) {
    farm.Some? && Ref(Farms, farm.value) in rows && rows[Ref(Farms, farm.value)].userId == Some(user)
  }

  /** The row is there, and so is every relation up to a farm of the user. */
  ghost predicate Owns(rows: Rows, user: User, ref: Ref) {
    && ref in rows
    && match ref.kind
       case Farms => rows[ref].userId == Some(user)
       case Crops => FarmIsOf(rows, rows[ref].parent, user)
       case _ =>
         && rows[ref].parent.Some? && Ref(Crops, rows[ref].parent.value) in rows
         && FarmIsOf(rows, rows[Ref(Crops, rows[ref].parent.value)].parent, user)
  }

  lemma OwnsIsAsserted(rows: Rows, user: User, ref: Ref)
    ensures Owns(rows, user, ref) <==> ref in rows && OwnerOf(rows, ref) == Some(user)
  {
    if ref in rows && !ref.kind.Farms? && rows[ref].parent.Some? {
      var up := Ref(ParentKind(ref.kind), rows[ref].parent.value);
      assert OwnerOf(rows, ref) == OwnerOf(rows, up);
      if up in rows && !up.kind.Farms? && rows[up].parent.Some? {
        assert OwnerOf(rows, up) == OwnerOf(rows, Ref(Farms, rows[up].parent.value));
      }
    }
  }

  ghost predicate Unchanged(db: Db, db': Db) {
    db'.rows == db.rows && db'.events == db.events
  }

  /** A missing row is not found, someone else's is forbidden, and nothing
      changes; otherwise the call goes on. */
  ghost predicate Refused(db: Db, db': Db, reply: Reply, user: User, ref: Ref) {
    db' == db && reply == if ref in db.rows then Err(Forbidden) else Err(NotFound)
  }

  /** A farm's name, owner and other columns are what was given; refused exactly
      when the owner has a farm of that name. */
  ghost predicate CreateFarmLaw(db: Db, db': Db, reply: Reply, user: User, name: string, info: string) {
    if exists f: Ref :: f in db.rows && f.kind.Farms? && db.rows[f].name == name && db.rows[f].userId == Some(user)
    then db' == db && reply == Err(Conflict)
    else
      && reply.Ok? && db'.rows == db.rows[Ref(Farms, reply.value) := Row(Some(user), None, name, info)]
      && db'.events == db.events
  }

  /** Given columns are replaced, the others stay; refused when any other farm has
      the new non-empty name, when nothing is given, and when the owner has
      another farm of the resulting name. */
  ghost predicate UpdateFarmLaw(db: Db, db': Db, reply: Reply, user: User, farm: Id, name: Option<string>, info: Option<string>) {
    var ref := Ref(Farms, farm);
    if !Owns(db.rows, user, ref) then Refused(db, db', reply, user, ref)
    else if name.Some? && name.value != "" && exists f: Ref :: f in db.rows && f.kind.Farms? && f.id != farm && db.rows[f].name == name.value
    then db' == db && reply == Err(Conflict)
    else
      var row := db.rows[ref];
      var name', info' := if name.Some? then name.value else row.name, if info.Some? then info.value else row.info;
      if (name.None? && info.None?)
         || exists f: Ref :: f in db.rows && f != ref && f.kind.Farms? && db.rows[f].name == name' && db.rows[f].userId == Some(user)
      then Unchanged(db, db') && reply == Err(Rejected)
      else
        && reply == Ok(farm) && db'.rows == db.rows[ref := Row(row.userId, row.parent, name', info')] && db'.events == db.events
  }

  /** A crop, activity or harvest under an owned parent, with the given columns,
      and its event; refused when the crop has a harvest, and when the
      transaction fails. */
  ghost predicate CreateLaw(db: Db, db': Db, reply: Reply, user: User, kind: Kind, parent: Id, info: string, commits: bool) {
    var above := Ref(if kind.Crops? then Farms else Crops, parent);
    if !Owns(db.rows, user, above) then Refused(db, db', reply, user, above)
    else if kind.Harvests? && exists h: Ref :: h in db.rows && h.kind.Harvests? && db.rows[h].parent == Some(parent)
    then db' == db && reply == Err(Conflict)
    else if !commits then Unchanged(db, db') && reply == Err(Rejected)
    else
      && reply.Ok? && db'.rows == db.rows[Ref(kind, reply.value) := Row(None, Some(parent), "", info)]
      && db'.events == db.events + [if kind.Crops? then Event(Ref(kind, reply.value), reply.value, Some(parent), Some(user))
                                    else Event(Ref(kind, reply.value), parent, db.rows[above].parent, Some(user))]
  }

  /** The given columns are stored; owner, parent and name stay. */
  ghost predicate UpdateLaw(db: Db, db': Db, reply: Reply, user: User, ref: Ref, info: string) {
    if !Owns(db.rows, user, ref) then Refused(db, db', reply, user, ref)
    else
      var row := db.rows[ref];
      reply == Ok(ref.id) && db'.rows == db.rows[ref := Row(row.userId, row.parent, row.name, info)] && db'.events == db.events
  }

  /** The row is gone, unless a row refers to it. */
  ghost predicate DeleteLaw(db: Db, db': Db, reply: Reply, user: User, ref: Ref) {
    if !Owns(db.rows, user, ref) then Refused(db, db', reply, user, ref)
    else if exists child: Ref :: child in db.rows && db.rows[child].parent == Some(ref.id)
              && ((ref.kind.Farms? && child.kind.Crops?) || (ref.kind.Crops? && (child.kind.Activities? || child.kind.Harvests?)))
    then db' == db && reply == Err(Rejected)
    else reply == Ok(ref.id) && db'.rows == db.rows - {ref} && db'.events == db.events
  }

  lemma NewFarmFacts(db: Db, user: User, name: string, info: string)
    ensures var (db', reply) := NewFarm(db, user, name, info);
      && CreateFarmLaw(db, db', reply, user, name, info)
      && (reply.Err? ==> db' == db)
      && (reply.Ok? ==> reply.value == NextId(db, Farms) && db'.rows.Keys == db.rows.Keys + {Ref(Farms, reply.value)})
  {
  }

  lemma ChangeFarmFacts(db: Db, user: User, farm: Id, name: Option<string>, info: Option<string>)
    ensures var (db', reply) := ChangeFarm(db, user, farm, name, info);
      && UpdateFarmLaw(db, db', reply, user, farm, name, info)
      && (reply.Err? ==> Unchanged(db, db'))
      && (reply.Ok? ==> reply.value == farm && Ref(Farms, farm) in db.rows && db'.rows.Keys == db.rows.Keys)
  {
    var ref := Ref(Farms, farm);
    OwnsIsAsserted(db.rows, user, ref);
    if ref in db.rows { ClashIff(db.rows, ref, Renamed(db.rows[ref], name, info)); }
    hide Clashes, OwnerOf;
  }

  lemma ClashIff(rows: Rows, ref: Ref, row: Row)
    ensures Clashes(rows, ref, row)
            <==> row.userId.Some? && exists f: Ref :: f in rows && f != ref && f.kind.Farms? && rows[f].name == row.name && rows[f].userId == row.userId
  {
  }

  lemma ChangeFacts(db: Db, user: User, ref: Ref, info: string)
    ensures var (db', reply) := Change(db, user, ref, info);
      UpdateLaw(db, db', reply, user, ref, info) && (reply.Err? ==> db' == db) && (reply.Ok? ==> reply.value == ref.id)
  {
    OwnsIsAsserted(db.rows, user, ref);
    hide OwnerOf;
  }

  lemma CreateFacts(db: Db, user: User, kind: Kind, parent: Id, info: string, commits: bool)
    requires !kind.Farms?
    ensures var (db', reply) := Create(db, user, kind, parent, info, commits);
      && CreateLaw(db, db', reply, user, kind, parent, info, commits)
      && (reply.Err? ==> Unchanged(db, db'))
      && (reply.Ok? ==> reply.value == NextId(db, kind) && db'.rows.Keys == db.rows.Keys + {Ref(kind, reply.value)})
  {
    OwnsIsAsserted(db.rows, user, Ref(ParentKind(kind), parent));
    hide OwnerOf;
  }

  lemma RemoveFacts(db: Db, user: User, ref: Ref)
    ensures var (db', reply) := Remove(db, user, ref);
      DeleteLaw(db, db', reply, user, ref) && (reply.Err? ==> Unchanged(db, db')) && (reply.Ok? ==> reply.value == ref.id)
  {
    OwnsIsAsserted(db.rows, user, ref);
    hide OwnerOf;
    ChildrenIff(db.rows, ref);
    hide HasChildren;
  }

  lemma ChildrenIff(rows: Rows, ref: Ref)
    ensures HasChildren(rows, ref)
            <==> exists child: Ref :: child in rows && rows[child].parent == Some(ref.id)
                   && ((ref.kind.Farms? && child.kind.Crops?) || (ref.kind.Crops? && (child.kind.Activities? || child.kind.Harvests?)))
  {
    if HasChildren(rows, ref) {
      var child :| child in rows && ParentRef(child, rows[child]) == Some(ref);
      assert rows[child].parent == Some(ref.id);
    }
    if child: Ref :| child in rows && rows[child].parent == Some(ref.id)
                     && ((ref.kind.Farms? && child.kind.Crops?) || (ref.kind.Crops? && (child.kind.Activities? || child.kind.Harvests?))) {
      assert ParentRef(child, rows[child]) == Some(ref);
    }
  }
}

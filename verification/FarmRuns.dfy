/** Particular runs of the farms machine: a call that nothing interrupts, and
    two harvest requests that overlap. */
module FarmRuns {
  import opened Prelude
  import opened Runs
  import opened FarmData
  import opened FarmMachine
  import opened FarmCalls
  import FarmSafety
  import FarmEvents

  /** `s` with consumer `c` at work. */
  function Busy(s: State, c: Consumer, user: User, op: Op, p: Phase): State {
    s.(tasks := s.tasks[c := Task(user, op, p)])
  }

  lemma BusyMoves(s: State, c: Consumer, user: User, op: Op, p: Phase, q: Phase)
    ensures At(Busy(s, c, user, op, p), c, q) == Busy(s, c, user, op, q)
    ensures c !in s.tasks ==> Finished(Busy(s, c, user, op, p), c) == s
  {
    assert s.tasks[c := Task(user, op, p)][c := Task(user, op, q)] == s.tasks[c := Task(user, op, q)];
    assert c !in s.tasks ==> s.tasks[c := Task(user, op, p)] - {c} == s.tasks;
  }

  /** A run that starts in `s`, ends in `t`, and is all consumer `c`'s. */
  ghost predicate Leads(s: State, ls: seq<Label>, t: State, c: Consumer) {
    Valid(System(), s, ls) && Exec(System(), s, ls) == t && Only(ls, (l: Label) => l.c == c)
  }

  lemma Goes(s: State, ls: seq<Label>, t: State, c: Consumer, l: Label, t': State) returns (ls': seq<Label>)
    requires Leads(s, ls, t, c) && l.c == c && Enabled(t, l) && Next(t, l) == t'
    ensures Leads(s, ls', t', c)
  {
    Extend(System(), s, ls, l);
    ls' := ls + [l];
  }

  /** The request arrives and the first check is made. */
  lemma Opens(s: State, c: Consumer, user: User, op: Op) returns (ls: seq<Label>)
    requires c !in s.tasks && OpOk(op)
    ensures Leads(s, ls, Checked(Busy(s, c, user, op, Start), c), c)
  {
    TwoSteps(System(), s, Request(c, user, op), Check(c));
    ls := [Request(c, user, op), Check(c)];
  }

  /** What the checks of a lone call lead to: the reply, or the write. */
  lemma ChecksDone(s: State, c: Consumer, user: User, op: Op) returns (ls: seq<Label>, p: Option<Phase>)
    requires c !in s.tasks && OpOk(op)
    ensures p == None ==> Leads(s, ls, s, c) && Serve(s.db, user, op, true).0 == Serve(s.db, user, op, false).0 == s.db
    ensures p.Some? ==>
              && Leads(s, ls, Busy(s, c, user, op, p.value), c)
              && (p.value.Clear? || p.value.Owned?)
              && (op.CreateFarm? || Looks(op) <==> p.value.Clear?)
              && (op.CreateFarm? ==> !NameTaken(s.db.rows, op.name, user))
              && (Target(op).Some? ==> AssertOwner(s.db.rows, user, Target(op).value) == Ok(p.value.row))
              && (Looks(op) ==> !LooksTaken(s.db.rows, op))
  {
    ls := Opens(s, c, user, op);
    var asked := Busy(s, c, user, op, Start);
    var checked := Checked(asked, c);
    BusyMoves(s, c, user, op, Start, Start);
    if op.CreateFarm? {
      var q := Clear(FarmRow(user, op.name, op.info));
      BusyMoves(s, c, user, op, Start, q);
      p := if NameTaken(s.db.rows, op.name, user) then None else Some(q);
    } else if !Asserts(s.db.rows, user, Target(op).value) {
      p := None;
    } else {
      var q := Owned(s.db.rows[Target(op).value]);
      BusyMoves(s, c, user, op, Start, q);
      if Looks(op) {
        ls, p := LooksDone(s, c, user, op, ls);
      } else {
        p := Some(q);
      }
    }
  }

  /** The clash `updateFarm` and `createHarvest` look for. */
  ghost predicate LooksTaken(rows: Rows, op: Op)
    requires Looks(op)
  {
    if op.UpdateFarm? then op.newName.Some? && op.newName.value != "" && NameElsewhere(rows, op.newName.value, op.farm)
    else HasHarvest(rows, op.parent)
  }

  lemma LooksDone(s: State, c: Consumer, user: User, op: Op, begun: seq<Label>) returns (ls: seq<Label>, p: Option<Phase>)
    requires c !in s.tasks && Looks(op) && Asserts(s.db.rows, user, Target(op).value)
    requires Leads(s, begun, Busy(s, c, user, op, Owned(s.db.rows[Target(op).value])), c)
    ensures LooksTaken(s.db.rows, op) ==> p == None && Leads(s, ls, s, c)
    ensures !LooksTaken(s.db.rows, op) ==>
              p == Some(Clear(s.db.rows[Target(op).value])) && Leads(s, ls, Busy(s, c, user, op, p.value), c)
  {
    var row := s.db.rows[Target(op).value];
    var t := Busy(s, c, user, op, Owned(row));
    BusyMoves(s, c, user, op, Owned(row), Clear(row));
    p := if LooksTaken(s.db.rows, op) then None else Some(Clear(row));
    ls := Goes(s, begun, t, c, CheckFree(c), if p.None? then s else Busy(s, c, user, op, Clear(row)));
  }

  /** A call nothing interrupts is a run of the machine that leaves the database
      the service method promises and the consumer idle. */
  lemma ServeIsRun(s: State, c: Consumer, user: User, op: Op, commits: bool) returns (ls: seq<Label>)
    requires c !in s.tasks && OpOk(op) && (op.Delete? ==> !Locked(s, op.ref))
    ensures Valid(System(), s, ls) && Only(ls, (l: Label) => l.c == c)
    ensures Exec(System(), s, ls).db == Serve(s.db, user, op, commits).0 && Exec(System(), s, ls).tasks == s.tasks
  {
    var p: Option<Phase>;
    ls, p := ChecksDone(s, c, user, op);
    if p.Some? {
      if op.CreateUnder? {
        ls := CreateRuns(s, c, user, op, p.value, ls, s, commits);
      } else {
        ls := WriteRuns(s, c, user, op, p.value, ls);
        WriteServes(s, user, op, p.value, commits);
      }
    } else {
      assert Serve(s.db, user, op, commits).0 == s.db;
    }
  }

  lemma WriteServes(s: State, user: User, op: Op, p: Phase, commits: bool)
    requires OpOk(op) && !op.CreateUnder? && (p.Clear? || p.Owned?)
    requires op.CreateFarm? ==> !NameTaken(s.db.rows, op.name, user)
    requires Target(op).Some? ==> AssertOwner(s.db.rows, user, Target(op).value) == Ok(p.row)
    requires Looks(op) ==> !LooksTaken(s.db.rows, op)
    ensures Written(s.db, user, op, p.row) == Serve(s.db, user, op, commits).0
  {
    if op.Update? { OwnedCanBeSaved(s.db, user, op.ref, op.info); }
  }

  lemma WriteRuns(s: State, c: Consumer, user: User, op: Op, p: Phase, checked: seq<Label>) returns (ls: seq<Label>)
    requires c !in s.tasks && OpOk(op) && !op.CreateUnder? && (op.Delete? ==> !Locked(s, op.ref))
    requires (p.Clear? || p.Owned?) && (op.CreateFarm? || Looks(op) <==> p.Clear?)
    requires Leads(s, checked, Busy(s, c, user, op, p), c)
    ensures Valid(System(), s, ls) && Only(ls, (l: Label) => l.c == c)
    ensures Exec(System(), s, ls).db == Written(s.db, user, op, p.row) && Exec(System(), s, ls).tasks == s.tasks
  {
    var t := Busy(s, c, user, op, p);
    BusyMoves(s, c, user, op, p, p);
    if op.Delete? { NotLocked(s, c, user, op, p, op.ref); }
    hide Written, Locked;
    var t' := Wrote(t, c);
    assert t'.tasks == Finished(t, c).tasks;
    ls := Goes(s, checked, t, c, Write(c), t');
  }

  lemma NotLocked(s: State, c: Consumer, user: User, op: Op, p: Phase, ref: Ref)
    requires c !in s.tasks && !InTransaction(p) && !Locked(s, ref)
    ensures !Locked(Busy(s, c, user, op, p), ref)
  {
    var t := Busy(s, c, user, op, p);
    forall d | d in t.tasks && InTransaction(t.tasks[d].phase) ensures Target(t.tasks[d].op) != Some(ref) {
      assert d in s.tasks && s.tasks[d] == t.tasks[d];
    }
  }

  /** The same state with one more id handed out. */
  function Used(s: State, kind: Kind): State {
    s.(db := s.db.(used := Bump(s.db.used, kind)))
  }

  /** The database after a creation whose checks are behind it. */
  function CreatedDb(db: Db, user: User, op: Op, row: Row, commits: bool): Db
    requires op.CreateUnder?
  {
    var id, db' := NextId(db, op.kind), db.(used := Bump(db.used, op.kind));
    if commits then CommitCreation(db', op.kind, id, op.parent, op.info, CreationEvent(op.kind, id, op.parent, row, user)) else db'
  }

  lemma CreateRuns(s: State, c: Consumer, user: User, op: Op, p: Phase, checked: seq<Label>, start: State, commits: bool)
    returns (ls: seq<Label>)
    requires c !in s.tasks && OpOk(op) && op.CreateUnder?
    requires (p.Clear? || p.Owned?) && (Looks(op) <==> p.Clear?)
    requires Target(op).value in s.db.rows
    requires Leads(start, checked, Busy(s, c, user, op, p), c)
    ensures Valid(System(), start, ls) && Only(ls, (l: Label) => l.c == c)
    ensures Exec(System(), start, ls).db == CreatedDb(s.db, user, op, p.row, commits) && Exec(System(), start, ls).tasks == s.tasks
  {
    var id, u := NextId(s.db, op.kind), Used(s, op.kind);
    InsertRuns(s, c, user, op, p);
    ls := Goes(start, checked, Busy(s, c, user, op, p), c, Insert(c), Busy(u, c, user, op, Inserted(p.row, id)));
    BusyMoves(u, c, user, op, Inserted(p.row, id), Enqueued(p.row, id));
    if commits {
      ls := Goes(start, ls, Busy(u, c, user, op, Inserted(p.row, id)), c, Enqueue(c), Busy(u, c, user, op, Enqueued(p.row, id)));
      BusyMoves(u, c, user, op, Enqueued(p.row, id), Start);
      var t' := Committed(Busy(u, c, user, op, Enqueued(p.row, id)), c);
      assert t'.tasks == Finished(Busy(u, c, user, op, Enqueued(p.row, id)), c).tasks;
      ls := Goes(start, ls, Busy(u, c, user, op, Enqueued(p.row, id)), c, Commit(c), t');
    } else {
      ls := Goes(start, ls, Busy(u, c, user, op, Inserted(p.row, id)), c, Abort(c), u);
    }
  }

  lemma InsertRuns(s: State, c: Consumer, user: User, op: Op, p: Phase)
    requires op.CreateUnder? && (p.Clear? || p.Owned?) && (Looks(op) <==> p.Clear?)
    requires Target(op).value in s.db.rows
    ensures Enabled(Busy(s, c, user, op, p), Insert(c))
    ensures Next(Busy(s, c, user, op, p), Insert(c)) == Busy(Used(s, op.kind), c, user, op, Inserted(p.row, NextId(s.db, op.kind)))
  {
    BusyMoves(Used(s, op.kind), c, user, op, p, Inserted(p.row, NextId(s.db, op.kind)));
    assert Used(Busy(s, c, user, op, p), op.kind) == Busy(Used(s, op.kind), c, user, op, p);
  }

  // ---- What a caller can rely on -----------------------------------------------------

  /** The row a call is about. */
  function Subject(db: Db, op: Op): Ref {
    match op
    case CreateFarm(_, _) => Ref(Farms, NextId(db, Farms))
    case CreateUnder(kind, _, _) => Ref(kind, NextId(db, kind))
    case UpdateFarm(farm, _, _) => Ref(Farms, farm)
    case Update(ref, _) => ref
    case Delete(ref) => ref
  }

  /** What every call replies, writes and records, and when it refuses; every row
      but its subject is as before, and no row changes owner or parent. */
  lemma ServeFacts(db: Db, user: User, op: Op, commits: bool)
    requires OpOk(op) && (op.CreateFarm? || op.CreateUnder? ==> Subject(db, op) !in db.rows)
    ensures var (db', reply) := Serve(db, user, op, commits);
      && (match op
          case CreateFarm(name, info) => CreateFarmLaw(db, db', reply, user, name, info)
          case UpdateFarm(farm, name, info) => UpdateFarmLaw(db, db', reply, user, farm, name, info)
          case CreateUnder(kind, parent, info) => CreateLaw(db, db', reply, user, kind, parent, info, commits)
          case Update(ref, info) => UpdateLaw(db, db', reply, user, ref, info)
          case Delete(ref) => DeleteLaw(db, db', reply, user, ref))
      && (reply.Err? ==> Unchanged(db, db'))
      && (reply.Ok? ==> reply.value == Subject(db, op).id)
      && (forall ref :: ref != Subject(db, op) ==> FarmSafety.Same(db.rows, db'.rows, ref))
      && (forall ref :: ref in db.rows && ref in db'.rows ==> FarmSafety.SameLinks(db.rows[ref], db'.rows[ref]))
  {
    match op
    case CreateFarm(name, info) => NewFarmFacts(db, user, name, info);
    case UpdateFarm(farm, name, info) => ChangeFarmFacts(db, user, farm, name, info);
    case CreateUnder(kind, parent, info) => CreateFacts(db, user, kind, parent, info, commits);
    case Update(ref, info) => ChangeFacts(db, user, ref, info);
    case Delete(ref) => RemoveFacts(db, user, ref);
  }

  // ---- Two consumers ---------------------------------------------------------------

  /** With two consumers any crop that can be harvested can be harvested twice:
      one handler looks, the other serves a whole request, and the first goes on
      with what it saw. */
  lemma TwoConsumersHarvestTwice(s: State, c: Consumer, d: Consumer, user: User, crop: Id, info: string) returns (ls: seq<Label>)
    requires c !in s.tasks && d !in s.tasks && c != d
    requires Asserts(s.db.rows, user, Ref(Crops, crop)) && !HasHarvest(s.db.rows, crop)
    ensures Valid(System(), s, ls)
    ensures var rows := Exec(System(), s, ls).db.rows;
      var first := NextId(s.db, Harvests);
      && Ref(Harvests, first) in rows && rows[Ref(Harvests, first)].parent == Some(crop)
      && Ref(Harvests, first + 1) in rows && rows[Ref(Harvests, first + 1)].parent == Some(crop)
      && !FarmEvents.OnePerCrop(rows)
  {
    var op := CreateUnder(Harvests, crop, info);
    var p: Option<Phase>;
    HarvestServed(s.db, user, op);
    TwoHarvests(s.db, user, op, s.db.rows[Ref(Crops, crop)]);
    ls, p := ChecksDone(s, c, user, op);
    hide Serve, CreatedDb, Valid, Exec, System, HasHarvest, OwnerOf, FarmEvents.OnePerCrop;
    var looked := Busy(s, c, user, op, p.value);
    var served := ServeIsRun(looked, d, user, op, true);
    var after := Exec(System(), looked, served);
    Concat(System(), s, ls, served);
    var mid := ls + served;
    var rest := after.(tasks := s.tasks);
    assert Busy(rest, c, user, op, p.value) == after;
    NoSteps(after, c);
    hide Leads;
    var last := CreateRuns(rest, c, user, op, p.value, [], after, true);
    Concat(System(), s, mid, last);
    ls := mid + last;
  }

  lemma NoSteps(s: State, c: Consumer)
    ensures Leads(s, [], s, c)
  {
  }

  lemma HarvestServed(db: Db, user: User, op: Op)
    requires op.CreateUnder? && op.kind.Harvests? && Asserts(db.rows, user, Ref(Crops, op.parent)) && !HasHarvest(db.rows, op.parent)
    ensures Serve(db, user, op, true).0 != db
    ensures Ref(Crops, op.parent) in Serve(db, user, op, true).0.rows
  {
    assert Serve(db, user, op, true).0.events != db.events;
  }

  lemma TwoHarvests(db: Db, user: User, op: Op, row: Row)
    requires op.CreateUnder? && op.kind.Harvests? && Asserts(db.rows, user, Ref(Crops, op.parent)) && !HasHarvest(db.rows, op.parent)
    ensures var rows := CreatedDb(Serve(db, user, op, true).0, user, op, row, true).rows;
      var first := NextId(db, Harvests);
      && Ref(Harvests, first) in rows && rows[Ref(Harvests, first)].parent == Some(op.parent)
      && Ref(Harvests, first + 1) in rows && rows[Ref(Harvests, first + 1)].parent == Some(op.parent)
      && !FarmEvents.OnePerCrop(rows)
  {
    var rows := CreatedDb(Serve(db, user, op, true).0, user, op, row, true).rows;
    var first := NextId(db, Harvests);
    assert Ref(Harvests, first) in rows && Ref(Harvests, first + 1) in rows;
    assert NextId(Serve(db, user, op, true).0, Harvests) == first + 1;
  }
}

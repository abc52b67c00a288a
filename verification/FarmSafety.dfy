/** What every interleaving of farms requests keeps: links and owners never
    change, no foreign key dangles, users are isolated from each other, and
    every creation is announced exactly once. */
module FarmSafety {
  import opened Prelude
  import opened Runs
  import opened FarmData
  import opened FarmMachine

  ghost predicate SameLinks(a: Row, b: Row) {
    a.userId == b.userId && a.parent == b.parent
  }

  /** Rows keep the links they were born with. */
  ghost predicate Links(rows: Rows, born: Rows) {
    forall ref :: ref in rows ==> ref in born && SameLinks(rows[ref], born[ref])
  }

  ghost predicate TaskOk(s: State, t: Task) {
    && OpOk(t.op)
    && (InTransaction(t.phase) ==>
          && t.op.CreateUnder?
          && Target(t.op).value in s.db.rows
          && t.phase.id <= Count(s.db.used, t.op.kind)
          && Ref(t.op.kind, t.phase.id) !in s.born)
    && (!t.phase.Start? && Target(t.op).Some? ==>
          var ref := Target(t.op).value;
          ref in s.born && OwnerOf(s.born, ref) == Some(t.user) && SameLinks(t.phase.row, s.born[ref]))
  }

  /** Two open transactions inserting the same row. */
  ghost predicate SameId(a: Task, b: Task) {
    && InTransaction(a.phase) && InTransaction(b.phase) && a.op.CreateUnder? && b.op.CreateUnder?
    && a.op.kind == b.op.kind && a.phase.id == b.phase.id
  }

  ghost predicate Tasks(s: State) {
    && (forall c :: c in s.tasks ==> TaskOk(s, s.tasks[c]))
    && (forall c, d :: c in s.tasks && d in s.tasks && SameId(s.tasks[c], s.tasks[d]) ==> c == d)
  }

  ghost predicate Births(s: State) {
    && ForeignKeys(s.born)
    && (forall ref :: ref in s.born ==> ref.id <= Count(s.db.used, ref.kind))
  }

  ghost predicate Inv(s: State) {
    && Links(s.db.rows, s.born)
    && Births(s)
    && Tasks(s)
    && ForeignKeys(s.db.rows)
    && UniqueNames(s.db.rows)
  }

  // ---- Owners ----------------------------------------------------------------

  /** The owner read from the tables is the owner at birth. */
  lemma {:induction false} OwnerAtBirth(rows: Rows, born: Rows, ref: Ref)
    requires Links(rows, born) && ForeignKeys(rows) && ref in rows
    ensures OwnerOf(rows, ref) == OwnerOf(born, ref)
    decreases Rank(ref.kind)
  {
    if !ref.kind.Farms? && rows[ref].parent.Some? {
      assert ParentRef(ref, rows[ref]).Some?;
      OwnerAtBirth(rows, born, Ref(ParentKind(ref.kind), rows[ref].parent.value));
    }
  }

  /** Births only add to the history, so owners at birth are settled. */
  lemma {:induction false} OwnerSettled(born: Rows, born': Rows, ref: Ref)
    requires ForeignKeys(born) && ref in born && forall r :: r in born ==> r in born' && born'[r] == born[r]
    ensures OwnerOf(born', ref) == OwnerOf(born, ref)
    decreases Rank(ref.kind)
  {
    if !ref.kind.Farms? && born[ref].parent.Some? {
      assert ParentRef(ref, born[ref]).Some?;
      OwnerSettled(born, born', Ref(ParentKind(ref.kind), born[ref].parent.value));
    }
  }

  // ---- What a step touches -----------------------------------------------------

  ghost function Touched(s: State, l: Label): Option<Ref>
    requires Enabled(s, l)
  {
    match l
    case Commit(c) => Some(Ref(s.tasks[c].op.kind, s.tasks[c].phase.id))
    case Write(c) => if s.tasks[c].op.CreateFarm? then Some(Ref(Farms, NextId(s.db, Farms))) else Target(s.tasks[c].op)
    case _ => None
  }

  ghost predicate Same(a: Rows, b: Rows, ref: Ref) {
    (ref in a <==> ref in b) && (ref in a ==> a[ref] == b[ref])
  }

  /** A step changes at most the one row it touches. */
  lemma OneRowChanges(s: State, l: Label)
    requires Enabled(s, l)
    ensures forall ref :: Touched(s, l) != Some(ref) ==> Same(s.db.rows, Next(s, l).db.rows, ref)
    ensures forall ref :: Touched(s, l) != Some(ref) ==> Same(s.born, Next(s, l).born, ref)
    ensures Touched(s, l).None? ==> Next(s, l).db.rows == s.db.rows && Next(s, l).born == s.born
  {
    hide NameTaken, NameElsewhere, HasHarvest, HasChildren, Clashes, OwnerOf;
    if l.Write? {
      WriteChanges(s.db, s.tasks[l.c]);
      hide Written;
    }
  }

  /** A single statement touches one row. */
  lemma WriteChanges(db: Db, t: Task)
    requires t.phase.Clear? || t.phase.Owned?
    ensures var rows', ref := Written(db, t.user, t.op, t.phase.row).rows,
                              if t.op.CreateFarm? then Some(Ref(Farms, NextId(db, Farms))) else Target(t.op);
      forall r :: ref != Some(r) ==> Same(db.rows, rows', r)
  {
    hide NameTaken, HasChildren, Clashes;
  }

  /** A commit adds a row nobody had before, born as it is committed. */
  lemma CommitTouches(s: State, l: Label)
    requires Inv(s) && Enabled(s, l) && l.Commit?
    ensures var s', ref, op := Next(s, l), Touched(s, l).value, s.tasks[l.c].op;
      && ref !in s.born && ref !in s.db.rows && !ref.kind.Farms?
      && s'.db.rows == s.db.rows[ref := ChildRow(op.parent, op.info)]
      && s'.born == s.born[ref := ChildRow(op.parent, op.info)]
      && s'.db.used == s.db.used
      && ref.id <= Count(s.db.used, ref.kind)
  {
    assert TaskOk(s, s.tasks[l.c]);
  }

  ghost predicate NewFarm(s: State, l: Label)
    requires Enabled(s, l)
  {
    l.Write? && s.tasks[l.c].op.CreateFarm?
  }

  lemma NewFarmTouches(s: State, l: Label)
    requires Inv(s) && Enabled(s, l) && NewFarm(s, l)
    ensures var s', ref, t := Next(s, l), Touched(s, l).value, s.tasks[l.c];
      && ref !in s.born && ref !in s.db.rows
      && s'.db.used == Bump(s.db.used, Farms)
      && (if NameTaken(s.db.rows, t.op.name, t.user) then s'.db.rows == s.db.rows && s'.born == s.born
          else var row := FarmRow(t.user, t.op.name, t.op.info);
            s'.db.rows == s.db.rows[ref := row] && s'.born == s.born[ref := row])
  {
    hide NameTaken, OwnerOf;
  }

  /** The other writes are to rows that were born, and keep their links. */
  lemma WriteTouches(s: State, l: Label)
    requires Inv(s) && Enabled(s, l) && l.Write? && !NewFarm(s, l)
    ensures var s', ref := Next(s, l), Touched(s, l).value;
      && Touched(s, l).Some? && s'.born == s.born && s'.db.used == s.db.used
      && ref in s.born && OwnerOf(s.born, ref) == Some(s.tasks[l.c].user)
      && (ref in s'.db.rows ==> SameLinks(s'.db.rows[ref], s.born[ref]))
  {
    hide NameElsewhere, HasChildren, Clashes, OwnerOf, Births, ForeignKeys, UniqueNames;
    assert TaskOk(s, s.tasks[l.c]);
    hide Tasks;
    WrittenLinks(s.db, s.tasks[l.c], s.born);
  }

  lemma WrittenLinks(db: Db, t: Task, born: Rows)
    requires Links(db.rows, born) && Target(t.op).Some? && !t.op.CreateFarm? && !t.op.CreateUnder? && (t.phase.Clear? || t.phase.Owned?)
    requires Target(t.op).value in born && SameLinks(t.phase.row, born[Target(t.op).value])
    ensures var db', ref := Written(db, t.user, t.op, t.phase.row), Target(t.op).value;
      db'.used == db.used && (ref in db'.rows ==> SameLinks(db'.rows[ref], born[ref]))
  {
    hide NameElsewhere, HasChildren, Clashes;
  }

  lemma BornGrows(s: State, l: Label)
    requires Inv(s) && Enabled(s, l)
    ensures forall ref :: ref in s.born ==> ref in Next(s, l).born && Next(s, l).born[ref] == s.born[ref]
    ensures forall ref :: ref in Next(s, l).born && ref !in s.born ==>
              (l.Commit? || NewFarm(s, l)) && Touched(s, l) == Some(ref) && ref in Next(s, l).db.rows
  {
    hide Next, Enabled, Inv;
    if l.Commit? {
      CommitTouches(s, l);
    } else if NewFarm(s, l) {
      NewFarmTouches(s, l);
    } else if l.Write? {
      WriteTouches(s, l);
    } else {
      OneRowChanges(s, l);
      assert Touched(s, l).None?;
    }
  }

  lemma LinksStep(s: State, l: Label)
    requires Inv(s) && Enabled(s, l)
    ensures Links(Next(s, l).db.rows, Next(s, l).born)
  {
    OneRowChanges(s, l);
    BornGrows(s, l);
    if Touched(s, l).Some? && Touched(s, l).value in Next(s, l).db.rows { TouchedLinks(s, l); }
    hide Next, Enabled, Touched, SameLinks, Same, Births, Tasks, UniqueNames, ForeignKeys, Links;
    LinksUpdate(s.db.rows, s.born, Next(s, l).db.rows, Next(s, l).born, Touched(s, l));
  }

  lemma LinksUpdate(rows: Rows, born: Rows, rows': Rows, born': Rows, touched: Option<Ref>)
    requires Links(rows, born)
    requires forall ref :: touched != Some(ref) ==> Same(rows, rows', ref)
    requires forall ref :: ref in born ==> ref in born' && born'[ref] == born[ref]
    requires touched.Some? && touched.value in rows' ==> touched.value in born' && SameLinks(rows'[touched.value], born'[touched.value])
    ensures Links(rows', born')
  {
    forall ref | ref in rows' ensures ref in born' && SameLinks(rows'[ref], born'[ref]) {
      if touched != Some(ref) { assert Same(rows, rows', ref); }
    }
  }

  lemma TouchedLinks(s: State, l: Label)
    requires Inv(s) && Enabled(s, l) && Touched(s, l).Some? && Touched(s, l).value in Next(s, l).db.rows
    ensures var s', ref := Next(s, l), Touched(s, l).value; ref in s'.born && SameLinks(s'.db.rows[ref], s'.born[ref])
  {
    if l.Commit? {
      CommitTouches(s, l);
    } else if NewFarm(s, l) {
      NewFarmTouches(s, l);
    } else {
      WriteTouches(s, l);
    }
    hide Next, Enabled, Inv;
  }

  lemma UsedGrows(s: State, l: Label)
    requires Enabled(s, l)
    ensures forall k: Kind :: Count(s.db.used, k) <= Count(Next(s, l).db.used, k)
    ensures NewFarm(s, l) ==> NextId(s.db, Farms) <= Count(Next(s, l).db.used, Farms)
    ensures l.Insert? ==> Count(Next(s, l).db.used, s.tasks[l.c].op.kind) == NextId(s.db, s.tasks[l.c].op.kind)
  {
    hide NameTaken, NameElsewhere, HasHarvest, HasChildren, Clashes, OwnerOf;
  }

  lemma BirthsStep(s: State, l: Label)
    requires Inv(s) && Enabled(s, l)
    ensures Births(Next(s, l))
  {
    var s' := Next(s, l);
    BornGrows(s, l);
    UsedGrows(s, l);
    assert ForeignKeys(s.born);
    assert forall ref :: ref in s.born ==> ref.id <= Count(s.db.used, ref.kind);
    forall ref | ref in s'.born && ref !in s.born ensures BirthOk(s', ref) { NewBirth(s, l, ref); }
    hide Next, Enabled, Inv, Touched, NewFarm, NameTaken, Links, Tasks, UniqueNames, Count;
    forall ref | ref in s'.born ensures BirthOk(s', ref) {
      if ref in s.born && ParentRef(ref, s.born[ref]).Some? { assert ParentRef(ref, s.born[ref]).value in s.born; }
    }
  }

  /** The new row's id is used and its parent was born before it. */
  ghost predicate BirthOk(s: State, ref: Ref)
    requires ref in s.born
  {
    && ref.id <= Count(s.db.used, ref.kind)
    && (ParentRef(ref, s.born[ref]).Some? ==> ParentRef(ref, s.born[ref]).value in s.born)
  }

  lemma NewBirth(s: State, l: Label, ref: Ref)
    requires Inv(s) && Enabled(s, l) && ref in Next(s, l).born && ref !in s.born
    ensures BirthOk(Next(s, l), ref)
  {
    BornGrows(s, l);
    UsedGrows(s, l);
    if l.Commit? {
      CommitTouches(s, l);
      ParentBorn(s, l);
    } else {
      NewFarmTouches(s, l);
    }
    hide Next, Enabled, Inv, NameTaken, Count;
  }

  lemma ParentBorn(s: State, l: Label)
    requires Inv(s) && Enabled(s, l) && l.Commit?
    ensures Target(s.tasks[l.c].op) == Some(Ref(ParentKind(s.tasks[l.c].op.kind), s.tasks[l.c].op.parent))
    ensures Target(s.tasks[l.c].op).value in s.born && Target(s.tasks[l.c].op).value in s.db.rows
    ensures OwnerOf(s.born, Target(s.tasks[l.c].op).value) == Some(s.tasks[l.c].user)
    ensures SameLinks(s.tasks[l.c].phase.row, s.born[Target(s.tasks[l.c].op).value])
  {
    assert TaskOk(s, s.tasks[l.c]);
    hide OwnerOf;
  }

  // ---- Foreign keys and names ---------------------------------------------------

  lemma SaveKeepsKeys(db: Db, ref: Ref, row: Row)
    requires ForeignKeys(db.rows)
    ensures ForeignKeys(SaveRow(db, ref, row).rows)
  {
    var rows' := SaveRow(db, ref, row).rows;
    forall r | r in rows' && ParentRef(r, rows'[r]).Some? ensures ParentRef(r, rows'[r]).value in rows' {
      if r in db.rows && rows'[r] == db.rows[r] { assert ParentRef(r, db.rows[r]).Some?; }
    }
  }

  lemma RemoveKeepsKeys(db: Db, ref: Ref)
    requires ForeignKeys(db.rows)
    ensures ForeignKeys(RemoveRow(db, ref).rows)
  {
    var rows' := RemoveRow(db, ref).rows;
    forall r | r in rows' && ParentRef(r, rows'[r]).Some? ensures ParentRef(r, rows'[r]).value in rows' {
      assert ParentRef(r, db.rows[r]).Some?;
    }
  }

  lemma FarmWriteKeepsKeys(rows: Rows, ref: Ref, row: Row)
    requires ForeignKeys(rows) && ref.kind.Farms?
    ensures ForeignKeys(rows[ref := row])
  {
    var rows' := rows[ref := row];
    forall r | r in rows' && ParentRef(r, rows'[r]).Some? ensures ParentRef(r, rows'[r]).value in rows' {
      assert r != ref && ParentRef(r, rows[r]).Some?;
    }
  }

  lemma ForeignKeysStep(s: State, l: Label)
    requires Inv(s) && Enabled(s, l)
    ensures ForeignKeys(Next(s, l).db.rows)
  {
    var rows, rows' := s.db.rows, Next(s, l).db.rows;
    if l.Commit? {
      CommitTouches(s, l);
      ParentBorn(s, l);
      hide Next, Enabled, OwnerOf, Links, Births, Tasks, UniqueNames, Inv;
      assert ForeignKeys(rows) by { assert Inv(s); InvKeys(s); }
      forall r | r in rows' && ParentRef(r, rows'[r]).Some? ensures ParentRef(r, rows'[r]).value in rows' {
        if r in rows { assert ParentRef(r, rows[r]).Some?; }
      }
    } else if l.Write? {
      WriteKeepsKeys(s.db, s.tasks[l.c]);
    } else {
      OneRowChanges(s, l);
    }
  }

  lemma InvKeys(s: State)
    requires Inv(s)
    ensures ForeignKeys(s.db.rows)
  {
  }

  lemma WriteKeepsKeys(db: Db, t: Task)
    requires ForeignKeys(db.rows) && (t.phase.Clear? || t.phase.Owned?)
    ensures ForeignKeys(Written(db, t.user, t.op, t.phase.row).rows)
  {
    match t.op
    case CreateFarm(name, info) => FarmWriteKeepsKeys(db.rows, Ref(Farms, NextId(db, Farms)), FarmRow(t.user, name, info));
    case UpdateFarm(farm, name, info) =>
      var ref := Ref(Farms, farm);
      if ref in db.rows { FarmWriteKeepsKeys(db.rows, ref, Renamed(db.rows[ref], name, info)); }
    case CreateUnder(_, _, _) =>
    case Update(ref, info) => SaveKeepsKeys(db, ref, t.phase.row.(info := info));
    case Delete(ref) => RemoveKeepsKeys(db, ref);
  }

  lemma NamesStep(s: State, l: Label)
    requires Inv(s) && Enabled(s, l)
    ensures UniqueNames(Next(s, l).db.rows)
  {
    if l.Commit? {
      CommitTouches(s, l);
      hide Next, Enabled;
    } else if l.Write? {
      assert TaskOk(s, s.tasks[l.c]);
      WriteKeepsNames(s.db, s.tasks[l.c]);
    } else {
      OneRowChanges(s, l);
    }
  }

  lemma WriteKeepsNames(db: Db, t: Task)
    requires UniqueNames(db.rows) && OpOk(t.op) && (t.phase.Clear? || t.phase.Owned?)
    ensures UniqueNames(Written(db, t.user, t.op, t.phase.row).rows)
  {
    hide HasChildren, NameElsewhere;
  }

  // ---- Tasks -----------------------------------------------------------------------

  lemma OtherTask(s: State, l: Label, d: Consumer)
    requires Inv(s) && Enabled(s, l) && d in s.tasks && d != l.c
    ensures d in Next(s, l).tasks && Next(s, l).tasks[d] == s.tasks[d]
    ensures TaskOk(Next(s, l), s.tasks[d])
  {
    var s', t := Next(s, l), s.tasks[d];
    TasksElsewhere(s, l, d);
    assert TaskOk(s, t);
    BornGrows(s, l);
    UsedGrows(s, l);
    if InTransaction(t.phase) {
      ParentStays(s, l, d);
      IdStaysFree(s, l, d);
    }
    if !t.phase.Start? && Target(t.op).Some? { OwnerSettled(s.born, s'.born, Target(t.op).value); }
    hide Next, Enabled, Inv, OwnerOf;
  }

  lemma TasksElsewhere(s: State, l: Label, d: Consumer)
    requires Enabled(s, l) && d in s.tasks && d != l.c
    ensures d in Next(s, l).tasks && Next(s, l).tasks[d] == s.tasks[d]
  {
    hide NameTaken, NameElsewhere, HasHarvest, HasChildren, Clashes, OwnerOf, Written;
  }

  /** The open transaction's key-share lock keeps its parent row. */
  lemma ParentStays(s: State, l: Label, d: Consumer)
    requires Inv(s) && Enabled(s, l) && d in s.tasks && InTransaction(s.tasks[d].phase)
    ensures s.tasks[d].op.CreateUnder? && Target(s.tasks[d].op).value in Next(s, l).db.rows
  {
    var ref := Target(s.tasks[d].op).value;
    assert TaskOk(s, s.tasks[d]);
    assert Locked(s, ref);
    OneRowChanges(s, l);
    if Touched(s, l) == Some(ref) {
      if l.Commit? { CommitTouches(s, l); } else { WriteKeepsLocked(s, l, ref); }
    }
  }

  lemma WriteKeepsLocked(s: State, l: Label, ref: Ref)
    requires Enabled(s, l) && l.Write? && Locked(s, ref) && ref in s.db.rows
    ensures ref in Next(s, l).db.rows
  {
    hide NameTaken, HasChildren, Clashes;
  }

  /** The id taken by an open transaction is nobody else's. */
  lemma IdStaysFree(s: State, l: Label, d: Consumer)
    requires Inv(s) && Enabled(s, l) && d in s.tasks && d != l.c && InTransaction(s.tasks[d].phase)
    ensures s.tasks[d].op.CreateUnder? && Ref(s.tasks[d].op.kind, s.tasks[d].phase.id) !in Next(s, l).born
  {
    var ref := Ref(s.tasks[d].op.kind, s.tasks[d].phase.id);
    assert TaskOk(s, s.tasks[d]);
    OneRowChanges(s, l);
    if l.Commit? {
      assert TaskOk(s, s.tasks[l.c]);
      assert Touched(s, l) != Some(ref);
    }
  }

  lemma OwnTask(s: State, l: Label)
    requires Inv(s) && Enabled(s, l) && l.c in Next(s, l).tasks
    ensures TaskOk(Next(s, l), Next(s, l).tasks[l.c])
  {
    var s' := Next(s, l);
    if l.c in s.tasks { assert TaskOk(s, s.tasks[l.c]); }
    if l.Check? {
      OwnChecked(s, l.c);
    } else {
      hide NameTaken, NameElsewhere, HasHarvest, HasChildren, Clashes, OwnerOf, Written;
    }
  }

  lemma OwnChecked(s: State, c: Consumer)
    requires Inv(s) && Enabled(s, Check(c)) && c in Next(s, Check(c)).tasks
    ensures TaskOk(Next(s, Check(c)), Next(s, Check(c)).tasks[c])
  {
    var t := s.tasks[c];
    assert TaskOk(s, t);
    if Target(t.op).Some? {
      OwnerAtBirth(s.db.rows, s.born, Target(t.op).value);
    }
    hide OwnerOf, NameTaken;
  }

  lemma TasksStep(s: State, l: Label)
    requires Inv(s) && Enabled(s, l)
    ensures Tasks(Next(s, l))
  {
    var s' := Next(s, l);
    forall d | d in s'.tasks ensures TaskOk(s', s'.tasks[d]) {
      if d == l.c { OwnTask(s, l); } else { OnlyTasks(s, l, d); OtherTask(s, l, d); }
    }
    IdsApart(s, l);
  }

  lemma OnlyTasks(s: State, l: Label, d: Consumer)
    requires Enabled(s, l) && d in Next(s, l).tasks && d != l.c
    ensures d in s.tasks && Next(s, l).tasks[d] == s.tasks[d]
  {
    hide NameTaken, NameElsewhere, HasHarvest, HasChildren, Clashes, OwnerOf, Written;
  }

  lemma IdsApart(s: State, l: Label)
    requires Inv(s) && Enabled(s, l)
    ensures var ts := Next(s, l).tasks; forall c, d :: c in ts && d in ts && SameId(ts[c], ts[d]) ==> c == d
  {
    var s' := Next(s, l);
    forall c, d | c in s'.tasks && d in s'.tasks && SameId(s'.tasks[c], s'.tasks[d]) ensures c == d {
      if c != d {
        if c == l.c { IdApart(s, l, d); } else if d == l.c { IdApart(s, l, c); } else { OnlyTasks(s, l, c); OnlyTasks(s, l, d); }
      }
    }
  }

  /** A handler enters a transaction with the next id and keeps it. */
  lemma OwnId(s: State, l: Label)
    requires Enabled(s, l) && l.c in Next(s, l).tasks && InTransaction(Next(s, l).tasks[l.c].phase)
    ensures var t' := Next(s, l).tasks[l.c];
      || (l.Insert? && t'.op.CreateUnder? && t'.phase.id == NextId(s.db, t'.op.kind))
      || (l.Enqueue? && l.c in s.tasks && s.tasks[l.c].op == t'.op && InTransaction(s.tasks[l.c].phase) && s.tasks[l.c].phase.id == t'.phase.id)
  {
    hide NameTaken, NameElsewhere, HasHarvest, HasChildren, Clashes, OwnerOf, Written;
  }

  lemma IdApart(s: State, l: Label, d: Consumer)
    requires Inv(s) && Enabled(s, l) && l.c in Next(s, l).tasks && d in Next(s, l).tasks && d != l.c
    ensures !SameId(Next(s, l).tasks[l.c], Next(s, l).tasks[d])
  {
    OnlyTasks(s, l, d);
    assert TaskOk(s, s.tasks[d]);
    if InTransaction(Next(s, l).tasks[l.c].phase) { OwnId(s, l); }
    hide Next, Enabled, OwnerOf, Links, Births, ForeignKeys, UniqueNames;
  }

  lemma InvStep(s: State, l: Label)
    requires Inv(s) && Enabled(s, l)
    ensures Inv(Next(s, l))
  {
    LinksStep(s, l);
    BirthsStep(s, l);
    TasksStep(s, l);
    ForeignKeysStep(s, l);
    NamesStep(s, l);
  }

  lemma InvRun(s: State, ls: seq<Label>)
    requires Inv(s) && Valid(System(), s, ls)
    ensures Inv(Exec(System(), s, ls))
  {
    forall t, l | Inv(t) && Enabled(t, l) ensures Inv(Next(t, l)) { InvStep(t, l); }
    Invariant(System(), t => Inv(t), _ => true, s, ls);
  }

  /** The database as the migration leaves it is a legal start. */
  lemma EmptyStart()
    ensures Inv(State(Db(map[], map[], []), map[], map[]))
  {
  }

  ghost predicate Extends(born: Rows, born': Rows) {
    forall ref :: ref in born ==> ref in born' && born'[ref] == born[ref]
  }

  /** Over any run, by any number of consumers: owners and parents of rows never
      change, not even when a row is removed and saved back; no foreign key
      dangles; and no owner has two farms of one name. */
  lemma LinksNeverChange(s: State, ls: seq<Label>)
    requires Inv(s) && Valid(System(), s, ls)
    ensures var rows, rows' := s.db.rows, Exec(System(), s, ls).db.rows;
      && (forall ref :: ref in rows && ref in rows' ==>
            SameLinks(rows'[ref], rows[ref]) && OwnerOf(rows', ref) == OwnerOf(rows, ref))
      && ForeignKeys(rows') && UniqueNames(rows')
  {
    var inv := (t: State) => Inv(t) && Extends(s.born, t.born);
    forall t: State, l: Label | inv(t) && Enabled(t, l) ensures inv(Next(t, l)) {
      InvStep(t, l);
      BornGrows(t, l);
      hide Inv, Enabled, Next;
    }
    Invariant(System(), inv, _ => true, s, ls);
    var s' := Exec(System(), s, ls);
    forall ref | ref in s.db.rows && ref in s'.db.rows
      ensures SameLinks(s'.db.rows[ref], s.db.rows[ref]) && OwnerOf(s'.db.rows, ref) == OwnerOf(s.db.rows, ref)
    {
      OwnerAtBirth(s.db.rows, s.born, ref);
      OwnerAtBirth(s'.db.rows, s'.born, ref);
      OwnerSettled(s.born, s'.born, ref);
    }
  }

  // ---- Isolation -------------------------------------------------------------------

  /** Everything that belongs to `u`, at whatever depth. */
  ghost function Tree(rows: Rows, u: User): Rows {
    map ref | ref in rows && OwnerOf(rows, ref) == Some(u) :: rows[ref]
  }

  /** The row a step touches belongs to the user whose request it serves. */
  lemma TouchedIsOwn(s: State, l: Label)
    requires Inv(s) && Enabled(s, l) && Touched(s, l).Some? && Touched(s, l).value in Next(s, l).born
    ensures l.c in s.tasks && OwnerOf(Next(s, l).born, Touched(s, l).value) == Some(s.tasks[l.c].user)
  {
    var s' := Next(s, l);
    BornGrows(s, l);
    if l.Commit? {
      CommitTouches(s, l);
      ParentBorn(s, l);
      OwnerSettled(s.born, s'.born, Target(s.tasks[l.c].op).value);
    } else if NewFarm(s, l) {
      NewFarmTouches(s, l);
    } else {
      WriteTouches(s, l);
    }
  }

  lemma TreeStep(s: State, l: Label, u: User)
    requires Inv(s) && Enabled(s, l) && (l.c in s.tasks ==> s.tasks[l.c].user != u)
    ensures Tree(Next(s, l).db.rows, u) == Tree(s.db.rows, u)
  {
    var s' := Next(s, l);
    InvStep(s, l);
    forall ref ensures SameInTree(s.db.rows, s'.db.rows, u, ref) {
      RowInTree(s, l, u, ref);
    }
    TreesEqual(s.db.rows, s'.db.rows, u);
  }

  lemma TreesEqual(a: Rows, b: Rows, u: User)
    requires forall ref :: SameInTree(a, b, u, ref)
    ensures Tree(b, u) == Tree(a, u)
  {
    hide OwnerOf;
    forall ref ensures ref in Tree(a, u) <==> ref in Tree(b, u) { assert SameInTree(a, b, u, ref); }
    forall ref | ref in Tree(a, u) ensures Tree(b, u)[ref] == Tree(a, u)[ref] { assert SameInTree(a, b, u, ref); }
  }

  ghost predicate SameInTree(a: Rows, b: Rows, u: User, ref: Ref) {
    && ((ref in a && OwnerOf(a, ref) == Some(u)) <==> (ref in b && OwnerOf(b, ref) == Some(u)))
    && (ref in a && OwnerOf(a, ref) == Some(u) ==> ref in b && b[ref] == a[ref])
  }

  lemma RowInTree(s: State, l: Label, u: User, ref: Ref)
    requires Inv(s) && Enabled(s, l) && Inv(Next(s, l)) && (l.c in s.tasks ==> s.tasks[l.c].user != u)
    ensures SameInTree(s.db.rows, Next(s, l).db.rows, u, ref)
  {
    var s' := Next(s, l);
    BornGrows(s, l);
    OneRowChanges(s, l);
    OwnersAgree(s, s', ref);
    if Touched(s, l) == Some(ref) {
      if ref in s'.born { TouchedIsOwn(s, l); } else { assert ref !in s.db.rows && ref !in s'.db.rows; }
    } else {
      assert Same(s.db.rows, s'.db.rows, ref);
    }
    hide Next, Enabled, OwnerOf;
  }

  lemma OwnersAgree(s: State, s': State, ref: Ref)
    requires Inv(s) && Inv(s') && Extends(s.born, s'.born)
    ensures ref in s.db.rows ==> ref in s'.born && OwnerOf(s.db.rows, ref) == OwnerOf(s'.born, ref)
    ensures ref in s'.db.rows ==> ref in s'.born && OwnerOf(s'.db.rows, ref) == OwnerOf(s'.born, ref)
  {
    if ref in s.db.rows {
      OwnerAtBirth(s.db.rows, s.born, ref);
      OwnerSettled(s.born, s'.born, ref);
    }
    if ref in s'.db.rows { OwnerAtBirth(s'.db.rows, s'.born, ref); }
  }

  ghost predicate NobodyServes(s: State, u: User) {
    forall c :: c in s.tasks ==> s.tasks[c].user != u
  }

  lemma TaskUsers(s: State, l: Label, u: User)
    requires Enabled(s, l) && NobodyServes(s, u) && !(l.Request? && l.user == u)
    ensures NobodyServes(Next(s, l), u)
  {
    hide NameTaken, NameElsewhere, HasHarvest, HasChildren, Clashes, OwnerOf, Written;
  }

  /** Requests of other users, however they interleave and fail, change, remove
      and attach nothing in a user's farms, crops, activities and harvests. */
  lemma Isolation(s: State, ls: seq<Label>, u: User)
    requires Inv(s) && NobodyServes(s, u)
    requires Valid(System(), s, ls) && Only(ls, (l: Label) => !(l.Request? && l.user == u))
    ensures Tree(Exec(System(), s, ls).db.rows, u) == Tree(s.db.rows, u)
  {
    var ok := (l: Label) => !(l.Request? && l.user == u);
    var inv := (t: State) => Inv(t) && NobodyServes(t, u) && Tree(t.db.rows, u) == Tree(s.db.rows, u);
    forall t: State, l: Label | inv(t) && ok(l) && Enabled(t, l) ensures inv(Next(t, l)) {
      InvStep(t, l);
      TaskUsers(t, l, u);
      TreeStep(t, l, u);
      hide Inv, Enabled, Next, Tree;
    }
    Invariant(System(), inv, ok, s, ls);
  }
}

/** Outbox atomicity over runs, one harvest per crop with one consumer, and the
    run that breaks the latter with two. */
module FarmEvents {
  import opened Prelude
  import opened Runs
  import opened FarmData
  import opened FarmMachine
  import opened FarmSafety

  // ---- Every creation is announced exactly once ---------------------------------

  /** The event names its row, the crop it belongs to, that crop's farm, and the
      user at the end of the chain. */
  ghost predicate EventOk(born: Rows, e: Event) {
    && e.ref in born && !e.ref.kind.Farms?
    && e.user.Some? && OwnerOf(born, e.ref) == e.user
    && (if e.ref.kind.Crops? then e.crop == e.ref.id && e.farm == born[e.ref].parent
        else born[e.ref].parent == Some(e.crop) && Ref(Crops, e.crop) in born && e.farm == born[Ref(Crops, e.crop)].parent)
  }

  /** From position `n` on, events announce rows born since `before`. */
  ghost predicate Sound(n: nat, before: Rows, born: Rows, events: seq<Event>) {
    forall i :: n <= i < |events| ==> EventOk(born, events[i]) && events[i].ref !in before
  }

  ghost predicate Distinct(n: nat, events: seq<Event>) {
    forall i, j :: (n <= i < |events| && n <= j < |events| && events[i].ref == events[j].ref) ==> i == j
  }

  ghost predicate Complete(n: nat, before: Rows, born: Rows, events: seq<Event>) {
    forall ref :: ref in born && ref !in before && !ref.kind.Farms? ==> exists i :: n <= i < |events| && events[i].ref == ref
  }

  /** Since the state `s`, exactly the rows born have an event, each of them one,
      and nothing recorded before was removed. */
  ghost predicate Announced(s: State, t: State) {
    var n := |s.db.events|;
    && n <= |t.db.events| && t.db.events[..n] == s.db.events
    && Sound(n, s.born, t.born, t.db.events)
    && Distinct(n, t.db.events)
    && Complete(n, s.born, t.born, t.db.events)
  }

  lemma EventsStep(t: State, l: Label)
    requires Inv(t) && Enabled(t, l)
    ensures var t' := Next(t, l);
      if l.Commit? then
        t'.db.events == t.db.events + [CreationEvent(t.tasks[l.c].op.kind, t.tasks[l.c].phase.id, t.tasks[l.c].op.parent,
                                                     t.tasks[l.c].phase.row, t.tasks[l.c].user)]
      else
        t'.db.events == t.db.events && forall ref :: ref in t'.born && ref !in t.born ==> ref.kind.Farms?
  {
    OneRowChanges(t, l);
    hide NameTaken, NameElsewhere, HasHarvest, HasChildren, Clashes, OwnerOf;
  }

  lemma CommitAnnounces(t: State, l: Label)
    requires Inv(t) && Enabled(t, l) && l.Commit?
    ensures var op, p := t.tasks[l.c].op, t.tasks[l.c].phase;
      var e := CreationEvent(op.kind, p.id, op.parent, p.row, t.tasks[l.c].user);
      EventOk(Next(t, l).born, e) && e.ref !in t.born && Next(t, l).born.Keys == t.born.Keys + {e.ref}
  {
    CommitTouches(t, l);
    ParentBorn(t, l);
    TouchedIsOwn(t, l);
    hide OwnerOf;
  }

  lemma EventStays(born: Rows, born': Rows, e: Event)
    requires ForeignKeys(born) && Extends(born, born') && EventOk(born, e)
    ensures EventOk(born', e)
  {
    OwnerSettled(born, born', e.ref);
    hide OwnerOf;
  }

  lemma AnnouncedStep(s: State, t: State, l: Label)
    requires Inv(t) && Enabled(t, l) && Announced(s, t) && Extends(s.born, t.born)
    ensures Announced(s, Next(t, l))
  {
    var t' := Next(t, l);
    EventsStep(t, l);
    BornGrows(t, l);
    assert ForeignKeys(t.born) && Extends(t.born, t'.born);
    if l.Commit? {
      CommitAnnounces(t, l);
      var op, p := t.tasks[l.c].op, t.tasks[l.c].phase;
      var e := CreationEvent(op.kind, p.id, op.parent, p.row, t.tasks[l.c].user);
      assert e.ref !in s.born;
      hide Next, Enabled, Inv, CreationEvent, EventOk, Announced, ForeignKeys, Extends;
      AnnouncedMore(s, t, t', e);
    } else {
      hide Next, Enabled, Inv, EventOk, Announced, ForeignKeys, Extends;
      AnnouncedSame(s, t, t');
    }
  }

  lemma AnnouncedMore(s: State, t: State, t': State, e: Event)
    requires Announced(s, t) && ForeignKeys(t.born) && Extends(t.born, t'.born) && t'.db.events == t.db.events + [e]
    requires EventOk(t'.born, e) && e.ref !in t.born && e.ref !in s.born && t'.born.Keys == t.born.Keys + {e.ref}
    ensures Announced(s, t')
  {
    var n := |s.db.events|;
    SoundStays(n, s.born, t.born, t'.born, t.db.events);
    hide EventOk, Sound, Distinct, Complete, Extends;
    SoundMore(n, s.born, t'.born, t.db.events, e);
    DistinctMore(n, t.born, t.db.events, e);
    CompleteMore(n, s.born, t.born, t'.born, t.db.events, e);
    assert (t.db.events + [e])[..n] == t.db.events[..n];
  }

  lemma AnnouncedSame(s: State, t: State, t': State)
    requires Announced(s, t) && ForeignKeys(t.born) && Extends(t.born, t'.born) && t'.db.events == t.db.events
    requires forall ref :: ref in t'.born && ref !in t.born ==> ref.kind.Farms?
    ensures Announced(s, t')
  {
    SoundStays(|s.db.events|, s.born, t.born, t'.born, t.db.events);
    CompleteSame(|s.db.events|, s.born, t.born, t'.born, t.db.events);
  }

  lemma CompleteSame(n: nat, before: Rows, born: Rows, born': Rows, events: seq<Event>)
    requires Complete(n, before, born, events) && forall ref :: ref in born' && ref !in born ==> ref.kind.Farms?
    ensures Complete(n, before, born', events)
  {
  }

  lemma SoundStays(n: nat, before: Rows, born: Rows, born': Rows, events: seq<Event>)
    requires Sound(n, before, born, events) && ForeignKeys(born) && Extends(born, born')
    ensures Sound(n, before, born', events)
    ensures forall i :: n <= i < |events| ==> events[i].ref in born
  {
    forall i | n <= i < |events| ensures EventOk(born', events[i]) { EventStays(born, born', events[i]); }
  }

  lemma SoundMore(n: nat, before: Rows, born: Rows, events: seq<Event>, e: Event)
    requires Sound(n, before, born, events) && EventOk(born, e) && e.ref !in before
    ensures Sound(n, before, born, events + [e])
  {
    hide EventOk;
  }

  lemma DistinctMore(n: nat, born: Rows, events: seq<Event>, e: Event)
    requires Distinct(n, events) && e.ref !in born && forall i :: n <= i < |events| ==> events[i].ref in born
    ensures Distinct(n, events + [e])
  {
  }

  lemma CompleteMore(n: nat, before: Rows, born: Rows, born': Rows, events: seq<Event>, e: Event)
    requires Complete(n, before, born, events) && born'.Keys == born.Keys + {e.ref} && n <= |events|
    ensures Complete(n, before, born', events + [e])
  {
    var events' := events + [e];
    forall ref | ref in born' && ref !in before && !ref.kind.Farms? ensures exists i :: n <= i < |events'| && events'[i].ref == ref {
      if ref in born {
        var i :| n <= i < |events| && events[i].ref == ref;
        assert events'[i].ref == ref;
      } else {
        assert events'[|events|].ref == ref;
      }
    }
  }

  /** Over any run, whatever transactions abort: each crop, activity and harvest
      committed in it has exactly one event, each event announces such a row with
      its true crop, farm and owner, and deletes never take an event back. */
  lemma OutboxAtomicity(s: State, ls: seq<Label>)
    requires Inv(s) && Valid(System(), s, ls)
    ensures Announced(s, Exec(System(), s, ls))
  {
    var inv := (t: State) => Inv(t) && Announced(s, t) && Extends(s.born, t.born);
    assert s.db.events[..|s.db.events|] == s.db.events;
    forall t: State, l: Label | inv(t) && Enabled(t, l) ensures inv(Next(t, l)) {
      InvStep(t, l);
      AnnouncedStep(s, t, l);
      BornGrows(t, l);
      hide Inv, Enabled, Next, Announced;
    }
    Invariant(System(), inv, _ => true, s, ls);
  }

  // ---- One harvest per crop ---------------------------------------------------------

  ghost predicate OnePerCrop(rows: Rows) {
    forall a, b :: (a in rows && b in rows && a.kind.Harvests? && b.kind.Harvests? && rows[a].parent.Some?
                    && rows[a].parent == rows[b].parent) ==> a == b
  }

  predicate IsHarvest(op: Op) {
    op.CreateUnder? && op.kind.Harvests?
  }

  /** With one consumer nothing happens between a handler's check and its write. */
  ghost predicate Serial(s: State) {
    && s.tasks.Keys <= {0}
    && (0 in s.tasks ==>
          var t := s.tasks[0];
          && (IsHarvest(t.op) && (t.phase.Clear? || InTransaction(t.phase)) ==> !HasHarvest(s.db.rows, t.op.parent))
          && (t.op.Update? && t.phase.Owned? ==> t.op.ref in s.db.rows))
  }

  lemma SerialStep(s: State, l: Label)
    requires Inv(s) && Serial(s) && Enabled(s, l) && l.c == 0
    ensures Serial(Next(s, l))
  {
    hide Inv;
    hide NameTaken, NameElsewhere, HasHarvest, HasChildren, Clashes, OwnerOf, Written;
  }

  lemma OnePerCropStep(s: State, l: Label)
    requires Inv(s) && Serial(s) && OnePerCrop(s.db.rows) && Enabled(s, l) && l.c == 0
    ensures OnePerCrop(Next(s, l).db.rows)
  {
    if l.Commit? {
      assert TaskOk(s, s.tasks[0]);
    } else if l.Write? {
      assert TaskOk(s, s.tasks[0]);
      WriteKeepsHarvests(s);
    } else {
      OneRowChanges(s, l);
    }
  }

  lemma WriteKeepsHarvests(s: State)
    requires Inv(s) && Serial(s) && OnePerCrop(s.db.rows) && Enabled(s, Write(0))
    ensures OnePerCrop(Next(s, Write(0)).db.rows)
  {
    var t := s.tasks[0];
    assert TaskOk(s, t);
    if t.op.Update? {
      UpdateSaves(s);
      assert SameLinks(t.phase.row, s.db.rows[t.op.ref]);
      SaveKeepsHarvests(s.db, t.op.ref, t.phase.row.(info := t.op.info));
    } else {
      OtherKeepsHarvests(s);
    }
  }

  lemma OtherKeepsHarvests(s: State)
    requires OnePerCrop(s.db.rows) && Enabled(s, Write(0)) && !s.tasks[0].op.Update?
    ensures OnePerCrop(Next(s, Write(0)).db.rows)
  {
    FarmsOrGone(s, s.tasks[0]);
    OneRowChanges(s, Write(0));
    hide Next, Enabled, Touched;
    var rows, rows', ref := s.db.rows, Next(s, Write(0)).db.rows, Touched(s, Write(0)).value;
    forall a, b | a in rows' && b in rows' && a.kind.Harvests? && b.kind.Harvests? && rows'[a].parent.Some?
                  && rows'[a].parent == rows'[b].parent
      ensures a == b
    {
      assert Same(rows, rows', a) && Same(rows, rows', b);
    }
  }

  lemma UpdateSaves(s: State)
    requires Enabled(s, Write(0)) && s.tasks[0].op.Update?
    ensures s.tasks[0].phase.Owned?
    ensures Next(s, Write(0)).db == SaveRow(s.db, s.tasks[0].op.ref, s.tasks[0].phase.row.(info := s.tasks[0].op.info))
  {
  }

  lemma SaveKeepsHarvests(db: Db, ref: Ref, row: Row)
    requires OnePerCrop(db.rows) && ref in db.rows && SameLinks(row, db.rows[ref])
    ensures OnePerCrop(SaveRow(db, ref, row).rows)
  {
  }

  lemma FarmsOrGone(s: State, t: Task)
    requires Enabled(s, Write(0)) && t == s.tasks[0] && !t.op.Update?
    ensures var ref := Touched(s, Write(0)).value;
      Touched(s, Write(0)).Some? && (ref.kind.Farms? || ref !in Next(s, Write(0)).db.rows || Same(s.db.rows, Next(s, Write(0)).db.rows, ref))
  {
    hide NameTaken, HasChildren, Clashes;
  }

  /** With one consumer, no run ever gives a crop a second harvest. */
  lemma OneHarvestPerCrop(s: State, ls: seq<Label>)
    requires Inv(s) && s.tasks == map[] && OnePerCrop(s.db.rows)
    requires Valid(System(), s, ls) && Only(ls, (l: Label) => l.c == 0)
    ensures OnePerCrop(Exec(System(), s, ls).db.rows)
  {
    var inv := (t: State) => Inv(t) && Serial(t) && OnePerCrop(t.db.rows);
    forall t: State, l: Label | inv(t) && l.c == 0 && Enabled(t, l) ensures inv(Next(t, l)) {
      InvStep(t, l);
      SerialStep(t, l);
      OnePerCropStep(t, l);
    }
    Invariant(System(), inv, (l: Label) => l.c == 0, s, ls);
  }

  const EMPTY := State(Db(map[], map[], []), map[], map[])

  /** From the database the migration creates: any number of consumers keep it
      free of dangling keys and duplicate names and announce every creation
      exactly once; a single one keeps it to one harvest per crop. */
  lemma FromEmptyDatabase(ls: seq<Label>)
    requires Valid(System(), EMPTY, ls)
    ensures var s := Exec(System(), EMPTY, ls);
      && ForeignKeys(s.db.rows) && UniqueNames(s.db.rows) && Announced(EMPTY, s)
      && (Only(ls, (l: Label) => l.c == 0) ==> OnePerCrop(s.db.rows))
  {
    EmptyStart();
    InvRun(EMPTY, ls);
    OutboxAtomicity(EMPTY, ls);
    if Only(ls, (l: Label) => l.c == 0) { OneHarvestPerCrop(EMPTY, ls); }
  }
}

/** When a report, read table by table, is the report of one database state. */
module ReportExact {
  import opened Prelude
  import opened Runs
  import opened Report
  import opened ReportCache

  type View = Part -> Tables

  // ---- What a report depends on ----------------------------------------------------

  ghost predicate SameCropData(a: View, b: View, crop: int) {
    && ActivitiesOf(a(Activities).activities, crop) == ActivitiesOf(b(Activities).activities, crop)
    && HarvestsOf(a(Harvests).harvests, crop) == HarvestsOf(b(Harvests).harvests, crop)
  }

  ghost predicate SameFarmData(a: View, b: View, farm: int) {
    && CropRowsOf(a(Crops).crops, farm) == CropRowsOf(b(Crops).crops, farm)
    && forall c :: c in CropRowsOf(a(Crops).crops, farm) ==> SameCropData(a, b, c.id)
  }

  /** The owner's farm rows, and everything below them. */
  ghost predicate SameOwner(a: View, b: View, owner: int) {
    && RowsOf(a(Farms).farms, owner) == RowsOf(b(Farms).farms, owner)
    && forall f :: f in RowsOf(a(Farms).farms, owner) ==> SameFarmData(a, b, f.id)
  }

  /** The owners of the rows, in the order they first occur. */
  function RowOwners(rows: seq<FarmRow>): seq<int> {
    if rows == [] then []
    else
      var before, last := RowOwners(rows[..|rows| - 1]), rows[|rows| - 1].userId;
      if last in before then before else before + [last]
  }

  /** The two views agree on the rows the report of this scope is made of:
      nothing else in the tables matters to it. */
  ghost predicate SameSlice(scope: Scope, a: View, b: View) {
    match scope
    case FarmerScope(farmer) => SameOwner(a, b, farmer)
    case AdminScope =>
      && RowOwners(a(Farms).farms) == RowOwners(b(Farms).farms)
      && forall u :: u in RowOwners(a(Farms).farms) ==>
           SameOwner(a, b, u) && Summary(u, a(Profiles).profiles) == Summary(u, b(Profiles).profiles)
  }

  // ---- The report determines its slice ----------------------------------------------

  function TreeIn(v: View): FarmRow -> FarmEntity {
    FarmTree(v(Crops).crops, v(Activities).activities, v(Harvests).harvests)
  }

  function CropIn(v: View): CropRow -> CropEntity {
    CropTree(v(Activities).activities, v(Harvests).harvests)
  }

  lemma {:induction false} CropRowsBelong(rows: seq<CropRow>, farm: int)
    ensures forall c :: c in CropRowsOf(rows, farm) ==> c.farm == Some(farm)
  {
    if rows != [] { CropRowsBelong(rows[..|rows| - 1], farm); }
  }

  lemma ShapedCrop(a: View, c: CropRow)
    ensures ShapeCrop(CropIn(a)(c)) == Crop(c.id, c.info, ActivitiesOf(a(Activities).activities, c.id), HarvestsOf(a(Harvests).harvests, c.id))
  {
  }

  lemma ShapedCrops(a: View, b: View, p: seq<CropRow>, q: seq<CropRow>, farm: int)
    requires forall c :: c in p || c in q ==> c.farm == Some(farm)
    ensures Map(ShapeCrop, Map(CropIn(a), p)) == Map(ShapeCrop, Map(CropIn(b), q))
            <==> p == q && forall c :: c in p ==> SameCropData(a, b, c.id)
  {
    hide CropIn, ShapeCrop, ActivitiesOf, HarvestsOf;
    var x, y := Map(ShapeCrop, Map(CropIn(a), p)), Map(ShapeCrop, Map(CropIn(b), q));
    forall i | 0 <= i < |p| && i < |q| ensures x[i] == y[i] <==> p[i] == q[i] && SameCropData(a, b, p[i].id) {
      assert p[i] in p && q[i] in q;
      ShapedCrop(a, p[i]);
      ShapedCrop(b, q[i]);
    }
    hide Map;
    if x == y {
      assert p == q;
      forall c | c in p ensures SameCropData(a, b, c.id) {
        var i :| 0 <= i < |p| && p[i] == c;
      }
    }
  }

  lemma ShapedFarm(a: View, f: FarmRow)
    ensures ShapeFarm(TreeIn(a)(f)) == Farm(f.id, f.userId, f.info, Map(ShapeCrop, Map(CropIn(a), CropRowsOf(a(Crops).crops, f.id))))
  {
  }

  lemma ShapedFarms(a: View, b: View, p: seq<FarmRow>, q: seq<FarmRow>)
    ensures ShapeFarms(Map(TreeIn(a), p)) == ShapeFarms(Map(TreeIn(b), q))
            <==> p == q && forall f :: f in p ==> SameFarmData(a, b, f.id)
  {
    hide TreeIn, ShapeFarm;
    var x, y := ShapeFarms(Map(TreeIn(a), p)), ShapeFarms(Map(TreeIn(b), q));
    forall i | 0 <= i < |p| && i < |q| ensures x[i] == y[i] <==> p[i] == q[i] && SameFarmData(a, b, p[i].id) {
      SameShape(a, b, p[i], q[i]);
    }
    hide Map, SameFarmData, ShapeFarms;
    if x == y {
      assert p == q;
      forall f | f in p ensures SameFarmData(a, b, f.id) {
        var i :| 0 <= i < |p| && p[i] == f;
      }
    }
  }

  lemma SameShape(a: View, b: View, f: FarmRow, g: FarmRow)
    ensures ShapeFarm(TreeIn(a)(f)) == ShapeFarm(TreeIn(b)(g)) <==> f == g && SameFarmData(a, b, f.id)
  {
    ShapedFarm(a, f);
    ShapedFarm(b, g);
    var p, q := CropRowsOf(a(Crops).crops, f.id), CropRowsOf(b(Crops).crops, g.id);
    CropRowsBelong(a(Crops).crops, f.id);
    CropRowsBelong(b(Crops).crops, g.id);
    if f.id == g.id { ShapedCrops(a, b, p, q, f.id); }
    hide ShapeFarm, TreeIn, CropIn, Map, CropRowsOf, SameCropData;
  }

  lemma TreeKeepsOwner(v: View, f: FarmRow)
    ensures TreeIn(v)(f).userId == f.userId
  {
  }

  lemma LastTree(v: View, rows: seq<FarmRow>)
    requires rows != []
    ensures var n, es := |rows| - 1, Map(TreeIn(v), rows);
      |es| == n + 1 && es[..n] == Map(TreeIn(v), rows[..n]) && es[n] == TreeIn(v)(rows[n]) && es[n].userId == rows[n].userId
  {
    var n := |rows| - 1;
    assert rows == rows[..n] + [rows[n]];
    MapAppend(TreeIn(v), rows[..n], rows[n]);
    TreeKeepsOwner(v, rows[n]);
    hide TreeIn, Map;
  }

  lemma {:induction false} OwnedRows(v: View, rows: seq<FarmRow>, owner: int)
    ensures OwnedBy(Map(TreeIn(v), rows), owner) == Map(TreeIn(v), RowsOf(rows, owner))
  {
    if rows != [] {
      var n := |rows| - 1;
      OwnedRows(v, rows[..n], owner);
      LastTree(v, rows);
      MapAppend(TreeIn(v), RowsOf(rows[..n], owner), rows[n]);
      assert RowsOf(rows[..n], owner) + [] == RowsOf(rows[..n], owner);
      hide Map, TreeIn;
    }
  }

  lemma {:induction false} OwnersOfRows(v: View, rows: seq<FarmRow>)
    ensures Owners(Map(TreeIn(v), rows)) == RowOwners(rows)
  {
    if rows != [] {
      OwnersOfRows(v, rows[..|rows| - 1]);
      LastTree(v, rows);
      hide Map, TreeIn;
    }
  }

  /** A group is the owner's slice. */
  lemma GroupSlice(a: View, b: View, u: int)
    ensures var es, fs := Map(TreeIn(a), a(Farms).farms), Map(TreeIn(b), b(Farms).farms);
      GroupOf(es, a(Profiles).profiles, u) == GroupOf(fs, b(Profiles).profiles, u)
      <==> SameOwner(a, b, u) && Summary(u, a(Profiles).profiles) == Summary(u, b(Profiles).profiles)
  {
    OwnedRows(a, a(Farms).farms, u);
    OwnedRows(b, b(Farms).farms, u);
    ShapedFarms(a, b, RowsOf(a(Farms).farms, u), RowsOf(b(Farms).farms, u));
    hide Summary, ShapeFarms, OwnedBy, Map, TreeIn, RowsOf, SameFarmData;
  }

  lemma GroupedIff(es: seq<FarmEntity>, fs: seq<FarmEntity>, p: map<int, Profile>, q: map<int, Profile>)
    ensures Grouped(es, p) == Grouped(fs, q)
            <==> Owners(es) == Owners(fs) && forall u :: u in Owners(es) ==> GroupOf(es, p, u) == GroupOf(fs, q, u)
  {
    var x, y, us, ws := Grouped(es, p), Grouped(fs, q), Owners(es), Owners(fs);
    assert forall i :: 0 <= i < |us| ==> x[i] == GroupOf(es, p, us[i]) && x[i].owner.id == us[i];
    assert forall i :: 0 <= i < |ws| ==> y[i] == GroupOf(fs, q, ws[i]) && y[i].owner.id == ws[i];
    assert |x| == |us| && |y| == |ws|;
    hide Grouped, GroupOf, Owners;
    if x == y {
      assert us == ws;
      forall u | u in us ensures GroupOf(es, p, u) == GroupOf(fs, q, u) {
        var i :| 0 <= i < |us| && us[i] == u;
      }
    }
  }

  /** Two reports are equal exactly when their slices are. */
  lemma ReportIffSlice(scope: Scope, a: View, b: View)
    ensures Built(scope, a) == Built(scope, b) <==> SameSlice(scope, a, b)
  {
    hide SameOwner, Owners, RowOwners, GroupOf, Grouped, Summary;
    match scope
    case FarmerScope(u) => FarmerIffSlice(u, a, b);
    case AdminScope =>
      var es, fs := Map(TreeIn(a), a(Farms).farms), Map(TreeIn(b), b(Farms).farms);
      GroupedIff(es, fs, a(Profiles).profiles, b(Profiles).profiles);
      OwnersOfRows(a, a(Farms).farms);
      OwnersOfRows(b, b(Farms).farms);
      forall u
        ensures GroupOf(es, a(Profiles).profiles, u) == GroupOf(fs, b(Profiles).profiles, u)
                <==> SameOwner(a, b, u) && Summary(u, a(Profiles).profiles) == Summary(u, b(Profiles).profiles)
      {
        GroupSlice(a, b, u);
      }
      hide Map;
  }

  lemma FarmerIffSlice(u: int, a: View, b: View)
    ensures Built(FarmerScope(u), a) == Built(FarmerScope(u), b) <==> SameOwner(a, b, u)
  {
    ShapedFarms(a, b, RowsOf(a(Farms).farms, u), RowsOf(b(Farms).farms, u));
    hide ShapeFarms, Map, SameFarmData, RowsOf;
  }

  // ---- Answers of the machine ---------------------------------------------------------

  /** The exact condition: an answer is the uncached report of a database state
      if and only if that state agrees with what the queries saw on the rows of
      the answer's scope. */
  lemma ExactIffSameSlice(t: Tables, ls: seq<Label>, i: nat, v: nat)
    requires Valid(System(), Start(t), ls)
    requires var s := Exec(System(), Start(t), ls); i < |s.answers| && v < |s.log|
    ensures var s := Exec(System(), Start(t), ls);
      var a := s.answers[i];
      a.result == Uncached(a.scope, s.log[v].tables) <==> SameSlice(a.scope, Seen(s.log, a.snaps), Whole(s.log[v].tables))
  {
    InvRun(t, ls);
    var s := Exec(System(), Start(t), ls);
    assert AnswerOk(s, s.answers[i]);
    hide Built, SameSlice, Valid, Exec, System;
    ReportIffSlice(s.answers[i].scope, Seen(s.log, s.answers[i].snaps), Whole(s.log[v].tables));
  }

  /** The content of one table. */
  ghost predicate SamePart(a: Tables, b: Tables, part: Part) {
    match part
    case Farms => a.farms == b.farms
    case Crops => a.crops == b.crops
    case Activities => a.activities == b.activities
    case Harvests => a.harvests == b.harvests
    case Profiles => a.profiles == b.profiles
  }

  lemma SamePartsSameSlice(scope: Scope, a: View, b: View)
    requires forall part :: part in Needed(scope) ==> SamePart(a(part), b(part), part)
    ensures SameSlice(scope, a, b)
  {
    assert SamePart(a(Farms), b(Farms), Farms) && SamePart(a(Crops), b(Crops), Crops)
        && SamePart(a(Activities), b(Activities), Activities) && SamePart(a(Harvests), b(Harvests), Harvests);
    if scope.AdminScope? { assert SamePart(a(Profiles), b(Profiles), Profiles); }
    hide RowsOf, CropRowsOf, ActivitiesOf, HarvestsOf, RowOwners, Summary;
  }

  /** What the answer's query of a table saw is still in version `v`. */
  ghost predicate Agrees(log: seq<Version>, a: Answer, v: nat, part: Part)
    requires v < |log|
  {
    part in a.snaps && a.snaps[part].version < |log| && SamePart(log[a.snaps[part].version].tables, log[v].tables, part)
  }

  /** A version that agrees, table by table, with what each query saw is the
      state the answer is the report of. */
  lemma AgreeingVersionIsExact(t: Tables, ls: seq<Label>, i: nat, v: nat)
    requires Valid(System(), Start(t), ls)
    requires var s := Exec(System(), Start(t), ls);
      && i < |s.answers| && v < |s.log|
      && forall part :: part in Needed(s.answers[i].scope) ==> Agrees(s.log, s.answers[i], v, part)
    ensures var s := Exec(System(), Start(t), ls);
      s.answers[i].result == Uncached(s.answers[i].scope, s.log[v].tables)
  {
    ExactIffSameSlice(t, ls, i, v);
    hide Valid, Exec, System, Uncached, SameSlice;
    var s := Exec(System(), Start(t), ls);
    var a := s.answers[i];
    forall part | part in Needed(a.scope) ensures SamePart(Seen(s.log, a.snaps)(part), s.log[v].tables, part) {
      assert Agrees(s.log, a, v, part);
    }
    SamePartsSameSlice(a.scope, Seen(s.log, a.snaps), Whole(s.log[v].tables));
  }

  /** Between the answer's read of the farms and its later reads, the needed
      tables other than `p` keep their content. */
  ghost predicate OnlyWrites(log: seq<Version>, a: Answer, p: Part)
    requires Farms in a.snaps && a.snaps[Farms].version < |log|
  {
    var first := a.snaps[Farms].version;
    forall w, part, q ::
      (part in a.snaps && first <= w <= a.snaps[part].version && w < |log| && q in Needed(a.scope) && q != p) ==>
        SamePart(log[first].tables, log[w].tables, q)
  }

  /** Writes confined to one table during a computation never tear its report,
      nor do writes to tables the report does not read. */
  lemma OneTableWritesNeverTear(t: Tables, ls: seq<Label>, i: nat, p: Part)
    requires Valid(System(), Start(t), ls) && i < |Exec(System(), Start(t), ls).answers|
    ensures var s := Exec(System(), Start(t), ls);
      var a := s.answers[i];
      && Farms in a.snaps && a.snaps[Farms].version < |s.log|
      && (OnlyWrites(s.log, a, p) ==>
            var v := if p in a.snaps then a.snaps[p].version else a.snaps[Farms].version;
            v < |s.log| && a.result == Uncached(a.scope, s.log[v].tables))
  {
    InvRun(t, ls);
    var s := Exec(System(), Start(t), ls);
    var a := s.answers[i];
    assert AnswerOk(s, a);
    assert Farms in Needed(a.scope);
    if OnlyWrites(s.log, a, p) {
      var v := if p in a.snaps then a.snaps[p].version else a.snaps[Farms].version;
      hide Valid, Exec, System, Uncached, SameSlice, Inv, Built;
      forall part | part in Needed(a.scope) ensures Agrees(s.log, a, v, part) {
        KeptAgrees(s.log, a, p, v, part);
      }
      AgreeingVersionIsExact(t, ls, i, v);
    }
  }

  lemma KeptAgrees(log: seq<Version>, a: Answer, p: Part, v: nat, part: Part)
    requires Farms in a.snaps && a.snaps[Farms].version < |log| && OnlyWrites(log, a, p)
    requires a.snaps.Keys == Needed(a.scope) && ReadsOk(log, a.storedAt, a.snaps) && part in Needed(a.scope)
    requires v == if p in a.snaps then a.snaps[p].version else a.snaps[Farms].version
    ensures v < |log| && Agrees(log, a, v, part)
  {
    var first, w := a.snaps[Farms].version, a.snaps[part].version;
    assert first <= w < |log|;
    assert first <= v < |log|;
    if part != p {
      assert SamePart(log[first].tables, log[w].tables, part);
      assert SamePart(log[first].tables, log[v].tables, part) by {
        if p in a.snaps { assert first <= v <= a.snaps[p].version; } else { assert v <= a.snaps[Farms].version; }
      }
    }
  }
}

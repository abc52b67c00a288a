/** Runs in which a report mixes two database states. */
module ReportLimits {
  import opened Prelude
  import opened Runs
  import opened Report
  import opened ReportCache
  import opened ReportExact

  lemma Goes(start: Tables, ls: seq<Label>, s: State, l: Label, s': State) returns (ls': seq<Label>)
    requires Valid(System(), Start(start), ls) && Exec(System(), Start(start), ls) == s && Enabled(s, l) && Next(s, l) == s'
    ensures Valid(System(), Start(start), ls') && Exec(System(), Start(start), ls') == s'
  {
    Extend(System(), Start(start), ls, l);
    ls' := ls + [l];
  }

  /** Consumer 0 computing its own farmer's report. */
  function Computing(u: int, log: seq<Version>, snaps: Snaps): State {
    State(0, log, map[], map[0 := Task(u, FarmerScope(u), 0, Reading(snaps))], [])
  }

  function Log(t0: Tables, t1: Tables, t2: Tables): seq<Version> {
    [Version(0, t0), Version(0, t1), Version(0, t2)]
  }

  const S0 := Snap(0, 0)
  const S2 := Snap(2, 0)
  const ALL: Snaps := map[Farms := S0, Crops := S2, Activities := S2, Harvests := S2]

  lemma FarmsRead(t0: Tables, u: int) returns (ls: seq<Label>)
    ensures Valid(System(), Start(t0), ls)
    ensures Exec(System(), Start(t0), ls) == Computing(u, [Version(0, t0)], map[Farms := S0])
  {
    var log := [Version(0, t0)];
    var none: Snaps := map[];
    assert Valid(System(), Start(t0), []) && Exec(System(), Start(t0), []) == Start(t0);
    hide Valid, Exec, System;
    ls := Goes(t0, [], Start(t0), Ask(0, u, FarmerScope(u)), State(0, log, map[], map[0 := Task(u, FarmerScope(u), 0, Asked)], []));
    ls := Goes(t0, ls, State(0, log, map[], map[0 := Task(u, FarmerScope(u), 0, Asked)], []), LookUp(0), Computing(u, log, none));
    ls := Goes(t0, ls, Computing(u, log, none), Read(0, Farms), Computing(u, log, map[Farms := S0]));
  }

  lemma AllRead(t0: Tables, t1: Tables, t2: Tables, u: int, start: seq<Label>) returns (ls: seq<Label>)
    requires Valid(System(), Start(t0), start)
    requires Exec(System(), Start(t0), start) == Computing(u, [Version(0, t0)], map[Farms := S0])
    ensures Valid(System(), Start(t0), ls) && Exec(System(), Start(t0), ls) == Computing(u, Log(t0, t1, t2), ALL)
  {
    hide Valid, Exec, System;
    var farms: Snaps := map[Farms := S0];
    var log := Log(t0, t1, t2);
    ls := Goes(t0, start, Computing(u, [Version(0, t0)], farms), Change(t1), Computing(u, [Version(0, t0), Version(0, t1)], farms));
    ls := Goes(t0, ls, Computing(u, [Version(0, t0), Version(0, t1)], farms), Change(t2), Computing(u, log, farms));
    ls := Goes(t0, ls, Computing(u, log, farms), Read(0, Crops), Computing(u, log, farms[Crops := S2]));
    ls := Goes(t0, ls, Computing(u, log, farms[Crops := S2]), Read(0, Activities), Computing(u, log, farms[Crops := S2][Activities := S2]));
    ls := Goes(t0, ls, Computing(u, log, farms[Crops := S2][Activities := S2]), Read(0, Harvests), Computing(u, log, ALL));
  }

  /** Between the two reads a farmer's farms changed, and so did something below
      a farm they already had: its crops, or a crop's activities or harvests. */
  ghost predicate BothChanged(t0: Tables, t1: Tables, t2: Tables, u: int) {
    && RowsOf(t0.farms, u) != RowsOf(t1.farms, u) && RowsOf(t0.farms, u) != RowsOf(t2.farms, u)
    && exists f :: f in RowsOf(t0.farms, u) && !SameFarmData(Whole(t2), Whole(t0), f.id)
  }

  /** Whatever the tables: two writes between the reads, one to the farmer's farms
      and one below them, and the farmer gets the report of no state the database
      was ever in. */
  lemma ChangesBetweenReadsTear(t0: Tables, t1: Tables, t2: Tables, u: int) returns (ls: seq<Label>)
    requires BothChanged(t0, t1, t2, u)
    ensures Valid(System(), Start(t0), ls)
    ensures var s := Exec(System(), Start(t0), ls);
      && s.log == Log(t0, t1, t2) && |s.answers| == 1 && s.answers[0].scope == FarmerScope(u)
      && forall v :: 0 <= v < |s.log| ==> s.answers[0].result != Uncached(FarmerScope(u), s.log[v].tables)
  {
    ls := FarmsRead(t0, u);
    ls := AllRead(t0, t1, t2, u, ls);
    var s := Computing(u, Log(t0, t1, t2), ALL);
    Torn(t0, t1, t2, u);
    hide Valid, Exec, System, Built, ScopeKey, Seen, Uncached, BothChanged;
    ls := Goes(t0, ls, s, Finish(0), Next(s, Finish(0)));
  }

  lemma Torn(t0: Tables, t1: Tables, t2: Tables, u: int)
    requires BothChanged(t0, t1, t2, u)
    ensures forall v :: 0 <= v < |Log(t0, t1, t2)| ==>
              Built(FarmerScope(u), Seen(Log(t0, t1, t2), ALL)) != Uncached(FarmerScope(u), Log(t0, t1, t2)[v].tables)
  {
    var log := Log(t0, t1, t2);
    var seen := Seen(log, ALL);
    assert seen(Farms) == t0 && seen(Crops) == t2 && seen(Activities) == t2 && seen(Harvests) == t2;
    TornFrom(seen, t0, t1, t2, u);
    hide Built, BothChanged, Seen, Uncached;
    forall v | 0 <= v < |log| ensures Built(FarmerScope(u), seen) != Uncached(FarmerScope(u), log[v].tables) {
      assert log[v].tables == if v == 0 then t0 else if v == 1 then t1 else t2;
    }
  }

  lemma TornFrom(seen: View, t0: Tables, t1: Tables, t2: Tables, u: int)
    requires BothChanged(t0, t1, t2, u)
    requires seen(Farms) == t0 && seen(Crops) == t2 && seen(Activities) == t2 && seen(Harvests) == t2
    ensures Built(FarmerScope(u), seen) != Uncached(FarmerScope(u), t0)
    ensures Built(FarmerScope(u), seen) != Uncached(FarmerScope(u), t1)
    ensures Built(FarmerScope(u), seen) != Uncached(FarmerScope(u), t2)
  {
    var f :| f in RowsOf(t0.farms, u) && !SameFarmData(Whole(t2), Whole(t0), f.id);
    TornBelow(seen, t0, t2, f.id);
    assert !SameOwner(seen, Whole(t0), u) && !SameOwner(seen, Whole(t1), u) && !SameOwner(seen, Whole(t2), u);
    hide Built, SameOwner, Whole;
    ReportIffSlice(FarmerScope(u), seen, Whole(t0));
    ReportIffSlice(FarmerScope(u), seen, Whole(t1));
    ReportIffSlice(FarmerScope(u), seen, Whole(t2));
  }

  lemma TornBelow(seen: View, t0: Tables, t2: Tables, farm: int)
    requires seen(Crops) == t2 && seen(Activities) == t2 && seen(Harvests) == t2
    requires !SameFarmData(Whole(t2), Whole(t0), farm)
    ensures !SameFarmData(seen, Whole(t0), farm)
  {
    hide CropRowsOf, ActivitiesOf, HarvestsOf;
  }

  // ---- An instance -------------------------------------------------------------------

  const FARM: FarmInfo := FarmInfo(Null, Null, Null, Null)
  const CROP: CropInfo := CropInfo(Null, Null, Null, Null, Null, Null)
  const FIRST := FarmRow(1, 7, FARM)
  const SECOND := FarmRow(2, 7, FARM)

  /** A farm is added, then a crop on the farm that was there. */
  lemma TornReport() returns (t0: Tables, ls: seq<Label>)
    ensures Valid(System(), Start(t0), ls)
    ensures var s := Exec(System(), Start(t0), ls);
      |s.answers| == 1 && forall v :: 0 <= v < |s.log| ==> s.answers[0].result != Uncached(FarmerScope(7), s.log[v].tables)
  {
    t0 := Tables([FIRST], [], [], [], map[]);
    var t1 := t0.(farms := [FIRST, SECOND]);
    var t2 := t1.(crops := [CropRow(3, Some(1), CROP)]);
    assert [FIRST][..0] == [] && RowsOf([FIRST], 7) == [FIRST];
    assert [FIRST, SECOND][..1] == [FIRST] && RowsOf([FIRST, SECOND], 7) == [FIRST, SECOND];
    assert t2.crops[..0] == [] && CropRowsOf(t2.crops, 1) == t2.crops && CropRowsOf([], 1) == [];
    assert FIRST in RowsOf(t0.farms, 7) && !SameFarmData(Whole(t2), Whole(t0), FIRST.id);
    ls := ChangesBetweenReadsTear(t0, t1, t2, 7);
  }
}

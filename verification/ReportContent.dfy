/** What a report says, told from the tables: every farm, crop, activity and
    harvest under the right parent, in table order, and nothing else. */
module ReportContent {
  import opened Prelude
  import opened Runs
  import opened Report
  import opened ReportCache
  import opened ReportExact

  // ---- The four queries ----------------------------------------------------------------

  ghost predicate Ascending(at: seq<nat>) {
    forall i, j :: 0 <= i < j < |at| ==> at[i] < at[j]
  }

  /** `out` are the crop's activities, from the positions `at`, in table order. */
  ghost predicate ActivitiesListed(rows: seq<ActivityRow>, crop: int, at: seq<nat>, out: seq<Activity>) {
    && |out| == |at| && Ascending(at)
    && (forall i :: 0 <= i < |at| ==> at[i] < |rows| && out[i] == rows[at[i]].info)
    && (forall k :: 0 <= k < |rows| ==> (rows[k].crop == Some(crop) <==> k in at))
  }

  lemma ActivitiesKept(rows: seq<ActivityRow>, crop: int, at: seq<nat>, out: seq<Activity>)
    requires rows != [] && ActivitiesListed(rows[..|rows| - 1], crop, at, out) && rows[|rows| - 1].crop == Some(crop)
    ensures ActivitiesListed(rows, crop, at + [|rows| - 1], out + [rows[|rows| - 1].info])
  {
    assert forall k :: 0 <= k < |rows| - 1 ==> rows[..|rows| - 1][k] == rows[k];
  }

  lemma ActivitiesSkipped(rows: seq<ActivityRow>, crop: int, at: seq<nat>, out: seq<Activity>)
    requires rows != [] && ActivitiesListed(rows[..|rows| - 1], crop, at, out) && rows[|rows| - 1].crop != Some(crop)
    ensures ActivitiesListed(rows, crop, at, out)
  {
    assert forall k :: 0 <= k < |rows| - 1 ==> rows[..|rows| - 1][k] == rows[k];
  }

  lemma {:induction false} ActivitiesPicked(rows: seq<ActivityRow>, crop: int) returns (at: seq<nat>)
    ensures ActivitiesListed(rows, crop, at, ActivitiesOf(rows, crop))
  {
    if rows == [] {
      at := [];
    } else {
      var n := |rows| - 1;
      var before := ActivitiesPicked(rows[..n], crop);
      var out := ActivitiesOf(rows[..n], crop);
      hide ActivitiesListed;
      if rows[n].crop == Some(crop) {
        ActivitiesKept(rows, crop, before, out);
        at := before + [n];
      } else {
        ActivitiesSkipped(rows, crop, before, out);
        at := before;
        assert out + [] == out;
      }
    }
  }

  /** `out` are the crop's harvests, from the positions `at`, in table order. */
  ghost predicate HarvestsListed(rows: seq<HarvestRow>, crop: int, at: seq<nat>, out: seq<Harvest>) {
    && |out| == |at| && Ascending(at)
    && (forall i :: 0 <= i < |at| ==> at[i] < |rows| && out[i] == rows[at[i]].info)
    && (forall k :: 0 <= k < |rows| ==> (rows[k].crop == Some(crop) <==> k in at))
  }

  lemma HarvestsKept(rows: seq<HarvestRow>, crop: int, at: seq<nat>, out: seq<Harvest>)
    requires rows != [] && HarvestsListed(rows[..|rows| - 1], crop, at, out) && rows[|rows| - 1].crop == Some(crop)
    ensures HarvestsListed(rows, crop, at + [|rows| - 1], out + [rows[|rows| - 1].info])
  {
    assert forall k :: 0 <= k < |rows| - 1 ==> rows[..|rows| - 1][k] == rows[k];
  }

  lemma HarvestsSkipped(rows: seq<HarvestRow>, crop: int, at: seq<nat>, out: seq<Harvest>)
    requires rows != [] && HarvestsListed(rows[..|rows| - 1], crop, at, out) && rows[|rows| - 1].crop != Some(crop)
    ensures HarvestsListed(rows, crop, at, out)
  {
    assert forall k :: 0 <= k < |rows| - 1 ==> rows[..|rows| - 1][k] == rows[k];
  }

  lemma {:induction false} HarvestsPicked(rows: seq<HarvestRow>, crop: int) returns (at: seq<nat>)
    ensures HarvestsListed(rows, crop, at, HarvestsOf(rows, crop))
  {
    if rows == [] {
      at := [];
    } else {
      var n := |rows| - 1;
      var before := HarvestsPicked(rows[..n], crop);
      var out := HarvestsOf(rows[..n], crop);
      hide HarvestsListed;
      if rows[n].crop == Some(crop) {
        HarvestsKept(rows, crop, before, out);
        at := before + [n];
      } else {
        HarvestsSkipped(rows, crop, before, out);
        at := before;
        assert out + [] == out;
      }
    }
  }

  /** `out` are the rows of the farm's crops, from the positions `at`. */
  ghost predicate CropsListed(rows: seq<CropRow>, farm: int, at: seq<nat>, out: seq<CropRow>) {
    && |out| == |at| && Ascending(at)
    && (forall i :: 0 <= i < |at| ==> at[i] < |rows| && out[i] == rows[at[i]])
    && (forall k :: 0 <= k < |rows| ==> (rows[k].farm == Some(farm) <==> k in at))
  }

  lemma CropsKept(rows: seq<CropRow>, farm: int, at: seq<nat>, out: seq<CropRow>)
    requires rows != [] && CropsListed(rows[..|rows| - 1], farm, at, out) && rows[|rows| - 1].farm == Some(farm)
    ensures CropsListed(rows, farm, at + [|rows| - 1], out + [rows[|rows| - 1]])
  {
    assert forall k :: 0 <= k < |rows| - 1 ==> rows[..|rows| - 1][k] == rows[k];
  }

  lemma CropsSkipped(rows: seq<CropRow>, farm: int, at: seq<nat>, out: seq<CropRow>)
    requires rows != [] && CropsListed(rows[..|rows| - 1], farm, at, out) && rows[|rows| - 1].farm != Some(farm)
    ensures CropsListed(rows, farm, at, out)
  {
    assert forall k :: 0 <= k < |rows| - 1 ==> rows[..|rows| - 1][k] == rows[k];
  }

  lemma {:induction false} CropsPicked(rows: seq<CropRow>, farm: int) returns (at: seq<nat>)
    ensures CropsListed(rows, farm, at, CropRowsOf(rows, farm))
  {
    if rows == [] {
      at := [];
    } else {
      var n := |rows| - 1;
      var before := CropsPicked(rows[..n], farm);
      var out := CropRowsOf(rows[..n], farm);
      hide CropsListed;
      if rows[n].farm == Some(farm) {
        CropsKept(rows, farm, before, out);
        at := before + [n];
      } else {
        CropsSkipped(rows, farm, before, out);
        at := before;
        assert out + [] == out;
      }
    }
  }

  /** `out` are the rows of the owner's farms, from the positions `at`. */
  ghost predicate FarmsListed(rows: seq<FarmRow>, owner: int, at: seq<nat>, out: seq<FarmRow>) {
    && |out| == |at| && Ascending(at)
    && (forall i :: 0 <= i < |at| ==> at[i] < |rows| && out[i] == rows[at[i]])
    && (forall k :: 0 <= k < |rows| ==> (rows[k].userId == owner <==> k in at))
  }

  lemma FarmsKept(rows: seq<FarmRow>, owner: int, at: seq<nat>, out: seq<FarmRow>)
    requires rows != [] && FarmsListed(rows[..|rows| - 1], owner, at, out) && rows[|rows| - 1].userId == owner
    ensures FarmsListed(rows, owner, at + [|rows| - 1], out + [rows[|rows| - 1]])
  {
    assert forall k :: 0 <= k < |rows| - 1 ==> rows[..|rows| - 1][k] == rows[k];
  }

  lemma FarmsSkipped(rows: seq<FarmRow>, owner: int, at: seq<nat>, out: seq<FarmRow>)
    requires rows != [] && FarmsListed(rows[..|rows| - 1], owner, at, out) && rows[|rows| - 1].userId != owner
    ensures FarmsListed(rows, owner, at, out)
  {
    assert forall k :: 0 <= k < |rows| - 1 ==> rows[..|rows| - 1][k] == rows[k];
  }

  lemma {:induction false} FarmsPicked(rows: seq<FarmRow>, owner: int) returns (at: seq<nat>)
    ensures FarmsListed(rows, owner, at, RowsOf(rows, owner))
  {
    if rows == [] {
      at := [];
    } else {
      var n := |rows| - 1;
      var before := FarmsPicked(rows[..n], owner);
      var out := RowsOf(rows[..n], owner);
      hide FarmsListed;
      if rows[n].userId == owner {
        FarmsKept(rows, owner, before, out);
        at := before + [n];
      } else {
        FarmsSkipped(rows, owner, before, out);
        at := before;
        assert out + [] == out;
      }
    }
  }

  // ---- What a report lists -------------------------------------------------------------

  /** The crop of this row, with exactly its own activities and harvests. */
  ghost predicate IsCrop(v: View, crop: Crop, row: CropRow) {
    && crop.id == row.id && crop.info == row.info
    && (exists at :: ActivitiesListed(v(Activities).activities, row.id, at, crop.activities))
    && (exists at :: HarvestsListed(v(Harvests).harvests, row.id, at, crop.harvests))
  }

  /** The farm of this row, with exactly its own crops. */
  ghost predicate IsFarm(v: View, farm: Farm, row: FarmRow) {
    && farm.id == row.id && farm.userId == row.userId && farm.info == row.info
    && exists at, rows :: CropsListed(v(Crops).crops, row.id, at, rows) && |rows| == |farm.crops|
         && forall i :: 0 <= i < |rows| ==> IsCrop(v, farm.crops[i], rows[i])
  }

  /** Exactly the owner's farms. */
  ghost predicate AreFarmsOf(v: View, farms: seq<Farm>, owner: int) {
    exists at, rows :: FarmsListed(v(Farms).farms, owner, at, rows) && |rows| == |farms|
      && forall i :: 0 <= i < |rows| ==> IsFarm(v, farms[i], rows[i])
  }

  /** One group for each owner of a farm, with the owner's profile, if there is
      one, and exactly their farms. */
  ghost predicate GroupsListed(v: View, groups: seq<Group>) {
    && (forall a, b :: 0 <= a < b < |groups| ==> groups[a].owner.id != groups[b].owner.id)
    && (forall k :: 0 <= k < |v(Farms).farms| ==> HasGroup(groups, v(Farms).farms[k].userId))
    && (forall a :: 0 <= a < |groups| ==> IsGroup(v, groups[a]))
  }

  ghost predicate HasGroup(groups: seq<Group>, owner: int) {
    exists a :: 0 <= a < |groups| && groups[a].owner.id == owner
  }

  ghost predicate IsGroup(v: View, g: Group) {
    && g.farms != [] && AreFarmsOf(v, g.farms, g.owner.id)
    && g.owner.profile == if g.owner.id in v(Profiles).profiles then Some(v(Profiles).profiles[g.owner.id]) else None
  }

  // ---- The report lists it --------------------------------------------------------------

  lemma CropIsListed(v: View, row: CropRow)
    ensures IsCrop(v, ShapeCrop(CropIn(v)(row)), row)
  {
    ShapedCrop(v, row);
    hide CropIn, ShapeCrop, ActivitiesOf, HarvestsOf, ActivitiesListed, HarvestsListed;
    var at := ActivitiesPicked(v(Activities).activities, row.id);
    var at' := HarvestsPicked(v(Harvests).harvests, row.id);
  }

  lemma FarmIsListed(v: View, row: FarmRow)
    ensures IsFarm(v, ShapeFarm(TreeIn(v)(row)), row)
  {
    ShapedFarm(v, row);
    hide TreeIn, ShapeFarm, CropIn, ShapeCrop, CropRowsOf, CropsListed, IsCrop;
    var at := CropsPicked(v(Crops).crops, row.id);
    var rows := CropRowsOf(v(Crops).crops, row.id);
    var listed := Map(ShapeCrop, Map(CropIn(v), rows));
    forall i | 0 <= i < |rows| ensures IsCrop(v, listed[i], rows[i]) { CropIsListed(v, rows[i]); }
  }

  lemma RowsAreListed(v: View, owner: int)
    ensures AreFarmsOf(v, ShapeFarms(Map(TreeIn(v), RowsOf(v(Farms).farms, owner))), owner)
  {
    hide TreeIn, ShapeFarm, RowsOf, FarmsListed, IsFarm;
    var at := FarmsPicked(v(Farms).farms, owner);
    var rows := RowsOf(v(Farms).farms, owner);
    var farms := ShapeFarms(Map(TreeIn(v), rows));
    forall i | 0 <= i < |rows| ensures IsFarm(v, farms[i], rows[i]) { FarmIsListed(v, rows[i]); }
  }

  lemma FarmerResultIs(v: View, farmer: int)
    ensures Built(FarmerScope(farmer), v) == FarmerResult(ShapeFarms(Map(TreeIn(v), RowsOf(v(Farms).farms, farmer))))
  {
    hide ShapeFarms, RowsOf, Map;
  }

  /** A farmer's report lists exactly that farmer's farms, each with exactly its
      crops, each with exactly its activities and harvests, in table order. */
  lemma FarmerReportLists(v: View, farmer: int)
    ensures var r := Built(FarmerScope(farmer), v); r.FarmerResult? && AreFarmsOf(v, r.farms, farmer)
  {
    FarmerResultIs(v, farmer);
    RowsAreListed(v, farmer);
    hide Built, AreFarmsOf;
  }

  lemma AdminResultIs(v: View)
    ensures Built(AdminScope, v) == AdminResult(Grouped(Map(TreeIn(v), v(Farms).farms), v(Profiles).profiles))
  {
    hide Grouped, Map;
  }

  /** The admin report groups exactly all farms by owner, with the same content. */
  lemma AdminReportLists(v: View)
    ensures var r := Built(AdminScope, v); r.AdminResult? && GroupsListed(v, r.groups)
  {
    AdminResultIs(v);
    GroupsAreListed(v);
    hide Built, GroupsListed, Grouped;
  }

  lemma GroupsAreListed(v: View)
    ensures GroupsListed(v, Grouped(Map(TreeIn(v), v(Farms).farms), v(Profiles).profiles))
  {
    hide Grouped, TreeIn, AreFarmsOf, FirstIndex, Owners, Map, GroupOf, Summary;
    var es := Map(TreeIn(v), v(Farms).farms);
    var groups, owners := Grouped(es, v(Profiles).profiles), Owners(es);
    GroupFarms(es, v(Profiles).profiles);
    OwnersInOrder(es);
    forall a | 0 <= a < |groups| ensures IsGroup(v, groups[a]) && groups[a].owner.id == owners[a] {
      GroupLists(v, owners[a]);
    }
    hide IsGroup;
    forall a, b | 0 <= a < b < |groups| ensures groups[a].owner.id != groups[b].owner.id {
      assert FirstIndex(es, owners[a]) < FirstIndex(es, owners[b]);
    }
    forall k | 0 <= k < |v(Farms).farms| ensures HasGroup(groups, v(Farms).farms[k].userId) {
      OwnerIsGrouped(v, k);
      var a :| 0 <= a < |owners| && owners[a] == v(Farms).farms[k].userId;
      assert groups[a].owner.id == v(Farms).farms[k].userId;
    }
  }

  lemma OwnerIsGrouped(v: View, k: nat)
    requires k < |v(Farms).farms|
    ensures v(Farms).farms[k].userId in Owners(Map(TreeIn(v), v(Farms).farms))
  {
    var es := Map(TreeIn(v), v(Farms).farms);
    OwnersInOrder(es);
    TreeKeepsOwner(v, v(Farms).farms[k]);
    assert es[k].userId == v(Farms).farms[k].userId;
    assert FirstIndex(es, v(Farms).farms[k].userId) <= k;
  }

  lemma GroupLists(v: View, owner: int)
    requires owner in Owners(Map(TreeIn(v), v(Farms).farms))
    ensures var g := GroupOf(Map(TreeIn(v), v(Farms).farms), v(Profiles).profiles, owner);
      g.owner.id == owner && IsGroup(v, g)
  {
    var es := Map(TreeIn(v), v(Farms).farms);
    OwnedRows(v, v(Farms).farms, owner);
    RowsAreListed(v, owner);
    NewOwnerHasNone(es, owner);
    hide TreeIn, AreFarmsOf, RowsOf, OwnedBy, Owners, ShapeFarm;
  }

  /** Every answer the machine gives lists exactly what its queries saw; when they
      all saw one state, exactly that state's rows. */
  lemma AnswersList(t: Tables, ls: seq<Label>, i: nat)
    requires Valid(System(), Start(t), ls) && i < |Exec(System(), Start(t), ls).answers|
    ensures var s := Exec(System(), Start(t), ls);
      var a, seen := s.answers[i], Seen(s.log, s.answers[i].snaps);
      match a.scope
      case FarmerScope(farmer) => a.result.FarmerResult? && AreFarmsOf(seen, a.result.farms, farmer) && farmer == a.requester
      case AdminScope => a.result.AdminResult? && GroupsListed(seen, a.result.groups)
  {
    InvRun(t, ls);
    var s := Exec(System(), Start(t), ls);
    var a := s.answers[i];
    assert AnswerOk(s, a);
    hide Built, Valid, Exec, System, Inv, ReadsOk;
    match a.scope
    case FarmerScope(farmer) => FarmerReportLists(Seen(s.log, a.snaps), farmer);
    case AdminScope => AdminReportLists(Seen(s.log, a.snaps));
  }
}

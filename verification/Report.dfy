/** The farm report: the ownership tree as entities, its normalised shape, and
    the admin report's grouping by owner. */
module Report {
  import opened Prelude

  datatype Cell = Text(text: string) | Number(value: int) | Null

  datatype Activity = Activity(
    kind: Cell, inputDate: Cell, title: Cell, manufactureLocation: Cell, appRatio: Cell,
    appMethod: Cell, comment: Cell, category: Cell, bioName: Cell, bioType: Cell)

  datatype Harvest = Harvest(harvestDate: Cell, amount: Cell, unit: Cell, category: Cell, description: Cell)

  datatype CropInfo = CropInfo(name: Cell, product: Cell, size: Cell, location: Cell, sowingDate: Cell, plants: Cell)

  datatype FarmInfo = FarmInfo(name: Cell, location: Cell, state: Cell, area: Cell)

  /** Entities as loaded: a relation that was not loaded is missing. */
  datatype CropEntity = CropEntity(id: int, info: CropInfo, activities: Option<seq<Activity>>, harvest: Option<seq<Harvest>>)

  datatype FarmEntity = FarmEntity(id: int, userId: int, info: FarmInfo, crops: Option<seq<CropEntity>>)

  /** What the report carries. */
  datatype Crop = Crop(id: int, info: CropInfo, activities: seq<Activity>, harvests: seq<Harvest>)

  datatype Farm = Farm(id: int, userId: int, info: FarmInfo, crops: seq<Crop>)

  datatype Profile = Profile(firstName: string, lastName: Option<string>, email: string, rol: Option<string>)

  /** With the profile missing it is the bare id. */
  datatype OwnerSummary = OwnerSummary(id: int, profile: Option<Profile>)

  datatype Group = Group(owner: OwnerSummary, farms: seq<Farm>)

  function OrEmpty<T>(o: Option<seq<T>>): seq<T> {
    match o case Some(q) => q case None => []
  }

  function ShapeCrop(crop: CropEntity): Crop {
    Crop(crop.id, crop.info, OrEmpty(crop.activities), OrEmpty(crop.harvest))
  }

  function Map<A, B>(f: A -> B, q: seq<A>): (r: seq<B>)
    ensures |r| == |q| && forall i :: 0 <= i < |q| ==> r[i] == f(q[i])
  {
    if q == [] then [] else [f(q[0])] + Map(f, q[1..])
  }

  function ShapeFarm(farm: FarmEntity): Farm {
    Farm(farm.id, farm.userId, farm.info, Map(ShapeCrop, OrEmpty(farm.crops)))
  }

  function ShapeFarms(farms: seq<FarmEntity>): seq<Farm> {
    Map(ShapeFarm, farms)
  }

  lemma {:induction false} MapAppend<A, B>(f: A -> B, q: seq<A>, x: A)
    ensures Map(f, q + [x]) == Map(f, q) + [f(x)]
  {
  }

  // ---- Grouping ------------------------------------------------------------------

  /** The owners of the farms, each once, in the order they first occur. */
  function Owners(farms: seq<FarmEntity>): seq<int> {
    if farms == [] then []
    else
      var before, last := Owners(farms[..|farms| - 1]), farms[|farms| - 1].userId;
      if last in before then before else before + [last]
  }

  function OwnedBy(farms: seq<FarmEntity>, owner: int): seq<FarmEntity> {
    if farms == [] then []
    else
      var before, last := OwnedBy(farms[..|farms| - 1], owner), farms[|farms| - 1];
      if last.userId == owner then before + [last] else before
  }

  function Summary(owner: int, profiles: map<int, Profile>): OwnerSummary {
    OwnerSummary(owner, if owner in profiles then Some(profiles[owner]) else None)
  }

  /** The admin report of these farms. */
  function Grouped(farms: seq<FarmEntity>, profiles: map<int, Profile>): seq<Group> {
    seq(|Owners(farms)|, i requires 0 <= i < |Owners(farms)| => GroupOf(farms, profiles, Owners(farms)[i]))
  }

  /** `byOwner` is a Map that remembers insertion order: `order` are its keys. */
  method GroupByOwner(farms: seq<FarmEntity>, profiles: map<int, Profile>) returns (groups: seq<Group>)
    ensures groups == Grouped(farms, profiles)
  {
    hide ShapeFarm, Owners, OwnedBy, GroupOf, ShapeFarms;
    var order: seq<int> := [];
    var byOwner: map<int, Group> := map[];
    NoGroups(farms);
    for i := 0 to |farms|
      invariant order == Owners(farms[..i])
      invariant forall u :: u in byOwner <==> u in order
      invariant forall k :: 0 <= k < |order| ==> order[k] in byOwner
      invariant forall u :: u in byOwner ==> byOwner[u] == GroupOf(farms[..i], profiles, u)
    {
      var farm := farms[i];
      ghost var before, was := farms[..i], byOwner;
      if farm.userId !in byOwner {
        byOwner := byOwner[farm.userId := Group(OwnerSummary(farm.userId,
                     if farm.userId in profiles then Some(profiles[farm.userId]) else None), [])];
        order := order + [farm.userId];
        NewGroup(before, profiles, farm.userId);
      }
      assert byOwner[farm.userId] == GroupOf(before, profiles, farm.userId);
      var group := byOwner[farm.userId];
      byOwner := byOwner[farm.userId := group.(farms := group.farms + [ShapeFarm(farm)])];
      assert farms[..i + 1] == before + [farm];
      OwnersGrow(before, farm);
      forall u | u in byOwner ensures byOwner[u] == GroupOf(before + [farm], profiles, u) {
        GroupGrows(before, farm, profiles, u);
      }
    }
    assert farms[..|farms|] == farms;
    groups := seq(|order|, i requires 0 <= i < |order| && order[i] in byOwner => byOwner[order[i]]);
  }

  lemma NoGroups(farms: seq<FarmEntity>)
    ensures Owners(farms[..0]) == []
  {
  }

  lemma NewGroup(farms: seq<FarmEntity>, profiles: map<int, Profile>, owner: int)
    requires owner !in Owners(farms)
    ensures GroupOf(farms, profiles, owner) == Group(Summary(owner, profiles), [])
  {
    NewOwnerHasNone(farms, owner);
  }

  function GroupOf(farms: seq<FarmEntity>, profiles: map<int, Profile>, owner: int): Group {
    Group(Summary(owner, profiles), ShapeFarms(OwnedBy(farms, owner)))
  }

  lemma GroupGrows(farms: seq<FarmEntity>, last: FarmEntity, profiles: map<int, Profile>, owner: int)
    ensures var g, g' := GroupOf(farms, profiles, owner), GroupOf(farms + [last], profiles, owner);
      g' == if last.userId == owner then g.(farms := g.farms + [ShapeFarm(last)]) else g
  {
    assert (farms + [last])[..|farms|] == farms;
    MapAppend(ShapeFarm, OwnedBy(farms, owner), last);
    hide ShapeFarm, Map;
  }

  lemma OwnersGrow(farms: seq<FarmEntity>, last: FarmEntity)
    ensures Owners(farms + [last]) == if last.userId in Owners(farms) then Owners(farms) else Owners(farms) + [last.userId]
  {
    assert (farms + [last])[..|farms|] == farms;
  }

  lemma {:induction false} NewOwnerHasNone(farms: seq<FarmEntity>, owner: int)
    ensures owner !in Owners(farms) <==> OwnedBy(farms, owner) == []
  {
    if farms != [] { NewOwnerHasNone(farms[..|farms| - 1], owner); }
  }

  // ---- What the grouping means -----------------------------------------------------

  /** Where the owner first occurs, `|farms|` if nowhere. */
  function FirstIndex(farms: seq<FarmEntity>, owner: int): (i: nat)
    ensures i <= |farms|
    ensures i < |farms| ==> farms[i].userId == owner
    ensures forall j :: 0 <= j < i ==> farms[j].userId != owner
  {
    if farms == [] || farms[0].userId == owner then 0 else 1 + FirstIndex(farms[1..], owner)
  }

  lemma FirstIndexGrows(farms: seq<FarmEntity>, last: FarmEntity, owner: int)
    ensures FirstIndex(farms + [last], owner)
            == if FirstIndex(farms, owner) < |farms| then FirstIndex(farms, owner)
               else if last.userId == owner then |farms| else |farms| + 1
  {
    var all, i, k := farms + [last], FirstIndex(farms, owner), FirstIndex(farms + [last], owner);
    assert forall j :: 0 <= j < |farms| ==> all[j] == farms[j];
    assert all[|farms|] == last;
  }

  /** Exactly the users who have a farm, each once, ordered by first farm. */
  lemma {:induction false} OwnersInOrder(farms: seq<FarmEntity>)
    ensures forall u :: u in Owners(farms) <==> FirstIndex(farms, u) < |farms|
    ensures forall a, b :: 0 <= a < b < |Owners(farms)| ==> FirstIndex(farms, Owners(farms)[a]) < FirstIndex(farms, Owners(farms)[b])
  {
    if farms != [] {
      var before, last := farms[..|farms| - 1], farms[|farms| - 1];
      assert farms == before + [last];
      OwnersInOrder(before);
      forall u ensures FirstIndex(farms, u) == if FirstIndex(before, u) < |before| then FirstIndex(before, u)
                                               else if last.userId == u then |before| else |before| + 1 {
        FirstIndexGrows(before, last, u);
      }
      hide FirstIndex;
    }
  }

  /** Every farm of the owner, in the original order, and no other. */
  lemma {:induction false} OwnedByIsSubsequence(farms: seq<FarmEntity>, owner: int) returns (at: seq<nat>)
    ensures |at| == |OwnedBy(farms, owner)|
    ensures forall i :: 0 <= i < |at| ==> at[i] < |farms| && OwnedBy(farms, owner)[i] == farms[at[i]]
    ensures forall i, j :: 0 <= i < j < |at| ==> at[i] < at[j]
    ensures forall k :: 0 <= k < |farms| ==> (farms[k].userId == owner <==> k in at)
  {
    at := [];
    if farms != [] {
      var n := |farms| - 1;
      at := OwnedByIsSubsequence(farms[..n], owner);
      if farms[n].userId == owner { at := at + [n]; }
    }
  }

  /** All farms in the groups. */
  ghost function Members(groups: seq<Group>): multiset<Farm> {
    if groups == [] then multiset{} else Members(groups[..|groups| - 1]) + multiset(groups[|groups| - 1].farms)
  }

  ghost function FarmsOf(farms: seq<FarmEntity>, owner: int): multiset<Farm> {
    multiset(ShapeFarms(OwnedBy(farms, owner)))
  }

  ghost function MembersOf(owners: seq<int>, farms: seq<FarmEntity>): multiset<Farm> {
    if owners == [] then multiset{}
    else MembersOf(owners[..|owners| - 1], farms) + FarmsOf(farms, owners[|owners| - 1])
  }

  ghost predicate Distinct(q: seq<int>) {
    forall i, j :: 0 <= i < j < |q| ==> q[i] != q[j]
  }

  lemma {:induction false} OneMoreFarm(owners: seq<int>, farms: seq<FarmEntity>, last: FarmEntity)
    requires Distinct(owners)
    ensures MembersOf(owners, farms + [last])
            == MembersOf(owners, farms) + (if last.userId in owners then multiset{ShapeFarm(last)} else multiset{})
  {
    if owners != [] {
      var n := |owners| - 1;
      assert Distinct(owners[..n]);
      OneMoreFarm(owners[..n], farms, last);
      MoreOf(farms, last, owners[n]);
      Unfolded(owners, farms);
      Unfolded(owners, farms + [last]);
      LastIsNew(owners, last.userId);
      hide ShapeFarm, FarmsOf, MembersOf;
    }
  }

  lemma Unfolded(owners: seq<int>, farms: seq<FarmEntity>)
    requires owners != []
    ensures MembersOf(owners, farms) == MembersOf(owners[..|owners| - 1], farms) + FarmsOf(farms, owners[|owners| - 1])
  {
  }

  lemma LastIsNew(owners: seq<int>, u: int)
    requires owners != [] && Distinct(owners)
    ensures var n := |owners| - 1; (u in owners <==> u in owners[..n] || u == owners[n]) && owners[n] !in owners[..n]
  {
    assert owners == owners[..|owners| - 1] + [owners[|owners| - 1]];
  }

  lemma MoreOf(farms: seq<FarmEntity>, last: FarmEntity, owner: int)
    ensures FarmsOf(farms + [last], owner)
            == FarmsOf(farms, owner) + (if last.userId == owner then multiset{ShapeFarm(last)} else multiset{})
  {
    GroupGrows(farms, last, map[], owner);
    hide ShapeFarm, OwnedBy, Map;
  }

  lemma {:induction false} AllMembers(owners: seq<int>, farms: seq<FarmEntity>)
    requires Distinct(owners) && forall i :: 0 <= i < |farms| ==> farms[i].userId in owners
    ensures MembersOf(owners, farms) == multiset(ShapeFarms(farms))
  {
    if farms == [] {
      NoMembers(owners);
    } else {
      var before, last := farms[..|farms| - 1], farms[|farms| - 1];
      assert farms == before + [last];
      AllMembers(owners, before);
      OneMoreFarm(owners, before, last);
      MapAppend(ShapeFarm, before, last);
    }
  }

  lemma {:induction false} NoMembers(owners: seq<int>)
    ensures MembersOf(owners, []) == multiset{}
  {
    if owners != [] { NoMembers(owners[..|owners| - 1]); }
  }

  lemma GroupFarms(farms: seq<FarmEntity>, profiles: map<int, Profile>)
    ensures var groups, owners := Grouped(farms, profiles), Owners(farms);
      |groups| == |owners| && forall i :: 0 <= i < |owners| ==>
        groups[i] == GroupOf(farms, profiles, owners[i]) && multiset(groups[i].farms) == FarmsOf(farms, owners[i])
  {
    hide Owners, OwnedBy, ShapeFarms;
  }

  /** Groups paired with their owners, summed side by side. */
  lemma {:induction false} MembersOfGroups(groups: seq<Group>, owners: seq<int>, farms: seq<FarmEntity>)
    requires |groups| == |owners| && forall i :: 0 <= i < |owners| ==> multiset(groups[i].farms) == FarmsOf(farms, owners[i])
    ensures Members(groups) == MembersOf(owners, farms)
  {
    hide FarmsOf;
    if groups != [] {
      var n := |groups| - 1;
      MembersOfGroups(groups[..n], owners[..n], farms);
    }
  }

  /** The grouping is a partition of the farms: no owner twice, no empty group,
      owners in first-occurrence order, each farm in its own owner's group, and
      all farms accounted for as often as they occur. */
  lemma GroupingPartitions(farms: seq<FarmEntity>, profiles: map<int, Profile>)
    ensures var groups := Grouped(farms, profiles);
      && (forall a, b :: 0 <= a < b < |groups| ==>
            FirstIndex(farms, groups[a].owner.id) < FirstIndex(farms, groups[b].owner.id))
      && (forall a :: 0 <= a < |groups| ==> FirstIndex(farms, groups[a].owner.id) < |farms| && GroupOk(farms, profiles, groups[a]))
      && Members(groups) == multiset(ShapeFarms(farms))
  {
    hide FarmsOf, MembersOf, FirstIndex, Owners, OwnedBy, ShapeFarm, ShapeFarms, Grouped, GroupOk, Members;
    var groups, owners := Grouped(farms, profiles), Owners(farms);
    OwnersInOrder(farms);
    GroupFarms(farms, profiles);
    assert forall a :: 0 <= a < |groups| ==> groups[a].owner.id == owners[a];
    hide GroupOf;
    forall a | 0 <= a < |groups| ensures GroupOk(farms, profiles, groups[a]) {
      GroupIsOk(farms, profiles, owners[a]);
    }
    forall i | 0 <= i < |farms| ensures farms[i].userId in owners {
      assert FirstIndex(farms, farms[i].userId) <= i;
    }
    forall a, b | 0 <= a < b < |owners| ensures owners[a] != owners[b] {
      assert FirstIndex(farms, owners[a]) < FirstIndex(farms, owners[b]);
    }
    AllMembers(owners, farms);
    MembersOfGroups(groups, owners, farms);
  }

  /** A group of the owner's own farms, with the owner's profile. */
  ghost predicate GroupOk(farms: seq<FarmEntity>, profiles: map<int, Profile>, group: Group) {
    && group.farms != []
    && (forall i :: 0 <= i < |group.farms| ==> group.farms[i].userId == group.owner.id)
    && group.owner.profile == (if group.owner.id in profiles then Some(profiles[group.owner.id]) else None)
  }

  lemma GroupIsOk(farms: seq<FarmEntity>, profiles: map<int, Profile>, owner: int)
    requires owner in Owners(farms)
    ensures GroupOk(farms, profiles, GroupOf(farms, profiles, owner))
  {
    NewOwnerHasNone(farms, owner);
    var at := OwnedByIsSubsequence(farms, owner);
    hide OwnedBy, Owners;
  }
}

/** The farms services as classes over one database, each call proved against
    its law. */
module FarmServices {
  import opened Prelude
  import opened FarmData
  import opened FarmMachine
  import opened FarmCalls

  // ---- The services ----------------------------------------------------------------

  class FarmsDatabase {
    var db: Db

    constructor ()
      ensures db == Db(map[], map[], [])
    {
      db := Db(map[], map[], []);
    }

    /** `findOne` by id. */
    function Find(kind: Kind, id: Id): (row: Option<Row>)
      reads this
    {
      if Ref(kind, id) in db.rows then Some(db.rows[Ref(kind, id)]) else None
    }

    /** A relation loaded with its row. */
    function Joined(kind: Kind, key: Option<Id>): (row: Option<Row>)
      reads this
    {
      if key.Some? then Find(kind, key.value) else None
    }
  }

  class OwnershipService {
    const data: FarmsDatabase

    constructor (data: FarmsDatabase)
      ensures this.data == data
    {
      this.data := data;
    }

    method Check(user: User, owner: Option<User>) returns (ok: bool)
      ensures ok <==> owner == Some(user)
    {
      ok := owner.Some? && owner.value == user;
    }

    method AssertFarmOwner(user: User, farmId: Id) returns (r: Result<Row, Denial>)
      ensures r == AssertOwner(data.db.rows, user, Ref(Farms, farmId))
      ensures r == if Owns(data.db.rows, user, Ref(Farms, farmId)) then Ok(data.db.rows[Ref(Farms, farmId)])
                   else if Ref(Farms, farmId) in data.db.rows then Err(Forbidden) else Err(NotFound)
    {
      OwnsIsAsserted(data.db.rows, user, Ref(Farms, farmId));
      hide Owns;
      var farm := data.Find(Farms, farmId);
      if farm.None? {
        return Err(NotFound);
      }
      var ok := Check(user, farm.value.userId);
      return if ok then Ok(farm.value) else Err(Forbidden);
    }

    method AssertCropOwner(user: User, cropId: Id) returns (r: Result<Row, Denial>)
      ensures r == AssertOwner(data.db.rows, user, Ref(Crops, cropId))
      ensures r == if Owns(data.db.rows, user, Ref(Crops, cropId)) then Ok(data.db.rows[Ref(Crops, cropId)])
                   else if Ref(Crops, cropId) in data.db.rows then Err(Forbidden) else Err(NotFound)
    {
      OwnsIsAsserted(data.db.rows, user, Ref(Crops, cropId));
      hide Owns;
      var crop := data.Find(Crops, cropId);
      if crop.None? {
        return Err(NotFound);
      }
      var farm := data.Joined(Farms, crop.value.parent);
      var ok := Check(user, if farm.Some? then farm.value.userId else None);
      assert crop.value.parent.Some? ==>
               OwnerOf(data.db.rows, Ref(Crops, cropId)) == OwnerOf(data.db.rows, Ref(Farms, crop.value.parent.value));
      return if ok then Ok(crop.value) else Err(Forbidden);
    }

    /** `assertActivityOwner` and `assertHarvestOwner` differ in the table only. */
    method AssertLeafOwner(kind: Kind, user: User, id: Id) returns (r: Result<Row, Denial>)
      requires kind.Activities? || kind.Harvests?
      ensures r == AssertOwner(data.db.rows, user, Ref(kind, id))
      ensures r == if Owns(data.db.rows, user, Ref(kind, id)) then Ok(data.db.rows[Ref(kind, id)])
                   else if Ref(kind, id) in data.db.rows then Err(Forbidden) else Err(NotFound)
    {
      OwnsIsAsserted(data.db.rows, user, Ref(kind, id));
      hide Owns;
      var leaf := data.Find(kind, id);
      if leaf.None? {
        return Err(NotFound);
      }
      var crop := data.Joined(Crops, leaf.value.parent);
      var farm := if crop.Some? then data.Joined(Farms, crop.value.parent) else None;
      var ok := Check(user, if farm.Some? then farm.value.userId else None);
      assert leaf.value.parent.Some? ==>
               OwnerOf(data.db.rows, Ref(kind, id)) == OwnerOf(data.db.rows, Ref(Crops, leaf.value.parent.value));
      assert crop.Some? && crop.value.parent.Some? ==>
               OwnerOf(data.db.rows, Ref(Crops, leaf.value.parent.value)) == OwnerOf(data.db.rows, Ref(Farms, crop.value.parent.value));
      return if ok then Ok(leaf.value) else Err(Forbidden);
    }
  }

  class CropsService {
    const ownership: OwnershipService
    const data := ownership.data

    constructor (ownership: OwnershipService)
      ensures this.ownership == ownership
    {
      this.ownership := ownership;
    }

    method CreateCrop(user: User, farmId: Id, info: string, commits: bool) returns (reply: Reply)
      modifies data
      ensures (data.db, reply) == Create(old(data.db), user, Crops, farmId, info, commits)
      ensures CreateLaw(old(data.db), data.db, reply, user, Crops, farmId, info, commits)
    {
      CreateFacts(data.db, user, Crops, farmId, info, commits);
      hide CreateLaw;
      var farm := ownership.AssertFarmOwner(user, farmId);
      if farm.Err? {
        return Err(farm.error);
      }
      var id := Count(data.db.used, Crops) + 1;
      data.db := data.db.(used := Bump(data.db.used, Crops));
      if !commits {
        return Err(Rejected);
      }
      data.db := data.db.(rows := data.db.rows[Ref(Crops, id) := Row(None, Some(farmId), "", info)],
                          events := data.db.events + [Event(Ref(Crops, id), id, Some(farmId), farm.value.userId)]);
      return Ok(id);
    }

    method UpdateCrop(user: User, cropId: Id, info: string) returns (reply: Reply)
      modifies data
      ensures (data.db, reply) == Change(old(data.db), user, Ref(Crops, cropId), info)
      ensures UpdateLaw(old(data.db), data.db, reply, user, Ref(Crops, cropId), info)
    {
      ChangeFacts(data.db, user, Ref(Crops, cropId), info);
      hide UpdateLaw;
      var crop := ownership.AssertCropOwner(user, cropId);
      if crop.Err? {
        return Err(crop.error);
      }
      OwnedCanBeSaved(data.db, user, Ref(Crops, cropId), info);
      data.db := SaveRow(data.db, Ref(Crops, cropId), crop.value.(info := info));
      return Ok(cropId);
    }

    method DeleteCrop(user: User, cropId: Id) returns (reply: Reply)
      modifies data
      ensures (data.db, reply) == Remove(old(data.db), user, Ref(Crops, cropId))
      ensures DeleteLaw(old(data.db), data.db, reply, user, Ref(Crops, cropId))
    {
      RemoveFacts(data.db, user, Ref(Crops, cropId));
      hide DeleteLaw;
      var crop := ownership.AssertCropOwner(user, cropId);
      if crop.Err? {
        return Err(crop.error);
      }
      if HasChildren(data.db.rows, Ref(Crops, cropId)) {
        return Err(Rejected);
      }
      data.db := data.db.(rows := data.db.rows - {Ref(Crops, cropId)});
      return Ok(cropId);
    }
  }

  class ActivitiesService {
    const ownership: OwnershipService
    const data := ownership.data

    constructor (ownership: OwnershipService)
      ensures this.ownership == ownership
    {
      this.ownership := ownership;
    }

    method CreateActivity(user: User, cropId: Id, info: string, commits: bool) returns (reply: Reply)
      modifies data
      ensures (data.db, reply) == Create(old(data.db), user, Activities, cropId, info, commits)
      ensures CreateLaw(old(data.db), data.db, reply, user, Activities, cropId, info, commits)
    {
      CreateFacts(data.db, user, Activities, cropId, info, commits);
      hide CreateLaw;
      var crop := ownership.AssertCropOwner(user, cropId);
      if crop.Err? {
        return Err(crop.error);
      }
      var id := Count(data.db.used, Activities) + 1;
      data.db := data.db.(used := Bump(data.db.used, Activities));
      if !commits {
        return Err(Rejected);
      }
      data.db := data.db.(rows := data.db.rows[Ref(Activities, id) := Row(None, Some(cropId), "", info)],
                          events := data.db.events + [Event(Ref(Activities, id), cropId, crop.value.parent, Some(user))]);
      return Ok(id);
    }

    method UpdateActivity(user: User, activityId: Id, info: string) returns (reply: Reply)
      modifies data
      ensures (data.db, reply) == Change(old(data.db), user, Ref(Activities, activityId), info)
      ensures UpdateLaw(old(data.db), data.db, reply, user, Ref(Activities, activityId), info)
    {
      ChangeFacts(data.db, user, Ref(Activities, activityId), info);
      hide UpdateLaw;
      var activity := ownership.AssertLeafOwner(Activities, user, activityId);
      if activity.Err? {
        return Err(activity.error);
      }
      OwnedCanBeSaved(data.db, user, Ref(Activities, activityId), info);
      data.db := SaveRow(data.db, Ref(Activities, activityId), activity.value.(info := info));
      return Ok(activityId);
    }

    method DeleteActivity(user: User, activityId: Id) returns (reply: Reply)
      modifies data
      ensures (data.db, reply) == Remove(old(data.db), user, Ref(Activities, activityId))
      ensures DeleteLaw(old(data.db), data.db, reply, user, Ref(Activities, activityId))
    {
      RemoveFacts(data.db, user, Ref(Activities, activityId));
      hide DeleteLaw;
      var activity := ownership.AssertLeafOwner(Activities, user, activityId);
      if activity.Err? {
        return Err(activity.error);
      }
      LeavesHaveNoChildren(data.db.rows, Ref(Activities, activityId));
      data.db := data.db.(rows := data.db.rows - {Ref(Activities, activityId)});
      return Ok(activityId);
    }
  }

  class HarvestService {
    const ownership: OwnershipService
    const data := ownership.data

    constructor (ownership: OwnershipService)
      ensures this.ownership == ownership
    {
      this.ownership := ownership;
    }

    method IsCropHaveHarvest(cropId: Id) returns (found: bool)
      ensures found <==> HasHarvest(data.db.rows, cropId)
    {
      var response := set ref | ref in data.db.rows && ref.kind.Harvests? && data.db.rows[ref].parent == Some(cropId);
      found := |response| > 0;
      if HasHarvest(data.db.rows, cropId) {
        ghost var ref :| ref in data.db.rows && ref.kind.Harvests? && data.db.rows[ref].parent == Some(cropId);
        assert ref in response;
      } else {
        assert response == {};
      }
    }

    method CreateHarvest(user: User, cropId: Id, info: string, commits: bool) returns (reply: Reply)
      modifies data
      ensures (data.db, reply) == Create(old(data.db), user, Harvests, cropId, info, commits)
      ensures CreateLaw(old(data.db), data.db, reply, user, Harvests, cropId, info, commits)
    {
      CreateFacts(data.db, user, Harvests, cropId, info, commits);
      hide CreateLaw;
      var crop := ownership.AssertCropOwner(user, cropId);
      if crop.Err? {
        return Err(crop.error);
      }
      var alreadyHarvested := IsCropHaveHarvest(cropId);
      if alreadyHarvested {
        return Err(Conflict);
      }
      var id := Count(data.db.used, Harvests) + 1;
      data.db := data.db.(used := Bump(data.db.used, Harvests));
      if !commits {
        return Err(Rejected);
      }
      data.db := data.db.(rows := data.db.rows[Ref(Harvests, id) := Row(None, Some(cropId), "", info)],
                          events := data.db.events + [Event(Ref(Harvests, id), cropId, crop.value.parent, Some(user))]);
      return Ok(id);
    }

    method UpdateHarvest(user: User, harvestId: Id, info: string) returns (reply: Reply)
      modifies data
      ensures (data.db, reply) == Change(old(data.db), user, Ref(Harvests, harvestId), info)
      ensures UpdateLaw(old(data.db), data.db, reply, user, Ref(Harvests, harvestId), info)
    {
      ChangeFacts(data.db, user, Ref(Harvests, harvestId), info);
      hide UpdateLaw;
      var harvest := ownership.AssertLeafOwner(Harvests, user, harvestId);
      if harvest.Err? {
        return Err(harvest.error);
      }
      OwnedCanBeSaved(data.db, user, Ref(Harvests, harvestId), info);
      data.db := SaveRow(data.db, Ref(Harvests, harvestId), harvest.value.(info := info));
      return Ok(harvestId);
    }

    method DeleteHarvest(user: User, harvestId: Id) returns (reply: Reply)
      modifies data
      ensures (data.db, reply) == Remove(old(data.db), user, Ref(Harvests, harvestId))
      ensures DeleteLaw(old(data.db), data.db, reply, user, Ref(Harvests, harvestId))
    {
      RemoveFacts(data.db, user, Ref(Harvests, harvestId));
      hide DeleteLaw;
      var harvest := ownership.AssertLeafOwner(Harvests, user, harvestId);
      if harvest.Err? {
        return Err(harvest.error);
      }
      LeavesHaveNoChildren(data.db.rows, Ref(Harvests, harvestId));
      data.db := data.db.(rows := data.db.rows - {Ref(Harvests, harvestId)});
      return Ok(harvestId);
    }
  }

  class FarmsService {
    const ownership: OwnershipService
    const data := ownership.data

    constructor (ownership: OwnershipService)
      ensures this.ownership == ownership
    {
      this.ownership := ownership;
    }

    method CreateFarm(user: User, name: string, info: string) returns (reply: Reply)
      modifies data
      ensures (data.db, reply) == NewFarm(old(data.db), user, name, info)
      ensures CreateFarmLaw(old(data.db), data.db, reply, user, name, info)
    {
      NewFarmFacts(data.db, user, name, info);
      hide CreateFarmLaw;
      if NameTaken(data.db.rows, name, user) {
        return Err(Conflict);
      }
      var id := Count(data.db.used, Farms) + 1;
      data.db := data.db.(rows := data.db.rows[Ref(Farms, id) := Row(Some(user), None, name, info)],
                          used := Bump(data.db.used, Farms));
      return Ok(id);
    }

    method UpdateFarm(user: User, farmId: Id, name: Option<string>, info: Option<string>) returns (reply: Reply)
      modifies data
      ensures (data.db, reply) == ChangeFarm(old(data.db), user, farmId, name, info)
      ensures UpdateFarmLaw(old(data.db), data.db, reply, user, farmId, name, info)
    {
      ChangeFarmFacts(data.db, user, farmId, name, info);
      hide UpdateFarmLaw;
      var farm := ownership.AssertFarmOwner(user, farmId);
      if farm.Err? {
        return Err(farm.error);
      }
      if name.Some? && name.value != "" && NameElsewhere(data.db.rows, name.value, farmId) {
        return Err(Conflict);
      }
      var renamed := Renamed(farm.value, name, info);
      if (name.None? && info.None?) || Clashes(data.db.rows, Ref(Farms, farmId), renamed) {
        return Err(Rejected);
      }
      data.db := data.db.(rows := data.db.rows[Ref(Farms, farmId) := renamed]);
      return Ok(farmId);
    }

    method DeleteFarm(user: User, farmId: Id) returns (reply: Reply)
      modifies data
      ensures (data.db, reply) == Remove(old(data.db), user, Ref(Farms, farmId))
      ensures DeleteLaw(old(data.db), data.db, reply, user, Ref(Farms, farmId))
    {
      RemoveFacts(data.db, user, Ref(Farms, farmId));
      hide DeleteLaw;
      var farm := ownership.AssertFarmOwner(user, farmId);
      if farm.Err? {
        return Err(farm.error);
      }
      if HasChildren(data.db.rows, Ref(Farms, farmId)) {
        return Err(Rejected);
      }
      data.db := data.db.(rows := data.db.rows - {Ref(Farms, farmId)});
      return Ok(farmId);
    }
  }
}

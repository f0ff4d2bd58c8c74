/** The Building handlers (api/controllers/building.controller.js):
    addBuilding chains the inline Location block, a Land and a Building;
    updateBuilding diffs the payload against the stored Building, its Land
    and that Land's Location and writes each non-empty patch; deleteBuilding
    removes the Building, its Land and, when no remaining Building stands on
    a Land in it, the Location. */
module BuildingController {
  import opened Js
  import opened Store
  import opened LocationLib
  import opened InlineLocation
  import opened LandController
  import opened Replies

  const BuildingLocationRequired := "locationData must include country, latitude, and longitude"
  const LocationFieldsMissing := "Location data must include country, latitude, and longitude"
  const UpdateBuildingRequired :=
    "numberOfFloors, name, size, description, locationData, and landData are required fields"
  const BuildingNotFound := "Building not found"
  const UpdateBuildingFailed := "Failed to update building"
  const BuildingRemoved := "Building, land, and location deleted successfully"

  // addBuilding

  /** The `data` of the Land addBuilding creates: the prefixed payload
      fields, optional ones falling back to `null` (features to `[]`), and
      the Location id written as a plain column, with no existence check. */
  function NewLandData(landData: Value, location: Value): (data: map<string, Value>)
    ensures "locationId" in data && data["locationId"] == location
    ensures "name" in data && data["name"] == Prop(landData, "landName")
    ensures "registered" in data && data["registered"] == Or(Prop(landData, "landRegistered"), Null)
  {
    map["name" := Prop(landData, "landName"), "size" := Prop(landData, "landSize"),
        "description" := Prop(landData, "landDescription"),
        "features" := Or(Prop(landData, "landFeatures"), Arr([])),
        "zoning" := Or(Prop(landData, "landZoning"), Null),
        "soilStructure" := Or(Prop(landData, "landSoilStructure"), Null),
        "topography" := Or(Prop(landData, "landTopography"), Null),
        "postalZipCode" := Or(Prop(landData, "landPostalZipCode"), Null),
        "registered" := Or(Prop(landData, "landRegistered"), Null),
        "registrationDate" := Or(Prop(landData, "landRegistrationDate"), Null),
        "accessibility" := Or(Prop(landData, "landAccessibility"), Null),
        "locationId" := location]
  }

  /** The `data` of the Building addBuilding creates: the payload's fields,
      optional ones falling back to `null` (features and amenities to
      `[]`), and the Land id written as a plain column. */
  function NewBuildingData(body: Value, land: Value): (data: map<string, Value>)
    ensures "landId" in data && data["landId"] == land
    ensures "name" in data && data["name"] == Prop(body, "name")
  {
    map["numberOfFloors" := Prop(body, "numberOfFloors"), "yearBuilt" := Or(Prop(body, "yearBuilt"), Null),
        "name" := Prop(body, "name"), "type" := Or(Prop(body, "type"), Null),
        "size" := Or(Prop(body, "size"), Null), "description" := Prop(body, "description"),
        "features" := Or(Prop(body, "features"), Arr([])),
        "totalBedrooms" := Or(Prop(body, "totalBedrooms"), Null),
        "totalBathrooms" := Or(Prop(body, "totalBathrooms"), Null),
        "parkingSpaces" := Or(Prop(body, "parkingSpaces"), Null),
        "amenities" := Or(Prop(body, "amenities"), Arr([])),
        "utilities" := Or(Prop(body, "utilities"), Null),
        "maintenanceCost" := Or(Prop(body, "maintenanceCost"), Null),
        "managementCompany" := Or(Prop(body, "managementCompany"), Null),
        "constructionMaterial" := Or(Prop(body, "constructionMaterial"), Null),
        "architect" := Or(Prop(body, "architect"), Null), "uses" := Or(Prop(body, "uses"), Null),
        "yearUpgraded" := Or(Prop(body, "yearUpgraded"), Null), "landId" := land]
  }

  /** The checks addBuilding makes before anything else: location data with
      country and coordinates, and land data with name, size and
      description, even when ids are supplied. */
  function AddBuildingInputError(body: Value): (e: Option<Reply<Id>>)
    ensures e.None? <==> !Nullish(body) && Truthy(Prop(body, "locationData")) && HasCoordinates(Prop(body, "locationData"))
                         && Truthy(Prop(body, "landData")) && LandNamed(Prop(body, "landData"))
    ensures e.Some? ==> e.value in {Unhandled(CannotRead), BadRequest(BuildingLocationRequired), BadRequest(LandNamesRequired)}
  {
    var ld, landData := Prop(body, "locationData"), Prop(body, "landData");
    if Nullish(body) then Some(Unhandled(CannotRead))
    else if !Truthy(ld) || !HasCoordinates(ld) then Some(BadRequest(BuildingLocationRequired))
    else if !Truthy(landData) || !LandNamed(landData) then Some(BadRequest(LandNamesRequired))
    else None
  }

  /** The Land step of addBuilding between the Land tables `t0` and `t1`:
      the supplied `landId` as it is, or a new Land under `location`. */
  ghost predicate NewLandStep(t0: Table, t1: Table, landData: Value, location: Value, land: Value) {
    && (Truthy(Prop(landData, "landId")) ==> land == Prop(landData, "landId") && t1 == t0)
    && (!Truthy(Prop(landData, "landId")) ==>
          land.Ref? && Inserted(t0, t1, land.id, Stored(NewLandData(landData, location))))
  }

  /** The Land step. The required-field check the source repeats here has
      already passed. */
  method FinalLandId(db: Db, landData: Value, location: Value) returns (land: Value)
    requires db.Valid()
    modifies db
    ensures db.Valid()
    ensures OnlyChanged(old(db.tables), db.tables, {Land})
    ensures NewLandStep(old(db.tables[Land]), db.tables[Land], landData, location, land)
  {
    if Truthy(Prop(landData, "landId")) {
      return Prop(landData, "landId");
    }
    var id := db.Create(Land, NewLandData(landData, location));
    land := Ref(id);
  }

  /** `addBuilding`: the checks; the Location block keyed on country and
      coordinates (its own check never fails here); the Land step; then
      always a new Building on the final Land. `t1` and `t2` are the tables
      after the Location and the Land step. */
  method AddBuilding(db: Db, body: Value)
    returns (reply: Reply<Id>, ghost t1: Tables, ghost t2: Tables, ghost location: Resolved,
             ghost locationId: Value, ghost land: Value)
    requires db.Valid()
    modifies db
    ensures db.Valid()
    ensures forall m: Model :: m in t1 && m in t2
    ensures AddBuildingInputError(body).Some? ==>
      reply == AddBuildingInputError(body).value && db.tables == old(db.tables)
    ensures AddBuildingInputError(body).None? ==>
      var ld := Prop(body, "locationData");
      && OnlyChanged(old(db.tables), t1, {Location})
      && LocationStep(old(db.tables[Location]), t1[Location], ld, CoordinatesKey(ld), LocationFieldsMissing,
                      Done(locationId), location)
      && OnlyChanged(t1, t2, {Land})
      && NewLandStep(t1[Land], t2[Land], Prop(body, "landData"), locationId, land)
      && OnlyChanged(t2, db.tables, {Building})
      && reply.Done? && Inserted(t2[Building], db.tables[Building], reply.value, Stored(NewBuildingData(body, land)))
  {
    t1, t2, location, locationId, land := db.tables, db.tables, Resolved(0, false), Null, Null;
    var error := AddBuildingInputError(body);
    if error.Some? {
      return error.value, t1, t2, location, locationId, land;
    }
    var ld := Prop(body, "locationData");
    var finalLocationId;
    finalLocationId, location := FinalLocationId(db, ld, CoordinatesKey(ld), LocationFieldsMissing);
    t1 := db.tables;
    if finalLocationId.IsFailure() {
      assert false;
    }
    locationId := finalLocationId.value;
    var finalLandId := FinalLandId(db, Prop(body, "landData"), finalLocationId.value);
    t2, land := db.tables, finalLandId;
    var id := db.Create(Building, NewBuildingData(body, finalLandId));
    reply := Done(id);
  }

  // updateBuilding

  const LandDiffColumns := map["name" := "landName", "size" := "landSize", "description" := "landDescription",
                               "features" := "landFeatures", "zoning" := "landZoning",
                               "soilStructure" := "landSoilStructure", "topography" := "landTopography",
                               "postalZipCode" := "landPostalZipCode", "accessibility" := "landAccessibility"]

  /** The Land columns updateBuilding compares, each with the payload value
      it compares against. */
  function LandIncoming(landData: Value): (incoming: map<string, Value>)
    ensures incoming.Keys == LandDiffColumns.Keys
    ensures forall c :: c in incoming ==> incoming[c] == Prop(landData, LandDiffColumns[c])
  {
    map c | c in LandDiffColumns :: Prop(landData, LandDiffColumns[c])
  }

  const BuildingDiffColumns := {"numberOfFloors", "yearBuilt", "name", "type", "size", "description",
                                "totalBathrooms", "totalBedrooms", "parkingSpaces", "amenities", "utilities",
                                "maintenanceCost", "managementCompany", "constructionMaterial", "architect",
                                "uses", "yearUpgraded"}

  /** The Building columns updateBuilding compares, with the payload's
      values. */
  function BuildingIncoming(body: Value): (incoming: map<string, Value>)
    ensures incoming.Keys == BuildingDiffColumns
    ensures forall c :: c in incoming ==> incoming[c] == Prop(body, c)
  {
    map c | c in BuildingDiffColumns :: Prop(body, c)
  }

  /** The required fields of updateBuilding. */
  predicate UpdateFieldsPresent(body: Value) {
    && Truthy(Prop(body, "numberOfFloors")) && Truthy(Prop(body, "name")) && Truthy(Prop(body, "size"))
    && Truthy(Prop(body, "description")) && Truthy(Prop(body, "locationData")) && Truthy(Prop(body, "landData"))
  }

  /** The Land and Location ids of the Building row `building`, when its
      `landId` names a Land whose `locationId` names a Location; otherwise
      reading through the missing relation throws. */
  function Lineage(t: Tables, building: Row): (r: Option<(Id, Id)>)
    requires Land in t && Location in t
    ensures r.Some? ==> r.value.0 in t[Land] && r.value.1 in t[Location]
    ensures r.Some? <==> Refers(t[Land], Get(building, "landId")) &&
                         Refers(t[Location], Get(t[Land][Get(building, "landId").id], "locationId"))
  {
    var land := Get(building, "landId");
    if !Refers(t[Land], land) then None
    else
      var location := Get(t[Land][land.id], "locationId");
      if !Refers(t[Location], location) then None else Some((land.id, location.id))
  }

  /** The table after writing `patch` to row `id`, or the table as it is
      when the patch is empty. */
  function PatchedTable(t: Table, id: Id, patch: map<string, Value>): (r: Table)
    requires id in t
    ensures patch == map[] ==> r == t
    ensures patch != map[] ==> r == t[id := Patched(t[id], patch)]
  {
    if patch == map[] then t else t[id := Patched(t[id], patch)]
  }

  /** `if (Object.keys(patch).length > 0) update(...)` */
  method WriteIfChanged(db: Db, m: Model, id: Id, patch: map<string, Value>)
    requires db.Valid() && id in db.tables[m]
    modifies db
    ensures db.Valid()
    ensures OnlyChanged(old(db.tables), db.tables, {m})
    ensures db.tables[m] == PatchedTable(old(db.tables[m]), id, patch)
  {
    if patch != map[] {
      var ok := db.Update(m, id, patch);
    }
  }

  /** Patches `location`, `land` and `building` written, each when it is
      non-empty, to their rows of `t0`, and nothing else changed. */
  ghost predicate Written(t0: Tables, t1: Tables, id: Id, land: Id, location: Id,
                          locationPatch: map<string, Value>, landPatch: map<string, Value>, buildingPatch: map<string, Value>)
    requires forall m: Model :: m in t0 && m in t1
    requires id in t0[Building] && land in t0[Land] && location in t0[Location]
  {
    && OnlyChanged(t0, t1, {Location, Land, Building})
    && t1[Location] == PatchedTable(t0[Location], location, locationPatch)
    && t1[Land] == PatchedTable(t0[Land], land, landPatch)
    && t1[Building] == PatchedTable(t0[Building], id, buildingPatch)
  }

  /** Three single-table writes in a row make up Written. */
  lemma WritesCompose(t0: Tables, t1: Tables, t2: Tables, t3: Tables, id: Id, land: Id, location: Id,
                      locationPatch: map<string, Value>, landPatch: map<string, Value>, buildingPatch: map<string, Value>)
    requires forall m: Model :: m in t0
    requires id in t0[Building] && land in t0[Land] && location in t0[Location]
    requires OnlyChanged(t0, t1, {Location}) && t1[Location] == PatchedTable(t0[Location], location, locationPatch)
    requires OnlyChanged(t1, t2, {Land}) && t2[Land] == PatchedTable(t1[Land], land, landPatch)
    requires OnlyChanged(t2, t3, {Building}) && t3[Building] == PatchedTable(t2[Building], id, buildingPatch)
    ensures forall m: Model :: m in t3
    ensures Written(t0, t3, id, land, location, locationPatch, landPatch, buildingPatch)
  {
  }

  /** The three writes of updateBuilding for Building `id` on Land `land` in
      Location `location`, all patches computed against the rows of `t0`;
      the three Date readings are `times`. */
  ghost predicate ThreeWrites(t0: Tables, t1: Tables, body: Value, id: Id, land: Id, location: Id, times: (int, int, int))
    requires forall m: Model :: m in t0 && m in t1
    requires id in t0[Building] && land in t0[Land] && location in t0[Location]
  {
    Written(t0, t1, id, land, location,
            DiffPatch(t0[Location][location], LocationTuple(Prop(body, "locationData")), times.0),
            DiffPatch(t0[Land][land], LandIncoming(Prop(body, "landData")), times.1),
            DiffPatch(t0[Building][id], BuildingIncoming(body), times.2))
  }

  /** The Location, Land and Building writes, in that order. */
  method WriteThreePatches(db: Db, id: Id, land: Id, location: Id,
                           locationPatch: map<string, Value>, landPatch: map<string, Value>, buildingPatch: map<string, Value>)
    requires db.Valid() && id in db.tables[Building] && land in db.tables[Land] && location in db.tables[Location]
    modifies db
    ensures db.Valid()
    ensures forall m: Model :: m in db.tables
    ensures Written(old(db.tables), db.tables, id, land, location, locationPatch, landPatch, buildingPatch)
  {
    ghost var t0 := db.tables;
    WriteIfChanged(db, Location, location, locationPatch);
    ghost var t1 := db.tables;
    assert db.tables[Land] == t0[Land];
    WriteIfChanged(db, Land, land, landPatch);
    ghost var t2 := db.tables;
    assert db.tables[Building] == t0[Building];
    WriteIfChanged(db, Building, id, buildingPatch);
    WritesCompose(t0, t1, t2, db.tables, id, land, location, locationPatch, landPatch, buildingPatch);
  }

  /** The failure updateBuilding meets before it writes anything, if any. */
  function UpdateBuildingError(t: Tables, id: Id, body: Value): (e: Option<Reply<Id>>)
    requires Building in t && Land in t && Location in t
    ensures e.None? ==> UpdateFieldsPresent(body) && id in t[Building] && Lineage(t, t[Building][id]).Some?
    ensures Nullish(body) ==> e == Some(Unhandled(CannotRead))
    ensures !Nullish(body) && UpdateFieldsPresent(body) && HasCoordinates(Prop(body, "locationData")) &&
            id !in t[Building]
      ==> e == Some(NotFound(BuildingNotFound))
    ensures e.Some? && !Nullish(body) && UpdateFieldsPresent(body) && HasCoordinates(Prop(body, "locationData")) &&
            id in t[Building]
      ==> e == Some(ServerError(UpdateBuildingFailed))
  {
    if Nullish(body) then Some(Unhandled(CannotRead))
    else if !UpdateFieldsPresent(body) then Some(BadRequest(UpdateBuildingRequired))
    else if !HasCoordinates(Prop(body, "locationData")) then Some(BadRequest(LocationFieldsMissing))
    else if id !in t[Building] then Some(NotFound(BuildingNotFound))
    else if Lineage(t, t[Building][id]).None? then Some(ServerError(UpdateBuildingFailed))
    else None
  }

  /** `updateBuilding`: the checks, the lookup of the Building with its Land
      and Location, then the three diff-and-write steps; every refusal comes
      before any write. */
  method UpdateBuilding(db: Db, id: Id, body: Value, times: (int, int, int)) returns (reply: Reply<Id>)
    requires db.Valid()
    modifies db
    ensures db.Valid()
    ensures UpdateBuildingError(old(db.tables), id, body).Some? ==>
      reply == UpdateBuildingError(old(db.tables), id, body).value && db.tables == old(db.tables)
    ensures UpdateBuildingError(old(db.tables), id, body).None? ==>
      var lineage := Lineage(old(db.tables), old(db.tables[Building][id])).value;
      reply == Done(id) && ThreeWrites(old(db.tables), db.tables, body, id, lineage.0, lineage.1, times)
  {
    var error := UpdateBuildingError(db.tables, id, body);
    if error.Some? {
      return error.value;
    }
    var lineage := Lineage(db.tables, db.tables[Building][id]).value;
    var locationPatch := DiffPatch(db.tables[Location][lineage.1], LocationTuple(Prop(body, "locationData")), times.0);
    var landPatch := DiffPatch(db.tables[Land][lineage.0], LandIncoming(Prop(body, "landData")), times.1);
    var buildingPatch := DiffPatch(db.tables[Building][id], BuildingIncoming(body), times.2);
    WriteThreePatches(db, id, lineage.0, lineage.1, locationPatch, landPatch, buildingPatch);
    reply := Done(id);
  }

  /** Land features and Building amenities sent as arrays are never `===`
      to the stored ones, so both always land in their patches, and the
      Land and the Building are always written. */
  lemma ArraysAlwaysWritten(landRow: Row, buildingRow: Row, body: Value, times: (int, int, int))
    requires Prop(Prop(body, "landData"), "landFeatures").Arr? && Prop(body, "amenities").Arr?
    ensures "features" in DiffPatch(landRow, LandIncoming(Prop(body, "landData")), times.1)
    ensures "amenities" in DiffPatch(buildingRow, BuildingIncoming(body), times.2)
  {
    var landIncoming, buildingIncoming := LandIncoming(Prop(body, "landData")), BuildingIncoming(body);
    assert landIncoming["features"] == Prop(Prop(body, "landData"), "landFeatures");
    assert buildingIncoming["amenities"] == Prop(body, "amenities");
  }

  /** After the writes, every compared column the payload sets (to anything
      but `undefined`) holds the payload's value, and every other column of
      the Building is as it was. */
  lemma BuildingPatchWritten(row: Row, body: Value, now: int)
    ensures forall c :: c in BuildingDiffColumns && Prop(body, c) != Undefined ==>
      Get(Patched(row, DiffPatch(row, BuildingIncoming(body), now)), c) == Prop(body, c)
    ensures forall c :: c !in BuildingDiffColumns && c != "updatedAt" ==>
      Get(Patched(row, DiffPatch(row, BuildingIncoming(body), now)), c) == Get(row, c)
  {
    DiffPatchWritten(row, BuildingIncoming(body), now);
  }

  // deleteBuilding

  /** Whether Building row `building` stands on a Land of `lands` whose
      `locationId` is `location`: the `where: { land: { locationId } }` of
      the count. */
  predicate OnLocation(lands: Table, building: Row, location: Id) {
    var land := Get(building, "landId");
    Refers(lands, land) && Get(lands[land.id], "locationId") == Ref(location)
  }

  /** Whether some Building of `t` stands on a Land in `location`. */
  ghost predicate LocationInUse(t: Tables, location: Id)
    requires Building in t && Land in t
  {
    exists b :: b in t[Building] && OnLocation(t[Land], t[Building][b], location)
  }

  /** The effect of deleteBuilding on Building `id` between `t0` and `t1`:
      the Building goes; its Land, when it has one, goes; that Land's
      Location, when it has one, goes exactly when it is no longer in use
      afterwards. As written, in use means that a Building left stands on
      a Land in it; with `byReferences`, that a Land or a Post left names
      it. */
  ghost predicate BuildingDeleted(t0: Tables, t1: Tables, id: Id, byReferences: bool)
    requires forall m: Model :: m in t0 && m in t1
    requires id in t0[Building]
  {
    var land := Get(t0[Building][id], "landId");
    && OnlyChanged(t0, t1, {Building, Land, Location})
    && t1[Building] == t0[Building] - {id}
    && (!Refers(t0[Land], land) ==> t1[Land] == t0[Land] && t1[Location] == t0[Location])
    && (Refers(t0[Land], land) ==>
          var location := Get(t0[Land][land.id], "locationId");
          && t1[Land] == t0[Land] - {land.id}
          && (!Refers(t0[Location], location) ==> t1[Location] == t0[Location])
          && (Refers(t0[Location], location) ==>
                var inUse := if byReferences then LocationReferenced(t1, location.id) else LocationInUse(t1, location.id);
                && (inUse ==> t1[Location] == t0[Location])
                && (!inUse ==> t1[Location] == t0[Location] - {location.id})))
  }

  /** `prisma.building.count({ where: { land: { locationId } } })` */
  method CountOnLocation(db: Db, location: Id) returns (count: nat)
    requires db.Valid()
    ensures count == 0 <==> !LocationInUse(db.tables, location)
  {
    var lands := db.tables[Land];
    var ids := db.FindMany(Building, (row: Row) => OnLocation(lands, row, location));
    count := |ids|;
    if count != 0 {
      assert OnLocation(lands, db.tables[Building][ids[0]], location);
    }
  }

  /** `deleteBuilding`: an unknown Building is a 404 with nothing deleted;
      otherwise the cascade of BuildingDeleted. */
  method DeleteBuilding(db: Db, id: Id) returns (reply: Reply<string>)
    requires db.Valid()
    modifies db
    ensures db.Valid()
    ensures id !in old(db.tables[Building]) ==> reply == NotFound(BuildingNotFound) && db.tables == old(db.tables)
    ensures id in old(db.tables[Building]) ==> reply == Done(BuildingRemoved) && BuildingDeleted(old(db.tables), db.tables, id, false)
  {
    if id !in db.tables[Building] {
      return NotFound(BuildingNotFound);
    }
    var building := db.tables[Building][id];
    var ok := db.Delete(Building, id);
    var land := Get(building, "landId");
    if db.Has(Land, land) {
      var location := Get(db.tables[Land][land.id], "locationId");
      ok := db.Delete(Land, land.id);
      if db.Has(Location, location) {
        var count := CountOnLocation(db, location.id);
        if count == 0 {
          ok := db.Delete(Location, location.id);
        }
      }
    }
    reply := Done(BuildingRemoved);
  }

  // deleteBuilding only counts Buildings before it deletes a Location

  /** Whether the row `row` names Location `location` in its `locationId`. */
  predicate InLocation(row: Row, location: Id) {
    Get(row, "locationId") == Ref(location)
  }

  /** Every Land and every Post that names a Location names one that
      exists. */
  ghost predicate LocationsLinked(t: Tables)
    requires Land in t && Post in t && Location in t
  {
    && (forall l :: l in t[Land] && Get(t[Land][l], "locationId").Ref? ==> Get(t[Land][l], "locationId").id in t[Location])
    && (forall p :: p in t[Post] && Get(t[Post][p], "locationId").Ref? ==> Get(t[Post][p], "locationId").id in t[Location])
  }

  /** Location 0 holds Lands 1 and 2; Building 3 stands on Land 1; Land 2
      has no Building. */
  function SharedLocation(): (t: Tables)
    ensures forall m: Model :: m in t
  {
    var t := map[Location := map[0 := map["country" := Str("Uganda")]],
                 Land := map[1 := map["locationId" := Ref(0)], 2 := map["locationId" := Ref(0)]],
                 Building := map[3 := map["landId" := Ref(1)]],
                 Unit := map[], Product := map[], Lease := map[], Media := map[],
                 Post := map[], PostDetail := map[], User := map[]];
    assert forall m: Model :: m in t by {
      forall m: Model
        ensures m in t
      {
        if m.Location? || m.Land? || m.Building? || m.Unit? || m.Product? {
        } else if m.Lease? || m.Media? || m.Post? || m.PostDetail? {
        } else {
        }
      }
    }
    t
  }

  /** Deleting Building 3 deletes Land 1 and then Location 0, since no
      Building is left on it, although Land 2 still names it: every
      reference was good before and one dangles after. */
  lemma DeleteBuildingStrandsLand(t1: Tables)
    requires forall m: Model :: m in t1
    requires BuildingDeleted(SharedLocation(), t1, 3, false)
    ensures LocationsLinked(SharedLocation()) && !LocationsLinked(t1)
  {
    SharedLocationLinked();
    StrandedAfter(SharedLocation(), t1);
  }

  lemma SharedLocationLinked()
    ensures LocationsLinked(SharedLocation())
  {
    var t0 := SharedLocation();
    assert t0[Land] == map[1 := map["locationId" := Ref(0)], 2 := map["locationId" := Ref(0)]];
    assert 0 in t0[Location];
  }

  lemma StrandedAfter(t0: Tables, t1: Tables)
    requires t0 == SharedLocation()
    requires forall m: Model :: m in t1
    requires BuildingDeleted(t0, t1, 3, false)
    ensures !LocationsLinked(t1)
  {
    assert Get(t0[Building][3], "landId") == Ref(1);
    assert Get(t0[Land][1], "locationId") == Ref(0);
    assert t1[Building] == map[];
    assert t1[Location] == map[];
    assert 2 in t1[Land] && Get(t1[Land][2], "locationId") == Ref(0);
  }

  /** Whether a Land or a Post of `t` names Location `location`. */
  ghost predicate LocationReferenced(t: Tables, location: Id)
    requires Land in t && Post in t
  {
    || (exists l :: l in t[Land] && InLocation(t[Land][l], location))
    || (exists p :: p in t[Post] && InLocation(t[Post][p], location))
  }

  /** The count the cleanup needs: the Lands and the Posts still in
      `location`. */
  method CountReferences(db: Db, location: Id) returns (count: nat)
    requires db.Valid()
    ensures count == 0 <==> !LocationReferenced(db.tables, location)
  {
    var lands := db.FindMany(Land, (row: Row) => InLocation(row, location));
    var posts := db.FindMany(Post, (row: Row) => InLocation(row, location));
    count := |lands| + |posts|;
    if |lands| != 0 {
      assert InLocation(db.tables[Land][lands[0]], location);
    }
    if |posts| != 0 {
      assert InLocation(db.tables[Post][posts[0]], location);
    }
  }

  /** Removing a Location that nothing names keeps every reference
      good. */
  lemma StillLinked(before: Tables, after: Tables, location: Id)
    requires Land in before && Post in before && Location in before
    requires Land in after && Post in after && Location in after
    requires LocationsLinked(before) && !LocationReferenced(before, location)
    requires after[Land] == before[Land] && after[Post] == before[Post]
    requires after[Location] == before[Location] - {location}
    ensures LocationsLinked(after)
  {
    forall l | l in after[Land] && Get(after[Land][l], "locationId").Ref?
      ensures Get(after[Land][l], "locationId").id in after[Location]
    {
      assert !InLocation(before[Land][l], location);
    }
    forall p | p in after[Post] && Get(after[Post][p], "locationId").Ref?
      ensures Get(after[Post][p], "locationId").id in after[Location]
    {
      assert !InLocation(before[Post][p], location);
    }
  }

  /** deleteBuilding with the cleanup its comment describes: the Location
      goes only when nothing is left that names it, so a store where every
      Land and Post names an existing Location stays that way. */
  method DeleteBuildingKeepingReferenced(db: Db, id: Id) returns (reply: Reply<string>)
    requires db.Valid()
    modifies db
    ensures db.Valid()
    ensures OnlyChanged(old(db.tables), db.tables, {Building, Land, Location})
    ensures id !in old(db.tables[Building]) ==> reply == NotFound(BuildingNotFound) && db.tables == old(db.tables)
    ensures id in old(db.tables[Building]) ==> reply == Done(BuildingRemoved) && BuildingDeleted(old(db.tables), db.tables, id, true)
    ensures LocationsLinked(old(db.tables)) ==> LocationsLinked(db.tables)
  {
    if id !in db.tables[Building] {
      return NotFound(BuildingNotFound);
    }
    var building := db.tables[Building][id];
    var ok := db.Delete(Building, id);
    var land := Get(building, "landId");
    if db.Has(Land, land) {
      var location := Get(db.tables[Land][land.id], "locationId");
      ok := db.Delete(Land, land.id);
      if db.Has(Location, location) {
        var count := CountReferences(db, location.id);
        if count == 0 {
          ghost var before := db.tables;
          ok := db.Delete(Location, location.id);
          if LocationsLinked(old(db.tables)) {
            StillLinked(before, db.tables, location.id);
          }
        }
      }
    }
    reply := Done(BuildingRemoved);
  }
}

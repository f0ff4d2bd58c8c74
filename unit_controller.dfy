/** `addUnit` (api/controllers/unit.controller.js): a chain of four steps,
    Location, Land, Building and Unit, each either taking a supplied id as it
    is or creating a row linked by `connect` to the id of the step before.
    A step that refuses its input answers 400 after the earlier steps have
    written; nothing is rolled back. */
module UnitController {
  import opened Js
  import opened Store
  import opened LocationLib
  import opened InlineLocation
  import opened LandController
  import opened Replies

  const UnitRequired := "numberOfUnit, floorLevel, size, locationData, landData, and buildingData are required fields"
  const UnitMissingLocation := "Location data must include country, latitude, and longitude"
  const UnitBuildingRequired :=
    "numberOfFloors, buildingName, buildingSize, and buildingDescription are required fields for buildingData"
  const AddUnitFailed := "Failed to add unit"

  /** The six fields checked before anything else. */
  predicate UnitFieldsPresent(body: Value) {
    && Truthy(Prop(body, "numberOfUnit")) && Truthy(Prop(body, "floorLevel")) && Truthy(Prop(body, "size"))
    && Truthy(Prop(body, "locationData")) && Truthy(Prop(body, "landData")) && Truthy(Prop(body, "buildingData"))
  }

  /** The `data` of the Land the Land step creates. */
  function UnitLandData(landData: Value, location: Value): (data: map<string, Value>)
    ensures "locationId" in data && data["locationId"] == location
    ensures "name" in data && data["name"] == Prop(landData, "landName")
    ensures "features" in data && data["features"] == Or(Prop(landData, "landFeatures"), Arr([]))
  {
    map["name" := Prop(landData, "landName"), "size" := Prop(landData, "landSize"),
        "description" := Prop(landData, "landDescription"),
        "features" := Or(Prop(landData, "landFeatures"), Arr([])),
        "zoning" := Or(Prop(landData, "landZoning"), Null),
        "soilStructure" := Or(Prop(landData, "landSoilStructure"), Null),
        "topography" := Or(Prop(landData, "landTopography"), Null),
        "postalZipCode" := Or(Prop(landData, "landPostalZipCode"), Null),
        "accessibility" := Or(Prop(landData, "landAccessibility"), Null),
        "locationId" := location]
  }

  /** The outcome of the Land step between the Land tables `t0` and `t1`,
      given the Location table `locations` and the Location id `location`
      of the step before. */
  ghost predicate LandStep(locations: Table, t0: Table, t1: Table, landData: Value, location: Value, r: Reply<Value>) {
    && (Truthy(Prop(landData, "landId")) ==> r == Done(Prop(landData, "landId")) && t1 == t0)
    && (!Truthy(Prop(landData, "landId")) && !LandNamed(landData) ==> r == BadRequest(LandNamesRequired) && t1 == t0)
    && (!Truthy(Prop(landData, "landId")) && LandNamed(landData) && !Refers(locations, location) ==>
          r == ServerError(AddUnitFailed) && t1 == t0)
    && (!Truthy(Prop(landData, "landId")) && LandNamed(landData) && Refers(locations, location) ==>
          r.Done? && r.value.Ref? && Inserted(t0, t1, r.value.id, Stored(UnitLandData(landData, location))))
  }

  /** The Land step: the supplied `landId`, or a new Land in `location`. */
  method FinalLandId(db: Db, landData: Value, location: Value) returns (r: Reply<Value>)
    requires db.Valid()
    modifies db
    ensures db.Valid()
    ensures OnlyChanged(old(db.tables), db.tables, {Land})
    ensures LandStep(old(db.tables[Location]), old(db.tables[Land]), db.tables[Land], landData, location, r)
  {
    if Truthy(Prop(landData, "landId")) {
      return Done(Prop(landData, "landId"));
    }
    if !LandNamed(landData) {
      return BadRequest(LandNamesRequired);
    }
    if !db.Has(Location, location) {
      return ServerError(AddUnitFailed);
    }
    var id := db.Create(Land, UnitLandData(landData, location));
    r := Done(Ref(id));
  }

  /** The Building fields the Building step demands when it creates one. */
  predicate BuildingNamed(bd: Value) {
    && Truthy(Prop(bd, "numberOfFloors")) && Truthy(Prop(bd, "buildingName"))
    && Truthy(Prop(bd, "buildingSize")) && Truthy(Prop(bd, "buildingDescription"))
  }

  /** The `data` of the Building the Building step creates: the prefixed
      payload fields, optional ones falling back to `null` (amenities to
      `[]`), and the Land that `connect` links. */
  function UnitBuildingData(bd: Value, land: Value): (data: map<string, Value>)
    ensures "landId" in data && data["landId"] == land
    ensures "name" in data && data["name"] == Prop(bd, "buildingName")
    ensures "amenities" in data && data["amenities"] == Or(Prop(bd, "buildingAmenities"), Arr([]))
  {
    map["numberOfFloors" := Prop(bd, "numberOfFloors"),
        "yearBuilt" := Or(Prop(bd, "yearBuilt"), Null),
        "name" := Prop(bd, "buildingName"),
        "type" := Or(Prop(bd, "buildingType"), Null),
        "size" := Or(Prop(bd, "buildingSize"), Null),
        "description" := Prop(bd, "buildingDescription"),
        "totalBathrooms" := Or(Prop(bd, "buildingTotalBathrooms"), Null),
        "totalBedrooms" := Or(Prop(bd, "buildingTotalBedrooms"), Null),
        "parkingSpaces" := Or(Prop(bd, "buildingParkingSpaces"), Null),
        "amenities" := Or(Prop(bd, "buildingAmenities"), Arr([])),
        "utilities" := Or(Prop(bd, "buildingUtilities"), Null),
        "maintenanceCost" := Or(Prop(bd, "buildingMaintenanceCost"), Null),
        "managementCompany" := Or(Prop(bd, "buildingManagementCompany"), Null),
        "constructionMaterial" := Or(Prop(bd, "buildingConstructionMaterial"), Null),
        "architect" := Or(Prop(bd, "buildingArchitect"), Null),
        "uses" := Or(Prop(bd, "buildingUses"), Null),
        "yearUpgraded" := Or(Prop(bd, "buildingYearUpgraded"), Null),
        "landId" := land]
  }

  /** The outcome of the Building step between the Building tables `t0` and
      `t1`, given the Land table `lands` and the Land id `land`. */
  ghost predicate BuildingStep(lands: Table, t0: Table, t1: Table, bd: Value, land: Value, r: Reply<Value>) {
    && (Truthy(Prop(bd, "buildingId")) ==> r == Done(Prop(bd, "buildingId")) && t1 == t0)
    && (!Truthy(Prop(bd, "buildingId")) && !BuildingNamed(bd) ==> r == BadRequest(UnitBuildingRequired) && t1 == t0)
    && (!Truthy(Prop(bd, "buildingId")) && BuildingNamed(bd) && !Refers(lands, land) ==>
          r == ServerError(AddUnitFailed) && t1 == t0)
    && (!Truthy(Prop(bd, "buildingId")) && BuildingNamed(bd) && Refers(lands, land) ==>
          r.Done? && r.value.Ref? && Inserted(t0, t1, r.value.id, Stored(UnitBuildingData(bd, land))))
  }

  /** The Building step: the supplied `buildingId`, or a new Building on
      `land`. */
  method FinalBuildingId(db: Db, bd: Value, land: Value) returns (r: Reply<Value>)
    requires db.Valid()
    modifies db
    ensures db.Valid()
    ensures OnlyChanged(old(db.tables), db.tables, {Building})
    ensures BuildingStep(old(db.tables[Land]), old(db.tables[Building]), db.tables[Building], bd, land, r)
  {
    if Truthy(Prop(bd, "buildingId")) {
      return Done(Prop(bd, "buildingId"));
    }
    if !BuildingNamed(bd) {
      return BadRequest(UnitBuildingRequired);
    }
    if !db.Has(Land, land) {
      return ServerError(AddUnitFailed);
    }
    var id := db.Create(Building, UnitBuildingData(bd, land));
    r := Done(Ref(id));
  }

  /** The `data` of the Unit: the required fields as given, optional ones
      falling back to `null` (amenities and features to `[]`), and the
      Building that `connect` links. */
  function UnitData(body: Value, building: Value): (data: map<string, Value>)
    ensures "buildingId" in data && data["buildingId"] == building
    ensures "numberOfUnit" in data && data["numberOfUnit"] == Prop(body, "numberOfUnit")
    ensures "features" in data && data["features"] == Or(Prop(body, "features"), Arr([]))
  {
    map["bathRoom" := Or(Prop(body, "bathRoom"), Null), "bedRoom" := Or(Prop(body, "bedRoom"), Null),
        "numberOfUnit" := Prop(body, "numberOfUnit"), "floorLevel" := Prop(body, "floorLevel"),
        "size" := Prop(body, "size"), "description" := Or(Prop(body, "description"), Null),
        "amenities" := Or(Prop(body, "amenities"), Arr([])), "utilities" := Or(Prop(body, "utilities"), Null),
        "features" := Or(Prop(body, "features"), Arr([])), "unitType" := Or(Prop(body, "unitType"), Null),
        "buildingId" := building]
  }

  /** The outcome of the Unit step between the Unit tables `t0` and `t1`. */
  ghost predicate UnitStep(buildings: Table, t0: Table, t1: Table, body: Value, building: Value, r: Reply<Id>) {
    && (!Refers(buildings, building) ==> r == ServerError(AddUnitFailed) && t1 == t0)
    && (Refers(buildings, building) ==> r.Done? && Inserted(t0, t1, r.value, Stored(UnitData(body, building))))
  }

  /** The Unit step. */
  method CreateUnit(db: Db, body: Value, building: Value) returns (r: Reply<Id>)
    requires db.Valid()
    modifies db
    ensures db.Valid()
    ensures OnlyChanged(old(db.tables), db.tables, {Unit})
    ensures UnitStep(old(db.tables[Building]), old(db.tables[Unit]), db.tables[Unit], body, building, r)
  {
    if !db.Has(Building, building) {
      return ServerError(AddUnitFailed);
    }
    var id := db.Create(Unit, UnitData(body, building));
    r := Done(id);
  }

  /** The last two steps, from the tables `t2` after the Land step, which
      yielded `land`, to `final`: `t3` and `step` are the tables and the
      result after the Building step. */
  ghost predicate FromLand(t2: Tables, t3: Tables, final: Tables, body: Value, land: Value,
                           step: Reply<Value>, reply: Reply<Id>)
    requires forall m: Model :: m in t2 && m in t3 && m in final
  {
    && OnlyChanged(t2, t3, {Building})
    && BuildingStep(t2[Land], t2[Building], t3[Building], Prop(body, "buildingData"), land, step)
    && (!step.Done? ==> reply == step.PropagateFailure() && final == t3)
    && (step.Done? ==>
          OnlyChanged(t3, final, {Unit}) && UnitStep(t3[Building], t3[Unit], final[Unit], body, step.value, reply))
  }

  /** The Building and Unit steps. */
  method UnitFromLand(db: Db, body: Value, land: Value)
    returns (reply: Reply<Id>, ghost t3: Tables, ghost step: Reply<Value>)
    requires db.Valid()
    modifies db
    ensures db.Valid() && forall m: Model :: m in t3
    ensures FromLand(old(db.tables), t3, db.tables, body, land, step, reply)
  {
    var finalBuildingId := FinalBuildingId(db, Prop(body, "buildingData"), land);
    t3, step := db.tables, finalBuildingId;
    if finalBuildingId.IsFailure() {
      return finalBuildingId.PropagateFailure(), t3, step;
    }
    reply := CreateUnit(db, body, finalBuildingId.value);
  }

  /** The last three steps, from the tables `t1` after the Location step,
      which yielded `location`, to `final`; `t2` and `landStep` are the
      tables and the result after the Land step. */
  ghost predicate FromLocation(t1: Tables, t2: Tables, t3: Tables, final: Tables, body: Value, location: Value,
                               landStep: Reply<Value>, buildingStep: Reply<Value>, reply: Reply<Id>)
    requires forall m: Model :: m in t1 && m in t2 && m in t3 && m in final
  {
    && OnlyChanged(t1, t2, {Land})
    && LandStep(t1[Location], t1[Land], t2[Land], Prop(body, "landData"), location, landStep)
    && (!landStep.Done? ==> reply == landStep.PropagateFailure() && final == t2)
    && (landStep.Done? ==> FromLand(t2, t3, final, body, landStep.value, buildingStep, reply))
  }

  /** The Land, Building and Unit steps. */
  method UnitFromLocation(db: Db, body: Value, location: Value)
    returns (reply: Reply<Id>, ghost t2: Tables, ghost t3: Tables, ghost landStep: Reply<Value>, ghost buildingStep: Reply<Value>)
    requires db.Valid()
    modifies db
    ensures db.Valid() && forall m: Model :: m in t2 && m in t3
    ensures FromLocation(old(db.tables), t2, t3, db.tables, body, location, landStep, buildingStep, reply)
  {
    var finalLandId := FinalLandId(db, Prop(body, "landData"), location);
    t2, t3, landStep, buildingStep := db.tables, db.tables, finalLandId, Done(Null);
    if finalLandId.IsFailure() {
      return finalLandId.PropagateFailure(), t2, t3, landStep, buildingStep;
    }
    reply, t3, buildingStep := UnitFromLand(db, body, finalLandId.value);
  }

  /** `addUnit`: the required fields, then the Location step keyed on the
      country alone, then FromLocation. `t1` to `t3` are the tables after
      the Location, Land and Building steps. */
  method AddUnit(db: Db, body: Value)
    returns (reply: Reply<Id>, ghost t1: Tables, ghost t2: Tables, ghost t3: Tables,
             ghost locationStep: Reply<Value>, ghost landStep: Reply<Value>, ghost buildingStep: Reply<Value>,
             ghost location: Resolved)
    requires db.Valid()
    modifies db
    ensures db.Valid()
    ensures forall m: Model :: m in t1 && m in t2 && m in t3
    ensures Nullish(body) ==> reply == Unhandled(CannotRead) && db.tables == old(db.tables)
    ensures !Nullish(body) && !UnitFieldsPresent(body) ==>
      reply == BadRequest(UnitRequired) && db.tables == old(db.tables)
    ensures UnitFieldsPresent(body) ==>
      var ld := Prop(body, "locationData");
      && OnlyChanged(old(db.tables), t1, {Location})
      && LocationStep(old(db.tables[Location]), t1[Location], ld, CountryKey(ld), UnitMissingLocation, locationStep, location)
      && (!locationStep.Done? ==> reply == locationStep.PropagateFailure() && db.tables == t1)
      && (locationStep.Done? ==>
            FromLocation(t1, t2, t3, db.tables, body, locationStep.value, landStep, buildingStep, reply))
  {
    t1, t2, t3 := db.tables, db.tables, db.tables;
    locationStep, landStep, buildingStep, location := Done(Null), Done(Null), Done(Null), Resolved(0, false);
    if Nullish(body) {
      return Unhandled(CannotRead), t1, t2, t3, locationStep, landStep, buildingStep, location;
    }
    if !UnitFieldsPresent(body) {
      return BadRequest(UnitRequired), t1, t2, t3, locationStep, landStep, buildingStep, location;
    }
    var ld := Prop(body, "locationData");
    var finalLocationId;
    finalLocationId, location := FinalLocationId(db, ld, CountryKey(ld), UnitMissingLocation);
    t1, t2, t3, locationStep := db.tables, db.tables, db.tables, finalLocationId;
    if finalLocationId.IsFailure() {
      return finalLocationId.PropagateFailure(), t1, t2, t3, locationStep, landStep, buildingStep, location;
    }
    reply, t2, t3, landStep, buildingStep := UnitFromLocation(db, body, finalLocationId.value);
  }

  /** Nothing is rolled back: when the Location step creates a Location and
      the land data then lacks its name, size or description, addUnit
      answers 400 and the new Location stays. The requirements are the
      outcome AddUnit guarantees. */
  lemma RefusedAfterWriting(t0: Tables, t1: Tables, t2: Tables, t3: Tables, final: Tables, body: Value,
                            locationStep: Reply<Value>, landStep: Reply<Value>, buildingStep: Reply<Value>,
                            location: Resolved, reply: Reply<Id>)
    requires forall m: Model :: m in t0 && m in t1 && m in t2 && m in t3 && m in final
    requires UnitFieldsPresent(body)
    requires OnlyChanged(t0, t1, {Location})
    requires LocationStep(t0[Location], t1[Location], Prop(body, "locationData"), CountryKey(Prop(body, "locationData")),
                          UnitMissingLocation, locationStep, location)
    requires locationStep.Done? ==> FromLocation(t1, t2, t3, final, body, locationStep.value, landStep, buildingStep, reply)
    requires !Truthy(Prop(Prop(body, "locationData"), "locationId")) && HasCoordinates(Prop(body, "locationData"))
    requires !location.existed
    requires !Truthy(Prop(Prop(body, "landData"), "landId")) && !LandNamed(Prop(body, "landData"))
    ensures reply == BadRequest(LandNamesRequired)
    ensures location.id !in t0[Location] && location.id in final[Location]
  {
    assert final == t2;
    assert t2[Location] == t1[Location];
  }
}

/** The Land handlers (api/controllers/land.controller.js): addLand and
    updateLand share the inline Location block keyed on the country alone
    and write a Land linked by `connect`; deleteLand removes one Land. */
module LandController {
  import opened Js
  import opened Store
  import opened LocationLib
  import opened InlineLocation
  import opened Replies

  const LandFieldsRequired := "Name, size, description, and locationData are required fields"
  const AddLandMissingLocation := "Location data must include  country, latitude, and longitude"
  const UpdateLandMissingLocation := "Location data must include name,  country, latitude, and longitude"
  const AddLandFailed := "Failed to add land"
  const UpdateLandFailed := "Failed to update land"
  const DeleteLandFailed := "Failed to delete land and its location"
  const LandDeleted := "Land and its location deleted successfully"
  const LandNamesRequired := "landName, landSize, and landDescription are required fields for landData"

  /** The four fields both handlers demand before anything else. */
  predicate LandFieldsPresent(body: Value) {
    && Truthy(Prop(body, "name")) && Truthy(Prop(body, "size"))
    && Truthy(Prop(body, "description")) && Truthy(Prop(body, "locationData"))
  }

  /** The three prefixed Land fields the unit and building handlers demand
      before they create a Land. */
  predicate LandNamed(landData: Value) {
    Truthy(Prop(landData, "landName")) && Truthy(Prop(landData, "landSize")) && Truthy(Prop(landData, "landDescription"))
  }

  const OptionalLandColumns := {"zoning", "soilStructure", "topography", "postalZipCode", "accessibility"}

  /** The `data` both handlers write: name, size and description as given,
      features falling back to `[]`, the five optional columns to `null`,
      and the Location that `connect` links. */
  function LandData(body: Value, location: Value): (data: map<string, Value>)
    ensures forall c :: c in OptionalLandColumns ==> c in data && data[c] == Or(Prop(body, c), Null)
    ensures forall c :: c in {"name", "size", "description"} ==> c in data && data[c] == Prop(body, c)
    ensures "features" in data && data["features"] == Or(Prop(body, "features"), Arr([]))
    ensures "locationId" in data && data["locationId"] == location
  {
    map["name" := Prop(body, "name"), "size" := Prop(body, "size"),
        "description" := Prop(body, "description"),
        "features" := Or(Prop(body, "features"), Arr([])),
        "zoning" := Or(Prop(body, "zoning"), Null),
        "soilStructure" := Or(Prop(body, "soilStructure"), Null),
        "topography" := Or(Prop(body, "topography"), Null),
        "postalZipCode" := Or(Prop(body, "postalZipCode"), Null),
        "accessibility" := Or(Prop(body, "accessibility"), Null),
        "locationId" := location]
  }

  /** updateLand overwrites every Land column it names: the row it leaves
      holds each of them as LandData gives it, so an absent optional field
      is reset to `null` and absent features to `[]`, whatever was stored;
      columns it does not name keep their values. */
  lemma LandDataOverwrites(row: Row, body: Value, location: Value)
    requires LandFieldsPresent(body) && location.Ref?
    ensures forall c :: c in LandData(body, location) ==> Get(Patched(row, LandData(body, location)), c) == LandData(body, location)[c]
    ensures forall c :: c in OptionalLandColumns && !Truthy(Prop(body, c)) ==> Get(Patched(row, LandData(body, location)), c) == Null
    ensures !Truthy(Prop(body, "features")) ==> Get(Patched(row, LandData(body, location)), "features") == Arr([])
    ensures forall c :: c !in LandData(body, location) ==> Get(Patched(row, LandData(body, location)), c) == Get(row, c)
  {
    var data := LandData(body, location);
    forall c | c in data
      ensures data[c] != Undefined
    {
      if c in {"name", "size", "description"} {
        assert Truthy(Prop(body, c));
      }
    }
  }

  /** The Land write after the Location block, between the tables `t1` and
      `t2`, for the Location id `location` the block yielded: a `connect` to
      a Location that does not exist fails, anything else inserts (or, for
      updateLand, overwrites) one Land. */
  ghost predicate LandCreated(t1: Tables, t2: Tables, body: Value, location: Value, reply: Reply<Id>)
    requires Location in t1 && Land in t1 && Land in t2
  {
    && (!Refers(t1[Location], location) ==> reply == ServerError(AddLandFailed) && t2[Land] == t1[Land])
    && (Refers(t1[Location], location) ==>
          reply.Done? && Inserted(t1[Land], t2[Land], reply.value, Stored(LandData(body, location))))
  }

  /** `addLand`: the required fields, then the Location block keyed on the
      country alone, then always a new Land; there is no lookup of an
      existing Land. `t1` is the state after the Location block. A table
      with at most one Location per country keeps that property. */
  method AddLand(db: Db, body: Value)
    returns (reply: Reply<Id>, ghost t1: Tables, ghost step: Reply<Value>, ghost location: Resolved)
    requires db.Valid()
    modifies db
    ensures db.Valid()
    ensures OnlyChanged(old(db.tables), db.tables, {Location, Land})
    ensures Nullish(body) ==> reply == Unhandled(CannotRead) && db.tables == old(db.tables)
    ensures !Nullish(body) && !LandFieldsPresent(body) ==>
      reply == BadRequest(LandFieldsRequired) && db.tables == old(db.tables)
    ensures LandFieldsPresent(body) ==>
      var ld := Prop(body, "locationData");
      && Location in t1 && Land in t1
      && LocationStep(old(db.tables[Location]), t1[Location], ld, CountryKey(ld), AddLandMissingLocation, step, location)
      && t1[Land] == old(db.tables[Land]) && db.tables[Location] == t1[Location]
      && (!step.Done? ==> reply == step.PropagateFailure() && db.tables[Land] == t1[Land])
      && (step.Done? ==> LandCreated(t1, db.tables, body, step.value, reply))
    ensures UniqueOn(old(db.tables[Location]), {"country"}) ==> UniqueOn(db.tables[Location], {"country"})
  {
    t1, step, location := db.tables, Done(Null), Resolved(0, false);
    if Nullish(body) {
      return Unhandled(CannotRead), t1, step, location;
    }
    if !LandFieldsPresent(body) {
      return BadRequest(LandFieldsRequired), t1, step, location;
    }
    var ld := Prop(body, "locationData");
    var finalLocationId;
    finalLocationId, location := FinalLocationId(db, ld, CountryKey(ld), AddLandMissingLocation);
    step, t1 := finalLocationId, db.tables;
    if !Truthy(Prop(ld, "locationId")) && HasCoordinates(ld) && UniqueOn(old(db.tables[Location]), {"country"}) {
      CountryStaysUnique(old(db.tables[Location]), t1[Location], ld, location);
    }
    if finalLocationId.IsFailure() {
      return finalLocationId.PropagateFailure(), t1, step, location;
    }
    if !db.Has(Location, finalLocationId.value) {
      return ServerError(AddLandFailed), t1, step, location;
    }
    var id := db.Create(Land, LandData(body, finalLocationId.value));
    reply := Done(id);
  }

  /** `updateLand`: the same checks and Location block, then every Land
      column overwritten on the row `id`. An unknown Land or Location makes
      the update fail after the Location block may already have written. */
  method UpdateLand(db: Db, id: Id, body: Value)
    returns (reply: Reply<Id>, ghost t1: Tables, ghost step: Reply<Value>, ghost location: Resolved)
    requires db.Valid()
    modifies db
    ensures db.Valid()
    ensures OnlyChanged(old(db.tables), db.tables, {Location, Land})
    ensures Nullish(body) ==> reply == Unhandled(CannotRead) && db.tables == old(db.tables)
    ensures !Nullish(body) && !LandFieldsPresent(body) ==>
      reply == BadRequest(LandFieldsRequired) && db.tables == old(db.tables)
    ensures LandFieldsPresent(body) ==>
      var ld := Prop(body, "locationData");
      && Location in t1 && Land in t1
      && LocationStep(old(db.tables[Location]), t1[Location], ld, CountryKey(ld), UpdateLandMissingLocation, step, location)
      && t1[Land] == old(db.tables[Land]) && db.tables[Location] == t1[Location]
      && (!step.Done? ==> reply == step.PropagateFailure() && db.tables[Land] == t1[Land])
      && (step.Done? && (!Refers(t1[Location], step.value) || id !in t1[Land]) ==>
            reply == ServerError(UpdateLandFailed) && db.tables[Land] == t1[Land])
      && (step.Done? && Refers(t1[Location], step.value) && id in t1[Land] ==>
            reply == Done(id) &&
            db.tables[Land] == t1[Land][id := Patched(t1[Land][id], LandData(body, step.value))])
  {
    t1, step, location := db.tables, Done(Null), Resolved(0, false);
    if Nullish(body) {
      return Unhandled(CannotRead), t1, step, location;
    }
    if !LandFieldsPresent(body) {
      return BadRequest(LandFieldsRequired), t1, step, location;
    }
    var ld := Prop(body, "locationData");
    var finalLocationId;
    finalLocationId, location := FinalLocationId(db, ld, CountryKey(ld), UpdateLandMissingLocation);
    step, t1 := finalLocationId, db.tables;
    if finalLocationId.IsFailure() {
      return finalLocationId.PropagateFailure(), t1, step, location;
    }
    if !db.Has(Location, finalLocationId.value) {
      return ServerError(UpdateLandFailed), t1, step, location;
    }
    var ok := db.Update(Land, id, LandData(body, finalLocationId.value));
    reply := if ok then Done(id) else ServerError(UpdateLandFailed);
  }

  /** `deleteLand`: removes the Land row and nothing else; its Location
      stays, whatever the reply says. */
  method DeleteLand(db: Db, id: Id) returns (reply: Reply<string>)
    requires db.Valid()
    modifies db
    ensures db.Valid()
    ensures OnlyChanged(old(db.tables), db.tables, {Land})
    ensures id !in old(db.tables[Land]) ==> reply == ServerError(DeleteLandFailed) && db.tables == old(db.tables)
    ensures id in old(db.tables[Land]) ==>
      reply == Done(LandDeleted) && db.tables[Land] == old(db.tables[Land]) - {id}
  {
    var ok := db.Delete(Land, id);
    reply := if ok then Done(LandDeleted) else ServerError(DeleteLandFailed);
  }
}

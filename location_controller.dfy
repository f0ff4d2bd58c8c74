/** The Location handlers (api/controllers/location.controller.js): a
    filtered listing, an insert that refuses an exact seven-column duplicate,
    a full overwrite and a delete. */
module LocationController {
  import opened Js
  import opened Store
  import opened LocationLib
  import opened InlineLocation
  import opened Replies

  const LocationRequired :=
    "country, state/region, district/county, ward, street/village, latitude, and longitude are required fields"
  const LocationExists := "Location already exists"
  const LocationNotFound := "Location not found"
  const LocationDeleted := "Location deleted successfully"

  /** The four query parameters getLocations filters on. */
  const FilterColumns := {"stateRegion", "country", "ward", "districtCounty"}

  /** The `where` of getLocations: each query parameter, or `undefined` (no
      constraint) when it is falsy. */
  function LocationFilter(query: Value): (key: Where)
    ensures key.Keys == FilterColumns
  {
    map c | c in FilterColumns :: Or(Prop(query, c), Undefined)
  }

  /** A row passes the filter exactly when it holds every truthy query
      parameter; an absent or empty parameter constrains nothing. */
  lemma LocationFilterSpec(query: Value, row: Row)
    ensures Matches(row, LocationFilter(query)) <==>
      forall c :: c in FilterColumns && Truthy(Prop(query, c)) ==> Get(row, c) == Prop(query, c)
  {
    var key := LocationFilter(query);
    if forall c :: c in FilterColumns && Truthy(Prop(query, c)) ==> Get(row, c) == Prop(query, c) {
      forall c | c in key && key[c] != Undefined
        ensures Get(row, c) == key[c]
      {
        assert Truthy(Prop(query, c));
      }
    }
  }

  /** `getLocations`: the ids of the Locations that pass the filter, in
      ascending order. Nothing is written. */
  method GetLocations(db: Db, query: Value) returns (ids: seq<Id>)
    requires db.Valid()
    ensures forall id :: id in ids <==>
      id in db.tables[Location] && Matches(db.tables[Location][id], LocationFilter(query))
    ensures forall i, j :: 0 <= i < j < |ids| ==> ids[i] < ids[j]
  {
    var key := LocationFilter(query);
    ids := db.FindMany(Location, (row: Row) => Matches(row, key));
  }

  /** Whether the body carries all seven columns, each truthy. */
  predicate AllColumns(body: Value) {
    forall c :: c in LocationColumns ==> Truthy(Prop(body, c))
  }

  /** With all seven columns truthy, the stored row is the tuple the
      duplicate check looked for: the fallbacks never apply. */
  lemma LocationDataIsTuple(body: Value)
    requires AllColumns(body)
    ensures Stored(LocationData(body)) == LocationTuple(body)
    ensures Matches(LocationTuple(body), LocationTuple(body))
    ensures forall c :: c in LocationTuple(body) ==> LocationTuple(body)[c] != Undefined
  {
    var data := LocationData(body);
    forall c | c in LocationColumns
      ensures c in Stored(data) && Stored(data)[c] == Prop(body, c)
    {
      assert Truthy(Prop(body, c));
    }
    assert Stored(data).Keys == LocationColumns;
  }

  /** Whether some Location holds exactly the body's seven columns. */
  ghost predicate Duplicated(locations: Table, body: Value) {
    exists id :: id in locations && Matches(locations[id], LocationTuple(body))
  }

  /** `addLocation`: all seven columns are required; a Location equal on all
      seven is refused; otherwise exactly one Location is added. A table
      without two rows equal on the seven columns keeps that property. */
  method AddLocation(db: Db, body: Value) returns (reply: Reply<Id>)
    requires db.Valid()
    modifies db
    ensures db.Valid()
    ensures OnlyChanged(old(db.tables), db.tables, {Location})
    ensures Nullish(body) ==> reply == Unhandled(CannotRead) && db.tables == old(db.tables)
    ensures !Nullish(body) && !AllColumns(body) ==>
      reply == BadRequest(LocationRequired) && db.tables == old(db.tables)
    ensures AllColumns(body) && Duplicated(old(db.tables[Location]), body) ==>
      reply == BadRequest(LocationExists) && db.tables == old(db.tables)
    ensures AllColumns(body) && !Duplicated(old(db.tables[Location]), body) ==>
      reply.Done? && Inserted(old(db.tables[Location]), db.tables[Location], reply.value, LocationTuple(body))
    ensures UniqueOn(old(db.tables[Location]), LocationColumns) ==> UniqueOn(db.tables[Location], LocationColumns)
  {
    if Nullish(body) {
      return Unhandled(CannotRead);
    }
    if !AllColumns(body) {
      return BadRequest(LocationRequired);
    }
    var existing := db.FindFirst(Location, LocationTuple(body));
    if existing.Some? {
      return BadRequest(LocationExists);
    }
    var id := db.Create(Location, LocationData(body));
    LocationDataIsTuple(body);
    if UniqueOn(old(db.tables[Location]), LocationColumns) {
      InsertUnmatchedKeepsUnique(old(db.tables[Location]), db.tables[Location], LocationTuple(body), id, LocationTuple(body));
    }
    reply := Done(id);
  }

  /** `updateLocation`: all seven columns are required; an unknown id is a
      404; otherwise the seven columns are overwritten with the body's and
      the row keeps its id and its other columns. */
  method UpdateLocation(db: Db, id: Id, body: Value) returns (reply: Reply<Id>)
    requires db.Valid()
    modifies db
    ensures db.Valid()
    ensures OnlyChanged(old(db.tables), db.tables, {Location})
    ensures Nullish(body) ==> reply == Unhandled(CannotRead) && db.tables == old(db.tables)
    ensures !Nullish(body) && !AllColumns(body) ==>
      reply == BadRequest(LocationRequired) && db.tables == old(db.tables)
    ensures AllColumns(body) && id !in old(db.tables[Location]) ==>
      reply == NotFound(LocationNotFound) && db.tables == old(db.tables)
    ensures AllColumns(body) && id in old(db.tables[Location]) ==>
      && reply == Done(id)
      && db.tables[Location] == old(db.tables[Location])[id := Patched(old(db.tables[Location][id]), LocationTuple(body))]
  {
    if Nullish(body) {
      return Unhandled(CannotRead);
    }
    if !AllColumns(body) {
      return BadRequest(LocationRequired);
    }
    if id !in db.tables[Location] {
      return NotFound(LocationNotFound);
    }
    var ok := db.Update(Location, id, LocationTuple(body));
    reply := Done(id);
  }

  /** The row updateLocation leaves holds each of the seven columns as the
      body gives it, and every other column as it was. */
  lemma UpdateOverwrites(row: Row, body: Value)
    requires AllColumns(body)
    ensures forall c :: c in LocationColumns ==> Get(Patched(row, LocationTuple(body)), c) == Prop(body, c)
    ensures forall c :: c !in LocationColumns ==> Get(Patched(row, LocationTuple(body)), c) == Get(row, c)
  {
    forall c | c in LocationColumns
      ensures Get(Patched(row, LocationTuple(body)), c) == Prop(body, c)
    {
      assert Truthy(Prop(body, c));
    }
  }

  /** `deleteLocation`: an unknown id is a 404; otherwise exactly that row is
      removed. */
  method DeleteLocation(db: Db, id: Id) returns (reply: Reply<string>)
    requires db.Valid()
    modifies db
    ensures db.Valid()
    ensures OnlyChanged(old(db.tables), db.tables, {Location})
    ensures id !in old(db.tables[Location]) ==> reply == NotFound(LocationNotFound) && db.tables == old(db.tables)
    ensures id in old(db.tables[Location]) ==>
      reply == Done(LocationDeleted) && db.tables[Location] == old(db.tables[Location]) - {id}
  {
    if id !in db.tables[Location] {
      return NotFound(LocationNotFound);
    }
    var ok := db.Delete(Location, id);
    reply := Done(LocationDeleted);
  }
}

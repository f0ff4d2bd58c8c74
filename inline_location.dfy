/** The Location block the land, unit and building handlers repeat inline:
    take `locationData.locationId` as it is when it is truthy, otherwise
    demand country and coordinates, find the first Location under a key
    (the country alone in the land and unit handlers, country and
    coordinates in addBuilding), and create one from the raw payload when
    none matches. No value is escaped or normalised on this path. */
module InlineLocation {
  import opened Js
  import opened Store
  import opened LocationLib
  import opened Replies

  /** The `data` of the inline `location.create`: the payload's columns,
      with a falsy subdivision replaced by `null`. */
  function LocationData(ld: Value): (data: map<string, Value>)
    ensures data.Keys == LocationColumns
    ensures forall c :: c in Subdivisions ==> data[c] == Or(Prop(ld, c), Null)
    ensures forall c :: c in LocationColumns && c !in Subdivisions ==> data[c] == Prop(ld, c)
  {
    map c | c in LocationColumns :: if c in Subdivisions then Or(Prop(ld, c), Null) else Prop(ld, c)
  }

  /** The seven Location columns of a payload as they are, the way
      addLocation's duplicate check and updateBuilding's diff read them. */
  function LocationTuple(ld: Value): (key: Where)
    ensures key.Keys == LocationColumns
    ensures forall c :: c in key ==> key[c] == Prop(ld, c)
  {
    map c | c in LocationColumns :: Prop(ld, c)
  }

  /** The stored row: a missing subdivision is kept as `null`, never
      dropped and never `""`. */
  lemma SubdivisionsDefaultToNull(ld: Value)
    ensures forall c :: c in Subdivisions && !Truthy(Prop(ld, c)) ==>
      c in Stored(LocationData(ld)) && Stored(LocationData(ld))[c] == Null
  {
  }

  /** `where: { country }` */
  function CountryKey(ld: Value): (key: Where)
    ensures key.Keys == {"country"}
  {
    map["country" := Prop(ld, "country")]
  }

  /** `where: { country, latitude, longitude }` */
  function CoordinatesKey(ld: Value): (key: Where)
    ensures key.Keys == {"country", "latitude", "longitude"}
  {
    map["country" := Prop(ld, "country"), "latitude" := Prop(ld, "latitude"), "longitude" := Prop(ld, "longitude")]
  }

  /** With country and coordinates present, the created row matches both
      keys, and neither key names an `undefined` column. */
  lemma InlineKeysMatch(ld: Value)
    requires HasCoordinates(ld)
    ensures Matches(Stored(LocationData(ld)), CountryKey(ld))
    ensures Matches(Stored(LocationData(ld)), CoordinatesKey(ld))
    ensures forall c :: c in CoordinatesKey(ld) ==> CoordinatesKey(ld)[c] != Undefined
    ensures forall c :: c in CountryKey(ld) ==> CountryKey(ld)[c] != Undefined
  {
    var row := Stored(LocationData(ld));
    assert row["country"] == Prop(ld, "country");
    assert row["latitude"] == Prop(ld, "latitude");
    assert row["longitude"] == Prop(ld, "longitude");
  }

  /** The keys the handlers use: one of the two above. */
  predicate InlineKey(ld: Value, key: Where) {
    key == CountryKey(ld) || key == CoordinatesKey(ld)
  }

  /** The find-then-create block. */
  method FindOrCreateInline(db: Db, ld: Value, key: Where) returns (r: Resolved)
    requires db.Valid() && HasCoordinates(ld) && InlineKey(ld, key)
    modifies db
    ensures db.Valid()
    ensures OnlyChanged(old(db.tables), db.tables, {Location})
    ensures FoundOrCreated(old(db.tables[Location]), db.tables[Location], key, Stored(LocationData(ld)), r)
  {
    var location := db.FindFirst(Location, key);
    if location.Some? {
      r := Resolved(location.value, true);
    } else {
      var id := db.Create(Location, LocationData(ld));
      r := Resolved(id, false);
    }
  }

  /** The country-keyed step never adds a second Location for a country:
      a table with at most one Location per country keeps that property. */
  lemma CountryStaysUnique(before: Table, after: Table, ld: Value, r: Resolved)
    requires HasCoordinates(ld)
    requires FoundOrCreated(before, after, CountryKey(ld), Stored(LocationData(ld)), r)
    requires UniqueOn(before, {"country"})
    ensures UniqueOn(after, {"country"})
  {
    InlineKeysMatch(ld);
    FoundOrCreatedKeepsUnique(before, after, CountryKey(ld), Stored(LocationData(ld)), r);
  }

  /** Under the country key, any Location of that country is reused,
      whatever its coordinates, and nothing is created. */
  lemma CountryReuseIgnoresCoordinates(before: Table, after: Table, ld: Value, r: Resolved, other: Id)
    requires HasCoordinates(ld)
    requires FoundOrCreated(before, after, CountryKey(ld), Stored(LocationData(ld)), r)
    requires other in before && Get(before[other], "country") == Prop(ld, "country")
    ensures r.existed && after == before
  {
    MatchesOne(before[other], "country", Prop(ld, "country"));
  }

  /** The outcome of the Location block between the Location tables `t0`
      and `t1`: the id the handler goes on with, or the 400 `missing`. */
  ghost predicate LocationStep(t0: Table, t1: Table, ld: Value, key: Where, missing: string,
                               r: Reply<Value>, location: Resolved) {
    && (Truthy(Prop(ld, "locationId")) ==> r == Done(Prop(ld, "locationId")) && t1 == t0)
    && (!Truthy(Prop(ld, "locationId")) && !HasCoordinates(ld) ==> r == BadRequest(missing) && t1 == t0)
    && (!Truthy(Prop(ld, "locationId")) && HasCoordinates(ld) ==>
          r == Done(Ref(location.id)) && FoundOrCreated(t0, t1, key, Stored(LocationData(ld)), location))
  }

  /** The Location block; `missing` is the handler's own 400 message. */
  method FinalLocationId(db: Db, ld: Value, key: Where, missing: string)
    returns (r: Reply<Value>, ghost location: Resolved)
    requires db.Valid() && InlineKey(ld, key)
    modifies db
    ensures db.Valid()
    ensures OnlyChanged(old(db.tables), db.tables, {Location})
    ensures LocationStep(old(db.tables[Location]), db.tables[Location], ld, key, missing, r, location)
    ensures r.Done? ==> db.Has(Location, r.value) || Truthy(Prop(ld, "locationId"))
  {
    location := Resolved(0, false);
    if Truthy(Prop(ld, "locationId")) {
      return Done(Prop(ld, "locationId")), location;
    }
    if !HasCoordinates(ld) {
      return BadRequest(missing), location;
    }
    var found := FindOrCreateInline(db, ld, key);
    location := found;
    r := Done(Ref(found.id));
  }
}

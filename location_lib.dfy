/** The Location resolver (api/lib/addLocation.js) and the Location patcher
    (api/lib/updateLocationData.js). */
module LocationLib {
  import opened Js
  import opened Store

  const LocationPrefix := "Failed to process location data: "
  const MissingCoordinates := "Location data must include country, latitude, and longitude"

  /** The seven sanitized Location columns. */
  datatype LocationFields = LocationFields(
    country: string, stateRegion: string, districtCounty: string, ward: string,
    streetVillage: string, latitude: string, longitude: string)

  const LocationColumns := {"country", "stateRegion", "districtCounty", "ward", "streetVillage", "latitude", "longitude"}

  /** The four optional columns below the country. */
  const Subdivisions := {"stateRegion", "districtCounty", "ward", "streetVillage"}

  /** The Location row holding `f`: seven string columns. */
  function LocationRow(f: LocationFields): (row: Row)
    ensures row.Keys == LocationColumns && "updatedAt" !in row
    ensures forall c :: c in row ==> row[c].Str?
    ensures Get(row, "country") == Str(f.country)
    ensures Get(row, "latitude") == Str(f.latitude) && Get(row, "longitude") == Str(f.longitude)
  {
    map["country" := Str(f.country), "stateRegion" := Str(f.stateRegion),
        "districtCounty" := Str(f.districtCounty), "ward" := Str(f.ward),
        "streetVillage" := Str(f.streetVillage), "latitude" := Str(f.latitude),
        "longitude" := Str(f.longitude)]
  }

  /** The natural key of a Location: (country, latitude, longitude). */
  function LocationKey(f: LocationFields): (key: Where)
    ensures Matches(LocationRow(f), key)
  {
    map["country" := Str(f.country), "latitude" := Str(f.latitude), "longitude" := Str(f.longitude)]
  }

  /** A value validator accepts once `|| ""` or `x ? ... : ""` has replaced
      a falsy one. */
  predicate StringOrFalsy(v: Value) {
    !Truthy(v) || v.Str?
  }

  /** One subdivision as processLocationData (`validator.escape(v || "")`)
      or, with `forUpdate`, as updateLocationData (`v ? validator.escape(v) :
      ""`) sanitizes it; the two differ only on a falsy value, which the
      first escapes as `""` and the second replaces by a literal `""`. */
  function Subdivision(env: Env, v: Value, forUpdate: bool): (r: Result<string>)
    ensures r.Ok? <==> StringOrFalsy(v)
    ensures r.Err? ==> r.message == NotAString
    ensures Truthy(v) && r.Ok? ==> r.value == env.escape(v.s)
    ensures !Truthy(v) ==> r == Ok(if forUpdate then "" else env.escape(""))
  {
    if forUpdate && !Truthy(v) then Ok("")
    else
      var escaped :- Escape(env, Or(v, Str("")));
      Ok(escaped.s)
  }

  /** The seven Location columns of a payload: the escaped country, the four
      subdivisions and the normalised coordinates. validator throws when it
      is handed something other than a string. */
  function SanitizeLocation(env: Env, data: Value, forUpdate: bool): (r: Result<LocationFields>)
    ensures r.Err? ==> r.message == NotAString
  {
    var country :- Escape(env, Prop(data, "country"));
    var stateRegion :- Subdivision(env, Prop(data, "stateRegion"), forUpdate);
    var districtCounty :- Subdivision(env, Prop(data, "districtCounty"), forUpdate);
    var ward :- Subdivision(env, Prop(data, "ward"), forUpdate);
    var streetVillage :- Subdivision(env, Prop(data, "streetVillage"), forUpdate);
    var latitude :- FloatText(env, Prop(data, "latitude"));
    var longitude :- FloatText(env, Prop(data, "longitude"));
    Ok(LocationFields(country.s, stateRegion, districtCounty, ward, streetVillage, latitude.s, longitude.s))
  }

  /** When sanitization succeeds, and what it yields. */
  lemma SanitizeLocationSpec(env: Env, data: Value, forUpdate: bool)
    ensures var r := SanitizeLocation(env, data, forUpdate);
      r.Ok? <==>
      && Prop(data, "country").Str? && Prop(data, "latitude").Str? && Prop(data, "longitude").Str?
      && StringOrFalsy(Prop(data, "stateRegion")) && StringOrFalsy(Prop(data, "districtCounty"))
      && StringOrFalsy(Prop(data, "ward")) && StringOrFalsy(Prop(data, "streetVillage"))
    ensures var r := SanitizeLocation(env, data, forUpdate);
      r.Ok? ==>
      && r.value.country == env.escape(Prop(data, "country").s)
      && r.value.latitude == env.floatText(Prop(data, "latitude").s)
      && r.value.longitude == env.floatText(Prop(data, "longitude").s)
      && r.value.stateRegion == Subdivision(env, Prop(data, "stateRegion"), forUpdate).value
      && r.value.districtCounty == Subdivision(env, Prop(data, "districtCounty"), forUpdate).value
      && r.value.ward == Subdivision(env, Prop(data, "ward"), forUpdate).value
      && r.value.streetVillage == Subdivision(env, Prop(data, "streetVillage"), forUpdate).value
  {
  }

  /** Subdivisions play no part in matching: two payloads that agree on
      country and coordinates resolve under the same key. */
  lemma KeyIgnoresSubdivisions(env: Env, a: Value, b: Value)
    requires SanitizeLocation(env, a, false).Ok? && SanitizeLocation(env, b, false).Ok?
    requires Prop(a, "country") == Prop(b, "country")
    requires Prop(a, "latitude") == Prop(b, "latitude")
    requires Prop(a, "longitude") == Prop(b, "longitude")
    ensures LocationKey(SanitizeLocation(env, a, false).value) == LocationKey(SanitizeLocation(env, b, false).value)
  {
    SanitizeLocationSpec(env, a, false);
    SanitizeLocationSpec(env, b, false);
  }

  /** The lookup-or-insert step of processLocationData on sanitized fields. */
  method FindOrCreateLocation(db: Db, f: LocationFields) returns (r: Resolved)
    requires db.Valid()
    modifies db
    ensures db.Valid()
    ensures OnlyChanged(old(db.tables), db.tables, {Location})
    ensures FoundOrCreated(old(db.tables[Location]), db.tables[Location], LocationKey(f), LocationRow(f), r)
  {
    var location := db.FindFirst(Location, LocationKey(f));
    if location.Some? {
      r := Resolved(location.value, true);
    } else {
      var row := LocationRow(f);
      var id := db.Create(Location, row);
      StoredOfDefined(row);
      r := Resolved(id, false);
    }
  }

  /** `processLocationData`: find the Location with the sanitized (country,
      latitude, longitude), or create it. Every failure is rethrown with the
      prefix "Failed to process location data: ". */
  method ProcessLocationData(db: Db, env: Env, locationData: Value) returns (r: Result<Resolved>)
    requires db.Valid()
    modifies db
    ensures db.Valid()
    ensures OnlyChanged(old(db.tables), db.tables, {Location})
    ensures SanitizeLocation(env, locationData, false).Err? ==>
      r == Err(LocationPrefix + NotAString) && db.tables == old(db.tables)
    ensures SanitizeLocation(env, locationData, false).Ok? ==>
      var f := SanitizeLocation(env, locationData, false).value;
      r.Ok? && FoundOrCreated(old(db.tables[Location]), db.tables[Location], LocationKey(f), LocationRow(f), r.value)
  {
    var sanitized := SanitizeLocation(env, locationData, false);
    if sanitized.Err? {
      return Err(LocationPrefix + sanitized.message);
    }
    var location := FindOrCreateLocation(db, sanitized.value);
    r := Ok(location);
  }

  /** A second call with the same payload finds the row the first call
      returned, reports that it exists, and writes nothing: the Locations
      stand as the first call (`t1`) left them. */
  method ProcessLocationDataTwice(db: Db, env: Env, locationData: Value)
    returns (r1: Result<Resolved>, r2: Result<Resolved>, ghost t1: Table)
    requires db.Valid()
    modifies db
    ensures db.Valid()
    ensures OnlyChanged(old(db.tables), db.tables, {Location})
    ensures r1.Ok? <==> SanitizeLocation(env, locationData, false).Ok?
    ensures r1.Ok? ==>
      var f := SanitizeLocation(env, locationData, false).value;
      && FoundOrCreated(old(db.tables[Location]), t1, LocationKey(f), LocationRow(f), r1.value)
      && r2 == Ok(Resolved(r1.value.id, true))
      && db.tables[Location] == t1
    ensures r1.Err? ==> r2 == r1 && db.tables == old(db.tables)
  {
    r1 := ProcessLocationData(db, env, locationData);
    t1 := db.tables[Location];
    r2 := ProcessLocationData(db, env, locationData);
    if r1.Ok? {
      var f := SanitizeLocation(env, locationData, false).value;
      FoundOrCreatedTwice(old(db.tables[Location]), t1, db.tables[Location], LocationKey(f), LocationRow(f), r1.value, r2.value);
    }
  }

  /** Whether the payload carries the three columns updateLocationData
      demands. */
  predicate HasCoordinates(data: Value) {
    Truthy(Prop(data, "country")) && Truthy(Prop(data, "latitude")) && Truthy(Prop(data, "longitude"))
  }

  /** The patch updateLocationData computes for a payload against the stored
      row `existing`. The payload must carry country and coordinates;
      validator errors surface as they are. */
  function LocationPatch(env: Env, existing: Row, data: Value, now: int): (r: Result<map<string, Value>>)
    ensures !HasCoordinates(data) ==> r == Err(MissingCoordinates)
    ensures HasCoordinates(data) ==> (r.Ok? <==> SanitizeLocation(env, data, true).Ok?)
    ensures HasCoordinates(data) && r.Err? ==> r == Err(NotAString)
    ensures r.Ok? ==> r.value == DiffPatch(existing, LocationRow(SanitizeLocation(env, data, true).value), now)
  {
    if !HasCoordinates(data) then Err(MissingCoordinates)
    else
      var f :- SanitizeLocation(env, data, true);
      Ok(DiffPatch(existing, LocationRow(f), now))
  }

  /** Once a patch has been written, the same payload yields the empty patch
      against the row as it now stands. */
  lemma LocationPatchSettles(env: Env, existing: Row, data: Value, now: int, later: int)
    requires HasCoordinates(data) && SanitizeLocation(env, data, true).Ok?
    ensures LocationPatch(env, Patched(existing, LocationPatch(env, existing, data, now).value), data, later) == Ok(map[])
  {
    DiffPatchSettles(existing, LocationRow(SanitizeLocation(env, data, true).value), now, later);
  }

  /** Whether a computed patch leads to a database write. */
  predicate Writes(p: Result<map<string, Value>>) {
    p.Ok? && p.value != map[]
  }

  /** `updateLocationData`: writes the patch, when it is not empty, to the row
      `existingId` and returns it. */
  method UpdateLocationData(db: Db, env: Env, existingId: Id, existing: Row, locationData: Value, now: int)
    returns (r: Result<map<string, Value>>)
    requires db.Valid()
    modifies db
    ensures db.Valid()
    ensures OnlyChanged(old(db.tables), db.tables, {Location})
    ensures Writes(LocationPatch(env, existing, locationData, now)) && existingId in old(db.tables[Location]) ==>
      r == LocationPatch(env, existing, locationData, now) &&
      db.tables[Location] == old(db.tables[Location])[existingId := Patched(old(db.tables[Location][existingId]), r.value)]
    ensures Writes(LocationPatch(env, existing, locationData, now)) && existingId !in old(db.tables[Location]) ==>
      r == Err(RecordNotFound) && db.tables == old(db.tables)
    ensures !Writes(LocationPatch(env, existing, locationData, now)) ==>
      r == LocationPatch(env, existing, locationData, now) && db.tables == old(db.tables)
  {
    r := LocationPatch(env, existing, locationData, now);
    if Writes(r) {
      var ok := db.Update(Location, existingId, r.value);
      if !ok {
        r := Err(RecordNotFound);
      }
    }
  }
}

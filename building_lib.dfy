/** The Building resolver (api/lib/addBuilding.js): look the Building up by
    its customId, filling in the payload's landData from the Building's Land,
    or validate the payload, resolve the Land and find or create the Building
    by (name, landId). `generateBuildingCustomId` is imported from a module
    that does not define it; the code it would yield is a parameter. */
module BuildingLib {
  import opened Js
  import opened Store
  import opened IdGenerator
  import opened LocationLib
  import opened LandLib

  const BuildingPrefix := "Failed to process building data: "
  const MissingBuildingData := "Missing Building Data"
  const BuildingLandMissing := "Land data is missing for the existing Building."
  const UnknownBuilding := "Building with the provided custom ID does not exist"
  const BuildingRequired := "Name, Size Total Bath Rooms, Total Bed Rooms, Number of Floors, Amenities, Description, Features and Land Data  are required Fields"

  /** `include: { land: true }`: the Land a Building row refers to, as the
      object Prisma returns (its columns and its id), if it exists. */
  function LandOf(lands: Table, building: Row): (land: Option<Value>)
    ensures land.Some? <==> Get(building, "landId").Ref? && Get(building, "landId").id in lands
    ensures land.Some? ==> land.value.Obj? && Prop(land.value, "id") == Get(building, "landId")
  {
    var landId := Get(building, "landId");
    if landId.Ref? && landId.id in lands then Some(Obj(lands[landId.id]["id" := landId])) else None
  }

  /** What the customId branch yields once it has found the Building `b`:
      with a truthy landData the Building as it is; with a falsy one, the
      payload gets a copy of the Building's Land, and a Building without a
      Land throws. */
  ghost predicate FoundByCustomId(t: Tables, d: Value, b: Id, r: Result<Resolved>, payload: Value)
    requires Building in t && Land in t && b in t[Building]
  {
    var land := LandOf(t[Land], t[Building][b]);
    && (Truthy(Prop(d, "landData")) ==> r == Ok(Resolved(b, true)) && payload == d)
    && (!Truthy(Prop(d, "landData")) && land.Some? ==>
          r == Ok(Resolved(b, true)) && payload == SetProp(d, "landData", land.value))
    && (!Truthy(Prop(d, "landData")) && land.None? ==>
          r == Err(BuildingPrefix + BuildingLandMissing) && payload == d)
  }

  /** What the customId branch yields against the tables `t`: a non-string
      customId throws, an unknown one throws, and otherwise the outcome is
      FoundByCustomId for the first Building whose customId is the escaped
      `customId`. */
  ghost predicate BuildingLookedUp(env: Env, t: Tables, d: Value, r: Result<Resolved>, payload: Value)
    requires Building in t && Land in t
  {
    var customId := Prop(d, "customId");
    && (!customId.Str? ==> r == Err(BuildingPrefix + NotAString) && payload == d)
    && (customId.Str? ==>
      var key := CustomIdKey(env.escape(customId.s));
      && ((forall k :: k in t[Building] ==> !Matches(t[Building][k], key)) ==>
            r == Err(BuildingPrefix + UnknownBuilding) && payload == d)
      && ((exists k :: k in t[Building] && Matches(t[Building][k], key)) ==>
            exists b :: && b in t[Building] && Matches(t[Building][b], key)
                        && (forall k :: k in t[Building] && k < b ==> !Matches(t[Building][k], key))
                        && FoundByCustomId(t, d, b, r, payload)))
  }

  /** The customId branch. Only the Building and Land tables are read. */
  method FindBuildingByCustomId(db: Db, env: Env, d: Value) returns (r: Result<Resolved>, payload: Value)
    requires db.Valid()
    ensures BuildingLookedUp(env, db.tables, d, r, payload)
  {
    payload := d;
    var customId := Prop(d, "customId");
    if !customId.Str? {
      return Err(BuildingPrefix + NotAString), payload;
    }
    var building := db.FindFirst(Building, CustomIdKey(env.escape(customId.s)));
    if building.None? {
      return Err(BuildingPrefix + UnknownBuilding), payload;
    }
    r := Ok(Resolved(building.value, true));
    if !Truthy(Prop(d, "landData")) {
      var land := LandOf(db.tables[Land], db.tables[Building][building.value]);
      if land.Some? {
        payload := SetProp(d, "landData", land.value);
      } else {
        r := Err(BuildingPrefix + BuildingLandMissing);
      }
    }
  }

  /** The sanitized Building columns taken from the payload. */
  datatype BuildingFields = BuildingFields(
    numberOfFloors: Value, yearBuilt: Value, name: string, kind: Value, size: Value,
    description: string, features: Value, totalBedrooms: Value, totalBathrooms: Value,
    parkingSpaces: Value, amenities: Value, utilities: Value, maintenanceCost: Value,
    managementCompany: Value, constructionMaterial: Value, architect: Value, uses: Value,
    yearUpgraded: Value)

  /** The number of floors: a string is parsed in base 10, and anything
      that is then not an integer becomes null. */
  function Floors(env: Env, v: Value): (floors: Value)
    ensures floors.Null? || IsInteger(floors)
    ensures IsInteger(v) ==> floors == v
    ensures !v.Str? && !IsInteger(v) ==> floors == Null
    ensures v.Str? ==> floors == (if env.parseInt(v.s).Some? then ParseInt(env, v.s) else Null)
  {
    var parsed := if v.Str? then ParseInt(env, v.s) else v;
    if IsInteger(parsed) then parsed else Null
  }

  /** The sanitizing block: name and description through
      `validator.escape(v || "")`, the feature and amenity lists through the
      list escape, the floors through Floors and every other field through
      `v || null`. */
  function SanitizeBuilding(env: Env, d: Value): (r: Result<BuildingFields>)
    ensures r.Err? ==> r.message == NotAString
    ensures r.Ok? ==> r.value.numberOfFloors == Floors(env, Prop(d, "buildingNumberOfFloors"))
    ensures r.Ok? ==> r.value.features.Arr? && r.value.amenities.Arr?
  {
    var name :- EscapeOrEmpty(env, Prop(d, "buildingName"));
    var description :- EscapeOrEmpty(env, Prop(d, "buildingDescription"));
    var features :- EscapeList(env, Prop(d, "buildingFeatures"));
    var amenities :- EscapeList(env, Prop(d, "buildingAmenities"));
    Ok(BuildingFields(
      Floors(env, Prop(d, "buildingNumberOfFloors")), Or(Prop(d, "buildingYearBuilt"), Null),
      name, Or(Prop(d, "buildingType"), Null), Or(Prop(d, "buildingSize"), Null),
      description, features,
      Or(Prop(d, "buildingTotalBedrooms"), Null), Or(Prop(d, "buildingTotalBathrooms"), Null),
      Or(Prop(d, "buildingParkingSpaces"), Null), amenities,
      Or(Prop(d, "buildingUtilities"), Null), Or(Prop(d, "buildingMaintenanceCost"), Null),
      Or(Prop(d, "buildingManagementCompany"), Null), Or(Prop(d, "buildingConstructionMaterial"), Null),
      Or(Prop(d, "buildingArchitect"), Null), Or(Prop(d, "buildingUses"), Null),
      Or(Prop(d, "buildingYearUpgraded"), Null)))
  }

  /** The required-fields check. The feature and amenity lists are always
      arrays, hence always truthy, so they never fail it. */
  predicate BuildingComplete(f: BuildingFields, landData: Value) {
    && Truthy(Str(f.name)) && Truthy(f.size) && Truthy(f.totalBathrooms)
    && Truthy(f.totalBedrooms) && Truthy(f.numberOfFloors) && Truthy(f.amenities)
    && Truthy(Str(f.description)) && Truthy(f.features) && Truthy(landData)
  }

  /** A floors value that parses to 0, or does not parse to an integer at
      all, fails the required-fields check. */
  lemma FloorsRequired(env: Env, f: BuildingFields, landData: Value)
    requires f.numberOfFloors.Null? || f.numberOfFloors == Num(0.0)
    ensures !BuildingComplete(f, landData)
  {
  }

  /** The row processBuildingData creates: the sanitized fields, the
      generated code and the resolved Land. */
  function BuildingRow(f: BuildingFields, code: Value, landId: Id): (row: Row)
    ensures Matches(row, NameKey(f.name, "landId", landId))
    ensures Get(row, "customId") == code
  {
    map["customId" := code, "numberOfFloors" := f.numberOfFloors, "yearBuilt" := f.yearBuilt,
        "name" := Str(f.name), "type" := f.kind, "size" := f.size,
        "description" := Str(f.description), "features" := f.features,
        "totalBedrooms" := f.totalBedrooms, "totalBathrooms" := f.totalBathrooms,
        "parkingSpaces" := f.parkingSpaces, "amenities" := f.amenities,
        "utilities" := f.utilities, "maintenanceCost" := f.maintenanceCost,
        "managementCompany" := f.managementCompany,
        "constructionMaterial" := f.constructionMaterial, "architect" := f.architect,
        "uses" := f.uses, "yearUpgraded" := f.yearUpgraded, "landId" := Ref(landId)]
  }

  /** The last step: the first Building with this name on this Land, or a
      new one carrying `code`. */
  method FindOrCreateBuilding(db: Db, f: BuildingFields, code: Value, landId: Id) returns (r: Resolved)
    requires db.Valid()
    modifies db
    ensures db.Valid()
    ensures OnlyChanged(old(db.tables), db.tables, {Building})
    ensures FoundOrCreated(old(db.tables[Building]), db.tables[Building], NameKey(f.name, "landId", landId),
                           Stored(BuildingRow(f, code, landId)), r)
  {
    var building := db.FindFirst(Building, NameKey(f.name, "landId", landId));
    if building.Some? {
      r := Resolved(building.value, true);
    } else {
      var id := db.Create(Building, BuildingRow(f, code, landId));
      r := Resolved(id, false);
    }
  }

  /** The outcome of the create branch for sanitized, complete fields `f`,
      between the tables `t0`, `t1` after the Land step and `t2` at the end:
      the Land step behaved as processLandData does on the payload's
      landData, its failure is rethrown with the Building prefix, and on
      success the Building was found by (name, landId) or created. */
  ghost predicate BuildingResolved(env: Env, t0: Tables, t1: Tables, t2: Tables, landData: Value,
                                   f: BuildingFields, code: Value, draws: seq<Draw>,
                                   landStep: Result<Resolved>, location: Resolved, r: Result<Resolved>)
    requires forall m: Model :: m in t0 && m in t1 && m in t2
    requires FreshWithin(t0[Land], draws)
  {
    && (LandInputError(env, landData).Some? ==>
          landStep == Err(LandInputError(env, landData).value) && t1 == t0)
    && (LandInputError(env, landData).None? ==>
          LandResolved(env, t0, t1, landData, SanitizeLand(env, landData).value,
                       SanitizeLocation(env, Prop(landData, "locationData"), false).value,
                       draws, landStep, location))
    && (landStep.Err? ==> r == Err(BuildingPrefix + landStep.message) && t2 == t1)
    && (landStep.Ok? ==>
          r.Ok? && OnlyChanged(t1, t2, {Building}) &&
          FoundOrCreated(t1[Building], t2[Building], NameKey(f.name, "landId", landStep.value.id),
                         Stored(BuildingRow(f, code, landStep.value.id)), r.value))
  }

  /** The create branch past its checks: resolve the Land, then the
      Building. */
  method ResolveBuilding(db: Db, env: Env, landData: Value, f: BuildingFields, code: Value, draws: seq<Draw>)
    returns (r: Result<Resolved>, ghost t1: Tables, ghost landStep: Result<Resolved>, ghost location: Resolved)
    requires db.Valid()
    requires FreshWithin(db.tables[Land], draws)
    modifies db
    ensures db.Valid()
    ensures forall m: Model :: m in t1
    ensures BuildingResolved(env, old(db.tables), t1, db.tables, landData, f, code, draws, landStep, location, r)
  {
    var land;
    land, location := ProcessLandData(db, env, landData, draws);
    landStep := land;
    t1 := db.tables;
    if land.Err? {
      return Err(BuildingPrefix + land.message), t1, landStep, location;
    }
    var building := FindOrCreateBuilding(db, f, code, land.value.id);
    r := Ok(building);
  }

  /** `processBuildingData`. A falsy payload throws unwrapped. With a
      truthy customId the Building is looked up and nothing is written (the
      returned payload carries the filled-in landData); otherwise a value
      validator refuses or a missing required field throws before anything
      is written, and past those checks the Land and then the Building are
      resolved. `code` is what `generateBuildingCustomId` yields. */
  method ProcessBuildingData(db: Db, env: Env, d: Value, code: Value, draws: seq<Draw>)
    returns (r: Result<Resolved>, payload: Value, ghost t1: Tables, ghost landStep: Result<Resolved>,
             ghost location: Resolved)
    requires db.Valid()
    requires FreshWithin(db.tables[Land], draws)
    modifies db
    ensures db.Valid()
    ensures !Truthy(d) ==> r == Err(MissingBuildingData) && payload == d && db.tables == old(db.tables)
    ensures Truthy(d) && Truthy(Prop(d, "customId")) ==>
      db.tables == old(db.tables) && BuildingLookedUp(env, old(db.tables), d, r, payload)
    ensures Truthy(d) && !Truthy(Prop(d, "customId")) ==> payload == d
    ensures Truthy(d) && !Truthy(Prop(d, "customId")) && SanitizeBuilding(env, d).Err? ==>
      r == Err(BuildingPrefix + NotAString) && db.tables == old(db.tables)
    ensures Truthy(d) && !Truthy(Prop(d, "customId")) && SanitizeBuilding(env, d).Ok? &&
            !BuildingComplete(SanitizeBuilding(env, d).value, Prop(d, "landData")) ==>
      r == Err(BuildingPrefix + BuildingRequired) && db.tables == old(db.tables)
    ensures Truthy(d) && !Truthy(Prop(d, "customId")) && SanitizeBuilding(env, d).Ok? &&
            BuildingComplete(SanitizeBuilding(env, d).value, Prop(d, "landData")) ==>
      (forall m: Model :: m in t1) &&
      BuildingResolved(env, old(db.tables), t1, db.tables, Prop(d, "landData"),
                       SanitizeBuilding(env, d).value, code, draws, landStep, location, r)
  {
    payload := d;
    t1 := db.tables;
    landStep := Err("");
    location := Resolved(0, false);
    if !Truthy(d) {
      return Err(MissingBuildingData), payload, t1, landStep, location;
    }
    if Truthy(Prop(d, "customId")) {
      r, payload := FindBuildingByCustomId(db, env, d);
      return;
    }
    var sanitized := SanitizeBuilding(env, d);
    if sanitized.Err? {
      return Err(BuildingPrefix + sanitized.message), payload, t1, landStep, location;
    }
    if !BuildingComplete(sanitized.value, Prop(d, "landData")) {
      return Err(BuildingPrefix + BuildingRequired), payload, t1, landStep, location;
    }
    r, t1, landStep, location := ResolveBuilding(db, env, Prop(d, "landData"), sanitized.value, code, draws);
  }
}

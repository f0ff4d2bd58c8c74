/** The Land resolver (api/lib/addLand.js): resolve the Location, then look
    the Land up by its customId or find or create it by (name, locationId). */
module LandLib {
  import opened Js
  import opened Store
  import opened IdGenerator
  import opened LocationLib

  const LandPrefix := "Failed to process land data: "
  const MissingLocationData := "Missing locationData in landData"
  const LandRequired := "name, size, description, and locationData are required fields"
  const UnknownLand := "Land with the provided custom ID does not exist"

  /** The sanitized Land columns taken from the payload. */
  datatype LandFields = LandFields(
    name: string, size: Value, description: string, features: Value,
    zoning: string, soilStructure: string, topography: string,
    postalZipCode: string, accessibility: string)

  /** `validator.escape(v || "")` */
  function EscapeOrEmpty(env: Env, v: Value): (r: Result<string>)
    ensures r.Ok? <==> StringOrFalsy(v)
    ensures r.Err? ==> r.message == NotAString
    ensures r.Ok? ==> r.value == env.escape(if Truthy(v) then v.s else "")
  {
    var escaped :- Escape(env, Or(v, Str("")));
    Ok(escaped.s)
  }

  /** The sanitizing block: name and description are escaped as they are,
      the size goes through `Number`, the features through the list escape
      and the other texts through `validator.escape(v || "")`. */
  function SanitizeLand(env: Env, d: Value): (r: Result<LandFields>)
    ensures r.Err? ==> r.message == NotAString
    ensures r.Ok? <==>
      && Prop(d, "landName").Str? && Prop(d, "landDescription").Str?
      && EscapeList(env, Prop(d, "landFeatures")).Ok?
      && StringOrFalsy(Prop(d, "landZoning")) && StringOrFalsy(Prop(d, "landSoilStructure"))
      && StringOrFalsy(Prop(d, "landTopography")) && StringOrFalsy(Prop(d, "landPostalZipCode"))
      && StringOrFalsy(Prop(d, "landAccessibility"))
    ensures r.Ok? ==> r.value.name == env.escape(Prop(d, "landName").s)
    ensures r.Ok? ==> r.value.size == env.toNumber(Prop(d, "landSize"))
    ensures r.Ok? ==> r.value.description == env.escape(Prop(d, "landDescription").s)
  {
    var name :- Escape(env, Prop(d, "landName"));
    var description :- Escape(env, Prop(d, "landDescription"));
    var features :- EscapeList(env, Prop(d, "landFeatures"));
    var zoning :- EscapeOrEmpty(env, Prop(d, "landZoning"));
    var soilStructure :- EscapeOrEmpty(env, Prop(d, "landSoilStructure"));
    var topography :- EscapeOrEmpty(env, Prop(d, "landTopography"));
    var postalZipCode :- EscapeOrEmpty(env, Prop(d, "landPostalZipCode"));
    var accessibility :- EscapeOrEmpty(env, Prop(d, "landAccessibility"));
    Ok(LandFields(name.s, env.toNumber(Prop(d, "landSize")), description.s, features,
                  zoning, soilStructure, topography, postalZipCode, accessibility))
  }

  /** The failure processLandData meets before it writes anything, if any:
      an unreadable payload, a missing locationData, a value validator
      refuses, an empty name or description, a size that converts to 0 or
      NaN, or location data the Location resolver refuses. */
  function LandInputError(env: Env, d: Value): (e: Option<string>)
    ensures Nullish(d) ==> e == Some(CannotRead)
    ensures !Nullish(d) && !Truthy(Prop(d, "locationData")) ==> e == Some(MissingLocationData)
    ensures e.None? ==>
      && Truthy(Prop(d, "locationData"))
      && SanitizeLand(env, d).Ok?
      && Truthy(Str(SanitizeLand(env, d).value.name))
      && Truthy(SanitizeLand(env, d).value.size)
      && Truthy(Str(SanitizeLand(env, d).value.description))
      && SanitizeLocation(env, Prop(d, "locationData"), false).Ok?
    ensures !Nullish(d) && Truthy(Prop(d, "locationData")) && SanitizeLand(env, d).Ok? ==>
      var f := SanitizeLand(env, d).value;
      !(Truthy(Str(f.name)) && Truthy(f.size) && Truthy(Str(f.description))) ==>
      e == Some(LandPrefix + LandRequired)
    ensures e.Some? && e != Some(CannotRead) && e != Some(MissingLocationData) ==>
      LandPrefix <= e.value
  {
    if Nullish(d) then Some(CannotRead)
    else if !Truthy(Prop(d, "locationData")) then Some(MissingLocationData)
    else match SanitizeLand(env, d)
      case Err(m) => Some(LandPrefix + m)
      case Ok(f) =>
        if !Truthy(Str(f.name)) || !Truthy(f.size) || !Truthy(Str(f.description)) then
          Some(LandPrefix + LandRequired)
        else match SanitizeLocation(env, Prop(d, "locationData"), false)
          case Err(m) => Some(LandPrefix + LocationPrefix + m)
          case Ok(_) => None
  }

  /** The row processLandData creates. `registered` falls back to false and
      `registrationDate` to null. */
  function LandRow(env: Env, d: Value, f: LandFields, locationId: Id, code: string): (row: Row)
    ensures Matches(row, NameKey(f.name, "locationId", locationId))
    ensures Get(row, "customId") == Str(code)
    ensures !Truthy(Prop(d, "landRegistered")) ==> Get(row, "registered") == Bool(false)
    ensures !Truthy(Prop(d, "landRegistrationDate")) ==> Get(row, "registrationDate") == Null
  {
    map["name" := Str(f.name), "size" := f.size, "description" := Str(f.description),
        "features" := f.features, "zoning" := Str(f.zoning),
        "soilStructure" := Str(f.soilStructure), "topography" := Str(f.topography),
        "postalZipCode" := Str(f.postalZipCode),
        "registered" := Or(Prop(d, "landRegistered"), Bool(false)),
        "registrationDate" := (var date := Prop(d, "landRegistrationDate");
                               if Truthy(date) then env.toDate(date) else Null),
        "accessibility" := Str(f.accessibility),
        "locationId" := Ref(locationId), "customId" := Str(code)]
  }

  /** `prisma.land.findUnique({ where: { customId } })` */
  function CustomIdKey(code: string): Where {
    map["customId" := Str(code)]
  }

  /** What the `landId` branch yields against the Land table `lands`: the
      Land whose customId is the escaped `landId`; validator throws on a
      non-string, and an unknown code throws. */
  ghost predicate LookedUp(env: Env, lands: Table, landId: Value, r: Result<Resolved>) {
    && (!landId.Str? ==> r == Err(LandPrefix + NotAString))
    && (landId.Str? ==>
      var key := CustomIdKey(env.escape(landId.s));
      && (r.Ok? <==> exists k :: k in lands && Matches(lands[k], key))
      && (r.Err? ==> r == Err(LandPrefix + UnknownLand))
      && (r.Ok? ==> r.value.existed && r.value.id in lands && Matches(lands[r.value.id], key)))
  }

  /** The `landId` branch. Only the Land table is read. */
  method FindLandByCustomId(db: Db, env: Env, landId: Value) returns (r: Result<Resolved>)
    requires db.Valid()
    ensures LookedUp(env, db.tables[Land], landId, r)
  {
    if !landId.Str? {
      return Err(LandPrefix + NotAString);
    }
    var land := db.FindFirst(Land, CustomIdKey(env.escape(landId.s)));
    if land.None? {
      return Err(LandPrefix + UnknownLand);
    }
    return Ok(Resolved(land.value, true));
  }

  /** The branch without `landId`: the first Land with this name in this
      Location, or a new one under the first code of the draws that no Land
      uses. */
  method FindOrCreateLand(db: Db, env: Env, d: Value, f: LandFields, locationId: Id, draws: seq<Draw>)
    returns (r: Resolved)
    requires db.Valid()
    requires FreshWithin(db.tables[Land], draws)
    modifies db
    ensures db.Valid()
    ensures OnlyChanged(old(db.tables), db.tables, {Land})
    ensures FoundOrCreated(old(db.tables[Land]), db.tables[Land], NameKey(f.name, "locationId", locationId),
                           Stored(LandRow(env, d, f, locationId, FirstFree(old(db.tables[Land]), draws))), r)
  {
    var land := db.FindFirst(Land, NameKey(f.name, "locationId", locationId));
    if land.Some? {
      r := Resolved(land.value, true);
    } else {
      var code := GenerateSequentialId(db, draws);
      var id := db.Create(Land, LandRow(env, d, f, locationId, code));
      r := Resolved(id, false);
    }
  }

  /** The outcome of processLandData past its input checks, between the
      tables `t0` before and `t1` after: the Location step `location` found
      or created the Location of `lf`; with a truthy `landId` the Land was
      looked up by customId and the Land table left as it was; without one
      the Land was found by (name, locationId) or created under the first
      free code of the draws. Nothing outside Location and Land changed. */
  ghost predicate LandResolved(env: Env, t0: Tables, t1: Tables, d: Value, f: LandFields, lf: LocationFields,
                               draws: seq<Draw>, r: Result<Resolved>, location: Resolved)
    requires Land in t0 && Land in t1 && Location in t0 && Location in t1
    requires FreshWithin(t0[Land], draws)
  {
    && OnlyChanged(t0, t1, {Location, Land})
    && FoundOrCreated(t0[Location], t1[Location], LocationKey(lf), LocationRow(lf), location)
    && (Truthy(Prop(d, "landId")) ==> t1[Land] == t0[Land] && LookedUp(env, t0[Land], Prop(d, "landId"), r))
    && (!Truthy(Prop(d, "landId")) ==>
          r.Ok? &&
          FoundOrCreated(t0[Land], t1[Land], NameKey(f.name, "locationId", location.id),
                         Stored(LandRow(env, d, f, location.id, FirstFree(t0[Land], draws))), r.value))
  }

  /** processLandData from the Location step on, for input that passed the
      checks. */
  method ResolveLand(db: Db, env: Env, d: Value, f: LandFields, lf: LocationFields, draws: seq<Draw>)
    returns (r: Result<Resolved>, ghost location: Resolved)
    requires db.Valid()
    requires FreshWithin(db.tables[Land], draws)
    modifies db
    ensures db.Valid()
    ensures LandResolved(env, old(db.tables), db.tables, d, f, lf, draws, r, location)
  {
    var loc := FindOrCreateLocation(db, lf);
    location := loc;
    var landId := Prop(d, "landId");
    if Truthy(landId) {
      r := FindLandByCustomId(db, env, landId);
    } else {
      var land := FindOrCreateLand(db, env, d, f, loc.id, draws);
      r := Ok(land);
    }
  }

  /** `processLandData`: the input checks, then the Location step and the
      Land step of LandResolved. */
  method ProcessLandData(db: Db, env: Env, landData: Value, draws: seq<Draw>)
    returns (r: Result<Resolved>, ghost location: Resolved)
    requires db.Valid()
    requires FreshWithin(db.tables[Land], draws)
    modifies db
    ensures db.Valid()
    ensures LandInputError(env, landData).Some? ==>
      r == Err(LandInputError(env, landData).value) && db.tables == old(db.tables)
    ensures LandInputError(env, landData).None? ==>
      LandResolved(env, old(db.tables), db.tables, landData, SanitizeLand(env, landData).value,
                   SanitizeLocation(env, Prop(landData, "locationData"), false).value, draws, r, location)
  {
    var error := LandInputError(env, landData);
    if error.Some? {
      return Err(error.value), Resolved(0, false);
    }
    r, location := ResolveLand(db, env, landData, SanitizeLand(env, landData).value,
                               SanitizeLocation(env, Prop(landData, "locationData"), false).value, draws);
  }
}

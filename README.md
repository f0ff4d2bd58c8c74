# Real-estate property API — a Dafny model of its data-processing core

The system is an Express/Prisma back end for a real-estate catalogue. A
Location (country, subdivisions, coordinates) holds Lands, a Land holds
Buildings, and a Building holds Units. Products and Leases are sold on a Land,
Media is attached to a Product, and Posts (with a PostDetail) are listings
placed in a Location. This project models:

- the library routines in `api/lib`:
  - processLocationData and updateLocationData;
  - processLandData and processBuildingData;
  - generateRandomId and generateSequentialId;
  - processLeaseData and processMediaData;
- the handlers of the product (addProductLand), location, land, building,
  unit and post controllers.

Each property is stated over the database state before and after a request.

The model is organised as follows:

- `js.dfy` (`Js`) gives JavaScript values as a datatype. It covers
  truthiness, `||`, `===` (arrays, objects and dates compare by reference, so
  never equal), property reads and the `Result` of a routine that can throw.
  The string helpers `validator.escape`, `validator.toFloat(..).toString()`,
  `parseInt`, `Number()` and `new Date()` are oracles, gathered in an
  environment `Env`.
- `store.dfy` (`Store`) is the database: a class `Db` whose field `tables`
  maps each Prisma model to a table of rows, with the Prisma calls
  `findFirst`, `findMany`, `create`, `update` and `delete` as methods. A
  `create` or `update` drops the `undefined` fields, and `findFirst` returns
  the smallest matching id. The module also holds:
  - the find-or-create outcome `FoundOrCreated`;
  - the uniqueness invariant `UniqueOn`;
  - the diff-then-patch step (`DiffPatch`) that updateLocationData and
    updateBuilding both perform.
- `reply.dfy` (`Replies`) is the HTTP outcome of a handler: a status with a
  message, or an exception that no handler catches.
- The other files model the core source files one by one: one module per
  library routine or controller, plus `InlineLocation` for the
  Location-resolution block that the land, unit and building handlers repeat
  inline.

Where the source does something surprising, the model follows the source:

- updateLand resets absent optional columns to `null`.
- addUnit can leave a new Location behind when it then refuses the request.
- deleteBuilding's reference count looks only at Buildings.

The design notes of the system describe three things that the code does not
implement, and the model follows the code in each:

- They give a Product the `customId` of its Land. The code builds a
  Product's `customId` as `PROD-<landId>-<timestamp>` instead
  (`ProductController.ProductCode`).
- They describe a one-to-one Product/Land rule. Nothing in the code enforces
  it.
- They give Building and Unit codes from a scoped sequence allocator (the
  parent's code plus a three-digit number). The code has no such allocator:
  in processBuildingData a Building's code comes from
  `generateBuildingCustomId`, which is not defined, and the building and
  unit handlers assign no code at all.

## Model

| member | source | states |
|---|---|---|
| IdGenerator.CharIndex | api/lib/idGenerator.js:12 | `Math.floor(Math.random() * 62)` always picks a character of the 62-letter alphabet |
| IdGenerator.CodeOfIsLandCode | api/lib/idGenerator.js:9-19 | the code built from 6 draws has length 6 and uses only the 62 alphanumeric characters |
| IdGenerator.GenerateRandomId | api/lib/idGenerator.js:9-19 | the loop returns exactly the code of the 6 draws, which is a well-formed Land code |
| IdGenerator.FirstFree | api/lib/idGenerator.js:21-39 | the code generateSequentialId settles on is well-formed and no Land carries it as customId |
| IdGenerator.FirstFreeStep | api/lib/idGenerator.js:25-36 | one attempt: an unused code is returned, and a used one makes the search go on with the remaining draws |
| IdGenerator.AttemptStep | api/lib/idGenerator.js:25-36 | the attempt at offset i of the draws behaves as FirstFree on the remaining draws |
| IdGenerator.FoundIffTaken | api/lib/idGenerator.js:28-30 | the `findFirst({ where: { customId } })` test finds a Land exactly when the code is taken |
| IdGenerator.GenerateSequentialId | api/lib/idGenerator.js:21-39 | the loop returns FirstFree of the Land table: a well-formed code that no existing Land uses |
| LocationLib.LocationRow | api/lib/addLocation.js:47-57 | the created Location holds the seven sanitized columns as strings and carries the sanitized country and coordinates |
| LocationLib.LocationKey | api/lib/addLocation.js:33-39 | the row created for a payload always matches the lookup key built from it |
| LocationLib.Subdivision | api/lib/addLocation.js:13-22 | a subdivision is escaped when truthy; a falsy one becomes `escape("")` when adding and `""` when updating; a truthy non-string throws |
| LocationLib.SanitizeLocationSpec | api/lib/addLocation.js:12-30 | sanitizing succeeds exactly when country and coordinates are strings and each subdivision is a string or falsy; the result is the escaped and float-normalised fields |
| LocationLib.KeyIgnoresSubdivisions | api/lib/addLocation.js:34-38 | two payloads with the same country and coordinates look up the same Location whatever their subdivisions |
| LocationLib.FindOrCreateLocation | api/lib/addLocation.js:33-59 | the first Location matching (country, latitude, longitude) is reused; otherwise exactly one row is inserted; no other table changes |
| LocationLib.ProcessLocationData | api/lib/addLocation.js:6-70 | a validator error is rethrown with the "Failed to process location data: " prefix and nothing is written; otherwise find-or-create as above |
| LocationLib.ProcessLocationDataTwice | api/lib/addLocation.js:33-44 | the first call succeeds exactly when sanitization does and finds or creates the keyed Location (`t1`); the second call then returns that id marked as existing, and the Locations stay exactly `t1`; a failed first call changes nothing and the second fails the same way; only Locations ever change |
| LocationLib.LocationPatch | api/lib/updateLocationData.js:19-60 | missing country or coordinates is an error; otherwise the patch holds exactly the sanitized columns that differ from the stored row, plus `updatedAt` |
| LocationLib.LocationPatchSettles | api/lib/updateLocationData.js:46-60 | after a patch has been written, the same payload yields an empty patch |
| LocationLib.UpdateLocationData | api/lib/updateLocationData.js:6-86 | a non-empty patch is written to the existing row and returned; an empty patch writes nothing; errors are rethrown |
| LandLib.EscapeOrEmpty | api/lib/addLand.js:42-52 | an optional Land column is the escaped value, or `escape("")` when falsy; a truthy non-string throws |
| LandLib.SanitizeLand | api/lib/addLand.js:36-52 | sanitizing succeeds exactly when name and description are strings, the features escape and the optional columns are strings or falsy; the size is `Number(landSize)` |
| LandLib.LandInputError | api/lib/addLand.js:10-64 | nullish input and missing locationData are reported first; a falsy sanitized name, size or description is the prefixed required-fields error; no error means every check passed |
| Store.NameKey | api/lib/addLand.js:84-89 | the Land lookup (name, locationId) and the Building lookup (name, landId, api/lib/addBuilding.js:118-123) are keyed on exactly those two columns, neither `undefined` |
| LandLib.LandRow | api/lib/addLand.js:97-115 | the new Land matches its lookup key, carries the generated customId, and stores `registered` as `false` and `registrationDate` as `null` when those are absent |
| LandLib.FindLandByCustomId | api/lib/addLand.js:70-82 | with `landId`, the Land whose customId is the escaped code is returned; an unknown code throws, and nothing is written |
| LandLib.FindOrCreateLand | api/lib/addLand.js:84-117 | the first Land with this name in this Location is reused; otherwise one Land is created under the first free generated code |
| LandLib.ResolveLand | api/lib/addLand.js:67-118 | the Location is found or created, then the Land is looked up by code or found or created; only Location and Land change |
| LandLib.ProcessLandData | api/lib/addLand.js:7-125 | input errors throw before anything is written; otherwise the outcome is that of ResolveLand |
| BuildingLib.LandOf | api/lib/addBuilding.js:51-57 | the Land filled into a found Building's payload exists exactly when the Building's landId names a stored Land, and its id is that landId |
| BuildingLib.FindBuildingByCustomId | api/lib/addBuilding.js:39-60 | a non-string or unknown customId throws; for the first matching Building, a truthy landData yields that Building, a falsy one is filled from the Building's Land, and the Land-missing error is thrown exactly when that Building has no Land; nothing is written |
| BuildingLib.Floors | api/lib/addBuilding.js:65-73 | the number of floors is an integer or `null`: an integer as given, a string through parseInt, anything else `null` |
| BuildingLib.SanitizeBuilding | api/lib/addBuilding.js:74-95 | the sanitized floors are those of Floors, features and amenities are arrays, and validator errors throw |
| BuildingLib.FloorsRequired | api/lib/addBuilding.js:98-112 | a Building with no floors or zero floors fails the required-fields check |
| BuildingLib.BuildingRow | api/lib/addBuilding.js:133-156 | the new Building matches its lookup key and carries the supplied customId |
| BuildingLib.FindOrCreateBuilding | api/lib/addBuilding.js:118-159 | the first Building with this name on this Land is reused; otherwise one is inserted; only Building changes |
| BuildingLib.ResolveBuilding | api/lib/addBuilding.js:113-160 | the Land step behaves as processLandData on the landData, its error is rethrown with the Building prefix, and on success the Building is found or created |
| BuildingLib.ProcessBuildingData | api/lib/addBuilding.js:7-167 | missing data throws; a customId leads to the lookup of FindBuildingByCustomId, which writes nothing; validator and required-field errors throw before any write; otherwise ResolveBuilding |
| LeaseMedia.RentalPeriodError | api/lib/addLease.js:19-22 | a truthy rentalPeriod must be daily, weekly, monthly or yearly; anything else is the prefixed error |
| LeaseMedia.LeaseRow | api/lib/addLease.js:25-34 | the Lease row copies the lease columns as given, and links a Product exactly when productId is truthy |
| LeaseMedia.ProcessLeaseData | api/lib/addLease.js:4-42 | a Lease is inserted exactly when data is present, the rental period is valid and any linked Product exists; every failure leaves the tables unchanged |
| LeaseMedia.MediaRow | api/lib/addMedia.js:25-36 | each Media column holds the payload's value, or `null` when absent |
| LeaseMedia.ProcessMediaData | api/lib/addMedia.js:5-44 | missing data throws; otherwise exactly one Media row is inserted |
| ProductController.EscapeField | api/controllers/product.controller.js:48-69 | escaping one field replaces it with its escaped text and leaves every other field as it was |
| ProductController.EscapeLandDataAccepts | api/controllers/product.controller.js:48-59 | escaping landData succeeds exactly when name and description are strings, the features escape, and a present locationData has a string address |
| ProductController.EscapeLandDataYields | api/controllers/product.controller.js:48-59 | the escaped landData carries the escaped name, description and features |
| ProductController.EscapeLandDataLocation | api/controllers/product.controller.js:48-59 | the locationData address is escaped when locationData is present and left alone otherwise |
| ProductController.EscapeMediaData | api/controllers/product.controller.js:62-66 | absent mediaData passes through unchanged; present mediaData stays present |
| ProductController.EscapeMediaDataSpec | api/controllers/product.controller.js:62-66 | present mediaData is escaped exactly when URL, title and description are strings, and they are escaped |
| ProductController.CheckProduct | api/controllers/product.controller.js:14-69 | missing productData throws; the checks only ever answer 400 or throw; input that passes carries exactly the escaped landData, mediaData and leaseData |
| ProductController.CheckProductOrder | api/controllers/product.controller.js:26-69 | status is checked before category, and both before the landData and leaseData presence check, each with its own reply; after them the land, media and lease escaping run in that order, the first that throws escapes the handler, and when none throws the input passes |
| ProductController.CheckProductPasses | api/controllers/product.controller.js:26-69 | input that passes has a listed status and category and both landData and leaseData, keeps `active` and the presence of mediaData, and carries the escaped landData, mediaData and leaseData |
| ProductController.ProductCode | api/controllers/product.controller.js:78 | a Product code starts with "PROD-" |
| ProductController.ProductRow | api/controllers/product.controller.js:79-87 | the Product carries its code, the resolved Land, the checked status and category, and is active |
| ProductController.LeaseNumber | api/controllers/product.controller.js:90 | a lease number starts with "LEASE-" |
| ProductController.ProductLeaseRow | api/controllers/product.controller.js:93-104 | the Lease links the new Product, carries its number, and copies every other field from leaseData |
| ProductController.LinkMedia | api/controllers/product.controller.js:106-118 | one Media row is inserted and the Product's mediaId is set to it |
| ProductController.CreateProductAndLease | api/controllers/product.controller.js:78-104 | one Product and one Lease are inserted, the Lease pointing at the Product |
| ProductController.LinkedInsertion | api/controllers/product.controller.js:78-118 | inserting the Product and Lease and then linking Media amounts to three insertions, with the Product carrying the link |
| ProductController.CreateProductWithMedia | api/controllers/product.controller.js:78-118 | with mediaData: the Product, the Lease and the Media are inserted and linked |
| ProductController.CreateProduct | api/controllers/product.controller.js:78-118 | the Product, the Lease and, when present, the Media are inserted and linked |
| ProductController.AddProductLand | api/controllers/product.controller.js:13-132 | check failures write nothing; the Land step is processLandData's; a Land error is answered with the 500 carrying its message that the catch block intends (as written that block throws first, see Left out); otherwise the Product, Lease and Media rows are inserted |
| InlineLocation.LocationData | api/controllers/land.controller.js:97-110 | the inline `create` writes the payload's seven columns, with a falsy subdivision as `null` |
| InlineLocation.LocationTuple | api/controllers/location.controller.js:78-92 | the seven Location columns of a payload, as given |
| InlineLocation.SubdivisionsDefaultToNull | api/controllers/land.controller.js:97-110 | a missing subdivision is stored as `null` |
| InlineLocation.CountryKey | api/controllers/land.controller.js:91-95 | the land and unit handlers look a Location up by country alone |
| InlineLocation.CoordinatesKey | api/controllers/building.controller.js:161-167 | addBuilding looks a Location up by country, latitude and longitude |
| InlineLocation.InlineKeysMatch | api/controllers/land.controller.js:83-110 | the created row matches both lookup keys |
| InlineLocation.FindOrCreateInline | api/controllers/land.controller.js:91-110 | the first Location matching the key is reused, otherwise exactly one is created |
| InlineLocation.CountryStaysUnique | api/controllers/land.controller.js:91-110 | the country-keyed block never adds a second Location for a country |
| InlineLocation.CountryReuseIgnoresCoordinates | api/controllers/land.controller.js:91-95 | any Location of the same country is reused whatever its coordinates |
| InlineLocation.FinalLocationId | api/controllers/land.controller.js:68-114 | a truthy locationId is used as given; missing country or coordinates is a 400; otherwise the Location is found or created |
| LocationController.LocationFilter | api/controllers/location.controller.js:9-16 | the getLocations filter names exactly the four columns stateRegion, country, ward and districtCounty, each taken from the query when truthy |
| LocationController.LocationFilterSpec | api/controllers/location.controller.js:9-16 | a row passes the filter exactly when it equals every truthy query field |
| LocationController.GetLocations | api/controllers/location.controller.js:5-23 | the reply lists exactly the Locations that pass the filter, in ascending id order (the model's choice for an unordered `findMany`) |
| LocationController.LocationDataIsTuple | api/controllers/location.controller.js:95-106 | with every column present, the created row is the payload's seven columns, which match themselves |
| LocationController.AddLocation | api/controllers/location.controller.js:49-111 | missing columns are a 400; an exact duplicate is a 400; otherwise one row is inserted; uniqueness on all seven columns is kept |
| LocationController.UpdateLocation | api/controllers/location.controller.js:113-170 | missing columns are a 400; an unknown id is a 404; otherwise the row's seven columns are overwritten |
| LocationController.UpdateOverwrites | api/controllers/location.controller.js:152-163 | after the update, the seven columns are the payload's and every other column is unchanged |
| LocationController.DeleteLocation | api/controllers/location.controller.js:171-194 | an unknown id is a 404; otherwise exactly that row is removed |
| LandController.LandData | api/controllers/land.controller.js:117-135 | the Land `data`: name, size and description as given, features defaulting to `[]`, optional columns to `null`, and the Location link |
| LandController.LandDataOverwrites | api/controllers/land.controller.js:218-239 | updateLand resets an absent optional column to `null` and absent features to `[]`, and leaves other columns alone |
| LandController.AddLand | api/controllers/land.controller.js:42-142 | the required fields come first; then the Location block keyed on country; then a new Land always, unless the Location does not exist (500); country uniqueness is kept |
| LandController.UpdateLand | api/controllers/land.controller.js:143-246 | the same checks and Location block, then the Land row is overwritten; an unknown Land or Location is a 500 |
| LandController.DeleteLand | api/controllers/land.controller.js:247-271 | an unknown Land is a 500; otherwise only the Land row is removed and its Location stays |
| UnitController.UnitLandData | api/controllers/unit.controller.js:120-138 | the Land created by addUnit links the Location and carries the prefixed name, with features defaulting to `[]` |
| UnitController.FinalLandId | api/controllers/unit.controller.js:96-142 | a truthy landId is used; missing Land names are a 400; an unknown Location is a 500; otherwise one Land is inserted |
| UnitController.UnitBuildingData | api/controllers/unit.controller.js:182-214 | the Building created by addUnit links the Land and carries the prefixed name, with amenities defaulting to `[]` |
| UnitController.FinalBuildingId | api/controllers/unit.controller.js:145-218 | a truthy buildingId is used; missing Building fields are a 400; an unknown Land is a 500; otherwise one Building is inserted |
| UnitController.UnitData | api/controllers/unit.controller.js:221-250 | the Unit links its Building and carries numberOfUnit, with features defaulting to `[]` |
| UnitController.CreateUnit | api/controllers/unit.controller.js:221-250 | an unknown Building is a 500; otherwise one Unit is inserted |
| UnitController.UnitFromLand | api/controllers/unit.controller.js:145-250 | the Building step then the Unit step, stopping at the first failure |
| UnitController.UnitFromLocation | api/controllers/unit.controller.js:96-250 | the Land, Building and Unit steps, stopping at the first failure |
| UnitController.AddUnit | api/controllers/unit.controller.js:10-257 | the required fields, then the Location block keyed on country, then the Land, Building and Unit steps; each failure stops there and keeps the earlier writes |
| UnitController.RefusedAfterWriting | api/controllers/unit.controller.js:76-138 | a request whose Land names are missing is refused with a 400 after a new Location has already been created, and that Location stays |
| BuildingController.NewLandData | api/controllers/building.controller.js:215-230 | the Land created by addBuilding links the Location, carries the prefixed name, and stores `registered` as `null` when absent |
| BuildingController.NewBuildingData | api/controllers/building.controller.js:237-258 | the Building links the Land and carries the given name |
| BuildingController.AddBuildingInputError | api/controllers/building.controller.js:110-132 | the request passes exactly when locationData carries country and coordinates and landData carries the three Land names; otherwise it throws or gets one of two 400s |
| BuildingController.FinalLandId | api/controllers/building.controller.js:189-234 | a truthy landId is used as given; otherwise one Land is inserted |
| BuildingController.AddBuilding | api/controllers/building.controller.js:85-273 | input errors write nothing; then the Location block keyed on country and coordinates, the Land step and one new Building, each touching only its own table |
| BuildingController.LandIncoming | api/controllers/building.controller.js:379-397 | the Land columns updateBuilding compares, each read from its prefixed landData field |
| BuildingController.BuildingIncoming | api/controllers/building.controller.js:409-439 | the Building columns updateBuilding compares, read from the body |
| BuildingController.Lineage | api/controllers/building.controller.js:335-351 | the Building's Land and that Land's Location are found exactly when both exist |
| BuildingController.PatchedTable | api/controllers/building.controller.js:370-376 | an empty patch leaves the table alone; a non-empty one is written to the row |
| BuildingController.WriteIfChanged | api/controllers/building.controller.js:370-376 | a row is written only when its patch is non-empty |
| BuildingController.WritesCompose | api/controllers/building.controller.js:354-462 | the Location, Land and Building writes in a row amount to the three patches applied together, and nothing else changes |
| BuildingController.WriteThreePatches | api/controllers/building.controller.js:354-462 | the three writes, in order, give exactly the three patched rows |
| BuildingController.UpdateBuildingError | api/controllers/building.controller.js:302-351 | no error means the fields are present and the Building, its Land and its Location exist; an unknown Building is a 404; a missing Land or Location is a 500 |
| BuildingController.UpdateBuilding | api/controllers/building.controller.js:274-469 | an error writes nothing; otherwise each of the Location, Land and Building rows receives exactly its changed columns plus `updatedAt` |
| BuildingController.ArraysAlwaysWritten | api/controllers/building.controller.js:386-425 | Land features and Building amenities are arrays, so they never compare `===` and are written on every update |
| BuildingController.BuildingPatchWritten | api/controllers/building.controller.js:409-462 | after the update every given Building column holds the given value and every other column except `updatedAt` is unchanged |
| BuildingController.CountOnLocation | api/controllers/building.controller.js:503-509 | the count is zero exactly when no Building stands on a Land in the Location |
| BuildingController.DeleteBuilding | api/controllers/building.controller.js:471-524 | an unknown Building is a 404; otherwise the Building and its Land go, and the Location goes exactly when no remaining Building stands on a Land in it |
| BuildingController.SharedLocation | api/controllers/building.controller.js:503-514 | a database in which two Lands share one Location and only one of them has a Building |
| BuildingController.SharedLocationLinked | api/controllers/building.controller.js:503-514 | in that database every Land and Post points at a stored Location |
| BuildingController.StrandedAfter | api/controllers/building.controller.js:503-514 | after deleteBuilding on it, the other Land points at a deleted Location |
| BuildingController.DeleteBuildingStrandsLand | api/controllers/building.controller.js:503-514 | deleteBuilding as written can break the Land-to-Location references it started with |
| BuildingController.CountReferences | api/controllers/building.controller.js:502-509 | the corrected count is zero exactly when no Land or Post refers to the Location |
| BuildingController.StillLinked | api/controllers/building.controller.js:502-514 | removing a Location that nothing refers to keeps every Land and Post reference valid |
| BuildingController.DeleteBuildingKeepingReferenced | api/controllers/building.controller.js:471-524 | the corrected delete: an unknown Building is a 404 with nothing deleted; otherwise the Building and its Land go, and the Location goes exactly when no remaining Land or Post names it; every Land and Post that pointed at a stored Location still does |
| PostController.QueryInt | api/controllers/post.controller.js:8-20 | a parsed query number is an integer or NaN |
| PostController.PostFilterOf | api/controllers/post.controller.js:8-20 | a price or bedroom filter is set exactly when its query field is truthy; city is passed as given |
| PostController.GetPosts | api/controllers/post.controller.js:4-35 | a NaN filter is a 500; otherwise the reply lists exactly the matching Posts, in ascending id order (the model's choice for an unordered `findMany`) |
| PostController.PriceRangeInclusive | api/controllers/post.controller.js:16-19 | the price range includes both ends, and with no filter every Post matches |
| PostController.PostLocationKey | api/controllers/post.controller.js:128-134 | addPost looks a Location up by name, address and city, and not by country |
| PostController.PostLocationData | api/controllers/post.controller.js:138-152 | the created Location carries name, address, city and country as given, and `null` for each falsy optional column |
| PostController.PostLocationMatchesKey | api/controllers/post.controller.js:128-152 | the created Location matches its lookup key |
| PostController.FinalPostLocation | api/controllers/post.controller.js:117-159 | a truthy locationId is used; otherwise incomplete or missing locationData is a 400; otherwise the Location is found or created |
| PostController.PostLocationIgnoresCountry | api/controllers/post.controller.js:128-153 | any Location with the same name, address and city is reused, whatever its country |
| PostController.PostLocationStaysUnique | api/controllers/post.controller.js:128-153 | uniqueness on (name, address, city) is kept |
| PostController.PostData | api/controllers/post.controller.js:162-180 | the Post carries the seven listing fields, the user and the Location |
| PostController.CreatePost | api/controllers/post.controller.js:162-180 | the Post and its nested PostDetail are inserted, or nothing when a `connect` target is missing |
| PostController.AddPost | api/controllers/post.controller.js:84-188 | missing postData is a 500; missing listing fields are a 400; then the Location step, then the Post creation |
| PostController.DeletePost | api/controllers/post.controller.js:199-234 | an unknown Post is a 404; another user's Post is a 403; otherwise the Post and its detail are removed and nothing else |
| PostController.OnlyDetailGone | api/controllers/post.controller.js:218-227 | with one detail per Post, no detail of the deleted Post remains |
| Store.DiffPatch | api/lib/updateLocationData.js:46-71 | the patch is empty exactly when every incoming column is `===` the stored one; otherwise it holds the differing columns and `updatedAt` |
| Store.DiffPatchWritten | api/lib/updateLocationData.js:46-77 | after writing the patch, every given column holds the given value and every other column except `updatedAt` is unchanged |
| Store.DiffPatchSettles | api/lib/updateLocationData.js:46-60 | diffing against the written row yields the empty patch |
| Store.FoundOrCreatedTwice | api/lib/addLocation.js:33-59 | a second find-or-create with the same key and row reuses the first row and writes nothing |
| Store.FoundOrCreatedKeepsUnique | api/lib/addLocation.js:33-59 | find-or-create keeps a table unique on its lookup key |

## Left out

- HTTP plumbing, routing and the UI are not modelled. A handler's reply is its status and message, or an exception that no handler catches. Read-backs through `include` are left out, so replies carry ids.
- Authentication is not modelled. The JWT check, the getPost JWT callback and getPost itself are out of scope; the authenticated user id is a parameter of AddPost and DeletePost.
- getBuildings, getBuildingById and the handlers with empty bodies are not modelled. They hold no logic beyond a read.
- Transactions are not modelled: `prisma.$transaction`, its rollback, and concurrent requests. Every step runs in sequence against one database, so a failure after a write keeps the write.
- Prisma schema checks are left out: types, required columns and unique constraints. The one exception is a `connect` to a missing row, which fails. A scalar foreign key is stored unchecked.
- Referential actions on delete (cascades or refusals) are left out. A delete removes just the rows the handler names.
- `validator.escape`, `validator.toFloat(..).toString()`, `parseInt`, `Number()` and `new Date()` are uninterpreted functions in `Js.Env`.
- `Math.random()` is a supplied sequence of draws, and `Date.now()` is a supplied number (`productTime`, `leaseTime`, `times`).
- Logging (`logger`, `console.log`) is left out.
- ProductController.AddProductLand: answers a Land error with the 500 that the catch block at api/controllers/product.controller.js:125-131 evidently intends. As written, that block first calls `tx.$rollback()` and then `logger.error`, and `logger` is never imported (lines 1-4), so the catch block itself throws and the rejection escapes the handler before the 500 is sent. The model does not capture that escape.
- LocationController.GetLocations and PostController.GetPosts: list rows in ascending id order. `findMany` without `orderBy` leaves the order unspecified; ascending ids are this model's choice.
- Exception messages raised by JavaScript itself, not by the code, are stand-ins: `CannotRead`, `NotAString` and `RecordNotFound`.
- generateBuildingCustomId is imported by api/lib/addBuilding.js but not defined in api/lib/idGenerator.js. Its result is the parameter `code`.
- IdGenerator.GenerateSequentialId: requires that some attempt within the supplied draws yields an unused code, because the source loop has no bound and a run that never finds one does not return.
- LandLib.FindOrCreateLand, LandLib.ResolveLand, LandLib.ProcessLandData, BuildingLib.ResolveBuilding, BuildingLib.ProcessBuildingData and ProductController.AddProductLand: carry the same requirement on the supplied draws, because they may reach GenerateSequentialId. It is demanded even on paths that draw nothing (a lookup by landId or customId, or reuse of an existing Land), so those paths are covered only when such draws are supplied.
- PostController.QueryInt: a query parameter given as an array is read as NaN, which leaves out the coercion of arrays by parseInt.
- PostController.GetPosts: assumes Prisma throws on a NaN filter, so the reply is a 500.
- PostController.CreatePost: assumes a `postDetail.create` value that is neither `undefined` nor an object fails the create.

## Findings

| source | as written | input that shows it | evidently intended | confidence | as-written member | corrected member |
|---|---|---|---|---|---|---|
| api/controllers/building.controller.js:503-514 | the Location is deleted when no Building stands on a Land in it; other Lands and Posts that point at it are ignored (with no referential action on delete; a restricting foreign key would instead make the Location delete fail with a 500 after the Building and Land are gone) | Location 0; Lands 1 and 2 both in Location 0; Building 3 on Land 1 only; delete Building 3: Land 1 and Location 0 go, and Land 2 points at a deleted Location | delete the Location only when nothing refers to it any more (the comment at line 502) | not executed | BuildingController.DeleteBuildingStrandsLand | BuildingController.DeleteBuildingKeepingReferenced |


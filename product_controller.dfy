/** `addProductLand` (api/controllers/product.controller.js): check status
    and category against their closed lists, escape free text in the payload
    in place, resolve the Land, then create the Product, its Lease and, when
    media data is present, the Media the Product then points to. */
module ProductController {
  import opened Js
  import opened Store
  import opened IdGenerator
  import opened LocationLib
  import opened LandLib
  import opened Replies

  const Statuses := ["forRent", "forSale", "both"]
  const Categories := ["agricultural", "vacantLand", "openSpaceRecreational"]
  const InvalidStatus := "Invalid status value."
  const InvalidCategory := "Invalid category value."
  const MissingProductFields := "Missing required fields: landData and leaseData are required."
  const ProductFailed := "Failed to add product and land: "

  /** An exception a handler does not catch. */
  function Throws<T>(r: Result<T>): (reply: Reply<T>)
    ensures r.Ok? ==> reply == Done(r.value)
    ensures r.Err? ==> reply == Unhandled(r.message)
  {
    match r
    case Ok(v) => Done(v)
    case Err(m) => Unhandled(m)
  }

  /** `validator.isIn(v, options)`: throws on a non-string. */
  function IsIn(v: Value, options: seq<string>): (r: Result<bool>)
    ensures r.Ok? <==> v.Str?
    ensures r.Ok? ==> (r.value <==> v.s in options)
  {
    if v.Str? then Ok(v.s in options) else Err(NotAString)
  }

  /** `obj.name = validator.escape(obj.name)`: throws unless the property
      holds a string. */
  function EscapeField(env: Env, obj: Value, name: string): (r: Result<Value>)
    ensures r.Ok? <==> Prop(obj, name).Str?
    ensures r.Err? ==> r.message == NotAString
    ensures r.Ok? ==> r.value.Obj? && Prop(r.value, name) == Str(env.escape(Prop(obj, name).s))
    ensures r.Ok? ==> forall c :: c != name ==> Prop(r.value, c) == Prop(obj, c)
  {
    var escaped :- Escape(env, Prop(obj, name));
    Ok(SetProp(obj, name, escaped))
  }

  /** The checked request: status and category as given, and the three
      payloads after their in-place escaping. */
  datatype ProductInput = ProductInput(
    status: string, category: string, active: Value,
    landData: Value, mediaData: Value, leaseData: Value)

  /** The land payload after the escaping block: name and description
      escaped, the features list escaped (or emptied), and a present
      location's address escaped. */
  function EscapeLandData(env: Env, landData: Value): (r: Result<Value>)
    ensures r.Err? ==> r.message == NotAString
    ensures r.Ok? ==> r.value.Obj?
  {
    var name :- Escape(env, Prop(landData, "landName"));
    var description :- Escape(env, Prop(landData, "landDescription"));
    var features :- EscapeList(env, Prop(landData, "landFeatures"));
    var location := Prop(landData, "locationData");
    var located :- if Truthy(location) then EscapeField(env, location, "address") else Ok(location);
    Ok(Obj(landData.fields["landName" := name]["landDescription" := description]
                          ["landFeatures" := features]["locationData" := located]))
  }

  /** When the land escaping throws: a name, description or feature that
      is not a string, or a present location without a string address. */
  lemma EscapeLandDataAccepts(env: Env, landData: Value)
    ensures EscapeLandData(env, landData).Ok? <==>
      && Prop(landData, "landName").Str? && Prop(landData, "landDescription").Str?
      && EscapeList(env, Prop(landData, "landFeatures")).Ok?
      && (Truthy(Prop(landData, "locationData")) ==> Prop(Prop(landData, "locationData"), "address").Str?)
  {
  }

  /** What the land escaping yields: the three escaped land fields. */
  lemma EscapeLandDataYields(env: Env, landData: Value)
    requires EscapeLandData(env, landData).Ok?
    ensures var escaped := EscapeLandData(env, landData).value;
      && Prop(escaped, "landName") == Str(env.escape(Prop(landData, "landName").s))
      && Prop(escaped, "landDescription") == Str(env.escape(Prop(landData, "landDescription").s))
      && Prop(escaped, "landFeatures") == EscapeList(env, Prop(landData, "landFeatures")).value
  {
  }

  /** What the land escaping yields: the location with its address
      escaped, when there is one. */
  lemma EscapeLandDataLocation(env: Env, landData: Value)
    requires EscapeLandData(env, landData).Ok?
    ensures var escaped := EscapeLandData(env, landData).value;
      var location := Prop(landData, "locationData");
      && (!Truthy(location) ==> Prop(escaped, "locationData") == location)
      && (Truthy(location) ==>
            Prop(Prop(escaped, "locationData"), "address") == Str(env.escape(Prop(location, "address").s)))
  {
  }

  /** The media payload after the escaping block: the image URL, title and
      description escaped when media data is present. */
  function EscapeMediaData(env: Env, mediaData: Value): (r: Result<Value>)
    ensures r.Err? ==> r.message == NotAString
    ensures !Truthy(mediaData) ==> r == Ok(mediaData)
    ensures r.Ok? ==> (Truthy(r.value) <==> Truthy(mediaData))
  {
    if !Truthy(mediaData) then Ok(mediaData)
    else
      var url :- EscapeField(env, mediaData, "imageUrl");
      var titled :- EscapeField(env, url, "imageTitle");
      EscapeField(env, titled, "imageDescription")
  }

  /** What the media escaping demands and yields for present media data. */
  lemma EscapeMediaDataSpec(env: Env, mediaData: Value)
    requires Truthy(mediaData)
    ensures var r := EscapeMediaData(env, mediaData);
      && (r.Ok? <==>
            Prop(mediaData, "imageUrl").Str? && Prop(mediaData, "imageTitle").Str? &&
            Prop(mediaData, "imageDescription").Str?)
      && (r.Ok? ==>
            && Prop(r.value, "imageUrl") == Str(env.escape(Prop(mediaData, "imageUrl").s))
            && Prop(r.value, "imageTitle") == Str(env.escape(Prop(mediaData, "imageTitle").s))
            && Prop(r.value, "imageDescription") == Str(env.escape(Prop(mediaData, "imageDescription").s)))
  {
  }

  /** Everything addProductLand does before it writes: reading
      `req.body.productData`, the two list checks (validator throws on a
      non-string), the presence check and the in-place escaping, whose
      failures escape the handler. */
  function CheckProduct(env: Env, body: Value): (r: Reply<ProductInput>)
    ensures Nullish(Prop(body, "productData")) ==> r == Unhandled(CannotRead)
    ensures !r.NotFound? && !r.Forbidden? && !r.ServerError?
    ensures r.Done? ==> var data := Prop(body, "productData");
      && EscapeLandData(env, Prop(data, "landData")) == Ok(r.value.landData)
      && EscapeMediaData(env, Prop(data, "mediaData")) == Ok(r.value.mediaData)
      && EscapeField(env, Prop(data, "leaseData"), "termsAndConditions") == Ok(r.value.leaseData)
  {
    var data := Prop(body, "productData");
    if Nullish(data) then Unhandled(CannotRead)
    else
      var statusOk :- Throws(IsIn(Prop(data, "status"), Statuses));
      if !statusOk then BadRequest(InvalidStatus)
      else
        var categoryOk :- Throws(IsIn(Prop(data, "category"), Categories));
        if !categoryOk then BadRequest(InvalidCategory)
        else if !Truthy(Prop(data, "landData")) || !Truthy(Prop(data, "leaseData")) then
          BadRequest(MissingProductFields)
        else
          var landData :- Throws(EscapeLandData(env, Prop(data, "landData")));
          var mediaData :- Throws(EscapeMediaData(env, Prop(data, "mediaData")));
          var leaseData :- Throws(EscapeField(env, Prop(data, "leaseData"), "termsAndConditions"));
          Done(ProductInput(Prop(data, "status").s, Prop(data, "category").s, Prop(data, "active"),
                            landData, mediaData, leaseData))
  }

  /** Whether the request passes the status, category and presence checks. */
  predicate Listed(data: Value) {
    && Prop(data, "status").Str? && Prop(data, "status").s in Statuses
    && Prop(data, "category").Str? && Prop(data, "category").s in Categories
    && Truthy(Prop(data, "landData")) && Truthy(Prop(data, "leaseData"))
  }

  /** The order of the checks: a status outside the list is refused first,
      then a category outside its list, then a missing land or lease
      payload; validator throws on a status or category that is not a
      string. After them the land, media and lease escaping run in that
      order, and the first of them that throws escapes the handler. */
  lemma CheckProductOrder(env: Env, body: Value)
    requires !Nullish(Prop(body, "productData"))
    ensures var data := Prop(body, "productData");
      var r := CheckProduct(env, body);
      var status := Prop(data, "status");
      var category := Prop(data, "category");
      && (!status.Str? ==> r == Unhandled(NotAString))
      && (status.Str? && status.s !in Statuses ==> r == BadRequest(InvalidStatus))
      && (status.Str? && status.s in Statuses && !category.Str? ==> r == Unhandled(NotAString))
      && (status.Str? && status.s in Statuses && category.Str? && category.s !in Categories ==>
            r == BadRequest(InvalidCategory))
      && (status.Str? && status.s in Statuses && category.Str? && category.s in Categories &&
          !(Truthy(Prop(data, "landData")) && Truthy(Prop(data, "leaseData"))) ==>
            r == BadRequest(MissingProductFields))
    ensures var data := Prop(body, "productData");
      var r := CheckProduct(env, body);
      var land := EscapeLandData(env, Prop(data, "landData"));
      var media := EscapeMediaData(env, Prop(data, "mediaData"));
      var lease := EscapeField(env, Prop(data, "leaseData"), "termsAndConditions");
      && (Listed(data) && land.Err? ==> r == Unhandled(NotAString))
      && (Listed(data) && land.Ok? && media.Err? ==> r == Unhandled(NotAString))
      && (Listed(data) && land.Ok? && media.Ok? && lease.Err? ==> r == Unhandled(NotAString))
      && (Listed(data) && land.Ok? && media.Ok? && lease.Ok? ==> r.Done?)
  {
  }

  /** A request that passes the checks carries a listed status and
      category and both payloads, and has media exactly when it sent some. */
  lemma CheckProductPasses(env: Env, body: Value)
    requires CheckProduct(env, body).Done?
    ensures var data := Prop(body, "productData");
      var input := CheckProduct(env, body).value;
      && Prop(data, "status") == Str(input.status) && input.status in Statuses
      && Prop(data, "category") == Str(input.category) && input.category in Categories
      && Truthy(input.landData) && Truthy(input.leaseData)
      && input.active == Prop(data, "active")
      && (Truthy(input.mediaData) <==> Truthy(Prop(data, "mediaData")))
      && EscapeLandData(env, Prop(data, "landData")) == Ok(input.landData)
      && EscapeMediaData(env, Prop(data, "mediaData")) == Ok(input.mediaData)
      && EscapeField(env, Prop(data, "leaseData"), "termsAndConditions") == Ok(input.leaseData)
  {
    var data := Prop(body, "productData");
    var landData := EscapeLandData(env, Prop(data, "landData"));
    var mediaData := EscapeMediaData(env, Prop(data, "mediaData"));
    var leaseData := EscapeField(env, Prop(data, "leaseData"), "termsAndConditions");
    assert landData.Ok? && mediaData.Ok? && leaseData.Ok?;
    assert CheckProduct(env, body) ==
      Done(ProductInput(Prop(data, "status").s, Prop(data, "category").s, Prop(data, "active"),
                        landData.value, mediaData.value, leaseData.value));
  }

  /** `PROD-${finalLandId}-${Date.now()}` */
  function ProductCode(landId: Id, now: nat): (code: string)
    ensures |code| >= 8 && code[..5] == "PROD-"
  {
    "PROD-" + Decimal(landId) + "-" + Decimal(now)
  }

  /** The Product row: the code, the checked status and category, the
      resolved Land, and `active || true`, which is always truthy. */
  function ProductRow(input: ProductInput, landId: Id, code: string): (row: Row)
    ensures Get(row, "customId") == Str(code)
    ensures Get(row, "landId") == Ref(landId)
    ensures Get(row, "status") == Str(input.status) && Get(row, "category") == Str(input.category)
    ensures Truthy(Get(row, "active"))
  {
    map["customId" := Str(code), "status" := Str(input.status),
        "category" := Str(input.category), "landId" := Ref(landId),
        "active" := Or(input.active, Bool(true))]
  }

  /** `LEASE-${Date.now()}` */
  function LeaseNumber(now: nat): (number: string)
    ensures |number| >= 7 && number[..6] == "LEASE-"
  {
    "LEASE-" + Decimal(now)
  }

  /** The data of the Lease create: linked to the new Product, numbered
      `number`, with the payload's other fields (its terms already
      escaped). */
  function ProductLeaseRow(leaseData: Value, productId: Id, number: string): (data: map<string, Value>)
    ensures "productId" in data && data["productId"] == Ref(productId)
    ensures "leaseNumber" in data && data["leaseNumber"] == Str(number)
    ensures forall c :: c in data && c !in {"productId", "leaseNumber"} ==> data[c] == Prop(leaseData, c)
  {
    map["productId" := Ref(productId), "leaseNumber" := Str(number),
        "price" := Prop(leaseData, "price"), "rentalPeriod" := Prop(leaseData, "rentalPeriod"),
        "discountPrice" := Prop(leaseData, "discountPrice"),
        "discountDuration" := Prop(leaseData, "discountDuration"),
        "status" := Prop(leaseData, "status"),
        "termsAndConditions" := Prop(leaseData, "termsAndConditions")]
  }

  /** `tx.media.create({ data: mediaData })`: the payload's own fields. */
  function MediaFields(mediaData: Value): map<string, Value> {
    if mediaData.Obj? then mediaData.fields else map[]
  }

  /** The ids addProductLand answers with. */
  datatype ProductCreated = ProductCreated(product: Id, lease: Id, media: Option<Id>)

  /** The writes after the Land step, between the tables `t1` and `t2`: one
      Product, one Lease pointing to it and, exactly when media data is
      present, one Media the Product points to. */
  ghost predicate ProductInserted(t1: Tables, t2: Tables, input: ProductInput, landId: Id,
                                  productCode: string, leaseNumber: string, created: ProductCreated)
    requires Product in t1 && Lease in t1 && Media in t1 && Product in t2 && Lease in t2 && Media in t2
  {
    var row := ProductRow(input, landId, productCode);
    && OnlyChanged(t1, t2, {Product, Lease, Media})
    && Inserted(t1[Lease], t2[Lease], created.lease, Stored(ProductLeaseRow(input.leaseData, created.product, leaseNumber)))
    && (created.media.Some? <==> Truthy(input.mediaData))
    && (created.media.None? ==> Inserted(t1[Product], t2[Product], created.product, row) && t2[Media] == t1[Media])
    && (created.media.Some? ==>
          && Inserted(t1[Product], t2[Product], created.product, Patched(row, map["mediaId" := Ref(created.media.value)]))
          && Inserted(t1[Media], t2[Media], created.media.value, Stored(MediaFields(input.mediaData))))
  }

  /** Step 5: the Media row, and the Product `product` pointing to it. */
  method LinkMedia(db: Db, product: Id, mediaData: Value) returns (media: Id)
    requires db.Valid() && product in db.tables[Product]
    modifies db
    ensures db.Valid()
    ensures OnlyChanged(old(db.tables), db.tables, {Media, Product})
    ensures Inserted(old(db.tables[Media]), db.tables[Media], media, Stored(MediaFields(mediaData)))
    ensures db.tables[Product] ==
      old(db.tables[Product])[product := Patched(old(db.tables[Product][product]), map["mediaId" := Ref(media)])]
  {
    media := db.Create(Media, MediaFields(mediaData));
    var ok := db.Update(Product, product, map["mediaId" := Ref(media)]);
  }

  /** Steps 2 to 4: the Product and the Lease pointing to it. */
  method CreateProductAndLease(db: Db, input: ProductInput, landId: Id, productCode: string, leaseNumber: string)
    returns (product: Id, lease: Id)
    requires db.Valid()
    modifies db
    ensures db.Valid()
    ensures OnlyChanged(old(db.tables), db.tables, {Product, Lease})
    ensures Inserted(old(db.tables[Product]), db.tables[Product], product, ProductRow(input, landId, productCode))
    ensures Inserted(old(db.tables[Lease]), db.tables[Lease], lease, Stored(ProductLeaseRow(input.leaseData, product, leaseNumber)))
  {
    var row := ProductRow(input, landId, productCode);
    StoredOfDefined(row);
    product := db.Create(Product, row);
    lease := db.Create(Lease, ProductLeaseRow(input.leaseData, product, leaseNumber));
  }

  /** The two write steps with media, composed: the Product inserted by the
      first step and patched by the second counts as inserted patched. */
  lemma LinkedInsertion(t0: Tables, t1: Tables, t2: Tables, product: Id, lease: Id, media: Id,
                        row: Row, leaseRow: Row, mediaRow: Row, link: map<string, Value>)
    requires Product in t0 && Lease in t0 && Media in t0
    requires OnlyChanged(t0, t1, {Product, Lease}) && OnlyChanged(t1, t2, {Media, Product})
    requires Inserted(t0[Product], t1[Product], product, row)
    requires Inserted(t0[Lease], t1[Lease], lease, leaseRow)
    requires Inserted(t1[Media], t2[Media], media, mediaRow)
    requires t2[Product] == t1[Product][product := Patched(t1[Product][product], link)]
    ensures OnlyChanged(t0, t2, {Product, Lease, Media})
    ensures Inserted(t0[Product], t2[Product], product, Patched(row, link))
    ensures Inserted(t0[Lease], t2[Lease], lease, leaseRow)
    ensures Inserted(t0[Media], t2[Media], media, mediaRow)
  {
    InsertedThenPatched(t0[Product], t1[Product], t2[Product], product, row, link);
  }

  /** The write steps without media: Product and Lease inserted, Media
      untouched. */
  lemma PlainInsertion(t0: Tables, t1: Tables, product: Id, lease: Id, row: Row, leaseRow: Row)
    requires Product in t0 && Lease in t0 && Media in t0
    requires OnlyChanged(t0, t1, {Product, Lease})
    requires Inserted(t0[Product], t1[Product], product, row)
    requires Inserted(t0[Lease], t1[Lease], lease, leaseRow)
    ensures OnlyChanged(t0, t1, {Product, Lease, Media}) && t1[Media] == t0[Media]
  {
  }

  /** Steps 2 to 5 when media data is present. */
  method CreateProductWithMedia(db: Db, input: ProductInput, landId: Id, productCode: string, leaseNumber: string)
    returns (created: ProductCreated)
    requires db.Valid() && Truthy(input.mediaData)
    modifies db
    ensures db.Valid()
    ensures ProductInserted(old(db.tables), db.tables, input, landId, productCode, leaseNumber, created)
  {
    var product, lease := CreateProductAndLease(db, input, landId, productCode, leaseNumber);
    ghost var middle := db.tables;
    var media := LinkMedia(db, product, input.mediaData);
    LinkedInsertion(old(db.tables), middle, db.tables, product, lease, media,
                    ProductRow(input, landId, productCode), Stored(ProductLeaseRow(input.leaseData, product, leaseNumber)),
                    Stored(MediaFields(input.mediaData)), map["mediaId" := Ref(media)]);
    created := ProductCreated(product, lease, Some(media));
  }

  /** Steps 2 to 5 of addProductLand, for a resolved Land. */
  method CreateProduct(db: Db, input: ProductInput, landId: Id, productCode: string, leaseNumber: string)
    returns (created: ProductCreated)
    requires db.Valid()
    modifies db
    ensures db.Valid()
    ensures ProductInserted(old(db.tables), db.tables, input, landId, productCode, leaseNumber, created)
  {
    if Truthy(input.mediaData) {
      created := CreateProductWithMedia(db, input, landId, productCode, leaseNumber);
    } else {
      var product, lease := CreateProductAndLease(db, input, landId, productCode, leaseNumber);
      PlainInsertion(old(db.tables), db.tables, product, lease, ProductRow(input, landId, productCode),
                     Stored(ProductLeaseRow(input.leaseData, product, leaseNumber)));
      created := ProductCreated(product, lease, None);
    }
  }

  /** `addProductLand`. The checks reply before anything is written; the
      Land step behaves as processLandData on the escaped land payload, and
      its failure becomes a 500 with the handler's prefix; otherwise the
      Product, Lease and optional Media are created. `draws` are the values
      `Math.random()` returns, `productTime` and `leaseTime` the two
      `Date.now()` readings. */
  method AddProductLand(db: Db, env: Env, body: Value, draws: seq<Draw>, productTime: nat, leaseTime: nat)
    returns (reply: Reply<ProductCreated>, ghost t1: Tables, ghost land: Result<Resolved>, ghost location: Resolved)
    requires db.Valid()
    requires FreshWithin(db.tables[Land], draws)
    modifies db
    ensures db.Valid()
    ensures !CheckProduct(env, body).Done? ==>
      reply == CheckProduct(env, body).PropagateFailure() && db.tables == old(db.tables)
    ensures CheckProduct(env, body).Done? ==>
      var input := CheckProduct(env, body).value;
      && (forall m: Model :: m in t1)
      && (LandInputError(env, input.landData).Some? ==>
            land == Err(LandInputError(env, input.landData).value) && t1 == old(db.tables))
      && (LandInputError(env, input.landData).None? ==>
            LandResolved(env, old(db.tables), t1, input.landData, SanitizeLand(env, input.landData).value,
                         SanitizeLocation(env, Prop(input.landData, "locationData"), false).value,
                         draws, land, location))
      && (land.Err? ==> reply == ServerError(ProductFailed + land.message) && db.tables == t1)
      && (land.Ok? ==> (reply.Done? &&
            ProductInserted(t1, db.tables, input, land.value.id, ProductCode(land.value.id, productTime),
                            LeaseNumber(leaseTime), reply.value)))
  {
    t1 := db.tables;
    land := Err("");
    location := Resolved(0, false);
    var checked := CheckProduct(env, body);
    if !checked.Done? {
      return checked.PropagateFailure(), t1, land, location;
    }
    var input := checked.value;
    var landResult;
    landResult, location := ProcessLandData(db, env, input.landData, draws);
    land := landResult;
    t1 := db.tables;
    if landResult.Err? {
      return ServerError(ProductFailed + landResult.message), t1, land, location;
    }
    var created := CreateProduct(db, input, landResult.value.id, ProductCode(landResult.value.id, productTime),
                                 LeaseNumber(leaseTime));
    reply := Done(created);
  }
}

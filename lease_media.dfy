/** The insert-only helpers: processLeaseData (api/lib/addLease.js) and
    processMediaData (api/lib/addMedia.js). */
module LeaseMedia {
  import opened Js
  import opened Store

  const LeasePrefix := "Failed to process lease data: "
  const MissingLeaseData := "Missing leaseData"
  const InvalidRentalPeriod := "Invalid rental period value."
  const MissingMediaData := "Missing mediaData"

  /** Stand-in message of the error Prisma throws when `connect` names a row
      that does not exist. */
  const ConnectFailed := "No record was found for a nested connect."

  const RentalPeriods := ["daily", "weekly", "monthly", "yearly"]

  /** `validPeriods.includes(v)`: only the four strings themselves. */
  predicate IsRentalPeriod(v: Value) {
    v.Str? && v.s in RentalPeriods
  }

  /** The rental-period check: a falsy period passes, a truthy one must be
      one of the four. */
  function RentalPeriodError(d: Value): (e: Option<string>)
    ensures e.None? <==> (!Truthy(Prop(d, "rentalPeriod")) ||
                          Prop(d, "rentalPeriod") in [Str("daily"), Str("weekly"), Str("monthly"), Str("yearly")])
    ensures e.Some? ==> e.value == LeasePrefix + InvalidRentalPeriod
  {
    var period := Prop(d, "rentalPeriod");
    if Truthy(period) && !IsRentalPeriod(period) then Some(LeasePrefix + InvalidRentalPeriod) else None
  }

  const LeaseColumns := {"productId", "price", "rentalPeriod", "discountPrice", "discountDuration", "termsAndConditions"}

  /** The lease row: the five copied fields and, only for a truthy
      `productId`, the product link; `undefined` fields are not written. */
  function LeaseRow(d: Value): (row: Row)
    ensures row.Keys <= LeaseColumns
    ensures "productId" in row <==> Truthy(Prop(d, "productId"))
    ensures forall c :: c in row && c != "productId" ==> row[c] == Prop(d, c)
    ensures forall c :: c in LeaseColumns && c != "productId" && Prop(d, c) != Undefined ==> c in row
  {
    var productId := Prop(d, "productId");
    Stored(map["productId" := if Truthy(productId) then productId else Undefined,
               "price" := Prop(d, "price"), "rentalPeriod" := Prop(d, "rentalPeriod"),
               "discountPrice" := Prop(d, "discountPrice"),
               "discountDuration" := Prop(d, "discountDuration"),
               "termsAndConditions" := Prop(d, "termsAndConditions")])
  }

  /** `processLeaseData`: one new Lease, linked to the product when
      `productId` is truthy (which must then name an existing Product). */
  method ProcessLeaseData(db: Db, d: Value) returns (r: Result<Id>)
    requires db.Valid()
    modifies db
    ensures db.Valid()
    ensures OnlyChanged(old(db.tables), db.tables, {Lease})
    ensures !Truthy(d) ==> r == Err(MissingLeaseData) && db.tables == old(db.tables)
    ensures Truthy(d) && RentalPeriodError(d).Some? ==>
      r == Err(RentalPeriodError(d).value) && db.tables == old(db.tables)
    ensures Truthy(d) && RentalPeriodError(d).None? && Truthy(Prop(d, "productId")) &&
            !old(db.Has(Product, Prop(d, "productId"))) ==>
      r == Err(LeasePrefix + ConnectFailed) && db.tables == old(db.tables)
    ensures r.Ok? <==> (Truthy(d) && RentalPeriodError(d).None? &&
                        (Truthy(Prop(d, "productId")) ==> old(db.Has(Product, Prop(d, "productId")))))
    ensures r.Ok? ==> Inserted(old(db.tables[Lease]), db.tables[Lease], r.value, LeaseRow(d))
  {
    if !Truthy(d) {
      return Err(MissingLeaseData);
    }
    var periodError := RentalPeriodError(d);
    if periodError.Some? {
      return Err(periodError.value);
    }
    var productId := Prop(d, "productId");
    if Truthy(productId) && !db.Has(Product, productId) {
      return Err(LeasePrefix + ConnectFailed);
    }
    var id := db.Create(Lease, LeaseRow(d));
    assert Stored(LeaseRow(d)) == LeaseRow(d);
    r := Ok(id);
  }

  const MediaColumns := {"imageUrl", "imageTitle", "imageDescription", "videoUrl", "videoTitle",
                         "videoDescription", "virtualTourUrl", "virtualTourTitle", "virtualTourDescription"}

  /** The media row: the nine image, video and virtual-tour fields as given;
      an `id` in the payload is not among them. */
  function MediaRow(d: Value): (row: Row)
    ensures row.Keys <= MediaColumns && "id" !in row
    ensures forall c :: c in MediaColumns ==> Get(row, c) == (if Prop(d, c) == Undefined then Null else Prop(d, c))
  {
    Stored(map c | c in MediaColumns :: Prop(d, c))
  }

  /** `processMediaData`: always one new Media row. */
  method ProcessMediaData(db: Db, d: Value) returns (r: Result<Id>)
    requires db.Valid()
    modifies db
    ensures db.Valid()
    ensures OnlyChanged(old(db.tables), db.tables, {Media})
    ensures !Truthy(d) ==> r == Err(MissingMediaData) && db.tables == old(db.tables)
    ensures Truthy(d) ==> r.Ok? && Inserted(old(db.tables[Media]), db.tables[Media], r.value, MediaRow(d))
  {
    if !Truthy(d) {
      return Err(MissingMediaData);
    }
    var id := db.Create(Media, MediaRow(d));
    assert Stored(MediaRow(d)) == MediaRow(d);
    r := Ok(id);
  }
}

/** The Post handlers (api/controllers/post.controller.js): a filtered
    listing, an insert that finds or creates its Location by name, address
    and city, and an owner-only delete that removes the PostDetail before
    the Post. */
module PostController {
  import opened Js
  import opened Store
  import opened Replies

  const GetPostsFailed := "Failed to get posts"
  const PostFieldsRequired := "All required fields must be provided"
  const PostLocationRequired := "Location data must include name, address, city, and country"
  const PostLocationMissing := "Either locationId or locationData must be provided"
  const AddPostFailed := "Failed to create post"
  const PostNotFound := "Post not found"
  const NotAuthorized := "Not Authorized!"
  const PostDeleted := "Post deleted"

  // getPosts

  /** The `where` of getPosts, value by value: `undefined` puts no
      constraint; `bedroom` and the price bounds are `parseInt` results. */
  datatype PostFilter = PostFilter(city: Value, kind: Value, property: Value,
                                   bedroom: Value, minPrice: Value, maxPrice: Value)

  /** `parseInt` of a query parameter. Query parameters are strings; any
      other value reads as NaN here. */
  function QueryInt(env: Env, v: Value): (r: Value)
    ensures r.NaN? || IsInteger(r)
  {
    if v.Str? then ParseInt(env, v.s) else NaN
  }

  /** `p || undefined` for the string parameters and `p ? parseInt(p) :
      undefined` for the numeric ones. */
  function PostFilterOf(env: Env, query: Value): (f: PostFilter)
    ensures Truthy(Prop(query, "minPrice")) <==> f.minPrice != Undefined
    ensures Truthy(Prop(query, "maxPrice")) <==> f.maxPrice != Undefined
    ensures Truthy(Prop(query, "bedroom")) <==> f.bedroom != Undefined
    ensures f.city == Or(Prop(query, "city"), Undefined)
  {
    PostFilter(Or(Prop(query, "city"), Undefined), Or(Prop(query, "type"), Undefined),
               Or(Prop(query, "property"), Undefined),
               if Truthy(Prop(query, "bedroom")) then QueryInt(env, Prop(query, "bedroom")) else Undefined,
               if Truthy(Prop(query, "minPrice")) then QueryInt(env, Prop(query, "minPrice")) else Undefined,
               if Truthy(Prop(query, "maxPrice")) then QueryInt(env, Prop(query, "maxPrice")) else Undefined)
  }

  /** Prisma refuses NaN where an integer is expected. */
  predicate FilterRejected(f: PostFilter) {
    f.bedroom.NaN? || f.minPrice.NaN? || f.maxPrice.NaN?
  }

  /** `price: { gte, lte }`: each bound that is given is inclusive. */
  predicate InPriceRange(price: Value, f: PostFilter) {
    && (f.minPrice.Num? ==> price.Num? && f.minPrice.n <= price.n)
    && (f.maxPrice.Num? ==> price.Num? && price.n <= f.maxPrice.n)
  }

  /** Whether the Post row `row` passes the filter; the city is read on the
      Post's Location. */
  predicate PostMatches(locations: Table, row: Row, f: PostFilter) {
    && (f.city != Undefined ==>
          Refers(locations, Get(row, "locationId")) && Get(locations[Get(row, "locationId").id], "city") == f.city)
    && (f.kind != Undefined ==> Get(row, "type") == f.kind)
    && (f.property != Undefined ==> Get(row, "property") == f.property)
    && (f.bedroom != Undefined ==> Get(row, "bedroom") == f.bedroom)
    && InPriceRange(Get(row, "price"), f)
  }

  /** `getPosts`: the ids of the Posts that pass the filter, in ascending
      order, or a 500 when a numeric parameter does not parse. Nothing is
      written. */
  method GetPosts(db: Db, env: Env, query: Value) returns (reply: Reply<seq<Id>>)
    requires db.Valid()
    ensures FilterRejected(PostFilterOf(env, query)) ==> reply == ServerError(GetPostsFailed)
    ensures !FilterRejected(PostFilterOf(env, query)) ==> reply.Done?
    ensures reply.Done? ==> forall id :: id in reply.value <==>
      id in db.tables[Post] && PostMatches(db.tables[Location], db.tables[Post][id], PostFilterOf(env, query))
    ensures reply.Done? ==> forall i, j :: 0 <= i < j < |reply.value| ==> reply.value[i] < reply.value[j]
  {
    var filter := PostFilterOf(env, query);
    if FilterRejected(filter) {
      return ServerError(GetPostsFailed);
    }
    var locations := db.tables[Location];
    var ids := db.FindMany(Post, (row: Row) => PostMatches(locations, row, filter));
    reply := Done(ids);
  }

  /** The price bounds are inclusive: with both given and every other
      parameter absent, a Post is listed exactly when its price lies between
      them, ends included; with neither given, the price does not matter. */
  lemma PriceRangeInclusive(env: Env, query: Value, locations: Table, row: Row)
    requires !Truthy(Prop(query, "city")) && !Truthy(Prop(query, "type"))
    requires !Truthy(Prop(query, "property")) && !Truthy(Prop(query, "bedroom"))
    ensures var f := PostFilterOf(env, query);
      f.minPrice.Num? && f.maxPrice.Num? ==>
        (PostMatches(locations, row, f) <==>
           Get(row, "price").Num? && f.minPrice.n <= Get(row, "price").n <= f.maxPrice.n)
    ensures !Truthy(Prop(query, "minPrice")) && !Truthy(Prop(query, "maxPrice")) ==>
      PostMatches(locations, row, PostFilterOf(env, query))
  {
    var f := PostFilterOf(env, query);
    assert f.city == Undefined && f.kind == Undefined && f.property == Undefined;
  }

  // addPost

  /** The seven Post fields addPost demands. */
  predicate PostFieldsPresent(pd: Value) {
    && Truthy(Prop(pd, "title")) && Truthy(Prop(pd, "price")) && Truthy(Prop(pd, "images"))
    && Truthy(Prop(pd, "bedroom")) && Truthy(Prop(pd, "bathroom"))
    && Truthy(Prop(pd, "type")) && Truthy(Prop(pd, "property"))
  }

  /** The four Location fields addPost demands of `locationData`. */
  predicate PostLocationComplete(ld: Value) {
    Truthy(Prop(ld, "name")) && Truthy(Prop(ld, "address")) && Truthy(Prop(ld, "city")) && Truthy(Prop(ld, "country"))
  }

  /** `where: { name, address, city }`: the country is not part of the
      key. */
  function PostLocationKey(ld: Value): (key: Where)
    ensures key.Keys == {"name", "address", "city"}
    ensures "country" !in key
  {
    map["name" := Prop(ld, "name"), "address" := Prop(ld, "address"), "city" := Prop(ld, "city")]
  }

  /** The `data` of the Location addPost creates: name, address, city and
      country as given, every other column falling back to `null`. */
  function PostLocationData(ld: Value): (data: map<string, Value>)
    ensures "name" in data && data["name"] == Prop(ld, "name")
    ensures "address" in data && data["address"] == Prop(ld, "address")
    ensures "city" in data && data["city"] == Prop(ld, "city")
    ensures "country" in data && data["country"] == Prop(ld, "country")
    ensures forall c :: c in data && c !in {"name", "address", "city", "country"} ==> !Truthy(Prop(ld, c)) ==> data[c] == Null
  {
    map["name" := Prop(ld, "name"), "address" := Prop(ld, "address"), "city" := Prop(ld, "city"),
        "stateRegion" := Or(Prop(ld, "stateRegion"), Null), "zipCode" := Or(Prop(ld, "zipCode"), Null),
        "country" := Prop(ld, "country"), "neighborhood" := Or(Prop(ld, "neighborhood"), Null),
        "schoolDistrict" := Or(Prop(ld, "schoolDistrict"), Null), "crimeRate" := Or(Prop(ld, "crimeRate"), Null),
        "latitude" := Or(Prop(ld, "latitude"), Null), "longitude" := Or(Prop(ld, "longitude"), Null)]
  }

  /** With the four fields present, the created row matches the key and the
      key names no `undefined` column. */
  lemma PostLocationMatchesKey(ld: Value)
    requires PostLocationComplete(ld)
    ensures Matches(Stored(PostLocationData(ld)), PostLocationKey(ld))
    ensures forall c :: c in PostLocationKey(ld) ==> PostLocationKey(ld)[c] != Undefined
  {
    var row := Stored(PostLocationData(ld));
    assert row["name"] == Prop(ld, "name") && row["address"] == Prop(ld, "address") && row["city"] == Prop(ld, "city");
  }

  /** The Location step of addPost between the Location tables `t0` and
      `t1`: the given `locationId`, the Location found or created from
      `locationData`, or a 400. */
  ghost predicate PostLocationStep(t0: Table, t1: Table, pd: Value, r: Reply<Value>, location: Resolved) {
    var ld := Prop(pd, "locationData");
    && (Truthy(Prop(pd, "locationId")) ==> r == Done(Prop(pd, "locationId")) && t1 == t0)
    && (!Truthy(Prop(pd, "locationId")) && !Truthy(ld) ==> r == BadRequest(PostLocationMissing) && t1 == t0)
    && (!Truthy(Prop(pd, "locationId")) && Truthy(ld) && !PostLocationComplete(ld) ==>
          r == BadRequest(PostLocationRequired) && t1 == t0)
    && (!Truthy(Prop(pd, "locationId")) && Truthy(ld) && PostLocationComplete(ld) ==>
          r == Done(Ref(location.id)) &&
          FoundOrCreated(t0, t1, PostLocationKey(ld), Stored(PostLocationData(ld)), location))
  }

  /** The Location step. */
  method FinalPostLocation(db: Db, pd: Value) returns (r: Reply<Value>, ghost location: Resolved)
    requires db.Valid()
    modifies db
    ensures db.Valid()
    ensures OnlyChanged(old(db.tables), db.tables, {Location})
    ensures PostLocationStep(old(db.tables[Location]), db.tables[Location], pd, r, location)
  {
    location := Resolved(0, false);
    var ld := Prop(pd, "locationData");
    if Truthy(Prop(pd, "locationId")) {
      return Done(Prop(pd, "locationId")), location;
    }
    if !Truthy(ld) {
      return BadRequest(PostLocationMissing), location;
    }
    if !PostLocationComplete(ld) {
      return BadRequest(PostLocationRequired), location;
    }
    var found := db.FindFirst(Location, PostLocationKey(ld));
    var id;
    if found.Some? {
      id := found.value;
      location := Resolved(id, true);
    } else {
      id := db.Create(Location, PostLocationData(ld));
      location := Resolved(id, false);
    }
    r := Done(Ref(id));
  }

  /** A Location with the same name, address and city is reused whatever
      its country, and nothing is created. */
  lemma PostLocationIgnoresCountry(before: Table, after: Table, pd: Value, r: Reply<Value>, location: Resolved, other: Id)
    requires PostLocationStep(before, after, pd, r, location)
    requires !Truthy(Prop(pd, "locationId")) && Truthy(Prop(pd, "locationData"))
    requires PostLocationComplete(Prop(pd, "locationData"))
    requires other in before
    requires forall c :: c in {"name", "address", "city"} ==> Get(before[other], c) == Prop(Prop(pd, "locationData"), c)
    ensures location.existed && after == before
  {
    var key := PostLocationKey(Prop(pd, "locationData"));
    assert Matches(before[other], key);
  }

  /** The Location step never adds a second Location with the same name,
      address and city. */
  lemma PostLocationStaysUnique(before: Table, after: Table, pd: Value, r: Reply<Value>, location: Resolved)
    requires PostLocationStep(before, after, pd, r, location)
    requires UniqueOn(before, {"name", "address", "city"})
    ensures UniqueOn(after, {"name", "address", "city"})
  {
    var ld := Prop(pd, "locationData");
    if !Truthy(Prop(pd, "locationId")) && Truthy(ld) && PostLocationComplete(ld) {
      PostLocationMatchesKey(ld);
      FoundOrCreatedKeepsUnique(before, after, PostLocationKey(ld), Stored(PostLocationData(ld)), location);
    }
  }

  /** The Post row: the seven fields as given and the two linked ids. */
  function PostData(pd: Value, user: Value, location: Value): (data: map<string, Value>)
    ensures "userId" in data && data["userId"] == user
    ensures "locationId" in data && data["locationId"] == location
    ensures forall c :: c in {"title", "price", "images", "bedroom", "bathroom", "type", "property"} ==>
      c in data && data[c] == Prop(pd, c)
  {
    map["title" := Prop(pd, "title"), "price" := Prop(pd, "price"), "images" := Prop(pd, "images"),
        "bedroom" := Prop(pd, "bedroom"), "bathroom" := Prop(pd, "bathroom"), "type" := Prop(pd, "type"),
        "property" := Prop(pd, "property"), "userId" := user, "locationId" := location]
  }

  /** Whether the nested `postDetail: { create: detail }` can be written:
      absent (`undefined`) or an object. */
  predicate DetailWritable(detail: Value) {
    detail.Undefined? || detail.Obj?
  }

  /** The Post write between the tables `t1` and `t2`: it fails, writing
      nothing, when the user or the Location it links does not exist or the
      nested detail is not an object; otherwise it inserts the Post and,
      when the body carries `postDetail`, one PostDetail of that Post. */
  ghost predicate PostCreated(t1: Tables, t2: Tables, pd: Value, detail: Value, user: Value, location: Value, reply: Reply<Id>)
    requires Location in t1 && User in t1 && Post in t1 && PostDetail in t1 && Post in t2 && PostDetail in t2
  {
    && (!(Refers(t1[User], user) && Refers(t1[Location], location) && DetailWritable(detail)) ==>
          reply == ServerError(AddPostFailed) && t2 == t1)
    && (Refers(t1[User], user) && Refers(t1[Location], location) && DetailWritable(detail) ==>
          && reply.Done? && Inserted(t1[Post], t2[Post], reply.value, Stored(PostData(pd, user, location)))
          && (detail.Undefined? ==> t2[PostDetail] == t1[PostDetail])
          && (detail.Obj? ==> exists d :: d in t2[PostDetail] && Inserted(t1[PostDetail], t2[PostDetail], d,
                                                  Stored(detail.fields["postId" := Ref(reply.value)]))))
  }

  /** `post.create` with its two `connect`s and the nested PostDetail. */
  method CreatePost(db: Db, pd: Value, detail: Value, user: Value, location: Value) returns (reply: Reply<Id>)
    requires db.Valid()
    modifies db
    ensures db.Valid()
    ensures OnlyChanged(old(db.tables), db.tables, {Post, PostDetail})
    ensures PostCreated(old(db.tables), db.tables, pd, detail, user, location, reply)
  {
    if !db.Has(User, user) || !db.Has(Location, location) || !DetailWritable(detail) {
      return ServerError(AddPostFailed);
    }
    var id := db.Create(Post, PostData(pd, user, location));
    if detail.Obj? {
      var d := db.Create(PostDetail, detail.fields["postId" := Ref(id)]);
    }
    reply := Done(id);
  }

  /** `addPost` for the signed-in `user`: the seven fields, the Location
      step, then the Post. `t1` is the state after the Location step; a
      Location it created stays when the Post write fails. */
  method AddPost(db: Db, body: Value, user: Value)
    returns (reply: Reply<Id>, ghost t1: Tables, ghost step: Reply<Value>, ghost location: Resolved)
    requires db.Valid()
    modifies db
    ensures db.Valid()
    ensures OnlyChanged(old(db.tables), db.tables, {Location, Post, PostDetail})
    ensures Nullish(body) || Nullish(Prop(body, "postData")) ==>
      reply == ServerError(AddPostFailed) && db.tables == old(db.tables)
    ensures !Nullish(body) && !Nullish(Prop(body, "postData")) && !PostFieldsPresent(Prop(body, "postData")) ==>
      reply == BadRequest(PostFieldsRequired) && db.tables == old(db.tables)
    ensures !Nullish(body) && PostFieldsPresent(Prop(body, "postData")) ==>
      && OnlyChanged(old(db.tables), t1, {Location})
      && PostLocationStep(old(db.tables[Location]), t1[Location], Prop(body, "postData"), step, location)
      && (!step.Done? ==> reply == step.PropagateFailure() && db.tables == t1)
      && (step.Done? ==>
            OnlyChanged(t1, db.tables, {Post, PostDetail}) &&
            PostCreated(t1, db.tables, Prop(body, "postData"), Prop(body, "postDetail"), user, step.value, reply))
  {
    t1, step, location := db.tables, Done(Null), Resolved(0, false);
    if Nullish(body) || Nullish(Prop(body, "postData")) {
      return ServerError(AddPostFailed), t1, step, location;
    }
    var pd := Prop(body, "postData");
    if !PostFieldsPresent(pd) {
      return BadRequest(PostFieldsRequired), t1, step, location;
    }
    var finalLocationId;
    finalLocationId, location := FinalPostLocation(db, pd);
    step, t1 := finalLocationId, db.tables;
    if finalLocationId.IsFailure() {
      return finalLocationId.PropagateFailure(), t1, step, location;
    }
    reply := CreatePost(db, pd, Prop(body, "postDetail"), user, finalLocationId.value);
  }

  // deletePost

  /** Whether the PostDetail row `row` belongs to Post `post`. */
  predicate DetailOf(row: Row, post: Id) {
    Get(row, "postId") == Ref(post)
  }

  /** `deletePost` for the signed-in `user`: an unknown Post is a 404 and
      another user's Post a 403, with nothing deleted; otherwise the Post's
      PostDetail, when it has one, goes first, then the Post. With at most
      one PostDetail per Post, none of the Post's is left. */
  method DeletePost(db: Db, id: Id, user: Value) returns (reply: Reply<string>, ghost detail: Option<Id>)
    requires db.Valid()
    modifies db
    ensures db.Valid()
    ensures OnlyChanged(old(db.tables), db.tables, {Post, PostDetail})
    ensures id !in old(db.tables[Post]) ==> reply == NotFound(PostNotFound) && db.tables == old(db.tables)
    ensures id in old(db.tables[Post]) && !StrictEquals(Get(old(db.tables[Post][id]), "userId"), user) ==>
      reply == Forbidden(NotAuthorized) && db.tables == old(db.tables)
    ensures id in old(db.tables[Post]) && StrictEquals(Get(old(db.tables[Post][id]), "userId"), user) ==>
      && reply == Done(PostDeleted)
      && db.tables[Post] == old(db.tables[Post]) - {id}
      && (detail.None? ==>
            db.tables[PostDetail] == old(db.tables[PostDetail]) &&
            forall d :: d in old(db.tables[PostDetail]) ==> !DetailOf(old(db.tables[PostDetail][d]), id))
      && (detail.Some? ==>
            detail.value in old(db.tables[PostDetail]) &&
            DetailOf(old(db.tables[PostDetail][detail.value]), id) &&
            db.tables[PostDetail] == old(db.tables[PostDetail]) - {detail.value})
    ensures reply.Done? && UniqueOn(old(db.tables[PostDetail]), {"postId"}) ==>
      forall d :: d in db.tables[PostDetail] ==> !DetailOf(db.tables[PostDetail][d], id)
  {
    detail := None;
    if id !in db.tables[Post] {
      return NotFound(PostNotFound), detail;
    }
    if !StrictEquals(Get(db.tables[Post][id], "userId"), user) {
      return Forbidden(NotAuthorized), detail;
    }
    var found := db.FindFirst(PostDetail, map["postId" := Ref(id)]);
    if found.Some? {
      MatchesOne(db.tables[PostDetail][found.value], "postId", Ref(id));
      ghost var before := db.tables[PostDetail];
      var ok := db.Delete(PostDetail, found.value);
      detail := found;
      OnlyDetailGone(before, db.tables[PostDetail], found.value, id);
    } else {
      forall d | d in db.tables[PostDetail]
        ensures !DetailOf(db.tables[PostDetail][d], id)
      {
        MatchesOne(db.tables[PostDetail][d], "postId", Ref(id));
      }
    }
    var ok := db.Delete(Post, id);
    reply := Done(PostDeleted);
  }

  /** With at most one PostDetail per Post, deleting the one of Post `post`
      leaves none of its own. */
  lemma OnlyDetailGone(before: Table, after: Table, d: Id, post: Id)
    requires d in before && DetailOf(before[d], post)
    requires after == before - {d}
    ensures UniqueOn(before, {"postId"}) ==> forall e :: e in after ==> !DetailOf(after[e], post)
  {
    if UniqueOn(before, {"postId"}) {
      forall e | e in after
        ensures !DetailOf(after[e], post)
      {
        if DetailOf(after[e], post) {
          assert SameOn(before[e], before[d], {"postId"});
        }
      }
    }
  }
}

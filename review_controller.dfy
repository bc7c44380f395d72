/**
 * The review handlers: adding a review with its author and tour taken
 * from the body or from the request, and the review listing.
 */
module ReviewController {
  import opened Wrappers
  import opened Js
  import opened AppErrors
  import opened Http
  import opened Schema
  import opened MongoQuery
  import opened ApiFeatures
  import opened UserModel
  import opened ReviewModel
  import opened Requests

  // ---------------------------------------------------------------------
  // addReview
  // ---------------------------------------------------------------------


  /** A body value as a number path receives it; any other value is left unset. */
  function NumberOf(v: JsValue): (r: Option<real>)
    ensures r.Some? <==> v.Num?
  {
    if v.Num? then Some(v.n) else None
  }

  /** What reading `_id` of a request without a user raises. */
  const NoUserError: JsError :=
    JsError("TypeError", "Cannot read properties of undefined (reading '_id')", None, None, false, [])

  /**
   * The record handed to `create`: rating and title from the body, the
   * author from the body or else the logged-in user, the tour from the
   * body or else the route. Nothing else of the body is passed on.
   */
  function ReviewInput(body: JsValue, tourId: Option<string>, user: UserDocument?): (r: Result<ReviewRecord, JsError>)
    reads user
    ensures r.Err? <==> !Truthy(Get(body, "user")) && user == null
    ensures r.Err? ==> r.error == NoUserError
    ensures r.Ok? ==> r.value.rating == NumberOf(Get(body, "rating")) && r.value.review == AsString(Get(body, "review"))
    ensures r.Ok? ==> r.value.user == (if Truthy(Get(body, "user")) then AsString(Get(body, "user")) else user.id)
    ensures r.Ok? ==> r.value.tour == (if Truthy(Get(body, "tour")) then AsString(Get(body, "tour")) else tourId)
    ensures r.Ok? ==> r.value.createdAt.None?
  {
    var author := Get(body, "user");
    if !Truthy(author) && user == null then Err(NoUserError)
    else
      var tour := Get(body, "tour");
      Ok(ReviewRecord(AsString(Get(body, "review")), NumberOf(Get(body, "rating")), None,
                      if Truthy(tour) then AsString(tour) else tourId,
                      if Truthy(author) then AsString(author) else user.id))
  }

  /** A creation date sent in the body is dropped: the review gets the default. */
  lemma BodyCreatedAtIgnored(body: JsValue, tourId: Option<string>, user: UserDocument?, schemaTime: int)
    requires ReviewInput(body, tourId, user).Ok?
    ensures NewReview(ReviewInput(body, tourId, user).value, schemaTime).createdAt == Some(schemaTime)
  {
  }

  /**
   * `addReview`: the review is created and answered with 201, and `next()`
   * is still called afterwards; a failed creation goes to `next`.
   */
  function AddReview(body: JsValue, params: map<string, string>, user: UserDocument?, schemaTime: int,
                     show: real -> string): (o: Outcome)
    reads user
    ensures var input := ReviewInput(body, if "tourId" in params then Some(params["tourId"]) else None, user);
      (input.Err? ==> o == Fail(input.error))
      && (input.Ok? && !ValidReview(NewReview(input.value, schemaTime)) ==>
            o == Fail(ValidationFailure("Review", ValidateReview(NewReview(input.value, schemaTime), show))))
      && (input.Ok? && ValidReview(NewReview(input.value, schemaTime)) ==>
            o.next == Called && o.response.Some? && o.response.value.statusCode == 201)
  {
    var input := ReviewInput(body, if "tourId" in params then Some(params["tourId"]) else None, user);
    match input
    case Err(e) => Fail(e)
    case Ok(record) =>
      var created := NewReview(record, schemaTime);
      var errs := ValidateReview(created, show);
      if errs != [] then Fail(ValidationFailure("Review", errs))
      else Outcome(Some(StatusMessage(201, "success", "Review added successsfully")), Called)
  }

  /** A review posted on a tour's route by a logged-in user without naming either is filed under both. */
  lemma AddReviewDefaults(rating: real, text: string, tourId: string, user: UserDocument, schemaTime: int)
    requires MinRating <= rating <= MaxRating && Trim(text) != ""
    requires user.id.Some?
    ensures var body := Obj(map["rating" := Num(rating), "review" := Str(text)]);
      var input := ReviewInput(body, Some(tourId), user);
      input.Ok? && input.value.tour == Some(tourId) && input.value.user == user.id
      && ValidReview(NewReview(input.value, schemaTime))
  {
    var body := Obj(map["rating" := Num(rating), "review" := Str(text)]);
    assert "user" !in body.fields && "tour" !in body.fields;
    assert Get(body, "user") == Undefined && Get(body, "tour") == Undefined;
    assert Get(body, "rating") == Num(rating) && Get(body, "review") == Str(text);
    var record := ReviewRecord(Some(text), Some(rating), None, Some(tourId), user.id);
    assert ReviewInput(body, Some(tourId), user) == Ok(record);
    assert NewReview(record, schemaTime).review == Some(Trim(text));
  }

  // ---------------------------------------------------------------------
  // getAllReviews
  // ---------------------------------------------------------------------

  /**
   * `getAllReviews`: sort, projection and pagination over a fresh find (no
   * filter), then the find hook's population of the author.
   */
  method GetAllReviews(req: Request) returns (o: Outcome, query: Query)
    ensures fresh(query)
    ensures ChainOps(req.query, None).Err? ==> o == Fail(ChainOps(req.query, None).error)
    ensures ChainOps(req.query, None).Ok? ==>
      query.ops == [Find(map[])] + ChainOps(req.query, None).value + [Populate("user", AuthorSelect)]
      && o == Outcome(Some(StatusMessage(200, "success", "Reviews retrieved successsfully")), NotCalled)
  {
    query := NewFind();
    var features := new APIFeatures(query, req.query);
    var err := RunChain(features, None);
    if err.Some? {
      o := Fail(err.value);
      return;
    }
    ReviewModel.PreFind(query);
    o := Outcome(Some(StatusMessage(200, "success", "Reviews retrieved successsfully")), NotCalled);
  }

  /** A chain built without the filter step holds no find condition. */
  lemma UnfilteredChainHasNoFind(sort: string, fields: string, skip: real, limit: real)
    ensures var chain := [] + [] + [Op.Sort(sort)] + [Select(fields)] + [Skip(skip), Limit(limit)];
      forall i :: 0 <= i < |chain| ==> !chain[i].Find?
  {
  }

  /** The listing never filters: whatever the query string holds, no find condition is added to the empty one. */
  lemma ReviewListingNeverFilters(q: map<string, QueryValue>)
    requires ChainOps(q, None).Ok?
    ensures forall i :: 0 <= i < |ChainOps(q, None).value| ==> !ChainOps(q, None).value[i].Find?
  {
    var plan := PaginationPlan(q).value;
    var sort, fields := SortSpec(q).value, ProjectionSpec(q).value;
    var chain := [] + [] + [Op.Sort(sort)] + [Select(fields)] + [Skip(plan.SkipRange()), Limit(plan.limit)];
    ChainOpsValue(q, None, [], chain);
    UnfilteredChainHasNoFind(sort, fields, plan.SkipRange(), plan.limit);
    assert ChainOps(q, None).value == chain by { assert [] + ChainOps(q, None).value == ChainOps(q, None).value; }
  }
}

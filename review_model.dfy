/**
 * The review schema: a trimmed title, a rating from 1 to 5, the tour and
 * the user it belongs to, and the query hook that fills in the author's
 * public fields on every find.
 */
module ReviewModel {
  import opened Wrappers
  import opened Js
  import opened Schema
  import opened MongoQuery

  /** A review; `tour` and `user` are the referenced ids. */
  datatype ReviewRecord = ReviewRecord(
    review: Option<string>,
    rating: Option<real>,
    createdAt: Option<int>,
    tour: Option<string>,
    user: Option<string>)

  const MinRating: real := 1.0
  const MaxRating: real := 5.0

  /**
   * `ReviewModel.create(body)` before validation: the title trimmed and the
   * creation date defaulted to the time the schema was defined.
   */
  function NewReview(body: ReviewRecord, schemaTime: int): (r: ReviewRecord)
    ensures r.review == TrimmedOrUnset(body.review)
    ensures r.createdAt == Some(body.createdAt.GetOr(schemaTime))
    ensures r.rating == body.rating && r.tour == body.tour && r.user == body.user
  {
    body.(review := TrimmedOrUnset(body.review), createdAt := Some(body.createdAt.GetOr(schemaTime)))
  }

  /** As written, a review created without a date carries the schema's definition time, whenever it is created. */
  lemma ReviewCreatedAtFrozen(body: ReviewRecord, schemaTime: int, now: int)
    requires body.createdAt.None? && now != schemaTime
    ensures NewReview(body, schemaTime).createdAt != Some(now)
  {
  }

  /** The default as evidently intended: the time of the creation itself. */
  function NewReviewIntended(body: ReviewRecord, now: int): (r: ReviewRecord)
    ensures body.createdAt.None? ==> r.createdAt == Some(now)
    ensures body.createdAt.Some? ==> r.createdAt == body.createdAt
  {
    NewReview(body, now)
  }

  /** `rating`: required, then at least 1, then at most 5; `show` renders a number. */
  function CheckRating(r: ReviewRecord, show: real -> string): Option<FieldError> {
    if r.rating.None? then Some(FieldError("rating", "Review must have a rating"))
    else if r.rating.value < MinRating then Some(FieldError("rating", MinMessage("rating", r.rating.value, MinRating, show)))
    else if r.rating.value > MaxRating then Some(FieldError("rating", MaxMessage("rating", r.rating.value, MaxRating, show)))
    else None
  }

  /** The required check of a reference: an id is there. */
  function RequireRef(path: string, v: Option<string>, message: string): Option<FieldError> {
    if v.None? then Some(FieldError(path, message)) else None
  }

  /** What a review must satisfy to be saved. */
  predicate ValidReview(r: ReviewRecord) {
    Present(r.review) && r.rating.Some? && MinRating <= r.rating.value <= MaxRating
    && r.tour.Some? && r.user.Some?
  }

  /** Validation of a new review, path by path in schema order. */
  function ValidateReview(r: ReviewRecord, show: real -> string): (errs: seq<FieldError>)
    ensures errs == [] <==> ValidReview(r)
    ensures |errs| <= 4
    ensures !Present(r.review) ==> FieldError("review", "Review must have a title") in errs
    ensures r.rating.None? ==> FieldError("rating", "Review must have a rating") in errs
    ensures r.rating.Some? && r.rating.value < MinRating ==>
      FieldError("rating", MinMessage("rating", r.rating.value, MinRating, show)) in errs
    ensures r.rating.Some? && r.rating.value > MaxRating ==>
      FieldError("rating", MaxMessage("rating", r.rating.value, MaxRating, show)) in errs
    ensures r.tour.None? ==> FieldError("tour", "Review must belong to a tour") in errs
    ensures r.user.None? ==> FieldError("user", "Review must belong to a user") in errs
    ensures forall e :: e in errs && e.path == "rating" ==> r.rating.None? || !(MinRating <= r.rating.value <= MaxRating)
  {
    ReviewChecksReport(r, show);
    ReviewChecks(r, show)
  }

  /** The first error of each path, in schema order. */
  function ReviewChecks(r: ReviewRecord, show: real -> string): seq<FieldError> {
    Listed(if Present(r.review) then None else Some(FieldError("review", "Review must have a title")))
    + Listed(CheckRating(r, show))
    + Listed(RequireRef("tour", r.tour, "Review must belong to a tour"))
    + Listed(RequireRef("user", r.user, "Review must belong to a user"))
  }

  /** The review's checks pass exactly when it is valid, and each failing rule reports its own message. */
  lemma ReviewChecksReport(r: ReviewRecord, show: real -> string)
    ensures var errs := ReviewChecks(r, show);
      && (errs == [] <==> ValidReview(r))
      && |errs| <= 4
      && (!Present(r.review) ==> FieldError("review", "Review must have a title") in errs)
      && (r.rating.None? ==> FieldError("rating", "Review must have a rating") in errs)
      && (r.rating.Some? && r.rating.value < MinRating ==>
            FieldError("rating", MinMessage("rating", r.rating.value, MinRating, show)) in errs)
      && (r.rating.Some? && r.rating.value > MaxRating ==>
            FieldError("rating", MaxMessage("rating", r.rating.value, MaxRating, show)) in errs)
      && (r.tour.None? ==> FieldError("tour", "Review must belong to a tour") in errs)
      && (r.user.None? ==> FieldError("user", "Review must belong to a user") in errs)
      && (forall e :: e in errs && e.path == "rating" ==> r.rating.None? || !(MinRating <= r.rating.value <= MaxRating))
  {
    var a := Listed(if Present(r.review) then None else Some(FieldError("review", "Review must have a title")));
    var b := Listed(CheckRating(r, show));
    var c := Listed(RequireRef("tour", r.tour, "Review must belong to a tour"));
    var d := Listed(RequireRef("user", r.user, "Review must belong to a user"));
    assert ReviewChecks(r, show) == a + b + c + d;
    assert forall e :: e in a + b + c + d <==> e in a || e in b || e in c || e in d;
  }

  /** The paths every find on reviews fills in on the author. */
  const AuthorSelect: string := "name avatar"

  /** The pre-find hook (every query whose name starts with `find`): populate the author. */
  method PreFind(q: Query)
    modifies q
    ensures q.ops == old(q.ops) + [Populate("user", AuthorSelect)]
  {
    q.Append(Populate("user", AuthorSelect));
  }

  /** The fields a population with a space-separated `select` returns: those named, and the id. */
  function PopulatedFields(select: string): (fields: set<string>)
    ensures "_id" in fields
    ensures forall f :: f in fields && f != "_id" ==> f in Split(select, ' ')
    ensures forall p :: p in Split(select, ' ') && p != "" ==> p in fields
  {
    {"_id"} + (set p | p in Split(select, ' ') && p != "")
  }

  /** Two separator-free names joined by a space populate exactly those names and the id. */
  lemma PopulatedPair(a: string, b: string)
    requires a != "" && b != "" && ' ' !in a && ' ' !in b
    ensures PopulatedFields(a + " " + b) == {"_id", a, b}
  {
    var parts := [a, b];
    assert a + " " + b == Join(parts, [' ']);
    SplitJoinRoundTrip(parts, ' ');
    var named := set p | p in parts && p != "";
    assert forall x | x in named :: x == a || x == b;
    assert a in named && b in named;
    assert named == {a, b};
  }

  /** The author's password, email and role are never among the populated fields. */
  lemma AuthorShowsOnlyPublicFields()
    ensures PopulatedFields(AuthorSelect) == {"_id", "name", "avatar"}
  {
    assert AuthorSelect == "name" + " " + "avatar";
    PopulatedPair("name", "avatar");
  }
}

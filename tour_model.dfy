/**
 * The tour schema: its required fields and numeric limits, its defaults,
 * the pre-save hook that derives the slug from the name, and the query
 * and aggregation hooks that hide secret tours.
 *
 * `slugify` and the rendering of a number inside an error message are
 * parameters; the time the schema was defined is a parameter too, because
 * the creation-date default is computed once, at that moment.
 */
module TourModel {
  import opened Wrappers
  import opened Js
  import opened AppErrors
  import opened Schema
  import opened MongoQuery

  /** A tour; every path the schema declares, `undefined` as `None`. */
  datatype TourRecord = TourRecord(
    name: Option<string>,
    slug: Option<string>,
    duration: Option<real>,
    maxGroupSize: Option<real>,
    difficulty: Option<string>,
    ratingsAverage: Option<real>,
    ratingsQuantity: Option<real>,
    price: Option<real>,
    priceDiscount: Option<real>,
    summary: Option<string>,
    description: Option<string>,
    imageCover: Option<string>,
    images: seq<string>,
    secretTour: Option<bool>,
    createdAt: Option<int>,
    startDates: Option<seq<int>>)

  const DefaultDifficulty: string := "easy"
  const MaxRatingsAverage: real := 5.0

  // ---------------------------------------------------------------------
  // Setters and defaults
  // ---------------------------------------------------------------------

  /**
   * `new TourModel(body)`: the `trim` setters on `name`, `summary` and
   * `description`, then the defaults on the paths left unset. Both date
   * defaults are the time the schema was defined, not the time of the call.
   */
  function NewTour(body: TourRecord, schemaTime: int): (t: TourRecord)
    ensures t.name == TrimmedOrUnset(body.name) && t.summary == TrimmedOrUnset(body.summary)
    ensures t.description == TrimmedOrUnset(body.description)
    ensures t.difficulty == Some(body.difficulty.GetOr(DefaultDifficulty))
    ensures t.ratingsAverage == Some(body.ratingsAverage.GetOr(0.0))
    ensures t.ratingsQuantity == Some(body.ratingsQuantity.GetOr(0.0))
    ensures t.createdAt == Some(body.createdAt.GetOr(schemaTime))
    ensures t.startDates == Some(body.startDates.GetOr([schemaTime]))
    ensures t.(name := body.name, summary := body.summary, description := body.description,
               difficulty := body.difficulty, ratingsAverage := body.ratingsAverage,
               ratingsQuantity := body.ratingsQuantity, createdAt := body.createdAt,
               startDates := body.startDates) == body
  {
    body.(name := TrimmedOrUnset(body.name),
          summary := TrimmedOrUnset(body.summary),
          description := TrimmedOrUnset(body.description),
          difficulty := Some(body.difficulty.GetOr(DefaultDifficulty)),
          ratingsAverage := Some(body.ratingsAverage.GetOr(0.0)),
          ratingsQuantity := Some(body.ratingsQuantity.GetOr(0.0)),
          createdAt := Some(body.createdAt.GetOr(schemaTime)),
          startDates := Some(body.startDates.GetOr([schemaTime])))
  }

  /**
   * As written, the creation date of a tour created without one does not
   * depend on when it is created: two tours created a day apart share it.
   */
  lemma CreatedAtFrozen(body: TourRecord, schemaTime: int, createdAtNow: int)
    requires body.createdAt.None? && body.startDates.None? && createdAtNow > schemaTime
    ensures NewTour(body, schemaTime).createdAt != Some(createdAtNow)
    ensures NewTour(body, schemaTime).startDates == Some([schemaTime])
  {
  }

  /** The defaults as evidently intended: evaluated at each creation (`default: Date.now`). */
  function NewTourIntended(body: TourRecord, now: int): (t: TourRecord)
    ensures body.createdAt.None? ==> t.createdAt == Some(now)
    ensures body.startDates.None? ==> t.startDates == Some([now])
    ensures body.createdAt.Some? ==> t.createdAt == body.createdAt
  {
    NewTour(body, now)
  }

  // ---------------------------------------------------------------------
  // Validation
  // ---------------------------------------------------------------------

  /** `Number.isInteger`. */
  predicate IsInteger(x: real) { x.Floor as real == x }

  /** The required check of a number path: a value is there (`0` counts). */
  function RequireNumber(path: string, v: Option<real>, message: string): Option<FieldError> {
    if v.None? then Some(FieldError(path, message)) else None
  }

  /** The required check of a string path. */
  function RequireString(path: string, v: Option<string>, message: string): Option<FieldError> {
    if !Present(v) then Some(FieldError(path, message)) else None
  }

  /** The store's built-in message for a custom validator that fails. */
  function ValidatorMessage(path: string, value: real, show: real -> string): string {
    "Validator failed for path `" + path + "` with value `" + show(value) + "`"
  }

  /** `ratingsAverage`: only the `max` limit, skipped when unset. */
  function CheckRatingsAverage(t: TourRecord, show: real -> string): Option<FieldError> {
    if t.ratingsAverage.Some? && t.ratingsAverage.value > MaxRatingsAverage then
      Some(FieldError("ratingsAverage", MaxMessage("ratingsAverage", t.ratingsAverage.value, MaxRatingsAverage, show)))
    else None
  }

  /** `price`: required, then a whole number. */
  function CheckPrice(t: TourRecord, show: real -> string): Option<FieldError> {
    if t.price.None? then Some(FieldError("price", "Tour must have a price"))
    else if !IsInteger(t.price.value) then Some(FieldError("price", ValidatorMessage("price", t.price.value, show)))
    else None
  }

  /** What a tour must satisfy to be saved. */
  predicate ValidTour(t: TourRecord) {
    Present(t.name) && t.duration.Some? && t.maxGroupSize.Some?
    && (t.ratingsAverage.Some? ==> t.ratingsAverage.value <= MaxRatingsAverage)
    && t.price.Some? && IsInteger(t.price.value)
    && Present(t.summary) && Present(t.description) && Present(t.imageCover)
  }

  /** Validation of a new tour: every path is checked. */
  function ValidateTour(t: TourRecord, show: real -> string): (errs: seq<FieldError>)
    ensures errs == [] <==> ValidTour(t)
    ensures !Present(t.name) ==> FieldError("name", "Tour must have a name") in errs
    ensures t.duration.None? ==> FieldError("duration", "Tour must have a duration") in errs
    ensures t.maxGroupSize.None? ==> FieldError("maxGroupSize", "Tour must have a group size") in errs
    ensures t.ratingsAverage.Some? && t.ratingsAverage.value > MaxRatingsAverage ==>
      FieldError("ratingsAverage", MaxMessage("ratingsAverage", t.ratingsAverage.value, MaxRatingsAverage, show)) in errs
    ensures t.price.None? ==> FieldError("price", "Tour must have a price") in errs
    ensures t.price.Some? && !IsInteger(t.price.value) ==>
      FieldError("price", ValidatorMessage("price", t.price.value, show)) in errs
    ensures !Present(t.summary) ==> FieldError("summary", "Tour must have a summary") in errs
    ensures !Present(t.description) ==> FieldError("description", "Tour must have a description") in errs
    ensures !Present(t.imageCover) ==> FieldError("imageCover", "Tour must have an image cover") in errs
  {
    TourChecksReport(t, show);
    TourChecks(t, show)
  }

  /** The first error of each path, in schema order. */
  function TourChecks(t: TourRecord, show: real -> string): seq<FieldError> {
    Listed(RequireString("name", t.name, "Tour must have a name"))
    + Listed(RequireNumber("duration", t.duration, "Tour must have a duration"))
    + Listed(RequireNumber("maxGroupSize", t.maxGroupSize, "Tour must have a group size"))
    + Listed(CheckRatingsAverage(t, show))
    + Listed(CheckPrice(t, show))
    + Listed(RequireString("summary", t.summary, "Tour must have a summary"))
    + Listed(RequireString("description", t.description, "Tour must have a description"))
    + Listed(RequireString("imageCover", t.imageCover, "Tour must have an image cover"))
  }

  /** The tour's checks pass exactly when it is valid, and each failing rule reports its own message. */
  lemma TourChecksReport(t: TourRecord, show: real -> string)
    ensures var errs := TourChecks(t, show);
      && (errs == [] <==> ValidTour(t))
      && (!Present(t.name) ==> FieldError("name", "Tour must have a name") in errs)
      && (t.duration.None? ==> FieldError("duration", "Tour must have a duration") in errs)
      && (t.maxGroupSize.None? ==> FieldError("maxGroupSize", "Tour must have a group size") in errs)
      && (t.ratingsAverage.Some? && t.ratingsAverage.value > MaxRatingsAverage ==>
            FieldError("ratingsAverage", MaxMessage("ratingsAverage", t.ratingsAverage.value, MaxRatingsAverage, show)) in errs)
      && (t.price.None? ==> FieldError("price", "Tour must have a price") in errs)
      && (t.price.Some? && !IsInteger(t.price.value) ==>
            FieldError("price", ValidatorMessage("price", t.price.value, show)) in errs)
      && (!Present(t.summary) ==> FieldError("summary", "Tour must have a summary") in errs)
      && (!Present(t.description) ==> FieldError("description", "Tour must have a description") in errs)
      && (!Present(t.imageCover) ==> FieldError("imageCover", "Tour must have an image cover") in errs)
  {
    var a := Listed(RequireString("name", t.name, "Tour must have a name"));
    var b := Listed(RequireNumber("duration", t.duration, "Tour must have a duration"));
    var c := Listed(RequireNumber("maxGroupSize", t.maxGroupSize, "Tour must have a group size"));
    var d := Listed(CheckRatingsAverage(t, show));
    var e := Listed(CheckPrice(t, show));
    var f := Listed(RequireString("summary", t.summary, "Tour must have a summary"));
    var g := Listed(RequireString("description", t.description, "Tour must have a description"));
    var h := Listed(RequireString("imageCover", t.imageCover, "Tour must have an image cover"));
    assert TourChecks(t, show) == a + b + c + d + e + f + g + h;
    assert forall x :: x in a + b + c + d + e + f + g + h <==>
      x in a || x in b || x in c || x in d || x in e || x in f || x in g || x in h;
  }

  /** The defaults never cause a failure: a body that is valid stays valid once created. */
  lemma DefaultsKeepValid(body: TourRecord, schemaTime: int)
    requires ValidTour(body)
    requires Trim(body.name.value) != "" && Trim(body.summary.value) != "" && Trim(body.description.value) != ""
    ensures ValidTour(NewTour(body, schemaTime))
  {
  }

  /** A body that is blank after trimming fails on its name. */
  lemma BlankNameRefused(body: TourRecord, schemaTime: int, show: real -> string)
    requires body.name == Some("   ")
    ensures FieldError("name", "Tour must have a name") in ValidateTour(NewTour(body, schemaTime), show)
  {
    assert Trim("   ") == "" by {
      assert TrimStart("   ") == "";
    }
  }

  // ---------------------------------------------------------------------
  // Documents and hooks
  // ---------------------------------------------------------------------

  /** What `slugify` raises for `undefined`. */
  const SlugifyUndefinedError: JsError :=
    JsError("Error", "slugify: string argument expected", None, None, false, [])

  /** A tour document being saved. */
  class TourDocument {
    var data: TourRecord

    /** `new TourModel(body)`. */
    constructor (body: TourRecord, schemaTime: int)
      ensures data == NewTour(body, schemaTime)
    {
      data := NewTour(body, schemaTime);
    }

    /** The pre-save hook: the slug becomes the slugified name, whatever was there. */
    method PreSave(slugify: string -> string) returns (err: Option<JsError>)
      modifies this
      ensures old(data).name.None? ==> err == Some(SlugifyUndefinedError) && data == old(data)
      ensures old(data).name.Some? ==>
        err.None? && data == old(data).(slug := Some(slugify(old(data).name.value)))
    {
      if data.name.None? {
        return Some(SlugifyUndefinedError);
      }
      data := data.(slug := Some(slugify(data.name.value)));
      err := None;
    }

    /** `save()`: validation, then the pre-save hook; the record the store then holds. */
    method Save(slugify: string -> string, show: real -> string) returns (r: Result<TourRecord, JsError>)
      modifies this
      ensures r.Ok? <==> ValidTour(old(data))
      ensures !ValidTour(old(data)) ==>
        r == Err(ValidationFailure("Tour", ValidateTour(old(data), show))) && data == old(data)
      ensures r.Ok? ==> r.value == data && data == old(data).(slug := Some(slugify(old(data).name.value)))
    {
      var errs := ValidateTour(data, show);
      if errs != [] {
        return Err(ValidationFailure("Tour", errs));
      }
      var err := PreSave(slugify);
      assert err.None?;
      r := Ok(data);
    }
  }

  /** The tours a query or an aggregation shows once secret ones are hidden. */
  predicate NotSecret(t: TourRecord) { t.secretTour != Some(true) }

  /** `{ secretTour: { $ne: true } }` applied to a list of tours: an unset flag counts as not secret. */
  function HideSecret(tours: seq<TourRecord>): (r: seq<TourRecord>)
    ensures |r| <= |tours|
    ensures forall t :: t in r <==> t in tours && NotSecret(t)
  {
    if tours == [] then []
    else (if NotSecret(tours[0]) then [tours[0]] else []) + HideSecret(tours[1..])
  }

  /** A list without secret tours is shown whole. */
  lemma {:induction false} HideSecretKeepsVisible(tours: seq<TourRecord>)
    requires forall i :: 0 <= i < |tours| ==> NotSecret(tours[i])
    ensures HideSecret(tours) == tours
  {
    if tours != [] {
      HideSecretKeepsVisible(tours[1..]);
      assert NotSecret(tours[0]);
      assert tours == [tours[0]] + tours[1..];
    }
  }

  /** Hiding twice hides nothing more. */
  lemma HideSecretIdempotent(tours: seq<TourRecord>)
    ensures HideSecret(HideSecret(tours)) == HideSecret(tours)
  {
    var hidden := HideSecret(tours);
    forall i | 0 <= i < |hidden| ensures NotSecret(hidden[i]) {
      assert hidden[i] in hidden;
    }
    HideSecretKeepsVisible(hidden);
  }

  /** The pre-find hook: every find on tours also excludes secret ones. */
  method PreFind(q: Query)
    modifies q
    ensures q.ops == old(q.ops) + [ExcludeSecret]
    ensures ExcludeSecret in q.ops
  {
    q.Append(ExcludeSecret);
  }

  /** What one pipeline stage lets through; a stage other than the hook's is not modelled. */
  function RunStage(s: Stage, tours: seq<TourRecord>): seq<TourRecord> {
    match s
    case MatchNotSecret => HideSecret(tours)
    case OtherStage(_) => tours
  }

  /** The pre-aggregate hook: the secret tours are dropped before any other stage sees a tour. */
  method PreAggregate(a: Aggregate)
    modifies a
    ensures a.pipeline == [MatchNotSecret] + old(a.pipeline)
    ensures a.pipeline[0] == MatchNotSecret
  {
    a.Unshift(MatchNotSecret);
  }

  /** After the hook the first stage passes on exactly the tours that are not secret. */
  lemma FirstStageHidesSecret(pipeline: seq<Stage>, tours: seq<TourRecord>)
    ensures var first := RunStage(([MatchNotSecret] + pipeline)[0], tours);
      forall t :: t in first <==> t in tours && NotSecret(t)
  {
  }
}

/**
 * The tour handlers: the body check in front of tour creation, the
 * "top tours" alias that presets the query string, and the listing that
 * drives the query feature builder.
 */
module TourController {
  import opened Wrappers
  import opened Js
  import opened AppErrors
  import opened Http
  import opened MongoQuery
  import opened ApiFeatures
  import opened TourModel
  import opened Requests

  /** The fields a tour body must carry, in the order they are reported. */
  const RequiredFields: seq<string> := ["name", "duration", "price"]

  // ---------------------------------------------------------------------
  // checkRequestBody
  // ---------------------------------------------------------------------

  /** The fields of `fields` whose value in `tour` is falsy, in order. */
  function MissingFields(fields: seq<string>, tour: JsValue): (missing: seq<string>)
    ensures |missing| <= |fields|
    ensures forall f :: f in missing <==> f in fields && !Truthy(Get(tour, f))
  {
    if fields == [] then []
    else (if Truthy(Get(tour, fields[0])) then [] else [fields[0]]) + MissingFields(fields[1..], tour)
  }

  /** A value without any truthy field misses them all, in their own order. */
  lemma {:induction false} MissingAllFields(fields: seq<string>, tour: JsValue)
    requires forall i :: 0 <= i < |fields| ==> !Truthy(Get(tour, fields[i]))
    ensures MissingFields(fields, tour) == fields
  {
    if fields != [] {
      MissingAllFields(fields[1..], tour);
      assert fields == [fields[0]] + fields[1..];
    }
  }

  const InvalidBodyMessage: string :=
    "Invalid body. Must contain object 'tour' with required fields: '" + Join(RequiredFields, ", ") + "'"

  /**
   * `checkRequestBody`: a missing or falsy `tour` and a tour missing any
   * required field are answered with 400 and stop the request; otherwise
   * the request goes on untouched.
   */
  function CheckRequestBody(body: JsValue): (o: Outcome)
    ensures o.next == Called <==>
      Truthy(Get(body, "tour")) && forall f :: f in RequiredFields ==> Truthy(Get(Get(body, "tour"), f))
    ensures o.next == Called ==> o.response.None?
    ensures o.next != Called ==> o.next == NotCalled && o.response.Some? && o.response.value.statusCode == 400
    ensures !Truthy(Get(body, "tour")) ==> o.response == Some(StatusMessage(400, "fail", InvalidBodyMessage))
    ensures Truthy(Get(body, "tour")) && o.next != Called ==>
      var missing := MissingFields(RequiredFields, Get(body, "tour"));
      missing != [] && o.response.value.body ==
        map["status" := Str("fail"), "error" := Str("Missing required fields: '" + Join(missing, ", ") + "'")]
  {
    var tour := Get(body, "tour");
    if !Truthy(tour) then Outcome(Some(StatusMessage(400, "fail", InvalidBodyMessage)), NotCalled)
    else
      var missing := MissingFields(RequiredFields, tour);
      if |missing| > 0 then
        assert missing[0] in missing;
        Outcome(Some(Response(400, map["status" := Str("fail"),
                                        "error" := Str("Missing required fields: '" + Join(missing, ", ") + "'")],
                              None)), NotCalled)
      else Outcome(None, Called)
  }

  /** A price of 0 counts as missing: the check tests truthiness, not presence. */
  lemma ZeroPriceIsMissing(name: string, duration: real)
    requires name != "" && duration != 0.0
    ensures var tour := Obj(map["name" := Str(name), "duration" := Num(duration), "price" := Num(0.0)]);
      MissingFields(RequiredFields, tour) == ["price"]
      && CheckRequestBody(Obj(map["tour" := tour])).next == NotCalled
  {
    var tour := Obj(map["name" := Str(name), "duration" := Num(duration), "price" := Num(0.0)]);
    assert Truthy(Get(tour, "name")) && Truthy(Get(tour, "duration")) && !Truthy(Get(tour, "price"));
    assert MissingFields(RequiredFields, tour) == MissingFields(["price"], tour);
  }

  // ---------------------------------------------------------------------
  // aliasTopTours
  // ---------------------------------------------------------------------

  const TopLimit: string := "5"
  const TopSort: string := "-ratingsAverage,price"
  const TopFields: string := "name,imageCover,duration,difficulty,price,ratingsAverage,ratingsQuantity"

  /** The query string with the three preset keys overwritten. */
  function TopTours(q: map<string, QueryValue>): (r: map<string, QueryValue>)
    ensures r.Keys == q.Keys + {"limit", "sort", "fields"}
    ensures r["limit"] == QStr(TopLimit) && r["sort"] == QStr(TopSort) && r["fields"] == QStr(TopFields)
    ensures forall k :: k in q && k != "limit" && k != "sort" && k != "fields" ==> r[k] == q[k]
  {
    q["limit" := QStr(TopLimit)]["sort" := QStr(TopSort)]["fields" := QStr(TopFields)]
  }

  /** `aliasTopTours`: presets limit, sort and fields in place, then `next()`. */
  method AliasTopTours(req: Request) returns (o: Outcome)
    modifies req`query
    ensures req.query == TopTours(old(req.query))
    ensures o == Outcome(None, Called)
  {
    req.query := req.query["limit" := QStr(TopLimit)];
    req.query := req.query["sort" := QStr(TopSort)];
    req.query := req.query["fields" := QStr(TopFields)];
    o := Outcome(None, Called);
  }

  /** The alias does not set a page, so a listing behind it without a client page always raises. */
  lemma AliasWithoutPageFails(q: map<string, QueryValue>)
    requires !QueryTruthy(Lookup(q, "page"))
    ensures ChainOps(TopTours(q), Some(ControlKeys)) == Err(NoPageOrLimit)
  {
    assert Lookup(TopTours(q), "page") == Lookup(q, "page");
  }

  /** Behind the alias the page size is 5 whatever the client asked for. */
  lemma AliasLimitsToFive(q: map<string, QueryValue>)
    ensures EffectiveLimit(Lookup(TopTours(q), "limit")) == 5.0
  {
    CoerceDigits(TopLimit);
    assert DigitsValue(TopLimit) == 5;
  }

  // ---------------------------------------------------------------------
  // getAllTours
  // ---------------------------------------------------------------------

  /** The listing's reply once the query has run; the tours themselves are not modelled. */
  function ListResponse(page: Option<QueryValue>, message: string): (r: Response)
    ensures r.statusCode == 200 && r.rawError.None?
    ensures "currentPage" in r.body && r.body["currentPage"] == Num(NumberOr(page, 1.0))
  {
    Response(200, map["status" := Str("success"), "currentPage" := Num(NumberOr(page, 1.0)),
                      "message" := Str(message)], None)
  }

  /** The reported page is the requested one when it is a non-zero number, else 1. */
  lemma CurrentPageDefaultsToOne(page: Option<QueryValue>)
    ensures CoerceQuery(page).None? || CoerceQuery(page) == Some(0.0) ==>
      ListResponse(page, "").body["currentPage"] == Num(1.0)
    ensures CoerceQuery(page).Some? && CoerceQuery(page) != Some(0.0) ==>
      ListResponse(page, "").body["currentPage"] == Num(CoerceQuery(page).value)
  {
  }

  /**
   * `getAllTours`: the builder chain over a fresh find, then the find hook
   * when the query runs; a step that raises goes to `next` instead.
   * `query` is the query as it is finally executed.
   */
  method GetAllTours(req: Request) returns (o: Outcome, query: Query)
    ensures fresh(query)
    ensures ChainOps(req.query, Some(ControlKeys)).Err? ==>
      o == Fail(ChainOps(req.query, Some(ControlKeys)).error)
    ensures ChainOps(req.query, Some(ControlKeys)).Ok? ==>
      query.ops == [Find(map[])] + ChainOps(req.query, Some(ControlKeys)).value + [ExcludeSecret]
      && o == Outcome(Some(ListResponse(Lookup(req.query, "page"), "Tours retrieved successsfully")), NotCalled)
  {
    query := NewFind();
    var features := new APIFeatures(query, req.query);
    var err := RunChain(features, Some(ControlKeys));
    if err.Some? {
      o := Fail(err.value);
      return;
    }
    PreFind(query);
    o := Outcome(Some(ListResponse(Lookup(req.query, "page"), "Tours retrieved successsfully")), NotCalled);
  }
}

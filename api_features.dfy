/**
 * The query feature builder: a class holding the store query under
 * construction and the request's query-string mapping. `filter`, `sort`,
 * `limitFields` and `paginate` each add operations to the query (or raise)
 * and return the builder, so a handler chains them.
 */
module ApiFeatures {
  import opened Wrappers
  import opened Js
  import opened OperatorRewrite
  import opened BodyFilter
  import opened MongoQuery
  import opened AppErrors

  /** `queryString[key]`; an absent key reads as `undefined`. */
  function Lookup(q: map<string, QueryValue>, key: string): (v: Option<QueryValue>)
    ensures v.Some? <==> key in q
    ensures key in q ==> v.value == q[key]
  {
    if key in q then Some(q[key]) else None
  }

  // ---------------------------------------------------------------------
  // filter
  // ---------------------------------------------------------------------

  /** The rewrite of every string a query value holds, as it reads back after the JSON round trip. */
  function RewriteValue(v: QueryValue): (r: QueryValue)
    ensures r.QStr? == v.QStr? && r.QList? == v.QList? && r.QObj? == v.QObj?
    ensures v.QStr? ==> r.s == PrefixOperators(v.s)
    ensures v.QList? ==> |r.items| == |v.items|
    ensures v.QList? ==> forall i :: 0 <= i < |v.items| ==> r.items[i] == PrefixOperators(v.items[i])
  {
    match v
    case QStr(s) => QStr(PrefixOperators(s))
    case QList(items) => QList(seq(|items|, i requires 0 <= i < |items| => PrefixOperators(items[i])))
    case QObj(entries) => QObj(RewriteEntries(entries))
  }

  /** The rewrite is one-to-one, so rewritten keys never collide. */
  lemma PrefixOperatorsOneToOne()
    ensures forall a, b :: PrefixOperators(a) == PrefixOperators(b) ==> a == b
  {
    forall a, b | PrefixOperators(a) == PrefixOperators(b) ensures a == b {
      PrefixOperatorsInjective(a, b);
    }
  }

  /** A bracketed sub-object with its keys and values rewritten. */
  function RewriteEntries(m: map<string, string>): (r: map<string, string>)
    ensures forall k :: k in m <==> PrefixOperators(k) in r
    ensures forall k :: k in m ==> r[PrefixOperators(k)] == PrefixOperators(m[k])
  {
    PrefixOperatorsOneToOne();
    var r := map k | k in m :: PrefixOperators(k) := PrefixOperators(m[k]);
    assert forall k :: PrefixOperators(k) in r ==> k in m;
    r
  }

  /**
   * `JSON.parse(JSON.stringify(obj).replace(/\b(gte|gt|lte|lt)\b/g, m => '$' + m))`:
   * JSON's delimiters are not word characters (see `RewriteAroundSeparator`),
   * so the text rewrite is the rewrite of each key and each string.
   */
  function RewriteCondition(m: map<string, QueryValue>): (r: map<string, QueryValue>)
    ensures forall k :: k in m <==> PrefixOperators(k) in r
    ensures forall k :: k in m ==> r[PrefixOperators(k)] == RewriteValue(m[k])
  {
    PrefixOperatorsOneToOne();
    var r := map k | k in m :: PrefixOperators(k) := RewriteValue(m[k]);
    assert forall k :: PrefixOperators(k) in r ==> k in m;
    r
  }

  /** The condition `filter(excluded)` passes to `find`. */
  function FilterCondition(q: map<string, QueryValue>, excluded: seq<string>): map<string, QueryValue> {
    RewriteCondition(Omit(q, excluded))
  }

  /**
   * The condition's keys are exactly the rewritten keys that were not
   * excluded, each carrying its rewritten value.
   */
  lemma FilterConditionKeys(q: map<string, QueryValue>, excluded: seq<string>, k: string)
    ensures PrefixOperators(k) in FilterCondition(q, excluded) <==> k in q && k !in excluded
    ensures k in q && k !in excluded ==>
      FilterCondition(q, excluded)[PrefixOperators(k)] == RewriteValue(q[k])
  {
  }

  /** An excluded key holding no operator word never reaches the condition. */
  lemma FilterDropsExcluded(q: map<string, QueryValue>, excluded: seq<string>, e: string)
    requires e in excluded && PrefixOperators(e) == e
    ensures e !in FilterCondition(q, excluded)
  {
  }

  /** Every key of the condition comes from a kept key of the query string. */
  lemma FilterConditionFromKept(q: map<string, QueryValue>, excluded: seq<string>, c: string)
    requires c in FilterCondition(q, excluded)
    ensures Strip(c) in q && Strip(c) !in excluded && PrefixOperators(Strip(c)) == c
  {
    var m := Omit(q, excluded);
    var k :| k in m && PrefixOperators(k) == c;
    StripRewrite(k, false);
  }

  // ---------------------------------------------------------------------
  // sort and limitFields
  // ---------------------------------------------------------------------

  /** The `TypeError` raised by calling `split` on an array or object. */
  function SplitTypeError(key: string): (e: JsError)
    ensures e.name == "TypeError" && !e.isOperational
  {
    JsError("TypeError", "this.queryString." + key + ".split is not a function", None, None, false, [])
  }

  /**
   * `v ? v.split(',').join(' ') : fallback`; a truthy non-string has no
   * `split` and raises.
   */
  function CommaListOr(v: Option<QueryValue>, key: string, fallback: string): (r: Result<string, JsError>)
    ensures !QueryTruthy(v) ==> r == Ok(fallback)
    ensures QueryTruthy(v) && v.value.QStr? ==> r == Ok(Join(Split(v.value.s, ','), " "))
    ensures QueryTruthy(v) && !v.value.QStr? ==> r == Err(SplitTypeError(key))
  {
    if !QueryTruthy(v) then Ok(fallback)
    else match v.value
      case QStr(s) => Ok(Join(Split(s, ','), " "))
      case _ => Err(SplitTypeError(key))
  }

  /** The sort specification: the client's fields, or newest first. */
  function SortSpec(q: map<string, QueryValue>): Result<string, JsError> {
    CommaListOr(Lookup(q, "sort"), "sort", "-createdAt")
  }

  /** The projection: the client's fields, or everything but the version key. */
  function ProjectionSpec(q: map<string, QueryValue>): Result<string, JsError> {
    CommaListOr(Lookup(q, "fields"), "fields", "-__v")
  }

  /**
   * A comma list keeps its field names, in order, with each comma turned
   * into a space; and reading the result back as a space list gives the
   * comma list's names.
   */
  lemma CommaListKeepsNames(s: string, key: string, fallback: string)
    requires s != ""
    ensures CommaListOr(Some(QStr(s)), key, fallback) == Ok(ReplaceChar(s, ',', ' '))
    ensures ' ' !in s ==> Split(CommaListOr(Some(QStr(s)), key, fallback).value, ' ') == Split(s, ',')
  {
    JoinSplitReplaces(s, ',', ' ');
    if ' ' !in s {
      var parts := Split(s, ',');
      forall i | 0 <= i < |parts| ensures ' ' !in parts[i] {
        SplitPartsFrom(s, ',', i, ' ');
      }
      SplitJoinRoundTrip(parts, ' ');
    }
  }

  /** A character absent from `s` is absent from every part of its split. */
  lemma {:induction false} SplitPartsFrom(s: string, sep: char, i: nat, c: char)
    requires c !in s && i < |Split(s, sep)|
    ensures c !in Split(s, sep)[i]
    decreases |s|
  {
    if s != [] {
      var rest := Split(s[1..], sep);
      if s[0] == sep {
        if i > 0 { SplitPartsFrom(s[1..], sep, i - 1, c); }
      } else {
        if i == 0 {
          SplitPartsFrom(s[1..], sep, 0, c);
          assert s[0] != c;
        } else {
          SplitPartsFrom(s[1..], sep, i, c);
        }
      }
    }
  }

  // ---------------------------------------------------------------------
  // paginate
  // ---------------------------------------------------------------------

  const DefaultPage: real := 1.0
  const DefaultLimit: real := 10.0

  /** The plain `Error` `paginate` throws when `page` or `limit` is missing. */
  const NoPageOrLimit: JsError :=
    JsError("Error", "No value specified for 'page' or 'limit'", None, None, false, [])

  /** The limit `paginate` keeps: a non-zero number up to the default, else the default. */
  function EffectiveLimit(limit: Option<QueryValue>): (l: real)
    ensures l <= DefaultLimit
    ensures l == DefaultLimit || (CoerceQuery(limit) == Some(l) && l != 0.0)
    ensures (CoerceQuery(limit).Some? && CoerceQuery(limit).value != 0.0
             && CoerceQuery(limit).value <= DefaultLimit) ==> l == CoerceQuery(limit).value
    ensures (CoerceQuery(limit).None? || CoerceQuery(limit).value == 0.0
             || CoerceQuery(limit).value > DefaultLimit) ==> l == DefaultLimit
  {
    var n := CoerceQuery(limit);
    if n.Some? && n.value != 0.0 && n.value <= DefaultLimit then n.value else DefaultLimit
  }

  /** `+page || defaultPage`. */
  function EffectivePage(page: Option<QueryValue>): real {
    NumberOr(page, DefaultPage)
  }

  /** The page and the limit `paginate` settles on; the offset follows from them. */
  datatype Plan = Plan(page: real, limit: real) {
    /** `(page - 1) * limit`: the records before the page. */
    function SkipRange(): real { (page - 1.0) * limit }
  }

  /** What `paginate` computes: the error, or the page and the limit. */
  function PaginationPlan(q: map<string, QueryValue>): (r: Result<Plan, JsError>)
    ensures r.Err? <==> !QueryTruthy(Lookup(q, "page")) || !QueryTruthy(Lookup(q, "limit"))
    ensures r.Err? ==> r.error == NoPageOrLimit
    ensures r.Ok? ==> r.value.limit == EffectiveLimit(Lookup(q, "limit")) && r.value.limit <= DefaultLimit
    ensures r.Ok? ==> r.value.page == EffectivePage(Lookup(q, "page"))
  {
    var page, limit := Lookup(q, "page"), Lookup(q, "limit");
    if !QueryTruthy(page) || !QueryTruthy(limit) then Err(NoPageOrLimit)
    else Ok(Plan(EffectivePage(page), EffectiveLimit(limit)))
  }

  /** A string of digits coerces to its decimal value. */
  lemma CoerceDigits(d: string)
    requires d != [] && forall i :: 0 <= i < |d| ==> IsDigit(d[i])
    ensures CoerceQuery(Some(QStr(d))) == Some(DigitsValue(d) as real)
  {
    ToNumberOfDigits(d);
  }

  // ---------------------------------------------------------------------
  // The builder
  // ---------------------------------------------------------------------

  /** The query-string keys that steer the builder; the listings never use them as filter conditions. */
  const ControlKeys: seq<string> := ["page", "sort", "limit", "fields"]

  class APIFeatures {
    const defaultPage: real := DefaultPage
    const defaultLimit: real := DefaultLimit
    var query: Query
    var queryString: map<string, QueryValue>

    constructor (query: Query, queryString: map<string, QueryValue>)
      ensures this.query == query && this.queryString == queryString
    {
      this.query := query;
      this.queryString := queryString;
    }

    /**
     * Copies the query string, deletes the excluded keys from the copy, and
     * adds the rewritten copy as a `find` condition.
     */
    method Filter(excluded: seq<string>)
      modifies query
      ensures query.ops == old(query.ops) + [Find(FilterCondition(queryString, excluded))]
    {
      var queryObj := queryString;
      var i := 0;
      while i < |excluded|
        invariant 0 <= i <= |excluded|
        invariant queryObj == Omit(queryString, excluded[..i])
      {
        queryObj := queryObj - {excluded[i]};
        i := i + 1;
      }
      assert excluded[..i] == excluded;
      query.Append(Find(RewriteCondition(queryObj)));
    }

    /** Adds the sort, or raises for a non-string `sort` and adds nothing. */
    method Sort() returns (err: Option<JsError>)
      modifies query
      ensures SortSpec(queryString).Ok? ==>
        err.None? && query.ops == old(query.ops) + [Op.Sort(SortSpec(queryString).value)]
      ensures SortSpec(queryString).Err? ==>
        err == Some(SortSpec(queryString).error) && query.ops == old(query.ops)
    {
      var spec := CommaListOr(Lookup(queryString, "sort"), "sort", "-createdAt");
      if spec.Ok? {
        query.Append(Op.Sort(spec.value));
        err := None;
      } else {
        err := Some(spec.error);
      }
    }

    /** Adds the projection, or raises for a non-string `fields` and adds nothing. */
    method LimitFields() returns (err: Option<JsError>)
      modifies query
      ensures ProjectionSpec(queryString).Ok? ==>
        err.None? && query.ops == old(query.ops) + [Select(ProjectionSpec(queryString).value)]
      ensures ProjectionSpec(queryString).Err? ==>
        err == Some(ProjectionSpec(queryString).error) && query.ops == old(query.ops)
    {
      var spec := CommaListOr(Lookup(queryString, "fields"), "fields", "-__v");
      if spec.Ok? {
        query.Append(Select(spec.value));
        err := None;
      } else {
        err := Some(spec.error);
      }
    }

    /** Adds `skip` and `limit`, or raises when `page` or `limit` is missing and adds nothing. */
    method Paginate() returns (err: Option<JsError>)
      modifies query
      ensures PaginationPlan(queryString).Ok? ==>
        err.None? && query.ops == old(query.ops) + [Skip(PaginationPlan(queryString).value.SkipRange()),
                                                    Limit(PaginationPlan(queryString).value.limit)]
      ensures PaginationPlan(queryString).Err? ==>
        err == Some(NoPageOrLimit) && query.ops == old(query.ops)
    {
      var page, limitValue := Lookup(queryString, "page"), Lookup(queryString, "limit");
      if !QueryTruthy(page) || !QueryTruthy(limitValue) {
        err := Some(NoPageOrLimit);
        return;
      }
      var l := EffectiveLimit(limitValue);
      var p := EffectivePage(page);
      var plan := Plan(p, l);
      query.Append(Skip(plan.SkipRange()));
      query.Append(Limit(l));
      err := None;
    }
  }

  /** The operations a full filter, sort, limitFields, paginate chain adds, or the first error. */
  function ChainOps(q: map<string, QueryValue>, excluded: Option<seq<string>>): (r: Result<seq<Op>, JsError>)
    ensures r.Ok? ==> SortSpec(q).Ok? && ProjectionSpec(q).Ok? && PaginationPlan(q).Ok?
    ensures r.Ok? ==> |r.value| == (if excluded.Some? then 5 else 4)
  {
    var filterOps := if excluded.Some? then [Find(FilterCondition(q, excluded.value))] else [];
    match SortSpec(q)
    case Err(e) => Err(e)
    case Ok(s) =>
      match ProjectionSpec(q)
      case Err(e) => Err(e)
      case Ok(f) =>
        match PaginationPlan(q)
        case Err(e) => Err(e)
        case Ok(plan) => Ok(filterOps + [Op.Sort(s), Select(f), Skip(plan.SkipRange()), Limit(plan.limit)])
  }

  /**
   * `features.filter(excluded).sort().limitFields().paginate()` (the filter
   * step only when `excluded` is given). A step that raises ends the chain.
   */
  method RunChain(features: APIFeatures, excluded: Option<seq<string>>) returns (err: Option<JsError>)
    modifies features.query
    ensures ChainOps(features.queryString, excluded).Ok? ==>
      err.None? && features.query.ops == old(features.query.ops) + ChainOps(features.queryString, excluded).value
    ensures ChainOps(features.queryString, excluded).Err? ==>
      err == Some(ChainOps(features.queryString, excluded).error)
  {
    var q := features.queryString;
    ghost var ops0 := features.query.ops;
    if excluded.Some? {
      features.Filter(excluded.value);
    }
    ghost var filterOps := if excluded.Some? then [Find(FilterCondition(q, excluded.value))] else [];
    assert features.query.ops == ops0 + filterOps;
    err := features.Sort();
    if err.Some? {
      assert ChainOps(q, excluded) == Err(SortSpec(q).error);
      return;
    }
    err := features.LimitFields();
    if err.Some? {
      assert ChainOps(q, excluded) == Err(ProjectionSpec(q).error);
      return;
    }
    err := features.Paginate();
    if err.Some? {
      assert ChainOps(q, excluded) == Err(NoPageOrLimit);
    } else {
      ChainOpsValue(q, excluded, ops0, features.query.ops);
    }
  }

  /** The operations of a chain in which no step raises. */
  lemma ChainOpsValue(q: map<string, QueryValue>, excluded: Option<seq<string>>, ops0: seq<Op>, ops: seq<Op>)
    requires SortSpec(q).Ok? && ProjectionSpec(q).Ok? && PaginationPlan(q).Ok?
    requires ops == ops0 + (if excluded.Some? then [Find(FilterCondition(q, excluded.value))] else [])
      + [Op.Sort(SortSpec(q).value)] + [Select(ProjectionSpec(q).value)]
      + [Skip(PaginationPlan(q).value.SkipRange()), Limit(PaginationPlan(q).value.limit)]
    ensures ChainOps(q, excluded).Ok? && ops == ops0 + ChainOps(q, excluded).value
  {
    var filterOps := if excluded.Some? then [Find(FilterCondition(q, excluded.value))] else [];
    var tail := [Op.Sort(SortSpec(q).value), Select(ProjectionSpec(q).value),
                 Skip(PaginationPlan(q).value.SkipRange()), Limit(PaginationPlan(q).value.limit)];
    assert ChainOps(q, excluded) == Ok(filterOps + tail);
    Regroup(ops0, filterOps, tail[0], tail[1], tail[2], tail[3]);
  }

  /** Appending four operations one call at a time appends them as a block. */
  lemma Regroup<T>(ops0: seq<T>, f: seq<T>, a: T, b: T, c: T, d: T)
    ensures ops0 + f + [a] + [b] + [c, d] == ops0 + (f + [a, b, c, d])
  {
  }

  /** Without a truthy `page` and `limit` the chain always raises. */
  lemma PaginateNeedsPageAndLimit(q: map<string, QueryValue>, excluded: Option<seq<string>>)
    requires !QueryTruthy(Lookup(q, "page")) || !QueryTruthy(Lookup(q, "limit"))
    ensures ChainOps(q, excluded).Err?
  {
  }

  /**
   * The builder's operations come in the order of the chain: the filter
   * condition, then sort, projection, skip and limit.
   */
  lemma ChainOrder(q: map<string, QueryValue>, excluded: seq<string>)
    requires ChainOps(q, Some(excluded)).Ok?
    ensures |ChainOps(q, Some(excluded)).value| == 5
    ensures ChainOps(q, Some(excluded)).value[0] == Find(FilterCondition(q, excluded))
    ensures ChainOps(q, Some(excluded)).value[1] == Op.Sort(SortSpec(q).value)
    ensures ChainOps(q, Some(excluded)).value[2] == Select(ProjectionSpec(q).value)
    ensures ChainOps(q, Some(excluded)).value[3].Skip?
    ensures ChainOps(q, Some(excluded)).value[4] == Limit(PaginationPlan(q).value.limit)
  {
    var plan := PaginationPlan(q).value;
    var chain := [] + [Find(FilterCondition(q, excluded))] + [Op.Sort(SortSpec(q).value)]
                 + [Select(ProjectionSpec(q).value)] + [Skip(plan.SkipRange()), Limit(plan.limit)];
    ChainOpsValue(q, Some(excluded), [], chain);
    assert ChainOps(q, Some(excluded)).value == chain;
  }
}

/**
 * The store's query and aggregation builders, as far as the API drives
 * them: a query is the ordered list of operations chained onto it, and
 * every chained call appends to that list and returns the same query
 * object. Running a query is outside this model.
 */
module MongoQuery {
  import opened Js

  /**
   * One chained query operation:
   * `find(cond)`, `find({ secretTour: { $ne: true } })`, `sort(s)`,
   * `select(s)`, `skip(n)`, `limit(n)` and `populate({ path, select })`.
   */
  datatype Op =
    | Find(cond: map<string, QueryValue>)
    | ExcludeSecret
    | Sort(spec: string)
    | Select(fields: string)
    | Skip(n: real)
    | Limit(n: real)
    | Populate(path: string, select: string)

  /** A query object; `Model.find()` starts one with an empty condition. */
  class Query {
    var ops: seq<Op>

    constructor (ops0: seq<Op>)
      ensures ops == ops0
    {
      ops := ops0;
    }

    /** A chained call: the operation goes at the end. */
    method Append(op: Op)
      modifies this
      ensures ops == old(ops) + [op]
    {
      ops := ops + [op];
    }
  }

  /** `Model.find()`. */
  method NewFind() returns (q: Query)
    ensures fresh(q) && q.ops == [Find(map[])]
  {
    q := new Query([Find(map[])]);
  }

  /** One stage of an aggregation pipeline. */
  datatype Stage =
    | MatchNotSecret
    | OtherStage(id: nat)

  /** An aggregation whose pipeline the pre-aggregate hook may edit in place. */
  class Aggregate {
    var pipeline: seq<Stage>

    constructor (stages: seq<Stage>)
      ensures pipeline == stages
    {
      pipeline := stages;
    }

    /** `pipeline().unshift(stage)`. */
    method Unshift(stage: Stage)
      modifies this
      ensures pipeline == [stage] + old(pipeline)
    {
      pipeline := [stage] + pipeline;
    }
  }
}

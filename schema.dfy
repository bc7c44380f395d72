/**
 * What the store's schemas have in common: per-path validation errors,
 * the required check on strings, the `trim` setter, and the
 * `ValidationError` a failed save raises.
 */
module Schema {
  import opened Wrappers
  import opened Js
  import opened AppErrors

  /** A validation failure on one path. */
  datatype FieldError = FieldError(path: string, message: string)

  /** The store's required check on a string: present and not empty. */
  predicate Present(v: Option<string>) { v.Some? && v.value != "" }

  /** The `trim` setter of a string path; `undefined` stays unset. */
  function TrimmedOrUnset(v: Option<string>): (r: Option<string>)
    ensures r.Some? == v.Some? && (v.Some? ==> r.value == Trim(v.value))
  {
    if v.Some? then Some(Trim(v.value)) else None
  }

  /** A body value assigned to a string path: strings as they are, anything else unset. */
  function AsString(v: JsValue): (r: Option<string>)
    ensures r.Some? <==> v.Str?
    ensures v.Str? ==> r.value == v.s
  {
    if v.Str? then Some(v.s) else None
  }

  /** The store's built-in message for a number below `min`; `show` renders a number. */
  function MinMessage(path: string, value: real, min: real, show: real -> string): string {
    "Path `" + path + "` (" + show(value) + ") is less than minimum allowed value (" + show(min) + ")."
  }

  /** The store's built-in message for a number above `max`; `show` renders a number. */
  function MaxMessage(path: string, value: real, max: real, show: real -> string): string {
    "Path `" + path + "` (" + show(value) + ") is more than maximum allowed value (" + show(max) + ")."
  }

  /** An optional error as a list of at most one. */
  function Listed<T>(o: Option<T>): (r: seq<T>)
    ensures r == [] <==> o.None?
    ensures o.Some? ==> r == [o.value]
  {
    if o.Some? then [o.value] else []
  }

  /** The present values of a list of options, in order. */
  function Somes<T>(xs: seq<Option<T>>): (r: seq<T>)
    ensures |r| <= |xs|
  {
    if xs == [] then [] else (if xs[0].Some? then [xs[0].value] else []) + Somes(xs[1..])
  }

  /** A value is among the `Somes` exactly when some entry holds it. */
  lemma {:induction false} SomesMembers<T>(xs: seq<Option<T>>)
    ensures forall x :: x in Somes(xs) <==> Some(x) in xs
  {
    if xs != [] {
      SomesMembers(xs[1..]);
      assert xs == [xs[0]] + xs[1..];
    }
  }

  /** No present value, no result. */
  lemma {:induction false} SomesOfNone<T>(xs: seq<Option<T>>)
    requires forall i :: 0 <= i < |xs| ==> xs[i].None?
    ensures Somes(xs) == []
  {
    if xs != [] { SomesOfNone(xs[1..]); }
  }

  /** The `ValidationError` a failed save raises: one message per failing path. */
  function ValidationFailure(model: string, errs: seq<FieldError>): (e: JsError)
    requires errs != []
    ensures e.name == "ValidationError" && |e.errors| == |errs|
    ensures forall i :: 0 <= i < |errs| ==> e.errors[i] == errs[i].message
  {
    JsError("ValidationError", model + " validation failed: " + JoinFieldErrors(errs), None, None, false,
            seq(|errs|, i requires 0 <= i < |errs| => errs[i].message))
  }

  /** `path: message` entries joined with `, `. */
  function JoinFieldErrors(errs: seq<FieldError>): string {
    if errs == [] then ""
    else if |errs| == 1 then errs[0].path + ": " + errs[0].message
    else errs[0].path + ": " + errs[0].message + ", " + JoinFieldErrors(errs[1..])
  }
}

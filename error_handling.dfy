/**
 * The central error handler: the error every failed handler passes to
 * `next` is given a status and a code, then either sent raw
 * (development), translated and sent without internals (production), or
 * not answered at all (any other environment). `next()` is called after
 * it in every environment.
 */
module ErrorHandling {
  import opened Wrappers
  import opened Js
  import opened AppErrors
  import opened Http

  /** The value of `NODE_ENV`, as far as the handler tells it apart. */
  datatype Env = Development | Production | Other

  const JwtInvalidMessage: string := "Invalid token. Please login again."
  const JwtExpiredMessage: string := "Token expired. Please login again."
  const MaskMessage: string := "Something went wrong."

  // ---------------------------------------------------------------------
  // Senders
  // ---------------------------------------------------------------------

  /** Development: the error's own code, status and message, and the raw error object. */
  function SendErrDevelopment(err: JsError): (r: Response)
    requires err.statusCode.Some? && err.status.Some?
    ensures r.statusCode == err.statusCode.value && r.rawError == Some(err)
    ensures r.body.Keys == {"status", "message"}
    ensures r.body["status"] == Str(err.status.value) && r.body["message"] == Str(err.message)
  {
    Response(err.statusCode.value,
             map["status" := Str(err.status.value), "message" := Str(err.message)],
             Some(err))
  }

  /**
   * Production: an operational error shows its own code, status and
   * message; any other error is masked as a 500 whose text tells nothing.
   * The raw error never leaves.
   */
  function SendErrProduction(err: JsError): (r: Response)
    requires err.isOperational ==> err.statusCode.Some? && err.status.Some?
    ensures r.rawError.None? && r.body.Keys == {"status", "message"}
    ensures err.isOperational ==>
      r == StatusMessage(err.statusCode.value, err.status.value, err.message)
    ensures !err.isOperational ==> r == StatusMessage(500, "error", MaskMessage)
  {
    if err.isOperational then StatusMessage(err.statusCode.value, err.status.value, err.message)
    else StatusMessage(500, "error", MaskMessage)
  }

  // ---------------------------------------------------------------------
  // Translations
  // ---------------------------------------------------------------------

  /** A token that fails verification becomes a client error telling the user to log in again. */
  function HandleJwtError(): (e: JsError)
    ensures e.isOperational && e.statusCode == Some(400) && e.status == Some("fail")
    ensures e.message == JwtInvalidMessage
  {
    AppError(JwtInvalidMessage, 400)
  }

  /** An expired token becomes a client error telling the user to log in again. */
  function HandleJwtExpiredError(): (e: JsError)
    ensures e.isOperational && e.statusCode == Some(400) && e.status == Some("fail")
    ensures e.message == JwtExpiredMessage
  {
    AppError(JwtExpiredMessage, 400)
  }

  /**
   * A store validation error becomes a client error listing every field
   * message, in order, after a fixed prefix.
   */
  function HandleValidateErrorDB(err: JsError): (e: JsError)
    ensures e.isOperational && e.statusCode == Some(400) && e.status == Some("fail")
    ensures e.message == "Invalid input data. " + Join(err.errors, ", ")
  {
    AppError("Invalid input data. " + Join(err.errors, ", "), 400)
  }

  /** Each field message can be read back from the translated text. */
  lemma ValidateErrorListsFields(err: JsError)
    requires forall i :: 0 <= i < |err.errors| ==> ',' !in err.errors[i]
    ensures Split(HandleValidateErrorDB(err).message[|"Invalid input data. "|..], ',') ==
      (if err.errors == [] then [""] else [err.errors[0]] + Spaced(err.errors[1..]))
  {
    var msg := HandleValidateErrorDB(err).message;
    assert msg[|"Invalid input data. "|..] == Join(err.errors, ", ");
    JoinCommaSpaceSplits(err.errors);
  }

  /** Each part with a leading space: how the parts after the first come out of a split at commas. */
  function Spaced(parts: seq<string>): (r: seq<string>)
    ensures |r| == |parts|
    ensures forall i :: 0 <= i < |parts| ==> r[i] == " " + parts[i]
  {
    if parts == [] then [] else [" " + parts[0]] + Spaced(parts[1..])
  }

  /** Splitting `parts.join(', ')` at commas gives the parts back, each after the first with its space. */
  lemma {:induction false} JoinCommaSpaceSplits(parts: seq<string>)
    requires forall i :: 0 <= i < |parts| ==> ',' !in parts[i]
    ensures Split(Join(parts, ", "), ',') == (if parts == [] then [""] else [parts[0]] + Spaced(parts[1..]))
  {
    if |parts| == 1 {
      SplitPrefix(parts[0], "", ',');
      assert parts[0] + "" == parts[0];
      assert Spaced(parts[1..]) == [];
    } else if |parts| > 1 {
      var tail := parts[1..];
      JoinCommaSpaceSplits(tail);
      var rest := Join(tail, ", ");
      var t := Split(rest, ',');
      assert t == [tail[0]] + Spaced(tail[1..]);
      SplitPrefix(" ", rest, ',');
      var spaced := Split(" " + rest, ',');
      assert spaced == [" " + t[0]] + t[1..];
      assert t[1..] == Spaced(tail[1..]);
      assert spaced == Spaced(tail);
      var comma := [','] + (" " + rest);
      assert comma[1..] == " " + rest;
      assert Split(comma, ',') == [""] + spaced;
      assert Join(parts, ", ") == parts[0] + comma;
      SplitPrefix(parts[0], comma, ',');
      assert parts[0] + "" == parts[0] && ([""] + spaced)[1..] == spaced;
    }
  }

  // ---------------------------------------------------------------------
  // The handler
  // ---------------------------------------------------------------------

  /** `status` and `statusCode` after their defaults: an unset or falsy value is replaced. */
  function WithDefaults(err: JsError): (d: JsError)
    ensures d.status.Some? && d.status.value != "" && d.statusCode.Some? && d.statusCode.value != 0
    ensures err.status.Some? && err.status.value != "" ==> d.status == err.status
    ensures err.status.None? || err.status.value == "" ==> d.status == Some("error")
    ensures err.statusCode.Some? && err.statusCode.value != 0 ==> d.statusCode == err.statusCode
    ensures err.statusCode.None? || err.statusCode.value == 0 ==> d.statusCode == Some(500)
    ensures d.name == err.name && d.message == err.message && d.errors == err.errors
    ensures d.isOperational == err.isOperational
  {
    var status := if err.status.Some? && err.status.value != "" then err.status else Some("error");
    var code := if err.statusCode.Some? && err.statusCode.value != 0 then err.statusCode else Some(500);
    err.(status := status, statusCode := code)
  }

  /**
   * The production translation exactly as the chain of `if`s runs it. The
   * last test has an `else`, so every error that is not an expired token
   * ends as a fresh application error carrying the ORIGINAL message, with
   * the code the earlier steps left (400 after a validation or token
   * error, the error's own otherwise).
   */
  function ProductionError(err: JsError): (e: JsError)
    requires err.statusCode.Some?
  {
    var afterValidation := if err.name == "ValidationError" then HandleValidateErrorDB(err) else err;
    var afterJwt := if afterValidation.name == "JsonWebTokenError" then HandleJwtError() else afterValidation;
    if afterJwt.name == "TokenExpiredError" then HandleJwtExpiredError()
    else NewAppError(err.message, afterJwt.statusCode)
  }

  /** Whether the error is one of those the production handler translates. */
  predicate Translated(name: string) {
    name == "ValidationError" || name == "JsonWebTokenError" || name == "TokenExpiredError"
  }

  /**
   * What the production chain produces, case by case: always operational,
   * so the masked reply is never reached; the message is the expired-token
   * text or the error's own message, never the text of the other two
   * translations.
   */
  lemma ProductionErrorCases(err: JsError)
    requires err.statusCode.Some?
    ensures ProductionError(err).isOperational && ProductionError(err).status.Some?
    ensures ProductionError(err).statusCode == Some(if Translated(err.name) then 400 else err.statusCode.value)
    ensures err.name == "TokenExpiredError" ==> ProductionError(err) == HandleJwtExpiredError()
    ensures err.name != "TokenExpiredError" ==> ProductionError(err).message == err.message
  {
  }

  /**
   * `globalErrorHandler`: the response each environment writes, and the
   * call `next()` that always follows it.
   */
  function GlobalErrorHandler(err: JsError, env: Env): (o: Outcome)
    ensures o.next == Called
    ensures env == Other ==> o.response.None?
    ensures env == Development ==> o.response == Some(SendErrDevelopment(WithDefaults(err)))
    ensures env == Production ==> o.response.Some? && o.response.value.rawError.None?
  {
    var e := WithDefaults(err);
    match env
    case Development => Outcome(Some(SendErrDevelopment(e)), Called)
    case Production => Outcome(Some(SendErrProduction(ProductionError(e))), Called)
    case Other => Outcome(None, Called)
  }

  /**
   * In production every error reaches the client with its own message and
   * an `'error'`/`'fail'` status matching its code, even one that is not
   * operational: only an expired token is reworded.
   */
  lemma ProductionShowsOwnMessage(err: JsError)
    requires err.name != "TokenExpiredError"
    ensures var code := if Translated(err.name) then 400 else WithDefaults(err).statusCode.value;
      GlobalErrorHandler(err, Production).response ==
        Some(StatusMessage(code, DerivedStatus(Some(code)), err.message))
  {
    ProductionErrorCases(WithDefaults(err));
  }

  /** An expired token is answered with the fixed client error in production. */
  lemma ProductionExpiredToken(err: JsError)
    requires err.name == "TokenExpiredError"
    ensures GlobalErrorHandler(err, Production).response ==
      Some(StatusMessage(400, "fail", JwtExpiredMessage))
  {
    ProductionErrorCases(WithDefaults(err));
  }

  /** The masking reply can only appear when the error itself carries the masking text. */
  lemma ProductionNeverMasks(err: JsError)
    requires err.message != MaskMessage
    ensures GlobalErrorHandler(err, Production).response != Some(StatusMessage(500, "error", MaskMessage))
  {
    ProductionErrorCases(WithDefaults(err));
  }

  /**
   * The chain as evidently intended, each translation standing: a
   * validation error lists its field messages, a bad token and an expired
   * token get their fixed texts, and only any other error is rebuilt from
   * its own message and code.
   */
  function ProductionErrorIntended(err: JsError): (e: JsError)
    requires err.statusCode.Some?
    ensures e.isOperational && e.statusCode.Some? && e.status.Some?
  {
    if err.name == "ValidationError" then HandleValidateErrorDB(err)
    else if err.name == "JsonWebTokenError" then HandleJwtError()
    else if err.name == "TokenExpiredError" then HandleJwtExpiredError()
    else NewAppError(err.message, err.statusCode)
  }

  /** The intended chain keeps what each translation wrote. */
  lemma IntendedKeepsTranslations(err: JsError)
    requires err.statusCode.Some?
    ensures err.name == "ValidationError" ==>
      ProductionErrorIntended(err).message == "Invalid input data. " + Join(err.errors, ", ")
    ensures err.name == "JsonWebTokenError" ==> ProductionErrorIntended(err).message == JwtInvalidMessage
    ensures err.name == "TokenExpiredError" ==> ProductionErrorIntended(err).message == JwtExpiredMessage
    ensures !Translated(err.name) ==>
      ProductionErrorIntended(err) == ProductionError(err)
  {
  }

  /**
   * The handler as evidently intended: the same except that production
   * replies come from the intended chain, so a validation error and a bad
   * token reach the client translated.
   */
  function GlobalErrorHandlerIntended(err: JsError, env: Env): (o: Outcome)
    ensures o.next == Called
    ensures env != Production || !(err.name == "ValidationError" || err.name == "JsonWebTokenError") ==>
      o == GlobalErrorHandler(err, env)
    ensures env == Production && err.name == "ValidationError" ==>
      o.response == Some(StatusMessage(400, "fail", "Invalid input data. " + Join(err.errors, ", ")))
    ensures env == Production && err.name == "JsonWebTokenError" ==>
      o.response == Some(StatusMessage(400, "fail", JwtInvalidMessage))
  {
    var e := WithDefaults(err);
    IntendedKeepsTranslations(e);
    match env
    case Development => Outcome(Some(SendErrDevelopment(e)), Called)
    case Production => Outcome(Some(SendErrProduction(ProductionErrorIntended(e))), Called)
    case Other => Outcome(None, Called)
  }

  /** Any validation error, or bad token, keeps its original message as written and gets its translation as intended. */
  lemma TranslationLost(err: JsError)
    requires err.statusCode.Some? && (err.name == "ValidationError" || err.name == "JsonWebTokenError")
    ensures ProductionError(err).message == err.message
    ensures err.name == "ValidationError" ==>
      ProductionErrorIntended(err).message == "Invalid input data. " + Join(err.errors, ", ")
    ensures err.name == "JsonWebTokenError" ==> ProductionErrorIntended(err).message == JwtInvalidMessage
  {
    ProductionErrorCases(err);
    IntendedKeepsTranslations(err);
  }

  /** As written, a validation error's field messages are lost: the client sees the error's original message. */
  lemma ValidationMessageOverwritten()
    ensures var v := JsError("ValidationError", "User validation failed", Some(500), Some("error"), false,
                             ["Please input name"]);
      ProductionError(v).message == "User validation failed"
      && ProductionErrorIntended(v).message == "Invalid input data. " + "Please input name"
  {
    var v := JsError("ValidationError", "User validation failed", Some(500), Some("error"), false,
                     ["Please input name"]);
    TranslationLost(v);
    assert Join(v.errors, ", ") == "Please input name";
  }

  /** As written, a bad token's fixed text is lost as well. */
  lemma JwtMessageOverwritten()
    ensures var j := JsError("JsonWebTokenError", "invalid signature", Some(500), Some("error"), false, []);
      ProductionError(j).message == "invalid signature"
      && ProductionErrorIntended(j).message == JwtInvalidMessage
  {
    var j := JsError("JsonWebTokenError", "invalid signature", Some(500), Some("error"), false, []);
    TranslationLost(j);
  }
}

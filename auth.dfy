/**
 * Sign-in, password reset and access control. The token signer and
 * verifier, sha256 and bcrypt's compare are parameters; the user store is
 * a list of records searched in order, as `findOne` returns the first
 * match.
 */
module Auth {
  import opened Wrappers
  import opened Js
  import opened AppErrors
  import opened Http
  import opened Schema
  import opened UserModel
  import opened Requests

  // ---------------------------------------------------------------------
  // The store
  // ---------------------------------------------------------------------

  /** `findOne(filter)`: the first record the filter matches. */
  function FindFirst(store: seq<UserRecord>, matches: UserRecord -> bool): (r: Option<UserRecord>)
    ensures r.Some? ==> r.value in store && matches(r.value)
    ensures r.None? ==> forall u :: u in store ==> !matches(u)
  {
    if store == [] then None
    else if matches(store[0]) then Some(store[0])
    else FindFirst(store[1..], matches)
  }

  /** `{ email: v }` matches a record whose email is the string `v`. */
  predicate EmailMatches(u: UserRecord, v: JsValue) {
    v.Str? && u.email == Some(v.s)
  }

  /** `findById(id)`; an absent id finds nothing. */
  predicate IdMatches(u: UserRecord, id: Option<string>) {
    id.Some? && u.id == id
  }

  // ---------------------------------------------------------------------
  // signJwtToken
  // ---------------------------------------------------------------------

  /** `signJwtToken({ userId, next })`: an absent id is refused before anything is signed. */
  function SignJwtToken(userId: Option<string>, sign: string -> string): (r: Result<string, JsError>)
    ensures r.Err? <==> userId.None?
    ensures r.Err? ==> r.error == NewAppError("Invalid user Id", None)
    ensures r.Ok? ==> r.value == sign(userId.value)
  {
    if userId.None? then Err(NewAppError("Invalid user Id", None)) else Ok(sign(userId.value))
  }

  /** The token a response carries: the signed token, or the `undefined` that `next` returned. */
  function TokenValue(t: Result<string, JsError>): JsValue {
    if t.Ok? then Str(t.value) else Undefined
  }

  /** A success response carrying a token; a refused signing has already called `next` with its error. */
  function AfterSigning(code: int, message: string, t: Result<string, JsError>): (o: Outcome)
    ensures o.response.Some? && o.response.value.statusCode == code && "data" in o.response.value.body
    ensures o.response.value.body["data"] == Obj(map["token" := TokenValue(t)])
    ensures o.next == if t.Err? then CalledWith(t.error) else NotCalled
  {
    Outcome(Some(Response(code, map["status" := Str("success"), "message" := Str(message),
                                    "data" := Obj(map["token" := TokenValue(t)])], None)),
            if t.Err? then CalledWith(t.error) else NotCalled)
  }

  // ---------------------------------------------------------------------
  // login
  // ---------------------------------------------------------------------

  const MissingCredentials: JsError := AppError("Please provide email and password", 400)
  const BadCredentials: JsError := AppError("Invalid Email or Password", 401)

  /** `login`: both credentials required, one answer for an unknown email and a wrong password. */
  function Login(body: JsValue, store: seq<UserRecord>, compare: (JsValue, Option<string>) -> bool,
                 sign: string -> string): (o: Outcome)
    ensures !Truthy(Get(body, "email")) || !Truthy(Get(body, "password")) ==> o == Fail(MissingCredentials)
    ensures o.next != Called
  {
    var email, password := Get(body, "email"), Get(body, "password");
    if !Truthy(email) || !Truthy(password) then Fail(MissingCredentials)
    else
      var user := FindFirst(store, u => EmailMatches(u, email));
      if user.None? || !compare(password, user.value.password) then Fail(BadCredentials)
      else AfterSigning(200, "Successfully logged in", SignJwtToken(user.value.id, sign))
  }

  /** Missing credentials are refused whatever the store holds: no lookup is made. */
  lemma LoginChecksBeforeLookup(body: JsValue, s1: seq<UserRecord>, s2: seq<UserRecord>,
                                c1: (JsValue, Option<string>) -> bool, c2: (JsValue, Option<string>) -> bool,
                                sign: string -> string)
    requires !Truthy(Get(body, "email")) || !Truthy(Get(body, "password"))
    ensures Login(body, s1, c1, sign) == Login(body, s2, c2, sign) == Fail(MissingCredentials)
  {
  }

  /** An unknown email and a wrong password get the same answer. */
  lemma LoginHidesWhichCheckFailed(body: JsValue, store: seq<UserRecord>,
                                   compare: (JsValue, Option<string>) -> bool, sign: string -> string)
    requires Truthy(Get(body, "email")) && Truthy(Get(body, "password"))
    ensures (forall u :: u in store ==> !EmailMatches(u, Get(body, "email"))) ==>
      Login(body, store, compare, sign) == Fail(BadCredentials)
    ensures (forall u :: u in store && EmailMatches(u, Get(body, "email")) ==> !compare(Get(body, "password"), u.password)) ==>
      Login(body, store, compare, sign) == Fail(BadCredentials)
  {
  }

  /** A successful login answers 200 with the token signed for the first user with that email. */
  lemma LoginSucceeds(body: JsValue, store: seq<UserRecord>, compare: (JsValue, Option<string>) -> bool,
                      sign: string -> string, i: nat)
    requires Truthy(Get(body, "email")) && Truthy(Get(body, "password"))
    requires i < |store| && EmailMatches(store[i], Get(body, "email"))
    requires forall j :: 0 <= j < i ==> !EmailMatches(store[j], Get(body, "email"))
    requires compare(Get(body, "password"), store[i].password) && store[i].id.Some?
    ensures Login(body, store, compare, sign) ==
      AfterSigning(200, "Successfully logged in", Ok(sign(store[i].id.value)))
  {
    FirstMatchAt(store, u => EmailMatches(u, Get(body, "email")), i);
  }

  /** The first match is the one at the first matching index. */
  lemma {:induction false} FirstMatchAt(store: seq<UserRecord>, matches: UserRecord -> bool, i: nat)
    requires i < |store| && matches(store[i])
    requires forall j :: 0 <= j < i ==> !matches(store[j])
    ensures FindFirst(store, matches) == Some(store[i])
  {
    if i > 0 {
      FirstMatchAt(store[1..], matches, i - 1);
    }
  }

  // ---------------------------------------------------------------------
  // forgotPassword
  // ---------------------------------------------------------------------

  const UnknownEmail: JsError := AppError("User with this email does not exist.", 404)

  /** `user.createPasswordResetToken()` on a user model that does not define it. */
  const NoResetTokenMethod: JsError :=
    JsError("TypeError", "user.createPasswordResetToken is not a function", None, None, false, [])

  /**
   * `forgotPassword`: an unknown email is refused with 404; for a known one
   * the reset-token method is called, which the user model does not define.
   */
  function ForgotPassword(body: JsValue, store: seq<UserRecord>): (o: Outcome)
    ensures (forall u :: u in store ==> !EmailMatches(u, Get(body, "email"))) ==> o == Fail(UnknownEmail)
    ensures (exists u :: u in store && EmailMatches(u, Get(body, "email"))) ==> o == Fail(NoResetTokenMethod)
  {
    var user := FindFirst(store, u => EmailMatches(u, Get(body, "email")));
    if user.None? then Fail(UnknownEmail) else Fail(NoResetTokenMethod)
  }

  const ResetTokenKey := "passwordResetToken"
  const ResetExpiresKey := "passwordResetExpires"
  const EmailFailed: JsError := AppError("Error! Something went wrong when sending email.", 500)

  /**
   * The handler for a failed email: both reset fields are cleared and the
   * user saved without validation; `next` gets a 500 error and the 200
   * reply is still sent once the chain settles.
   */
  method EmailFailureRollback(user: UserDocument, isEmail: string -> bool, hash: string -> string)
    returns (o: Outcome)
    modifies user
    ensures ResetTokenKey !in user.extra && ResetExpiresKey !in user.extra
    ensures user.extra == old(user.extra) - {ResetTokenKey, ResetExpiresKey}
    ensures "password" !in old(user.modified) ==>
      o == Outcome(Some(StatusMessage(200, "success", "Password reset token sent to email.")), CalledWith(EmailFailed))
  {
    user.SetExtra(ResetTokenKey, Undefined);
    user.SetExtra(ResetExpiresKey, Undefined);
    var saved := user.Save(false, isEmail, hash);
    if saved.Err? {
      o := Fail(saved.error);
      return;
    }
    o := Outcome(Some(StatusMessage(200, "success", "Password reset token sent to email.")), CalledWith(EmailFailed));
  }

  // ---------------------------------------------------------------------
  // resetPassword
  // ---------------------------------------------------------------------

  const InvalidResetToken: JsError := AppError("Invalid or expired token.", 400)

  /** The stored reset token is `hashed` and its expiry is later than `now`. */
  predicate ResetTokenMatches(u: UserRecord, hashed: string, now: int) {
    ResetTokenKey in u.extra && u.extra[ResetTokenKey] == Str(hashed)
    && ResetExpiresKey in u.extra && u.extra[ResetExpiresKey].Num? && u.extra[ResetExpiresKey].n > now as real
  }


  /** The body's `newPassword` or `passwordConfirm` as the trimming setter stores it. */
  function BodyPassword(body: JsValue, key: string): Option<string> {
    TrimmedOrUnset(AsString(Get(body, key)))
  }

  /** The paths a reset validates: the default selection and both password paths, which it assigns. */
  const ResetValidated: set<string> := DefaultSelection + HiddenPaths

  /** The document `resetPassword` validates: `u` as loaded, with the body's passwords and no reset fields. */
  function ResetCandidate(u: UserRecord, body: JsValue): UserRecord {
    DefaultProjection(u).(password := BodyPassword(body, "newPassword"),
                          passwordConfirm := BodyPassword(body, "passwordConfirm"),
                          extra := u.extra - {ResetTokenKey} - {ResetExpiresKey})
  }

  /** A reset whose two passwords differ is refused by validation. */
  lemma ResetRefusesMismatch(u: UserRecord, body: JsValue, isEmail: string -> bool)
    requires BodyPassword(body, "newPassword") != BodyPassword(body, "passwordConfirm")
    ensures !ValidUser(ResetCandidate(u, body), isEmail, ResetValidated)
  {
    MismatchRefused(ResetCandidate(u, body), isEmail, ResetValidated);
  }

  /** A reset of a user with a valid name and email, to a matching password of 8+ characters, passes validation. */
  lemma ResetAcceptsMatchingPasswords(u: UserRecord, body: JsValue, isEmail: string -> bool)
    requires Present(u.name) && Present(u.email) && isEmail(u.email.value)
    requires Present(BodyPassword(body, "newPassword")) && |BodyPassword(body, "newPassword").value| >= 8
    requires BodyPassword(body, "passwordConfirm") == BodyPassword(body, "newPassword")
    ensures ValidUser(ResetCandidate(u, body), isEmail, ResetValidated)
  {
    ValidUserPasses(ResetCandidate(u, body), isEmail, ResetValidated);
  }

  /**
   * `resetPassword` once the user is found: it gets the new password and
   * confirmation, loses both reset fields and is saved with validation;
   * then a token is signed. `saved` is what the store then holds for it.
   */
  method ResetFoundUser(found: UserRecord, body: JsValue, isEmail: string -> bool, hash: string -> string,
                        sign: string -> string)
    returns (o: Outcome, saved: Option<UserRecord>)
    ensures saved.Some? <==> ValidUser(ResetCandidate(found, body), isEmail, ResetValidated)
    ensures !ValidUser(ResetCandidate(found, body), isEmail, ResetValidated) ==>
      o == Fail(ValidationFailure("User", ValidateUser(ResetCandidate(found, body), isEmail, ResetValidated)))
    ensures saved.Some? ==> saved.value.id == found.id
    ensures saved.Some? ==> ResetTokenKey !in saved.value.extra && ResetExpiresKey !in saved.value.extra
    ensures saved.Some? && Get(body, "newPassword").Str? ==>
      saved.value.password == Some(hash(Trim(Get(body, "newPassword").s))) && saved.value.passwordConfirm.None?
    ensures o.response.Some? <==> saved.Some?
    ensures saved.Some? ==> o == AfterSigning(200, "Password reset successful.", SignJwtToken(found.id, sign))
  {
    var user := new UserDocument.Hydrate(found, DefaultSelection);
    assert user.password.None?;
    user.SetPassword(AsString(Get(body, "newPassword")));
    user.SetPasswordConfirm(AsString(Get(body, "passwordConfirm")));
    user.SetExtra(ResetTokenKey, Undefined);
    user.SetExtra(ResetExpiresKey, Undefined);
    ghost var candidate := ResetCandidate(found, body);
    assert user.Record() == candidate;
    assert user.ValidatedPaths() == ResetValidated;
    assert "password" in user.modified;
    var result := user.Save(true, isEmail, hash);
    if result.Err? {
      return Fail(result.error), None;
    }
    saved := Some(result.value);
    o := AfterSigning(200, "Password reset successful.", SignJwtToken(user.id, sign));
  }

  /**
   * `resetPassword`: the user holding the hashed token, unexpired, is
   * reset as `ResetFoundUser` says; without one the reset is refused.
   */
  method ResetPassword(body: JsValue, token: string, sha256: string -> string, now: int,
                       store: seq<UserRecord>, isEmail: string -> bool, hash: string -> string,
                       sign: string -> string)
    returns (o: Outcome, saved: Option<UserRecord>)
    ensures FindFirst(store, u => ResetTokenMatches(u, sha256(token), now)).None? ==>
      o == Fail(InvalidResetToken) && saved.None?
    ensures saved.Some? ==> exists u :: u in store && ResetTokenMatches(u, sha256(token), now) && u.id == saved.value.id
    ensures saved.Some? ==> ResetTokenKey !in saved.value.extra && ResetExpiresKey !in saved.value.extra
    ensures saved.Some? && Get(body, "newPassword").Str? ==>
      saved.value.password == Some(hash(Trim(Get(body, "newPassword").s))) && saved.value.passwordConfirm.None?
    ensures o.response.Some? <==> saved.Some?
    ensures saved.Some? ==> o == AfterSigning(200, "Password reset successful.", SignJwtToken(saved.value.id, sign))
    ensures var found := FindFirst(store, u => ResetTokenMatches(u, sha256(token), now));
      found.Some? ==> (saved.Some? <==> ValidUser(ResetCandidate(found.value, body), isEmail, ResetValidated))
    ensures var found := FindFirst(store, u => ResetTokenMatches(u, sha256(token), now));
      found.Some? && !ValidUser(ResetCandidate(found.value, body), isEmail, ResetValidated) ==>
        o == Fail(ValidationFailure("User", ValidateUser(ResetCandidate(found.value, body), isEmail, ResetValidated)))
    ensures var found := FindFirst(store, u => ResetTokenMatches(u, sha256(token), now));
      found.Some? && (!Present(BodyPassword(body, "newPassword")) || !Present(BodyPassword(body, "passwordConfirm"))) ==>
        saved.None?
        && o == Fail(ValidationFailure("User", ValidateUser(ResetCandidate(found.value, body), isEmail, ResetValidated)))
  {
    var hashed := sha256(token);
    var found := FindFirst(store, u => ResetTokenMatches(u, hashed, now));
    if found.None? {
      return Fail(InvalidResetToken), None;
    }
    o, saved := ResetFoundUser(found.value, body, isEmail, hash, sign);
  }

  // ---------------------------------------------------------------------
  // protectRoute
  // ---------------------------------------------------------------------

  /** `s.replace(pat, rep)` with a string pattern: only the first occurrence is replaced. */
  function ReplaceFirst(s: string, pat: string, rep: string): string
    requires pat != []
    decreases |s|
  {
    if |s| < |pat| then s
    else if s[..|pat|] == pat then rep + s[|pat|..]
    else [s[0]] + ReplaceFirst(s[1..], pat, rep)
  }

  /** `pat` occurs in `s` at position `i`. */
  predicate OccursAt(s: string, pat: string, i: int) {
    0 <= i && i + |pat| <= |s| && s[i..i + |pat|] == pat
  }

  /** A text without the pattern is left as it is. */
  lemma {:induction false} ReplaceFirstAbsent(s: string, pat: string, rep: string)
    requires pat != []
    requires forall i :: !OccursAt(s, pat, i)
    ensures ReplaceFirst(s, pat, rep) == s
    decreases |s|
  {
    if |s| >= |pat| {
      assert !OccursAt(s, pat, 0);
      assert s[..|pat|] != pat;
      forall i ensures !OccursAt(s[1..], pat, i) {
        if 0 <= i && i + |pat| <= |s[1..]| {
          assert s[1..][i..i + |pat|] == s[i + 1..i + 1 + |pat|];
          assert !OccursAt(s, pat, i + 1);
        }
      }
      ReplaceFirstAbsent(s[1..], pat, rep);
    }
  }

  /** Only the first occurrence goes: a text that starts with the pattern keeps the rest as it is. */
  lemma ReplaceFirstAtStart(pat: string, rest: string, rep: string)
    requires pat != []
    ensures ReplaceFirst(pat + rest, pat, rep) == rep + rest
  {
    assert (pat + rest)[..|pat|] == pat;
    assert (pat + rest)[|pat|..] == rest;
  }

  /** `token.replace('Bearer ', '').trim() || ''`. */
  function BearerToken(header: string): string {
    Trim(ReplaceFirst(header, "Bearer ", ""))
  }

  /** A `Bearer` header yields its credentials, trimmed. */
  lemma BearerTokenOfScheme(t: string)
    ensures BearerToken("Bearer " + t) == Trim(t)
  {
    ReplaceFirstAtStart("Bearer ", t, "");
    assert "" + t == t;
  }

  /** The claims a valid token carries: the user id and the issue time in seconds. */
  datatype Claims = Claims(id: Option<string>, iat: int)

  const NotLoggedIn: JsError := AppError("Please login to gain access.", 401)
  const UnknownUser: JsError := AppError("Invalid user. Please create an account.", 401)
  const StaleToken: JsError := AppError("Password changed since last login.", 401)

  /**
   * The checks of `protectRoute`, in order: a header with credentials, a
   * token the verifier accepts, a user with the token's id, a password not
   * changed after the token was issued. The result is the user the request
   * then carries, as a default query returns it.
   */
  function ProtectDecision(authorization: Option<string>, verify: string -> Result<Claims, JsError>,
                           store: seq<UserRecord>): (r: Result<UserRecord, JsError>)
    ensures authorization.None? || authorization.value == "" || BearerToken(authorization.value) == "" ==>
      r == Err(NotLoggedIn)
    ensures r.Ok? ==> verify(BearerToken(authorization.value)).Ok?
    ensures r.Ok? ==> r.value.password.None? && r.value.passwordConfirm.None?
    ensures r.Ok? ==> var c := verify(BearerToken(authorization.value)).value;
      c.id.Some? && r.value.id == c.id && !ChangedAfter(r.value.passwordChangedAt, c.iat)
      && exists u :: u in store && DefaultProjection(u) == r.value
  {
    var token := authorization.GetOr("");
    var userToken := BearerToken(token);
    if token == "" || userToken == "" then Err(NotLoggedIn)
    else match verify(userToken)
      case Err(e) => Err(e)
      case Ok(claims) =>
        match FindFirst(store, u => IdMatches(u, claims.id))
        case None => Err(UnknownUser)
        case Some(found) =>
          if ChangedAfter(found.passwordChangedAt, claims.iat) then Err(StaleToken)
          else Ok(DefaultProjection(found))
  }

  /** A token the verifier rejects is refused with the verifier's error. */
  lemma ProtectPassesVerifierError(authorization: string, verify: string -> Result<Claims, JsError>,
                                   store: seq<UserRecord>)
    requires authorization != "" && BearerToken(authorization) != "" && verify(BearerToken(authorization)).Err?
    ensures ProtectDecision(Some(authorization), verify, store) == Err(verify(BearerToken(authorization)).error)
  {
  }

  /** A verified token whose id names no user is refused as an unknown user. */
  lemma ProtectRefusesUnknownUser(authorization: string, verify: string -> Result<Claims, JsError>,
                                  store: seq<UserRecord>)
    requires BearerToken(authorization) != "" && verify(BearerToken(authorization)).Ok?
    requires forall u :: u in store ==> !IdMatches(u, verify(BearerToken(authorization)).value.id)
    ensures ProtectDecision(Some(authorization), verify, store) == Err(UnknownUser)
  {
  }

  /** A token issued before the user's last password change, to the second, is refused. */
  lemma ProtectRefusesStaleToken(authorization: string, verify: string -> Result<Claims, JsError>,
                                 store: seq<UserRecord>, u: UserRecord)
    requires BearerToken(authorization) != "" && verify(BearerToken(authorization)).Ok?
    requires FindFirst(store, v => IdMatches(v, verify(BearerToken(authorization)).value.id)) == Some(u)
    requires ChangedAfter(u.passwordChangedAt, verify(BearerToken(authorization)).value.iat)
    ensures ProtectDecision(Some(authorization), verify, store) == Err(StaleToken)
  {
  }

  /** A verified `Bearer` token of a stored user, issued after that user's last password change, is admitted with that user. */
  lemma ProtectAdmitsFreshToken(t: string, verify: string -> Result<Claims, JsError>,
                                store: seq<UserRecord>, i: nat)
    requires Trim(t) != "" && verify(Trim(t)).Ok?
    requires i < |store| && IdMatches(store[i], verify(Trim(t)).value.id)
    requires forall j :: 0 <= j < i ==> !IdMatches(store[j], verify(Trim(t)).value.id)
    requires !ChangedAfter(store[i].passwordChangedAt, verify(Trim(t)).value.iat)
    ensures ProtectDecision(Some("Bearer " + t), verify, store) == Ok(DefaultProjection(store[i]))
  {
    BearerTokenOfScheme(t);
    FirstMatchAt(store, u => IdMatches(u, verify(Trim(t)).value.id), i);
  }

  /**
   * `protectRoute`: on success the request carries the found user and
   * `next()` is called; on any refusal the request's user is left alone
   * and `next` gets the error.
   */
  method ProtectRoute(req: Request, verify: string -> Result<Claims, JsError>, store: seq<UserRecord>)
    returns (o: Outcome)
    modifies req
    ensures req.query == old(req.query)
    ensures ProtectDecision(req.authorization, verify, store).Err? ==>
      o == Fail(ProtectDecision(req.authorization, verify, store).error) && req.user == old(req.user)
    ensures ProtectDecision(req.authorization, verify, store).Ok? ==>
      o == Outcome(None, Called) && req.user != null && fresh(req.user)
      && req.user.Record() == ProtectDecision(req.authorization, verify, store).value
  {
    ghost var decision := ProtectDecision(req.authorization, verify, store);
    var token := req.authorization.GetOr("");
    var userToken := Trim(ReplaceFirst(token, "Bearer ", ""));
    if token == "" || userToken == "" {
      assert decision == Err(NotLoggedIn);
      return Fail(NotLoggedIn);
    }
    var decoded := verify(userToken);
    if decoded.Err? {
      assert decision == Err(decoded.error);
      return Fail(decoded.error);
    }
    var found := FindFirst(store, u => IdMatches(u, decoded.value.id));
    if found.None? {
      assert decision == Err(UnknownUser);
      return Fail(UnknownUser);
    }
    var foundUser := new UserDocument.Hydrate(found.value, DefaultSelection);
    if foundUser.ChangedPasswordAfter(decoded.value.iat) {
      assert decision == Err(StaleToken);
      return Fail(StaleToken);
    }
    assert decision == Ok(DefaultProjection(found.value));
    req.user := foundUser;
    o := Outcome(None, Called);
  }

  // ---------------------------------------------------------------------
  // restrictTo
  // ---------------------------------------------------------------------

  const Forbidden: JsError := AppError("You are not authorized to perform this action.", 403)

  /** `req.user?.role`: a property the user schema does not declare, read from the document. */
  function UserRole(user: UserDocument?): (r: JsValue)
    reads user
    ensures user == null ==> r == Undefined
  {
    if user == null then Undefined else Get(Obj(user.extra), "role")
  }

  /** `restrictTo(roles)`: the request goes on exactly when its user's role is listed. */
  function RestrictTo(roles: seq<JsValue>, userRole: JsValue): (o: Outcome)
    ensures o.response.None?
    ensures o.next == Called <==> userRole in roles
    ensures o.next != Called ==> o == Fail(Forbidden)
  {
    if userRole in roles then Outcome(None, Called) else Fail(Forbidden)
  }

  /** A request without a user is refused unless `undefined` is among the roles. */
  lemma RestrictToWithoutUser(roles: seq<JsValue>)
    ensures RestrictTo(roles, UserRole(null)).next == Called <==> Undefined in roles
  {
  }
}

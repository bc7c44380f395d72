/**
 * The user handlers: the profile update's guard and body filter, account
 * deactivation, and the user listing.
 */
module UserController {
  import opened Wrappers
  import opened Js
  import opened AppErrors
  import opened Http
  import opened MongoQuery
  import opened BodyFilter
  import opened ApiFeatures
  import opened Schema
  import opened UserModel
  import opened Auth
  import opened Requests

  // ---------------------------------------------------------------------
  // updateProfile
  // ---------------------------------------------------------------------

  const PasswordRouteError: JsError := AppError("Cannot update password field with this route.", 400)

  /** The body keys a profile update may never carry to the store. */
  const ProtectedKeys: seq<string> := ["role", "email"]

  /**
   * `updateProfile` up to the store call: a truthy password or
   * confirmation is refused before anything else; otherwise the patch is
   * the body without `role` and `email`, every other key as sent.
   */
  method UpdateProfile(body: map<string, JsValue>) returns (r: Result<map<string, JsValue>, JsError>)
    ensures r.Err? <==> Truthy(Get(Obj(body), "password")) || Truthy(Get(Obj(body), "passwordConfirm"))
    ensures r.Err? ==> r.error == PasswordRouteError
    ensures r.Ok? ==> "role" !in r.value && "email" !in r.value
    ensures r.Ok? ==> forall k :: k in body && k != "role" && k != "email" ==> k in r.value && r.value[k] == body[k]
    ensures r.Ok? ==> r.value.Keys <= body.Keys
  {
    if Truthy(Get(Obj(body), "password")) || Truthy(Get(Obj(body), "passwordConfirm")) {
      return Err(PasswordRouteError);
    }
    var filtered := FilterBodyObject(body, ProtectedKeys);
    r := Ok(filtered);
  }

  /** A falsy password (an empty string, say) passes the guard and reaches the patch. */
  lemma EmptyPasswordPassesGuard(body: map<string, JsValue>)
    requires "password" in body && body["password"] == Str("")
    requires !Truthy(Get(Obj(body), "passwordConfirm"))
    ensures !(Truthy(Get(Obj(body), "password")) || Truthy(Get(Obj(body), "passwordConfirm")))
    ensures "password" in Omit(body, ProtectedKeys) && Omit(body, ProtectedKeys)["password"] == Str("")
  {
  }

  // ---------------------------------------------------------------------
  // deleteAccount
  // ---------------------------------------------------------------------

  /** What setting `isActive` on a user that no longer exists raises. */
  const NoCurrentUserError: JsError :=
    JsError("TypeError", "Cannot set properties of null (setting 'isActive')", None, None, false, [])

  /**
   * `deleteAccount`: the current user, loaded afresh, is flagged inactive
   * and saved with validation; nothing is removed. A user that is gone, or
   * a save that fails, goes to `next` instead. `saved` is what the store
   * then holds for the loaded paths.
   */
  method DeleteAccount(userId: Option<string>, store: seq<UserRecord>, isEmail: string -> bool,
                       hash: string -> string)
    returns (o: Outcome, saved: Option<UserRecord>)
    ensures FindFirst(store, u => IdMatches(u, userId)).None? ==>
      o == Fail(NoCurrentUserError) && saved.None?
    ensures saved.Some? <==>
      var found := FindFirst(store, u => IdMatches(u, userId));
      found.Some? && ValidateUser(DefaultProjection(found.value), isEmail, DefaultSelection) == []
    ensures saved.Some? ==>
      var found := FindFirst(store, u => IdMatches(u, userId)).value;
      saved.value == DefaultProjection(found).(extra := found.extra["isActive" := Bool(false)])
      && o == Outcome(Some(StatusMessage(204, "success", "Account deleted successfully")), NotCalled)
    ensures saved.None? && FindFirst(store, u => IdMatches(u, userId)).Some? ==>
      var found := FindFirst(store, u => IdMatches(u, userId)).value;
      o == Fail(ValidationFailure("User", ValidateUser(DefaultProjection(found), isEmail, DefaultSelection)))
  {
    var found := FindFirst(store, u => IdMatches(u, userId));
    if found.None? {
      return Fail(NoCurrentUserError), None;
    }
    var currentUser := new UserDocument.Hydrate(found.value, DefaultSelection);
    ghost var loaded := DefaultProjection(found.value);
    assert currentUser.Record() == loaded;
    currentUser.SetExtra("isActive", Bool(false));
    ghost var flagged := loaded.(extra := found.value.extra["isActive" := Bool(false)]);
    assert currentUser.Record() == flagged;
    assert currentUser.ValidatedPaths() == DefaultSelection && currentUser.modified == {};
    ValidationIgnoresExtra(loaded, flagged.extra, isEmail, DefaultSelection);
    var result := currentUser.Save(true, isEmail, hash);
    if result.Err? {
      return Fail(result.error), None;
    }
    saved := Some(result.value);
    o := Outcome(Some(StatusMessage(204, "success", "Account deleted successfully")), NotCalled);
  }

  /** Properties outside the schema play no part in validation. */
  lemma ValidationIgnoresExtra(u: UserRecord, extra: map<string, JsValue>, isEmail: string -> bool,
                               paths: set<string>)
    ensures ValidateUser(u.(extra := extra), isEmail, paths) == ValidateUser(u, isEmail, paths)
  {
    assert Checks(u.(extra := extra), isEmail, paths) == Checks(u, isEmail, paths);
  }

  // ---------------------------------------------------------------------
  // getAllUsers
  // ---------------------------------------------------------------------

  /** The user listing's reply; the page sits under `data.meta`. The users themselves are not modelled. */
  function UserListResponse(page: Option<QueryValue>): (r: Response)
    ensures r.statusCode == 200 && r.rawError.None?
    ensures "data" in r.body && Get(Get(r.body["data"], "meta"), "currentPage") == Num(NumberOr(page, 1.0))
  {
    Response(200, map["status" := Str("success"),
                      "data" := Obj(map["meta" := Obj(map["currentPage" := Num(NumberOr(page, 1.0))])]),
                      "message" := Str("Users retrieved successsfully")], None)
  }

  /** `getAllUsers`: the full builder chain over a fresh find; a step that raises goes to `next`. */
  method GetAllUsers(req: Request) returns (o: Outcome, query: Query)
    ensures fresh(query)
    ensures ChainOps(req.query, Some(ControlKeys)).Err? ==>
      o == Fail(ChainOps(req.query, Some(ControlKeys)).error)
    ensures ChainOps(req.query, Some(ControlKeys)).Ok? ==>
      query.ops == [Find(map[])] + ChainOps(req.query, Some(ControlKeys)).value
      && o == Outcome(Some(UserListResponse(Lookup(req.query, "page"))), NotCalled)
  {
    query := NewFind();
    var features := new APIFeatures(query, req.query);
    var err := RunChain(features, Some(ControlKeys));
    if err.Some? {
      o := Fail(err.value);
      return;
    }
    o := Outcome(Some(UserListResponse(Lookup(req.query, "page"))), NotCalled);
  }
}

/**
 * The user schema: its field constraints, the `passwordConfirm` validator,
 * the pre-save hook that hashes a modified password, and
 * `changedPasswordAfter`. A loaded user is a document whose fields the
 * handlers assign in place and then save.
 *
 * bcrypt's `hash` and the `isEmail` check are parameters.
 */
module UserModel {
  import opened Wrappers
  import opened Js
  import opened AppErrors
  import opened Schema

  /** A user as the store holds it; `extra` holds properties the schema does not declare. */
  datatype UserRecord = UserRecord(
    id: Option<string>,
    name: Option<string>,
    email: Option<string>,
    password: Option<string>,
    passwordConfirm: Option<string>,
    avatar: Option<string>,
    passwordChangedAt: Option<int>,
    extra: map<string, JsValue>)

  /** The schema's paths, in declaration order. */
  const SchemaPaths: seq<string> := ["name", "email", "password", "passwordConfirm", "avatar", "passwordChangedAt"]

  /** Paths a query returns only when asked for with `+path` (`select: false`). */
  const HiddenPaths: set<string> := {"password", "passwordConfirm"}

  /** The paths a default query selects. */
  const DefaultSelection: set<string> := {"name", "email", "avatar", "passwordChangedAt"}

  /** A record as a default query returns it: the password and its confirmation left out. */
  function DefaultProjection(r: UserRecord): (p: UserRecord)
    ensures p.password.None? && p.passwordConfirm.None?
    ensures p.(password := r.password, passwordConfirm := r.passwordConfirm) == r
  {
    r.(password := None, passwordConfirm := None)
  }

  // ---------------------------------------------------------------------
  // Validation
  // ---------------------------------------------------------------------

  /** The store's built-in message for a string shorter than `minlength`. */
  function ShorterMessage(path: string, value: string, min: nat): string {
    "Path `" + path + "` (`" + value + "`) is shorter than the minimum allowed length (" + DecimalString(min) + ")."
  }

  /** The first failing check of `name`: it is required. */
  function CheckName(u: UserRecord): Option<FieldError> {
    if !Present(u.name) then Some(FieldError("name", "Please input name")) else None
  }

  /** The first failing check of `email`: required, then the email check. */
  function CheckEmail(u: UserRecord, isEmail: string -> bool): Option<FieldError> {
    if !Present(u.email) then Some(FieldError("email", "Please input an email"))
    else if !isEmail(u.email.value) then Some(FieldError("email", "Please provide a valid email."))
    else None
  }

  /** The first failing check of `password`: required, then at least 8 characters. */
  function CheckPassword(u: UserRecord): Option<FieldError> {
    if !Present(u.password) then Some(FieldError("password", "Please input password"))
    else if |u.password.value| < 8 then Some(FieldError("password", ShorterMessage("password", u.password.value, 8)))
    else None
  }

  /** The first failing check of `passwordConfirm`: required, at least 8 characters, equal to `password`. */
  function CheckPasswordConfirm(u: UserRecord): Option<FieldError> {
    if !Present(u.passwordConfirm) then Some(FieldError("passwordConfirm", "Please confirm password"))
    else if |u.passwordConfirm.value| < 8 then
      Some(FieldError("passwordConfirm", ShorterMessage("passwordConfirm", u.passwordConfirm.value, 8)))
    else if u.password != u.passwordConfirm then Some(FieldError("passwordConfirm", "Passwords don`t match"))
    else None
  }

  /** What the schema demands of each path in `paths`. */
  predicate ValidUser(u: UserRecord, isEmail: string -> bool, paths: set<string>) {
    ("name" in paths ==> Present(u.name))
    && ("email" in paths ==> Present(u.email) && isEmail(u.email.value))
    && ("password" in paths ==> Present(u.password) && |u.password.value| >= 8)
    && ("passwordConfirm" in paths ==>
          Present(u.passwordConfirm) && |u.passwordConfirm.value| >= 8 && u.password == u.passwordConfirm)
  }

  /** The first error of each path in `paths`, in schema order. */
  function ValidateUser(u: UserRecord, isEmail: string -> bool, paths: set<string>): (errs: seq<FieldError>)
    ensures |errs| <= 4
    ensures forall i :: 0 <= i < |errs| ==> errs[i].path in paths
    ensures errs == [] <==> ValidUser(u, isEmail, paths)
    ensures "name" in paths && !Present(u.name) ==> FieldError("name", "Please input name") in errs
    ensures "email" in paths && !Present(u.email) ==> FieldError("email", "Please input an email") in errs
    ensures "email" in paths && Present(u.email) && !isEmail(u.email.value) ==>
      FieldError("email", "Please provide a valid email.") in errs
    ensures "password" in paths && Present(u.password) && |u.password.value| < 8 ==>
      FieldError("password", ShorterMessage("password", u.password.value, 8)) in errs
    ensures "passwordConfirm" in paths && Present(u.passwordConfirm) && |u.passwordConfirm.value| < 8 ==>
      FieldError("passwordConfirm", ShorterMessage("passwordConfirm", u.passwordConfirm.value, 8)) in errs
    ensures "passwordConfirm" in paths && Present(u.passwordConfirm) && |u.passwordConfirm.value| >= 8 ==>
      (FieldError("passwordConfirm", "Passwords don`t match") in errs <==> u.password != u.passwordConfirm)
    ensures "password" in paths && !Present(u.password) ==> FieldError("password", "Please input password") in errs
    ensures "passwordConfirm" in paths && !Present(u.passwordConfirm) ==>
      FieldError("passwordConfirm", "Please confirm password") in errs
  {
    var checks := Checks(u, isEmail, paths);
    SomesMembers(checks);
    ChecksOnPaths(u, isEmail, paths);
    ChecksPassIffValid(u, isEmail, paths);
    ChecksReport(u, isEmail, paths);
    Somes(checks)
  }

  /** The checks a validation runs, one per validated path, in schema order. */
  function Checks(u: UserRecord, isEmail: string -> bool, paths: set<string>): seq<Option<FieldError>> {
    [ if "name" in paths then CheckName(u) else None,
      if "email" in paths then CheckEmail(u, isEmail) else None,
      if "password" in paths then CheckPassword(u) else None,
      if "passwordConfirm" in paths then CheckPasswordConfirm(u) else None ]
  }

  /** No check fails exactly when the user meets the schema on the validated paths. */
  lemma ChecksPassIffValid(u: UserRecord, isEmail: string -> bool, paths: set<string>)
    ensures Somes(Checks(u, isEmail, paths)) == [] <==> ValidUser(u, isEmail, paths)
  {
    var checks := Checks(u, isEmail, paths);
    SomesMembers(checks);
    if ValidUser(u, isEmail, paths) {
      SomesOfNone(checks);
    } else {
      var i :| 0 <= i < 4 && checks[i].Some?;
      assert checks[i].value in Somes(checks);
    }
  }

  /** The messages each failing check reports. */
  lemma ChecksReport(u: UserRecord, isEmail: string -> bool, paths: set<string>)
    ensures var errs := Somes(Checks(u, isEmail, paths));
      && ("name" in paths && !Present(u.name) ==> FieldError("name", "Please input name") in errs)
      && ("email" in paths && !Present(u.email) ==> FieldError("email", "Please input an email") in errs)
      && ("email" in paths && Present(u.email) && !isEmail(u.email.value) ==>
            FieldError("email", "Please provide a valid email.") in errs)
      && ("password" in paths && !Present(u.password) ==> FieldError("password", "Please input password") in errs)
      && ("password" in paths && Present(u.password) && |u.password.value| < 8 ==>
            FieldError("password", ShorterMessage("password", u.password.value, 8)) in errs)
      && ("passwordConfirm" in paths && !Present(u.passwordConfirm) ==>
            FieldError("passwordConfirm", "Please confirm password") in errs)
      && ("passwordConfirm" in paths && Present(u.passwordConfirm) && |u.passwordConfirm.value| < 8 ==>
            FieldError("passwordConfirm", ShorterMessage("passwordConfirm", u.passwordConfirm.value, 8)) in errs)
      && ("passwordConfirm" in paths && Present(u.passwordConfirm) && |u.passwordConfirm.value| >= 8 ==>
            (FieldError("passwordConfirm", "Passwords don`t match") in errs <==> u.password != u.passwordConfirm))
  {
    var checks := Checks(u, isEmail, paths);
    SomesMembers(checks);
    assert checks[0] == (if "name" in paths then CheckName(u) else None);
    assert checks[1] == (if "email" in paths then CheckEmail(u, isEmail) else None);
    assert checks[2] == (if "password" in paths then CheckPassword(u) else None);
    assert checks[3] == (if "passwordConfirm" in paths then CheckPasswordConfirm(u) else None);
  }

  /** Every error a check reports names a validated path. */
  lemma ChecksOnPaths(u: UserRecord, isEmail: string -> bool, paths: set<string>)
    ensures forall e :: Some(e) in Checks(u, isEmail, paths) ==> e.path in paths
  {
  }

  /** A user whose four validated fields are fine passes validation. */
  lemma ValidUserPasses(u: UserRecord, isEmail: string -> bool, paths: set<string>)
    requires Present(u.name) && Present(u.email) && isEmail(u.email.value)
    requires Present(u.password) && |u.password.value| >= 8 && u.passwordConfirm == u.password
    ensures ValidateUser(u, isEmail, paths) == []
  {
    SomesOfNone(Checks(u, isEmail, paths));
  }

  /** Passwords that differ are refused whenever the confirmation is checked. */
  lemma MismatchRefused(u: UserRecord, isEmail: string -> bool, paths: set<string>)
    requires "passwordConfirm" in paths && u.password != u.passwordConfirm
    ensures ValidateUser(u, isEmail, paths) != []
  {
    if !Present(u.passwordConfirm) {
      assert FieldError("passwordConfirm", "Please confirm password") in ValidateUser(u, isEmail, paths);
    } else if |u.passwordConfirm.value| < 8 {
      SomesMembers(Checks(u, isEmail, paths));
      assert Some(FieldError("passwordConfirm", ShorterMessage("passwordConfirm", u.passwordConfirm.value, 8)))
        in Checks(u, isEmail, paths);
    } else {
      assert FieldError("passwordConfirm", "Passwords don`t match") in ValidateUser(u, isEmail, paths);
    }
  }

  // ---------------------------------------------------------------------
  // Setters
  // ---------------------------------------------------------------------

  /** ASCII upper-case letters to lower case. */
  function ToLower(s: string): (r: string)
    ensures |r| == |s|
    ensures forall i :: 0 <= i < |s| ==> !('A' <= r[i] <= 'Z')
    ensures forall i :: 0 <= i < |s| ==> (if 'A' <= s[i] <= 'Z' then r[i] == (s[i] as int + 32) as char else r[i] == s[i])
  {
    if s == [] then []
    else [if 'A' <= s[0] <= 'Z' then (s[0] as int + 32) as char else s[0]] + ToLower(s[1..])
  }

  /** The `trim` and `lowercase` setters of `email`. */
  function CastEmail(v: Option<string>): (r: Option<string>)
    ensures v.None? ==> r.None?
    ensures v.Some? ==> r == Some(ToLower(Trim(v.value)))
    ensures v.Some? ==> |r.value| == |Trim(v.value)|
    ensures v.Some? ==> forall i :: 0 <= i < |r.value| ==> !('A' <= r.value[i] <= 'Z')
  {
    if v.Some? then Some(ToLower(Trim(v.value))) else None
  }

  /** `UserModel.create(body)` before validation: the string setters applied to the given fields. */
  function NewUserRecord(id: Option<string>, name: Option<string>, email: Option<string>,
                         password: Option<string>, passwordConfirm: Option<string>,
                         avatar: Option<string>): (r: UserRecord)
    ensures r.name == TrimmedOrUnset(name) && r.email == CastEmail(email)
    ensures r.password == TrimmedOrUnset(password) && r.passwordConfirm == TrimmedOrUnset(passwordConfirm)
    ensures r.passwordChangedAt.None? && r.extra == map[]
  {
    UserRecord(id, TrimmedOrUnset(name), CastEmail(email), TrimmedOrUnset(password),
               TrimmedOrUnset(passwordConfirm), avatar, None, map[])
  }

  // ---------------------------------------------------------------------
  // Password timestamps
  // ---------------------------------------------------------------------

  /** `parseInt(ms / 1000, 10)`: the quotient truncated toward zero. */
  function SecondsOf(ms: int): (s: int)
    ensures ms >= 0 ==> s * 1000 <= ms < s * 1000 + 1000
    ensures ms < 0 ==> s * 1000 - 1000 < ms <= s * 1000
  {
    if ms >= 0 then ms / 1000 else -((-ms) / 1000)
  }

  /** `changedPasswordAfter(iat)` on a record: the token predates the last password change, to the second. */
  function ChangedAfter(passwordChangedAt: Option<int>, iat: int): bool {
    passwordChangedAt.Some? && iat < SecondsOf(passwordChangedAt.value)
  }

  /** For a change at or after the epoch: the token is stale exactly when its second ended by the change. */
  lemma ChangedAfterBySeconds(ms: int, iat: int)
    requires ms >= 0
    ensures ChangedAfter(Some(ms), iat) <==> (iat + 1) * 1000 <= ms
  {
    var s := SecondsOf(ms);
    if iat < s {
      assert (iat + 1) * 1000 <= s * 1000;
    } else {
      assert s * 1000 <= iat * 1000;
    }
  }

  /** A token issued in the same second as the change is still accepted. */
  lemma SameSecondAccepted(ms: int)
    ensures !ChangedAfter(Some(ms), SecondsOf(ms))
  {
  }

  /** With no recorded change no token is stale. */
  lemma NeverChangedNeverStale(iat: int)
    ensures !ChangedAfter(None, iat)
  {
  }

  // ---------------------------------------------------------------------
  // Documents
  // ---------------------------------------------------------------------

  /** bcrypt's refusal to hash `undefined`. */
  const HashUndefinedError: JsError :=
    JsError("Error", "Illegal arguments: undefined, number", None, None, false, [])

  /**
   * A loaded or new user document. `selected` are the schema paths the
   * query loaded; `modified` the paths assigned since.
   */
  class UserDocument {
    const id: Option<string>
    const isNew: bool
    const selected: set<string>
    var name: Option<string>
    var email: Option<string>
    var password: Option<string>
    var passwordConfirm: Option<string>
    var avatar: Option<string>
    var passwordChangedAt: Option<int>
    var extra: map<string, JsValue>
    var modified: set<string>

    /** The document from a stored record, with the paths a query selected. */
    constructor Hydrate(r: UserRecord, select: set<string>)
      ensures id == r.id && !isNew && selected == select && modified == {}
      ensures Record() == r.(password := if "password" in select then r.password else None,
                             passwordConfirm := if "passwordConfirm" in select then r.passwordConfirm else None)
    {
      id := r.id;
      isNew := false;
      selected := select;
      name := r.name;
      email := r.email;
      password := if "password" in select then r.password else None;
      passwordConfirm := if "passwordConfirm" in select then r.passwordConfirm else None;
      avatar := r.avatar;
      passwordChangedAt := r.passwordChangedAt;
      extra := r.extra;
      modified := {};
    }

    /** The document's current values. */
    function Record(): (r: UserRecord)
      reads this
      ensures r.id == id && r.password == password && r.passwordConfirm == passwordConfirm && r.extra == extra
    {
      UserRecord(id, name, email, password, passwordConfirm, avatar, passwordChangedAt, extra)
    }

    /** `changedPasswordAfter(JWTTimestamp)`. */
    function ChangedPasswordAfter(iat: int): bool
      reads this
    {
      ChangedAfter(passwordChangedAt, iat)
    }

    /** The paths a save validates: all of them when new, else the selected and the modified ones. */
    function ValidatedPaths(): set<string>
      reads this
    {
      if isNew then set p | p in SchemaPaths else selected + modified
    }

    /** `doc.password = v`: trimmed; marked modified when the document is new, the path was not loaded, or the value changes. */
    method SetPassword(v: Option<string>)
      modifies this
      ensures password == TrimmedOrUnset(v)
      ensures modified == old(modified) + (if isNew || "password" !in selected || TrimmedOrUnset(v) != old(password) then {"password"} else {})
      ensures Record() == old(Record()).(password := TrimmedOrUnset(v))
    {
      var t := TrimmedOrUnset(v);
      if isNew || "password" !in selected || t != password { modified := modified + {"password"}; }
      password := t;
    }

    /** `doc.passwordConfirm = v`: trimmed; marked modified as `password` is. */
    method SetPasswordConfirm(v: Option<string>)
      modifies this
      ensures passwordConfirm == TrimmedOrUnset(v)
      ensures modified == old(modified) + (if isNew || "passwordConfirm" !in selected || TrimmedOrUnset(v) != old(passwordConfirm) then {"passwordConfirm"} else {})
      ensures Record() == old(Record()).(passwordConfirm := TrimmedOrUnset(v))
    {
      var t := TrimmedOrUnset(v);
      if isNew || "passwordConfirm" !in selected || t != passwordConfirm { modified := modified + {"passwordConfirm"}; }
      passwordConfirm := t;
    }

    /** `doc[key] = v` for a property the schema does not declare; `undefined` deletes it. */
    method SetExtra(key: string, v: JsValue)
      modifies this`extra
      ensures extra == if v.Undefined? then old(extra) - {key} else old(extra)[key := v]
    {
      if v.Undefined? { extra := extra - {key}; } else { extra := extra[key := v]; }
    }

    /**
     * The pre-save hook: an unmodified password is left alone; a modified
     * one is replaced by its hash and the confirmation is cleared.
     */
    method PreSave(hash: string -> string) returns (err: Option<JsError>)
      modifies this`password, this`passwordConfirm
      ensures "password" !in modified ==>
        err.None? && password == old(password) && passwordConfirm == old(passwordConfirm)
      ensures "password" in modified && old(password).Some? ==>
        err.None? && password == Some(hash(old(password).value)) && passwordConfirm.None?
      ensures "password" in modified && old(password).None? ==>
        err == Some(HashUndefinedError) && password == old(password) && passwordConfirm == old(passwordConfirm)
    {
      if "password" !in modified {
        return None;
      }
      if password.None? {
        return Some(HashUndefinedError);
      }
      password := Some(hash(password.value));
      passwordConfirm := None;
      err := None;
    }

    /**
     * `save(options)`: validation unless turned off, then the pre-save
     * hook; the record the store then holds.
     */
    method Save(validateBeforeSave: bool, isEmail: string -> bool, hash: string -> string)
      returns (r: Result<UserRecord, JsError>)
      modifies this`password, this`passwordConfirm, this`modified
      ensures validateBeforeSave && ValidateUser(old(Record()), isEmail, old(ValidatedPaths())) != [] ==>
        r == Err(ValidationFailure("User", ValidateUser(old(Record()), isEmail, old(ValidatedPaths()))))
        && Record() == old(Record())
      ensures r.Ok? <==> (!validateBeforeSave || ValidateUser(old(Record()), isEmail, old(ValidatedPaths())) == [])
                         && !("password" in old(modified) && old(password).None?)
      ensures r.Ok? ==> r.value == Record() && modified == {} && passwordConfirm.None? == ("password" in old(modified) || old(passwordConfirm).None?)
      ensures r.Ok? && "password" in old(modified) ==> old(password).Some? && password == Some(hash(old(password).value))
      ensures r.Ok? && "password" !in old(modified) ==> password == old(password)
    {
      if validateBeforeSave {
        var errs := ValidateUser(Record(), isEmail, ValidatedPaths());
        if errs != [] {
          return Err(ValidationFailure("User", errs));
        }
      }
      var err := PreSave(hash);
      if err.Some? {
        return Err(err.value);
      }
      modified := {};
      r := Ok(Record());
    }
  }
}

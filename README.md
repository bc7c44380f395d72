# tours-api core, modelled in Dafny

This project models the request-handling core of a tours booking API. The API is an Express
application over a MongoDB document store through Mongoose, and the model covers:

- **The query feature builder** (`APIFeatures`): a class holding a query and the request's
  query string. It filters with the comparison operators rewritten to `$gte`, `$gt`, `$lte`
  and `$lt`, then sorts, projects and paginates. Here it is a Dafny class whose methods append
  operations to a `Query` object. The `\b(gte|gt|lte|lt)\b` rewrite is a left-to-right
  scanner. It is proved equal to a position-wise reference definition and proved
  left-invertible, so rewriting the keys of a condition loses none of them.
- **The body filter** (`filterBodyObject`): a copy of a request body with some keys deleted,
  as a method with a loop proved against `Omit`.
- **The authentication handlers**:
  - token signing;
  - login;
  - the forgotten-password and reset-password flows;
  - the `protectRoute` middleware, which reads the bearer token, verifies it, loads the user
    and refuses a token issued before the last password change;
  - `restrictTo`.
- **The user schema**:
  - the required, length, email and confirmation validators;
  - the `trim` and `lowercase` setters;
  - the `select: false` paths;
  - the pre-save password hash;
  - `changedPasswordAfter`.

  A document is a class (`UserDocument`). Its password setters mark the path modified as the
  store's documents do: always on a new document or on a path the load did not select,
  otherwise when the value changes. A save validates the selected and the modified paths.
- **The central error handler**: the development and production replies, the three error
  translations, and the production `if`/`else` chain exactly as written (see "Findings").
- **The tour handlers**: the body check, the "top tours" alias and the listing.
- **The tour schema**: its validators and defaults, the pre-save slug, and the pre-find and
  pre-aggregate hooks that hide secret tours.
- **The user handlers**: the profile update guard and filter, account deactivation and the
  listing.
- **The review handlers and schema**: defaults for author and tour, validators, and the
  pre-find hook that populates only the author's name and avatar.

**Interfaces taken as parameters.** Password hashing (`hash`, `compare`), token signing and
verification (`sign`, `verify`), SHA-256 (`sha256`), `slugify`, the email validator
(`isEmail`), the current time (`now`) and the time the schemas were defined (`schemaTime`) are
parameters. Rendering a number into a message is the `show` parameter. The user store is a
`seq<UserRecord>` searched front to back.

**Outcome of a handler.** Each handler returns an `Outcome`: the reply it sends (status code
and JSON body), and whether it calls `next()`, calls `next(err)` or does not call it.

**Numbers.** Numbers are unbounded reals. JavaScript's `+x` coercion is an `Option<real>`
whose `None` stands for `NaN`.

## Model

| member | source | states |
|---|---|---|
| ApiFeatures.APIFeatures.constructor | modules/APIFeatures.js:3-8 | the builder holds the given query and query string |
| ApiFeatures.APIFeatures.Filter | modules/APIFeatures.js:10-25 | appends one `find` whose condition is the query string without the excluded keys, with operators prefixed by `$` |
| ApiFeatures.APIFeatures.Sort | modules/APIFeatures.js:27-37 | appends the client's comma list as a space list, or `-createdAt`; a non-string `sort` raises and appends nothing |
| ApiFeatures.APIFeatures.LimitFields | modules/APIFeatures.js:39-48 | appends the client's fields as a space list, or `-__v`; a non-string `fields` raises and appends nothing |
| ApiFeatures.APIFeatures.Paginate | modules/APIFeatures.js:50-63 | without a truthy page and limit it raises and appends nothing; otherwise appends skip `(page-1)*limit` and the limit |
| ApiFeatures.RunChain | controllers/tourController.js:48-49 | `filter().sort().limitFields().paginate()` appends exactly the operations of `ChainOps`, or stops with the first error |
| ApiFeatures.ChainOrder | controllers/tourController.js:49 | a successful chain is find, sort, projection, skip, limit in that order |
| ApiFeatures.PaginateNeedsPageAndLimit | modules/APIFeatures.js:51-52 | a query string without a truthy page or limit always makes the chain raise |
| ApiFeatures.PaginationPlan | modules/APIFeatures.js:50-58 | error exactly when page or limit is missing or empty; otherwise the coerced page (default 1) and the effective limit, never above 10 |
| ApiFeatures.EffectiveLimit | modules/APIFeatures.js:54-56 | the requested limit when it is a non-zero number of at most 10; otherwise 10 |
| ApiFeatures.CommaListOr | modules/APIFeatures.js:29-34 | falsy value gives the fallback; a string gives its comma parts joined by spaces; any other value raises a TypeError |
| ApiFeatures.CommaListKeepsNames | modules/APIFeatures.js:30 | the spaced list is the comma list with each comma replaced, and splitting it at spaces gives back the comma parts |
| ApiFeatures.RewriteCondition | modules/APIFeatures.js:16-22 | every key and string value is rewritten; a key is in the result exactly when its original was in the input |
| ApiFeatures.FilterConditionKeys | modules/APIFeatures.js:10-22 | a rewritten key is in the condition iff the key was in the query string and not excluded, with the rewritten value |
| ApiFeatures.FilterDropsExcluded | modules/APIFeatures.js:13 | an excluded control key never reaches the condition |
| ApiFeatures.FilterConditionFromKept | modules/APIFeatures.js:13-22 | every condition key comes from a kept query-string key, recovered by stripping the `$` |
| ApiFeatures.PrefixOperatorsOneToOne | modules/APIFeatures.js:17-20 | two different keys never rewrite to the same key |
| OperatorRewrite.RegexMatchIsLeadingOperator | modules/APIFeatures.js:18 | `(gte\|gt\|lte\|lt)\b`, with alternatives tried in order, matches exactly when the leading word is an operator |
| OperatorRewrite.PrefixOperatorsMarksWholeWords | modules/APIFeatures.js:17-20 | the global replace puts `$` before exactly the whole-word operators and copies everything else |
| OperatorRewrite.StripRewrite | modules/APIFeatures.js:17-20 | removing the inserted `$` gives back the original text |
| OperatorRewrite.PrefixOperatorsInjective | modules/APIFeatures.js:17-20 | equal rewrites come from equal texts |
| OperatorRewrite.RewriteAroundSeparator | modules/APIFeatures.js:16-22 | the rewrite of a JSON text is the rewrite of each piece between non-word separators |
| OperatorRewrite.RewriteQuoted | modules/APIFeatures.js:16-22 | a quoted JSON key or string is rewritten inside its quotes |
| Js.ToNumber | modules/APIFeatures.js:54 | `+s` of a blank string is 0; a number only comes from numeral characters |
| Js.ToNumberOfDigits | modules/APIFeatures.js:54 | a digit string coerces to its decimal value |
| Js.CoerceQuery | modules/APIFeatures.js:54-55 | an absent or nested query value coerces to NaN |
| Js.NumberOr | modules/APIFeatures.js:55 | `+v \|\| d`: the coerced number unless it is NaN or 0, else the default |
| Js.JoinSplitReplaces | modules/APIFeatures.js:30 | `split(c).join(d)` replaces every `c` with `d` |
| Js.SplitJoinRoundTrip | models/reviewModel.js:48 | splitting separator-free parts joined by a separator gives back the parts |
| Js.Trim | controllers/authController.js:149 | the trimmed text neither starts nor ends with white space, and text without white space is unchanged |
| Js.TrimIsSlice | controllers/authController.js:149 | the trimmed text is a slice of the input with only white space cut from either end |
| BodyFilter.FilterBodyObject | utils/index.js:2-8 | the copy equals the body with the listed keys deleted (loop proved against `Omit`) |
| BodyFilter.Omit | utils/index.js:3-5 | a key survives iff it is in the body and not listed, with its value unchanged |
| BodyFilter.OmitSeparates | utils/index.js:5 | a listed key is gone and every other body key is kept as it was |
| BodyFilter.OmitNothing | utils/index.js:2-3 | with no keys listed the copy equals the body |
| BodyFilter.OmitIdempotent | utils/index.js:5 | filtering twice is the same as filtering once |
| BodyFilter.OmitBySet | utils/index.js:5 | only the set of listed keys matters, not their order or repetition |
| AppErrors.NewAppError | controllers/errorController.js:23-34 | an application error keeps its message and code, is operational, and its status is `fail` for 4xx |
| AppErrors.DerivedStatus | controllers/errorController.js:23-34 | the derived status is `fail` iff the code is a client error, else `error` |
| Http.StatusMessage | controllers/errorController.js:12-20 | a reply whose body is exactly `status` and `message` with the given code |
| Http.Fail | controllers/authController.js:39-40 | `return next(err)`: no reply, `next` called with the error |
| MongoQuery.NewFind | controllers/tourController.js:48 | a fresh query holding one empty `find` |
| MongoQuery.Query.Append | models/tourModel.js:90 | one operation is added at the end |
| MongoQuery.Aggregate.Unshift | models/tourModel.js:97 | one stage is added at the front |
| Auth.SignJwtToken | controllers/authController.js:10-16 | an absent user id is refused with `Invalid user Id`; otherwise the token signs exactly the id |
| Auth.AfterSigning | controllers/authController.js:133-141 | the reply carries the token; a refused signing has also called `next` with its error |
| Auth.FindFirst | controllers/authController.js:42-44 | the store's first match, or none exactly when no record matches |
| Auth.FirstMatchAt | controllers/authController.js:42-44 | the record found is the first one that matches |
| Auth.Login | controllers/authController.js:35-57 | a missing email or password is refused with 400 before the store is read; login never passes the request on |
| Auth.LoginChecksBeforeLookup | controllers/authController.js:39-40 | with credentials missing, the outcome is the same whatever the store and password check |
| Auth.LoginHidesWhichCheckFailed | controllers/authController.js:46-48 | an unknown email and a wrong password get the same 401 reply |
| Auth.LoginSucceeds | controllers/authController.js:42-56 | the first user with that email and a matching password gets a 200 reply with a token for its id |
| Auth.ForgotPassword | controllers/authController.js:60-71 | an unknown email is refused with 404; a known one reaches the reset-token call, which the user schema does not define |
| Auth.EmailFailureRollback | controllers/authController.js:88-101 | were the email step reached and failed, both reset fields would be removed, the error would go to `next` and the 200 reply would still be sent; the handler never reaches it, since line 71 raises first |
| Schema.AsString | controllers/authController.js:125-126 | a body value assigned to a string path is kept only when it is a string |
| Auth.ResetPassword | controllers/authController.js:105-142 | no user with the hashed token and an unexpired date gives 400; for the user found, the save succeeds iff that user with the body's trimmed passwords meets the schema on the selected and both password paths, otherwise the reply is the validation error (in particular when either password is missing); a saved user is that one, with reset fields cleared, the new password hashed and the confirmation dropped, and a token reply |
| Auth.ResetFoundUser | controllers/authController.js:124-141 | for the user found: saved iff the user with the body's trimmed passwords meets the schema on the selected and both password paths, else the validation error; a saved user keeps its id, loses the reset fields, holds the hashed new password and no confirmation, and gets a token reply |
| Auth.ResetRefusesMismatch | controllers/authController.js:125-130 | a new password and confirmation that differ are refused |
| Auth.ResetAcceptsMatchingPasswords | controllers/authController.js:125-130 | a user with valid name and email resetting to equal passwords of 8 or more characters passes validation |
| Auth.ReplaceFirstAbsent | controllers/authController.js:149 | `replace` leaves text without the pattern unchanged |
| Auth.ReplaceFirstAtStart | controllers/authController.js:149 | a leading pattern is replaced |
| Auth.BearerTokenOfScheme | controllers/authController.js:148-149 | a `Bearer` header yields its trimmed credentials |
| Auth.ProtectDecision | controllers/authController.js:145-171 | no header or an empty token gives 401; admission needs a verified token whose id names a stored user, loaded without password fields, with no password change after issue |
| Auth.ProtectPassesVerifierError | controllers/authController.js:157-160 | a token the verifier rejects is refused with the verifier's own error |
| Auth.ProtectAdmitsFreshToken | controllers/authController.js:145-175 | a verified `Bearer` token whose id names a stored user with no password change after issue is admitted with that user, without password fields |
| Auth.ProtectRefusesUnknownUser | controllers/authController.js:163-166 | a verified token for an id not in the store is refused with 401 |
| Auth.ProtectRefusesStaleToken | controllers/authController.js:168-171 | a token issued before the user's password change is refused with 401 |
| Auth.ProtectRoute | controllers/authController.js:145-176 | on refusal `next(err)` and the request's user is unchanged; on admission `next()` and the request's user is the loaded record |
| Auth.UserRole | controllers/authController.js:180 | without a user the role is `undefined` |
| Auth.RestrictTo | controllers/authController.js:179-190 | `next()` iff the role is among the allowed roles, else 403 |
| Auth.RestrictToWithoutUser | controllers/authController.js:180-187 | a request without a user passes only if `undefined` is an allowed role |
| Schema.TrimmedOrUnset | models/userModel.js:10 | the `trim` setter: a value is trimmed, an unset path stays unset |
| Schema.ValidationFailure | models/userModel.js:75 | the store's `ValidationError` lists every field message in order |
| Schema.SomesMembers | models/userModel.js:7-41 | the reported errors are exactly the failing checks |
| UserModel.DefaultProjection | models/userModel.js:26-40 | a default load leaves out password and confirmation and nothing else |
| UserModel.ValidateUser | models/userModel.js:7-41 | no error iff the user meets every rule on the validated paths (`ValidUser`); errors only on validated paths; a missing name, a missing or invalid email, a missing or short (under 8) password or confirmation each report their message; `Passwords don't match` is reported iff the two differ |
| UserModel.ChecksReport | models/userModel.js:7-41 | each failing rule of a validated path reports its own message |
| UserModel.ChecksPassIffValid | models/userModel.js:7-41 | no check fails exactly when the schema's rules hold on the validated paths |
| UserModel.ChecksOnPaths | models/userModel.js:7-41 | a path that is not validated never reports an error |
| UserModel.ValidUserPasses | models/userModel.js:8-41 | a user with name, valid email, a password of 8+ characters and a matching confirmation passes |
| UserModel.MismatchRefused | models/userModel.js:33-39 | a confirmation that differs from the password is always refused |
| UserModel.ToLower | models/userModel.js:18 | ASCII upper case is lowered and everything else kept |
| UserModel.CastEmail | models/userModel.js:13-18 | an absent email stays absent; a given one is stored trimmed and lower-cased, with no upper-case letters |
| UserModel.NewUserRecord | models/userModel.js:7-44 | creation trims the strings, lower-cases the email, and sets no change date |
| UserModel.SecondsOf | models/userModel.js:65-68 | `parseInt(ms / 1000)` truncates toward zero |
| UserModel.ChangedAfterBySeconds | models/userModel.js:63-73 | a token is stale iff its issue second ended by the change |
| UserModel.SameSecondAccepted | models/userModel.js:63-73 | a token issued in the second of the change is still accepted |
| UserModel.NeverChangedNeverStale | models/userModel.js:64-72 | a user who never changed their password never invalidates a token |
| UserModel.UserDocument.Hydrate | models/userModel.js:26-40 | a loaded document holds the record without the unselected hidden paths, nothing modified |
| UserModel.UserDocument.SetPassword | models/userModel.js:21-26 | assigning trims, and marks the path modified when the document is new, the path was not selected, or the value changes |
| UserModel.UserDocument.SetPasswordConfirm | models/userModel.js:28-40 | assigning trims, and marks the path modified when the document is new, the path was not selected, or the value changes |
| UserModel.UserDocument.SetExtra | controllers/authController.js:89-90 | sets or, for `undefined`, removes an undeclared property |
| UserModel.UserDocument.PreSave | models/userModel.js:46-54 | an unmodified password is left alone; a modified one is hashed and the confirmation dropped; hashing an unset password fails |
| UserModel.UserDocument.Save | models/userModel.js:46-54 | validation (when on) runs first and leaves the document unchanged on failure; a successful save stores the hashed record |
| ErrorHandling.SendErrDevelopment | controllers/errorController.js:3-8 | the reply has the error's code, status and message, and carries the raw error |
| ErrorHandling.SendErrProduction | controllers/errorController.js:10-21 | an operational error is shown as it is; any other is masked as 500 `Something went wrong.` |
| ErrorHandling.HandleJwtError | controllers/errorController.js:23-24 | a bad token becomes a 400 operational error with its fixed text |
| ErrorHandling.HandleJwtExpiredError | controllers/errorController.js:26-27 | an expired token becomes a 400 operational error with its fixed text |
| ErrorHandling.HandleValidateErrorDB | controllers/errorController.js:29-35 | a validation error becomes 400 with every field message joined by `, ` |
| ErrorHandling.ValidateErrorListsFields | controllers/errorController.js:29-35 | splitting the message at commas gives back each field message in order |
| ErrorHandling.JoinCommaSpaceSplits | controllers/errorController.js:32 | `join(', ')` then a split at commas gives the parts back, each after the first with its space |
| ErrorHandling.WithDefaults | controllers/errorController.js:38-39 | a missing or empty status becomes `error` and a missing or zero code becomes 500; everything else is kept |
| ErrorHandling.ProductionErrorCases | controllers/errorController.js:42-50 | as written: always operational; an expired token gets its text; every other error keeps its own message; translated errors get code 400 |
| ErrorHandling.GlobalErrorHandler | controllers/errorController.js:37-54 | `next()` is always called; development replies with the defaulted raw error; production never exposes the raw error; other environments send nothing |
| ErrorHandling.ProductionShowsOwnMessage | controllers/errorController.js:43-50 | in production every error except an expired token shows its own message |
| ErrorHandling.ProductionExpiredToken | controllers/errorController.js:47 | an expired token is answered 400 with its fixed text |
| ErrorHandling.ProductionNeverMasks | controllers/errorController.js:48-50 | the production mask is never reached through the handler |
| ErrorHandling.ProductionErrorIntended | controllers/errorController.js:44-48 | the translation chain as an `else if` chain: always operational, with a code and a status |
| ErrorHandling.IntendedKeepsTranslations | controllers/errorController.js:45-48 | each of the three translations survives; other errors are treated as written |
| ErrorHandling.GlobalErrorHandlerIntended | controllers/errorController.js:37-54 | the handler with the intended chain: identical except that in production a validation error shows its field messages and a bad token its fixed text |
| ErrorHandling.TranslationLost | controllers/errorController.js:45-48 | for every validation or bad-token error, the chain as written keeps the original message while the intended chain gives the translation |
| ErrorHandling.ValidationMessageOverwritten | controllers/errorController.js:45-48 | a validation error shows its original message as written but its field messages as intended |
| ErrorHandling.JwtMessageOverwritten | controllers/errorController.js:46-48 | a bad token shows the library's message as written but the fixed text as intended |
| TourController.MissingFields | controllers/tourController.js:20 | a field is listed iff it is required and falsy in the tour |
| TourController.MissingAllFields | controllers/tourController.js:20 | a tour with no truthy required field misses all of them, in order |
| TourController.CheckRequestBody | controllers/tourController.js:9-30 | `next()` iff the tour is truthy and every required field is truthy; otherwise 400 with the invalid-body message or the list of missing fields |
| TourController.ZeroPriceIsMissing | controllers/tourController.js:20 | a price of 0 counts as missing |
| TourController.TopTours | controllers/tourController.js:33-36 | limit, sort and fields are overwritten and every other key is kept |
| TourController.AliasTopTours | controllers/tourController.js:32-39 | the query string becomes `TopTours` of the old one, then `next()` |
| TourController.AliasWithoutPageFails | controllers/tourController.js:32-39 | behind the alias a listing without a client page always raises the pagination error |
| TourController.AliasLimitsToFive | controllers/tourController.js:33 | behind the alias the page size is 5 |
| TourController.ListResponse | controllers/tourController.js:54-60 | 200 with `currentPage` as `+page \|\| 1` |
| TourController.CurrentPageDefaultsToOne | controllers/tourController.js:57 | a missing, NaN or zero page is reported as 1; any other number as itself |
| TourController.GetAllTours | controllers/tourController.js:42-61 | the query is a find, the chain's operations and the secret-tour exclusion; a failing step goes to `next` |
| UserController.UpdateProfile | controllers/userController.js:51-60 | refused iff a truthy password or confirmation is sent; otherwise role and email are gone and every other key is kept as sent |
| UserController.EmptyPasswordPassesGuard | controllers/userController.js:54 | an empty password passes the guard and stays in the patch |
| UserController.DeleteAccount | controllers/userController.js:81-91 | a missing user raises; otherwise the loaded record with `isActive` false is saved when it validates, and the reply is 204 |
| UserController.ValidationIgnoresExtra | controllers/userController.js:84-85 | the inactive flag plays no part in validation |
| UserController.UserListResponse | controllers/userController.js:20-31 | 200 with `data.meta.currentPage` as `+page \|\| 1` |
| UserController.GetAllUsers | controllers/userController.js:8-32 | the query is a find and the chain's operations; a failing step goes to `next` |
| ReviewController.NumberOf | controllers/reviewController.js:27 | a number path receives only numbers |
| ReviewController.ReviewInput | controllers/reviewController.js:24-31 | author and tour from the body when truthy, else from the user and the route; it raises iff there is neither author nor user |
| ReviewController.BodyCreatedAtIgnored | controllers/reviewController.js:26-31 | a date in the body is dropped and the default used |
| ReviewController.AddReview | controllers/reviewController.js:23-43 | input and validation errors go to `next`; a valid review gets 201 and `next()` is still called |
| ReviewController.AddReviewDefaults | controllers/reviewController.js:29-30 | a valid review posted on a tour route by a logged-in user is filed under both |
| ReviewController.GetAllReviews | controllers/reviewController.js:6-21 | the query is a find, sort, projection, pagination and the author population; a failing step goes to `next` |
| ReviewController.ReviewListingNeverFilters | controllers/reviewController.js:9 | the listing adds no find condition whatever the query string |
| TourModel.NewTour | models/tourModel.js:7-67 | creation trims name, summary and description, fills difficulty, ratings and dates with their defaults, and keeps every other field |
| TourModel.CreatedAtFrozen | models/tourModel.js:62-67 | as written, a tour created without dates never gets its creation time |
| TourModel.NewTourIntended | models/tourModel.js:62-67 | as intended, the dates default to the creation time |
| TourModel.ValidateTour | models/tourModel.js:7-59 | no errors iff the tour is valid; each failing rule reports its declared message: a missing name, duration, group size, price, summary, description or image cover, a `ratingsAverage` above 5 and a fractional price |
| TourModel.TourChecksReport | models/tourModel.js:7-59 | the tour's checks pass iff the tour is valid, and each failing rule reports its own message |
| TourModel.DefaultsKeepValid | models/tourModel.js:23-35 | the defaults never make a valid tour invalid |
| TourModel.BlankNameRefused | models/tourModel.js:8-13 | a name of spaces is trimmed and then refused as missing |
| TourModel.TourDocument.constructor | models/tourModel.js:7-67 | a new document holds the created record |
| TourModel.TourDocument.PreSave | models/tourModel.js:82-86 | the slug is the slugified name; a missing name makes the hook fail |
| TourModel.TourDocument.Save | models/tourModel.js:82-86 | saved iff valid; an invalid tour raises the validation error unchanged; a saved one carries its slug |
| TourModel.HideSecret | models/tourModel.js:90 | keeps exactly the tours whose secret flag is not `true` |
| TourModel.HideSecretKeepsVisible | models/tourModel.js:90 | a list without secret tours is unchanged |
| TourModel.HideSecretIdempotent | models/tourModel.js:89-93 | hiding twice is the same as hiding once |
| TourModel.PreFind | models/tourModel.js:89-93 | every find gets the secret-tour exclusion appended |
| TourModel.PreAggregate | models/tourModel.js:96-100 | the exclusion becomes the first stage of every aggregation |
| TourModel.FirstStageHidesSecret | models/tourModel.js:97 | after the first stage no secret tour remains |
| ReviewModel.NewReview | models/reviewModel.js:6-33 | creation trims the title and defaults the date, keeping everything else |
| ReviewModel.ReviewCreatedAtFrozen | models/reviewModel.js:19-23 | as written, a review created without a date never gets its creation time |
| ReviewModel.NewReviewIntended | models/reviewModel.js:19-23 | as intended, the date defaults to the creation time |
| ReviewModel.ValidateReview | models/reviewModel.js:7-33 | no errors iff the review is valid; each failing rule reports its declared message: a missing title, rating, tour or user, and a rating below 1 or above 5; a rating error means the rating is missing or outside 1 to 5 |
| ReviewModel.ReviewChecksReport | models/reviewModel.js:7-33 | the review's checks pass iff the review is valid, and each failing rule reports its own message |
| ReviewModel.PreFind | models/reviewModel.js:45-56 | every find populates the author with `name avatar` |
| ReviewModel.PopulatedFields | models/reviewModel.js:46-49 | the id and exactly the non-empty selected paths are populated |
| ReviewModel.PopulatedPair | models/reviewModel.js:48 | a two-name selection populates exactly those names and the id |
| ReviewModel.AuthorShowsOnlyPublicFields | models/reviewModel.js:45-56 | the author appears with id, name and avatar only |

## Left out

- **Query-string parsing.** Nested query objects beyond one level of operators are not
  modelled. Neither are arrays of objects or JSON string escapes. The rewrite is proved over
  keys and string values.
- **Number coercion.** `+x` is modelled for signed decimal numerals with surrounding white
  space. Hexadecimal, exponent and `Infinity` forms are treated as NaN.
- **Undeclared properties.** `role`, `isActive`, `passwordResetToken` and `passwordResetExpires`
  are not declared in the user schema. The model keeps them in the record's `extra` map and
  treats them as readable, writable and saved. Under the store's default strict mode they are
  in fact neither kept on assignment nor persisted, so `restrictTo` would see no role.
  - The reset-token lookup at authController.js lines 113-118 filters on the undeclared
    `passwordResetToken` and `passwordResetExpires`. Depending on the store's version, strict
    query mode either drops such filters (so `findOne` returns the first user of all) or keeps
    them. `ResetTokenMatches` keeps them and models neither the dropping nor a version switch.
- **Store internals.**
  - Casting of query values: `findOne` and `findById` match on exact values, and ObjectId
    casting is not modelled. The store runs a path's setters on query values too, so in the
    source a login or password-reset request for `" User@X.com "` is trimmed and lower-cased
    (userModel.js lines 15 and 18) and finds the stored `user@x.com`. In the model
    `EmailMatches` compares the strings exactly, so `Login` answers that request with 401 and
    `ForgotPassword` with 404.
  - Store-level cast errors.
  - The unique index on name and email.
  - The schema's validator order is assumed to be declaration order.
- **Non-string body values.** A string path receives only strings and a number path only
  numbers; any other body value is left unset rather than cast (`NumberOf`,
  `AsString`). Cast errors are not modelled.
- **Lower-casing.** `lowercase` lowers ASCII letters only.
- **Reply contents.** The documents in replies (`data`, `results`, `requestTime`) are not
  modelled. A 204 reply's body is modelled as sent even though HTTP drops it.
- **Error classes.** `utils/appError.js` is not part of this model. The fields of an
  application error (operational, name `Error`, status from the code) are an assumption. The
  error's `name` is assumed to survive the spread copy at errorController.js line 43.
- **Number rendering.** How numbers are rendered in the tour and review validation messages is
  the `show` parameter; the user schema's minimum length is a natural number, written in decimal.
- **Secret-tour condition.** How the hook's secret-tour condition merges with a client's own
  `secretTour` condition is not modelled. The hook is an appended operation.
- **Profile update persistence.** `updateProfile`'s `findByIdAndUpdate` with `runValidators`
  and the following `save` are not modelled; the model ends at the filtered patch.
- **Password reset token.** `createPasswordResetToken` is not defined by the user schema, so
  `forgotPassword` is modelled as raising a TypeError for a known email. The token generation,
  its lifetime and the email text are not modelled.
- **Left out entirely:**
  - `catchErrorAsync`, the aggregation statistics handlers, the generic CRUD handlers, the
    routes, the server and application set-up, and email sending;
  - `signup`, which is `create` followed by `SignJwtToken`;
  - the `durationWeeks` virtual;
  - the `correctPassword` method (the `compare` parameter).
- **Timestamps.** Token expiry inside `verify` is the `verify` parameter. The current time
  and the schema definition time are parameters.
- **Password change date.** A password change does not set `passwordChangedAt` in the code,
  and the model follows the code.
- Auth.Login: its own contract states only the refusal of missing credentials and that the
  request is never passed on. The other cases are stated by `LoginHidesWhichCheckFailed` and
  `LoginSucceeds`. An object `email` such as `{"$gt": ""}` (authController.js lines 42-44) is a
  query operator to the store, which then matches the first user it satisfies; `EmailMatches`
  matches only a string email exactly, so that operator injection is not modelled.
- Auth.ForgotPassword: states the refusal of an unknown email and the TypeError for a known
  one. The reply that would follow is not reachable. As at login, an object `email` (line 64)
  would be a query operator matching some user; the model finds no user for it.
- Auth.UserRole: states only the case without a user; with a user the role is the stored
  `role` property, as the undeclared-property note above explains.
- ErrorHandling.GlobalErrorHandler: its production reply is stated by
  `ProductionShowsOwnMessage`, `ProductionExpiredToken` and `ProductionNeverMasks`, not by its
  own contract.

## Findings

The handlers and schemas are modelled as written, because that is how the system behaves.
Each corrected definition stands beside its as-written one, and the intended property is proved
about it. `GlobalErrorHandlerIntended` is the central handler over the corrected chain
`ProductionErrorIntended`. `NewTourIntended` and `NewReviewIntended` are creation with the
defaults taken at the time of creation.

| source | as written | input that shows it | evidently intended | confidence | as-written member | corrected member |
|---|---|---|---|---|---|---|
| controllers/errorController.js:45-48 | the `else` binds only to the expired-token test, so a translated validation or bad-token error is rebuilt from the original message | a `ValidationError` with message `User validation failed` and field message `Please input name` is shown as `User validation failed` | an `else if` chain: `Invalid input data. Please input name`, and the fixed text for a bad token | high, not executed | ErrorHandling.ValidationMessageOverwritten | ErrorHandling.GlobalErrorHandlerIntended |
| models/tourModel.js:64-67 | `default: Date.now()` is evaluated once, when the schema is defined | two tours created at different times without dates get the same `createdAt` and `startDates` | `default: Date.now`, evaluated on each creation | medium, not executed | TourModel.CreatedAtFrozen | TourModel.NewTourIntended |
| models/reviewModel.js:21 | `default: Date.now()` is evaluated once, when the schema is defined | two reviews created at different times get the same `createdAt` | `default: Date.now`, evaluated on each creation | medium, not executed | ReviewModel.ReviewCreatedAtFrozen | ReviewModel.NewReviewIntended |

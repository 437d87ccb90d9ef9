# Inventory manager: accounts, schemas and client auth state

This project models the account core of a full-stack inventory manager.

- The REST backend's user controller handles register, login, logout, get user, login status and update user. It works over the user collection, and the collection keeps a unique index on email.
- The Mongoose schemas for users and products are modelled: their defaults, their `trim` setters and their validators.
- The client's auth slice is modelled: its initial state, which is read from browser storage; the `SET_LOGIN`, `SET_NAME` and `SET_USER` reducers; and its selectors.
- The client-side `validateEmail` check is modelled.

Modules:

- `Wrappers`: `Option` and `Result`.
- `JsStrings`: JavaScript truthiness of an optional string; the white-space class shared by `String.prototype.trim` and the regular-expression escape `\s`; `trimStart`, `trimEnd`, `trim` and `toLowerCase`.
- `UserModel`: the user schema as pure functions. `Cast` builds a document, `Violations` lists the failing validators, and `Create` is `User.create`.
- `ProductModel`: the product schema in the same style.
- `UserController`: the handlers, as methods of the class `UserStore`.
  - `UserStore` holds the documents by `_id` (`users`), the email index (`emails`) and the next fresh identifier (`nextId`).
  - Its invariant `Valid` says three things: every stored document satisfies the schema; its email is trimmed; and the index maps each stored email to the one document holding it.
  - Each handler returns a `Response`: the status it sets, the cookie it sets, and either the JSON body or the error it throws.
- `AuthService`:
  - the classes `LocalStorage` and `AuthSlice`, whose reducers update the slice's fields in place;
  - the selectors (`SelectIsLoggedIn`, `SelectName`, `SelectUser`), which the reducers' contracts are stated through;
  - `ValidateEmail`, which is proved equal to a plain reading of its pattern.

The libraries are uninterpreted functions in `UserController.Env`: `bcrypt.compare`, `jwt.sign`, `jwt.verify` and the schema's email regular expression. `generateToken` is `GenerateToken`, which signs the payload `{ id }` together with its one-day expiry (`TokenClaims`) through `Env.sign`. The current time is a parameter (`now`, in milliseconds).

Some behaviour of the code worth knowing:

- Passwords are stored as submitted. The user schema installs no hashing hook, and register hands the password straight to `User.create`. Login checks it through the abstract `compare`.
- `BcryptShaped` is the hypothesis that `compare` accepts only 60-character hashes, which is how bcryptjs behaves. Under it, `LoginUser` can never answer 200, because any stored password is at most 16 characters long.
- A duplicate email answers 400 "Email exists please sign in".
- An unknown email and a wrong password get different messages, and the model keeps both.

## Model

| member | source | states |
|---|---|---|
| JsStrings.TrimStart | backend/models/userModel.js:13 | the result is a suffix of the input, the dropped prefix is all white space, and the result does not start with white space |
| JsStrings.TrimEnd | backend/models/userModel.js:13 | the result is a prefix of the input, the dropped suffix is all white space, and the result does not end with white space |
| JsStrings.Trim | backend/models/userModel.js:13 | neither end of the result is white space, it is no longer than the input, and it is empty exactly when the input is all white space |
| JsStrings.TrimIsSlice | backend/models/productModel.js:13 | trimming removes exactly a white-space prefix and a white-space suffix: the result is a contiguous slice of the input |
| JsStrings.TrimOfTrimmed | backend/models/productModel.js:24 | a string with no white space at either end is left unchanged by trim |
| JsStrings.TrimIdempotent | backend/models/productModel.js:13 | trimming twice is the same as trimming once |
| JsStrings.LowerChar | sw-frontend/src/services/authService.js:53 | lower-casing one character keeps whether it is white space, an '@' or a '.' |
| JsStrings.ToLower | sw-frontend/src/services/authService.js:53 | lower-casing keeps the length and maps each character on its own |
| UserModel.Cast | backend/models/userModel.js:5-37 | building a document gives it the id, a trimmed email that is empty exactly when the given email is undefined or blank, the default photo and bio when those are undefined, and an empty name or password exactly when the given one is falsy |
| UserModel.CastIdempotent | backend/models/userModel.js:13-36 | building a document again from a built document's fields changes nothing: the trim setter and the defaults apply once |
| UserModel.Violations | backend/models/userModel.js:5-37 | no validator fails exactly when the document conforms to the schema. Each path reports only its first failing validator, in declared order: name required; email required, else email invalid; password required, else too short (1 to 5 characters), else too long (over 16); bio over 255 characters. Each violation is present exactly when its condition holds |
| UserModel.Create | backend/models/userModel.js:3-42 | `User.create` succeeds exactly when the name is truthy, the email is not blank and matches after trimming, the password has 6 to 16 characters and the bio is within bounds. The created document satisfies the schema and has a trimmed email, the given id, the given fields, and the default photo and bio when those were undefined. On failure the error is exactly the violations of the cast document, so a missing name, email or password fails with that path's required error |
| UserModel.CreateOfStored | backend/models/userModel.js:5-37 | re-creating a stored document from its own fields yields that same document |
| ProductModel.DefaultsTrimmed | backend/models/productModel.js:15-46 | the sku and description defaults are unchanged by the trim setter |
| ProductModel.MissingString | backend/models/productModel.js:10-46 | a string path fails "required" exactly when it is undefined and has no default, or is given as all white space |
| ProductModel.Violations | backend/models/productModel.js:5-50 | each of the eight required validators fails exactly when its path is undefined or blank. For sku and description, undefined never fails, because their defaults are not empty |
| ProductModel.Create | backend/models/productModel.js:3-55 | `Product.create` fails exactly when some required validator fails, and fails with exactly those violations. On success the product has non-empty trimmed strings, the given values and the defaults (sku "sku-00", description "Product Description", image `{}`) |
| ProductModel.CreateOfStored | backend/models/productModel.js:5-50 | re-creating a stored product from its own fields yields that same product |
| ProductModel.CreateIdempotent | backend/models/productModel.js:3-55 | feeding a created product back into `Product.create` yields the same result |
| UserController.ProfileFields | backend/controllers/user.js:49-58 | the profile body has exactly `_id`, name, email, photo and bio, plus phone when it is set, each with the document's value, and never the password |
| UserController.UpdatedFields | backend/controllers/user.js:172-178 | the update body has exactly `_id`, name, photo and bio, plus phone when it is set, and has neither email nor password |
| UserController.SignedInHidesPassword | backend/controllers/user.js:35-58 | a signed-in response has the given status and the one-day token cookie; its JSON holds the token and never the password |
| UserController.SessionMatchesToken | backend/controllers/user.js:36-45 | the token that `generateToken` (user.js:186-188) returns signs the user's id with an expiry one day after now. The cookie holds that token, and expires at the same instant |
| UserController.RegisteredDocument | backend/controllers/user.js:29-33 | the document register creates is the submitted name and password, the trimmed email, the default photo and bio, and no phone; its password has at most 16 characters, although register checks only the lower bound |
| UserController.Merge | backend/controllers/user.js:165-169 | name, phone, bio and photo take the request value when it is truthy and keep the old value otherwise; id, email and password are kept |
| UserController.MergeIdempotent | backend/controllers/user.js:165-169 | applying the same update twice is the same as applying it once |
| UserController.MergeEmpty | backend/controllers/user.js:165-169 | an update whose four fields are all falsy leaves the document as it was |
| UserController.MergeOnlyBioCanFail | backend/controllers/user.js:171 | saving the merged document of a stored user fails exactly when the new bio exceeds 255 characters, and then only with that violation |
| UserController.LongPasswordRejectedOnCreate | backend/controllers/user.js:15-33 | every register body with all fields present and a password over 16 characters passes register's own length check, and `User.create` then rejects it as too long |
| UserController.InsertKeepsIndex | backend/models/userModel.js:9-13 | adding a conforming document with a fresh id and an unindexed email keeps the collection and its unique email index consistent, and grows the collection by one |
| UserController.ReplaceKeepsIndex | backend/controllers/user.js:171 | replacing a document by a conforming one with the same id and email keeps the index consistent |
| UserController.UserStore.constructor | backend/models/userModel.js:44 | an empty collection is valid |
| UserController.UserStore.EmailsUnique | backend/models/userModel.js:12 | no two stored users share an email |
| UserController.UserStore.FindByEmail | backend/controllers/user.js:21 | `findOne({ email })` finds a user exactly when some stored user has the trimmed query as its email, and then it returns that stored user |
| UserController.UserStore.Insert | backend/controllers/user.js:29-33 | storing a validated document puts it under the next fresh id and indexes its email; the collection stays valid and grows by one |
| UserController.UserStore.RegisterUser | backend/controllers/user.js:7-63 | the three guards answer 400 with their messages, in order: missing field, short password, existing trimmed email. Otherwise a failing `User.create` propagates its violations without a status. A successful one stores exactly the created document under a fresh id and answers 201 with the session cookie, the profile and the token but never the password. Every non-201 outcome leaves the store and the cookie untouched, and the store stays valid |
| UserController.UserStore.LoginUser | backend/controllers/user.js:66-113 | a missing email or password, an unknown email, and a failed `compare` answer 400 with their messages. The answer is 200 exactly when a stored user has the trimmed email and `compare` accepts; only then is a cookie set. When `compare` accepts only bcrypt-shaped hashes, no login succeeds |
| UserController.UserStore.LogoutUser | backend/controllers/user.js:116-125 | the answer is 200 with the token cookie emptied and expired at the epoch, and the logged-out message |
| UserController.UserStore.GetUser | backend/controllers/user.js:128-145 | a stored user gets 200 with its profile fields and neither password nor token; otherwise 400 "User Not Found" |
| UserController.UserStore.LoginStatus | backend/controllers/user.js:148-159 | a falsy token gives `false`; a token that verifies gives `true`; any other token makes `jwt.verify` throw. The body is `true` exactly when a token is present and verifies |
| UserController.UserStore.UpdateUser | backend/controllers/user.js:161-183 | an unknown id answers 404 "User not found". Otherwise the merged document is saved, with 200 and the update body, when its bio is within 255 characters, and rejected with the bio violation, leaving the store unchanged, when it is not. No id, email or password ever changes, and the store stays valid |
| AuthService.InitialName | sw-frontend/src/services/authService.js:6-10 | the initial name is the persisted name when one is stored, and "" otherwise |
| AuthService.InitialState | sw-frontend/src/services/authService.js:8-18 | the initial state is logged out, has the five empty profile fields, and has the persisted name |
| AuthService.SelectorsDetermineState | sw-frontend/src/services/authService.js:44-46 | `selectIsLoggedIn`, `selectName` and `selectUser` together read the whole slice: two root states that agree on all three are equal |
| AuthService.NameSurvivesReload | sw-frontend/src/services/authService.js:6-30 | a name written to storage is the name the next initial state starts with |
| AuthService.LocalStorage.constructor | sw-frontend/src/services/authService.js:6 | storage starts with the given items |
| AuthService.LocalStorage.SetItem | sw-frontend/src/services/authService.js:28 | `setItem` binds the key to the value and changes no other key |
| AuthService.AuthSlice.constructor | sw-frontend/src/services/authService.js:20-22 | the slice starts in the initial state read from storage, as the selectors show it |
| AuthService.AuthSlice.SetLogin | sw-frontend/src/services/authService.js:24-26 | `SET_LOGIN` sets the logged-in flag and leaves the name and the profile unchanged |
| AuthService.AuthSlice.SetName | sw-frontend/src/services/authService.js:27-30 | `SET_NAME` sets the name and persists it, so a reload starts with it; the flag and the profile are unchanged |
| AuthService.AuthSlice.SetUser | sw-frontend/src/services/authService.js:31-38 | `SET_USER` copies the five profile fields from the payload, each undefined when the payload lacks it; the flag and the name are unchanged |
| AuthService.RegexGivesWellFormed | sw-frontend/src/services/authService.js:52 | a match of the pattern has no white space and exactly one '@', with text before it and a '.' later that has text on both sides |
| AuthService.WellFormedGivesRegex | sw-frontend/src/services/authService.js:52 | such an address, split at its '@' and a '.' of its domain, gives the three runs of the pattern |
| AuthService.RegexMeansWellFormed | sw-frontend/src/services/authService.js:52 | the pattern matches exactly the well-formed addresses |
| AuthService.LowerKeepsWellFormed | sw-frontend/src/services/authService.js:53 | lower-casing neither makes nor breaks a well-formed address |
| AuthService.ValidateEmail | sw-frontend/src/services/authService.js:51-54 | `validateEmail` accepts exactly the well-formed addresses: no white space, exactly one '@' with text before it, and after it a '.' that has text on both sides |
| AuthService.ValidateEmailMeans | sw-frontend/src/services/authService.js:51-54 | testing the lower-cased string decides the same as testing the pattern on the string as given, and both accept exactly the well-formed addresses |
| AuthService.ValidateEmailRejects | sw-frontend/src/services/authService.js:51-54 | a string with no '@', with two '@'s or with any white space is rejected |
| AuthService.ValidateEmailAccepts | sw-frontend/src/services/authService.js:51-54 | "Ann@Example.com" is accepted, upper case included |

## Left out

- The controller exports only the six handlers above. The password-change and password-reset routes are not defined in `backend/controllers/user.js`, so they are not part of this model.
- The client's `loginUser` and `registerUser` wrappers are left out. They are HTTP posts through axios plus toast notifications: I/O with no logic of their own.
- bcrypt, JWT signing and verification (beyond the payload and the expiry that are signed), and the schema's email regular expression are uninterpreted: `Env.compare`, `Env.sign`, `Env.verify` and `Env.isEmail`. Token expiry is left to `Env.verify`.
- UserModel.Violations: the email `match` validator is the abstract `isEmail`, not the regular expression itself.
- UserController.UserStore.LoginStatus: `res.json(false)` after a falsy `jwt.verify` result is not a separate answer. `jwt.verify` either throws or returns a decoded (truthy) payload, so the model has only the throwing case, `TokenRejected`.
- UserController.UserStore.RegisterUser: the "Invalid user data" branch is not modelled. `User.create` either returns a document or throws, so that branch cannot be reached.
- Responses for thrown errors without a status carry status `None`. The error middleware that picks the final status is not part of this model.
- Each handler runs as one atomic step. The race between register's `findOne` check and its insert, which the unique index resolves, is not modelled.
- ObjectId generation is a counter (`nextId`).
- The `createdAt` and `updatedAt` timestamps are left out.
- Request body fields are either undefined or strings. Other JSON value types are not modelled.
- String lengths count code points, whereas JavaScript counts UTF-16 code units.
- JsStrings.ToLower: lower-cases only ASCII letters. No non-ASCII letter changes whether it is white space, '@' or '.', so this does not affect `validateEmail`.
- Numeric product fields are real numbers; floating-point behaviour is not modelled.
- `JSON.stringify` and `JSON.parse` around the stored name are left out: the storage holds the string itself. A stored name is therefore treated as a string, and a stored empty string counts as no name.
- The reducers run on the slice itself; Immer's copy-on-write mechanics are not modelled.

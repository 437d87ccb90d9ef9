/**
 * The account handlers of the REST backend (register, login, logout, get
 * user, login status, update user) over a user store. The store is the
 * user collection: documents by `_id`, plus the unique index on email.
 * Each handler returns the response it builds: the status it sets, the
 * cookie it sets, and the JSON body or the error it throws.
 */
module UserController {
  import opened Wrappers
  import opened JsStrings
  import opened UserModel

  /**
   * The libraries the handlers call into, kept uninterpreted:
   * `compare(password, stored)` is `bcrypt.compare`;
   * `sign(claims)` is `jwt.sign` with `JWT_SECRET` of a payload and its expiry (see TokenClaims);
   * `verify(token, now)` is whether `jwt.verify(token, JWT_SECRET)` decodes at time `now`
   * (it throws otherwise);
   * `isEmail` is the email regular expression of the user schema.
   */
  datatype Env = Env(
    compare: (string, string) -> bool,
    sign: Claims -> string,
    verify: (string, int) -> bool,
    isEmail: string -> bool)

  /** The lifetime of the session cookie and of the token: one day in milliseconds. */
  const OneDayMs: int := 1000 * 86400

  /** What a token carries: the payload `{ id }` and the instant it expires. */
  datatype Claims = Claims(id: Id, expiresAt: int)

  const MsgRequiredFields := "Please enter all the required fields"
  const MsgShortPassword := "Password must be at least 6 characters"
  const MsgEmailExists := "Email exists please sign in"
  const MsgBothRequired := "Please enter both email and password"
  const MsgNotRegistered := "User not found, please register"
  const MsgBadCredentials := "Invalid email or password"
  const MsgLoggedOut := "Successfully Logged Out"
  const MsgGetUserMissing := "User Not Found"
  const MsgUpdateUserMissing := "User not found"

  datatype Cookie = Cookie(
    name: string,
    value: string,
    path: string,
    httpOnly: bool,
    expires: int,
    sameSite: string)

  /** A JSON value in a response body: a string or an ObjectId. */
  datatype Value = Str(s: string) | ObjectId(id: Id)

  datatype Body =
    | Json(fields: map<string, Value>)
    | JsonBool(flag: bool)
    | Thrown(message: string)               // `throw new Error(message)`
    | ValidationFailed(violations: set<Violation>)  // the schema rejected the document
    | TokenRejected                         // `jwt.verify` threw

  /**
   * A response. `status` is None when the handler threw without setting a
   * status, which leaves the status to the error middleware.
   */
  datatype Response = Response(status: Option<int>, cookie: Option<Cookie>, body: Body)

  /** The request body of register. */
  datatype RegisterBody = RegisterBody(name: Option<string>, email: Option<string>, password: Option<string>)

  /** The request body of login. */
  datatype LoginBody = LoginBody(email: Option<string>, password: Option<string>)

  /** The request body of update user. */
  datatype UpdateBody = UpdateBody(name: Option<string>, phone: Option<string>, bio: Option<string>, photo: Option<string>)

  /** `{ id }` signed at time `now` with `expiresIn: "1d"`. */
  function TokenClaims(id: Id, now: int): Claims {
    Claims(id, now + OneDayMs)
  }

  /** `generateToken(id)` at time `now`. */
  function GenerateToken(env: Env, id: Id, now: int): string {
    env.sign(TokenClaims(id, now))
  }

  /** The `token` cookie set by register and login at time `now`. */
  function SessionCookie(token: string, now: int): Cookie {
    Cookie("token", token, "/", true, now + OneDayMs, "none")
  }

  /** The cookie logout sets: empty and expired at the epoch. */
  const ClearedCookie: Cookie := Cookie("token", "", "/", true, 0, "none")

  /** `res.status(status); throw new Error(message)`. */
  function Reject(status: int, message: string): Response {
    Response(Some(status), None, Thrown(message))
  }

  /** The JSON entry for an optional string: `undefined` fields are left out of the body. */
  function OptionalField(key: string, v: Option<string>): map<string, Value> {
    if v.Some? then map[key := Str(v.value)] else map[]
  }

  /** `{ _id, name, email, photo, phone, bio }` of a user document. */
  function ProfileFields(u: UserRecord): (f: map<string, Value>)
    ensures f.Keys == {"_id", "name", "email", "photo", "bio"} + (if u.phone.Some? then {"phone"} else {})
    ensures "password" !in f
    ensures f["_id"] == ObjectId(u.id) && f["name"] == Str(u.name) && f["email"] == Str(u.email)
    ensures f["photo"] == Str(u.photo) && f["bio"] == Str(u.bio)
    ensures u.phone.Some? ==> f["phone"] == Str(u.phone.value)
  {
    map["_id" := ObjectId(u.id), "name" := Str(u.name), "email" := Str(u.email),
        "photo" := Str(u.photo), "bio" := Str(u.bio)] + OptionalField("phone", u.phone)
  }

  /** `{ _id, name, photo, phone, bio }` of an updated user document: no email, no password. */
  function UpdatedFields(u: UserRecord): (f: map<string, Value>)
    ensures f.Keys == {"_id", "name", "photo", "bio"} + (if u.phone.Some? then {"phone"} else {})
    ensures "password" !in f && "email" !in f
    ensures f["_id"] == ObjectId(u.id) && f["name"] == Str(u.name)
    ensures f["photo"] == Str(u.photo) && f["bio"] == Str(u.bio)
    ensures u.phone.Some? ==> f["phone"] == Str(u.phone.value)
  {
    map["_id" := ObjectId(u.id), "name" := Str(u.name), "photo" := Str(u.photo),
        "bio" := Str(u.bio)] + OptionalField("phone", u.phone)
  }

  /** The response of a successful register (201) or login (200) for user `u`. */
  function SignedIn(env: Env, status: int, u: UserRecord, now: int): Response {
    var token := GenerateToken(env, u.id, now);
    Response(Some(status), Some(SessionCookie(token, now)), Json(ProfileFields(u)["token" := Str(token)]))
  }

  /** A signed-in response carries the token and the cookie, and never the password. */
  lemma SignedInHidesPassword(env: Env, status: int, u: UserRecord, now: int)
    ensures var r := SignedIn(env, status, u, now);
      && r.status == Some(status) && r.cookie == Some(SessionCookie(GenerateToken(env, u.id, now), now))
      && r.body.Json? && "password" !in r.body.fields
      && "token" in r.body.fields && r.body.fields["token"] == Str(GenerateToken(env, u.id, now))
  {
  }

  /**
   * The token of a signed-in response is the user's id signed with a one-day
   * expiry, and the cookie carrying it expires at that same instant.
   */
  lemma SessionMatchesToken(env: Env, status: int, u: UserRecord, now: int)
    ensures var r := SignedIn(env, status, u, now);
      && r.cookie.Some? && r.body.Json? && "token" in r.body.fields
      && r.cookie.value.value == env.sign(Claims(u.id, r.cookie.value.expires))
      && r.body.fields["token"] == Str(r.cookie.value.value)
      && r.cookie.value.expires == now + OneDayMs
  {
  }

  /** The register guard `!name || !email || !password`. */
  predicate MissingField(body: RegisterBody) {
    Falsy(body.name) || Falsy(body.email) || Falsy(body.password)
  }

  /** What register hands to `User.create`: name, email and password only. */
  function NewUserInput(body: RegisterBody): UserInput {
    UserInput(body.name, body.email, body.password, None, None, None)
  }

  /**
   * The document register creates holds the submitted name and password,
   * the trimmed email, the default photo and bio and no phone; its password
   * is within the schema's bounds even though register checks only the lower one.
   */
  lemma RegisteredDocument(id: Id, body: RegisterBody, isEmail: string -> bool)
    requires !MissingField(body) && Create(id, NewUserInput(body), isEmail).Success?
    ensures var u := Create(id, NewUserInput(body), isEmail).value;
      && u == UserRecord(id, body.name.value, Trim(body.email.value), body.password.value,
                         DefaultPhoto, None, DefaultBio)
      && PasswordMinLength <= |body.password.value| <= PasswordMaxLength
  {
  }

  /** `req.body.x || x`: the request value when it is truthy, otherwise the old one. */
  function Pick(v: Option<string>, current: string): string {
    if Falsy(v) then current else v.value
  }

  /**
   * The field assignments of update user: each of name, phone, bio and photo
   * takes the request value when that is truthy and keeps its old value
   * otherwise; `_id`, email and password are untouched.
   */
  function Merge(u: UserRecord, body: UpdateBody): (m: UserRecord)
    ensures m.id == u.id && m.email == u.email && m.password == u.password
    ensures m.name == (if Falsy(body.name) then u.name else body.name.value)
    ensures m.phone == (if Falsy(body.phone) then u.phone else body.phone)
    ensures m.bio == (if Falsy(body.bio) then u.bio else body.bio.value)
    ensures m.photo == (if Falsy(body.photo) then u.photo else body.photo.value)
  {
    u.(name := Pick(body.name, u.name),
       phone := if Falsy(body.phone) then u.phone else body.phone,
       bio := Pick(body.bio, u.bio),
       photo := Pick(body.photo, u.photo))
  }

  /** Merging the same request twice is merging it once. */
  lemma MergeIdempotent(u: UserRecord, body: UpdateBody)
    ensures Merge(Merge(u, body), body) == Merge(u, body)
  {
  }

  /** A request with every field falsy leaves the document as it was. */
  lemma MergeEmpty(u: UserRecord, body: UpdateBody)
    requires Falsy(body.name) && Falsy(body.phone) && Falsy(body.bio) && Falsy(body.photo)
    ensures Merge(u, body) == u
  {
  }

  /**
   * Saving the merged document of a stored user can fail only one way: the
   * new bio is longer than 255 characters.
   */
  lemma {:induction false} MergeOnlyBioCanFail(u: UserRecord, body: UpdateBody, isEmail: string -> bool)
    requires Stored(u, isEmail)
    ensures Stored(Merge(u, body), isEmail) <==> |Merge(u, body).bio| <= BioMaxLength
    ensures Violations(Merge(u, body), isEmail) == (if |Merge(u, body).bio| <= BioMaxLength then {} else {BioTooLong})
  {
    var m := Merge(u, body);
    assert m.name != "";
    var v := Violations(m, isEmail);
    if |m.bio| <= BioMaxLength {
      assert v == {};
    } else {
      assert v == {BioTooLong};
    }
  }

  /** bcrypt's `compare` accepts only a stored value shaped like a bcrypt hash, 60 characters long. */
  ghost predicate BcryptShaped(compare: (string, string) -> bool) {
    forall p, h :: compare(p, h) ==> |h| == 60
  }

  /**
   * register lets a password longer than 16 characters past its own length
   * check, and `User.create` then rejects it: the upper bound comes from the
   * schema alone.
   */
  lemma LongPasswordRejectedOnCreate(id: Id, body: RegisterBody, isEmail: string -> bool)
    requires !MissingField(body) && |body.password.value| > PasswordMaxLength
    ensures |body.password.value| >= PasswordMinLength
    ensures Create(id, NewUserInput(body), isEmail).Failure?
    ensures PasswordTooLong in Create(id, NewUserInput(body), isEmail).error
  {
  }

  /**
   * Every document is stored under its own `_id`, below the next fresh
   * identifier, and satisfies the schema; `emails` indexes exactly the
   * stored emails, each to the one document that holds it.
   */
  ghost predicate Indexed(users: map<Id, UserRecord>, emails: map<string, Id>, nextId: Id, isEmail: string -> bool) {
    && (forall id :: id in users ==> id < nextId && users[id].id == id && Stored(users[id], isEmail))
    && (forall e :: e in emails ==> emails[e] in users && users[emails[e]].email == e)
    && (forall id :: id in users ==> users[id].email in emails && emails[users[id].email] == id)
  }

  /** Inserting a new document under the next identifier, with an email not yet indexed, keeps the index. */
  lemma InsertKeepsIndex(users: map<Id, UserRecord>, emails: map<string, Id>, nextId: Id,
                         u: UserRecord, isEmail: string -> bool)
    requires Indexed(users, emails, nextId, isEmail)
    requires u.id == nextId && Stored(u, isEmail) && u.email !in emails
    ensures Indexed(users[nextId := u], emails[u.email := nextId], nextId + 1, isEmail)
    ensures nextId !in users && |users[nextId := u]| == |users| + 1
  {
  }

  /** Replacing a document by one with the same `_id` and email that satisfies the schema keeps the index. */
  lemma ReplaceKeepsIndex(users: map<Id, UserRecord>, emails: map<string, Id>, nextId: Id,
                          u: UserRecord, isEmail: string -> bool)
    requires Indexed(users, emails, nextId, isEmail)
    requires u.id in users && u.email == users[u.id].email && Stored(u, isEmail)
    ensures Indexed(users[u.id := u], emails, nextId, isEmail)
  {
  }

  /**
   * The user collection. `users` holds the documents by `_id`; `emails` is
   * the unique index on email; `nextId` stands for the ObjectId generator.
   */
  class UserStore {
    var users: map<Id, UserRecord>
    var emails: map<string, Id>
    var nextId: Id
    const env: Env

    /** The store is a well-formed collection with its email index (see Indexed). */
    ghost predicate Valid()
      reads this
    {
      Indexed(users, emails, nextId, env.isEmail)
    }

    constructor (env: Env)
      ensures Valid()
      ensures users == map[] && emails == map[] && this.env == env
    {
      users := map[];
      emails := map[];
      nextId := 0;
      this.env := env;
    }

    /** No two stored users share an email. */
    lemma EmailsUnique()
      requires Valid()
      ensures forall a, b :: a in users && b in users && users[a].email == users[b].email ==> a == b
    {
    }

    /**
     * `User.findOne({ email })`. The query goes through the schema's `trim`
     * setter, so it finds the user whose stored email is the trimmed query.
     */
    function FindByEmail(email: string): (r: Option<UserRecord>)
      requires Valid()
      reads this
      ensures r.Some? <==> exists id :: id in users && users[id].email == Trim(email)
      ensures r.Some? ==> r.value.id in users && users[r.value.id] == r.value && r.value.email == Trim(email)
    {
      var e := Trim(email);
      if e in emails then Some(users[emails[e]]) else None
    }

    /** `User.create` storing a validated document under the next fresh `_id`. */
    method Insert(u: UserRecord)
      requires Valid()
      requires u.id == nextId && Stored(u, env.isEmail) && u.email !in emails
      modifies this
      ensures Valid()
      ensures users == old(users)[u.id := u] && emails == old(emails)[u.email := u.id] && nextId == old(nextId) + 1
      ensures u.id !in old(users) && |users| == |old(users)| + 1
    {
      InsertKeepsIndex(users, emails, nextId, u, env.isEmail);
      users := users[u.id := u];
      emails := emails[u.email := u.id];
      nextId := nextId + 1;
    }

    /** `registerUser`. */
    method RegisterUser(body: RegisterBody, now: int) returns (res: Response)
      requires Valid()
      modifies this
      ensures Valid()
      ensures MissingField(body) ==> res == Reject(400, MsgRequiredFields)
      ensures !MissingField(body) && |body.password.value| < PasswordMinLength ==>
                res == Reject(400, MsgShortPassword)
      ensures !MissingField(body) && |body.password.value| >= PasswordMinLength
              && Trim(body.email.value) in old(emails) ==>
                res == Reject(400, MsgEmailExists)
      ensures !MissingField(body) && |body.password.value| >= PasswordMinLength
              && Trim(body.email.value) !in old(emails) ==>
                var created := Create(old(nextId), NewUserInput(body), env.isEmail);
                && (created.Failure? ==> res == Response(None, None, ValidationFailed(created.error)))
                && (created.Success? ==>
                      && users == old(users)[old(nextId) := created.value]
                      && res == SignedIn(env, 201, created.value, now))
      ensures res.status == Some(201) ==>
                && old(nextId) !in old(users) && |users| == |old(users)| + 1
                && users[old(nextId)] == UserRecord(old(nextId), body.name.value, Trim(body.email.value),
                                                    body.password.value, DefaultPhoto, None, DefaultBio)
                && PasswordMinLength <= |body.password.value| <= PasswordMaxLength
                && res.body.Json? && "password" !in res.body.fields && "token" in res.body.fields
      ensures res.status != Some(201) ==>
                users == old(users) && emails == old(emails) && nextId == old(nextId) && res.cookie == None
    {
      if Falsy(body.name) || Falsy(body.email) || Falsy(body.password) {
        res := Reject(400, MsgRequiredFields);
      } else if |body.password.value| < PasswordMinLength {
        res := Reject(400, MsgShortPassword);
      } else if FindByEmail(body.email.value).Some? {
        res := Reject(400, MsgEmailExists);
      } else {
        var id := nextId;
        var created := Create(id, NewUserInput(body), env.isEmail);
        if created.Failure? {
          res := Response(None, None, ValidationFailed(created.error));
        } else {
          var user := created.value;
          RegisteredDocument(id, body, env.isEmail);
          SignedInHidesPassword(env, 201, user, now);
          Insert(user);
          res := SignedIn(env, 201, user, now);
        }
      }
    }

    /** `loginUser`; it changes nothing in the store. */
    method LoginUser(body: LoginBody, now: int) returns (res: Response)
      requires Valid()
      ensures Falsy(body.email) || Falsy(body.password) ==> res == Reject(400, MsgBothRequired)
      ensures !Falsy(body.email) && !Falsy(body.password) ==>
                var found := FindByEmail(body.email.value);
                && (found.None? ==> res == Reject(400, MsgNotRegistered))
                && (found.Some? && env.compare(body.password.value, found.value.password) ==>
                      res == SignedIn(env, 200, found.value, now))
                && (found.Some? && !env.compare(body.password.value, found.value.password) ==>
                      res == Reject(400, MsgBadCredentials))
      ensures res.status == Some(200) <==>
                && !Falsy(body.email) && !Falsy(body.password)
                && exists id :: id in users && users[id].email == Trim(body.email.value)
                                && env.compare(body.password.value, users[id].password)
      ensures res.cookie.Some? ==> res.status == Some(200)
      ensures BcryptShaped(env.compare) ==> res.status != Some(200)
    {
      if Falsy(body.email) || Falsy(body.password) {
        res := Reject(400, MsgBothRequired);
        return;
      }
      var found := FindByEmail(body.email.value);
      if found.None? {
        res := Reject(400, MsgNotRegistered);
        return;
      }
      var user := found.value;
      if env.compare(body.password.value, user.password) {
        res := SignedIn(env, 200, user, now);
      } else {
        res := Reject(400, MsgBadCredentials);
      }
      EmailsUnique();
    }

    /** `logoutUser`: whatever the store holds, the session cookie is cleared. */
    method LogoutUser() returns (res: Response)
      ensures res.status == Some(200)
      ensures res.cookie == Some(ClearedCookie)
      ensures res.cookie.value.value == "" && res.cookie.value.expires == 0
      ensures res.body == Json(map["message" := Str(MsgLoggedOut)])
    {
      res := Response(Some(200), Some(ClearedCookie), Json(map["message" := Str(MsgLoggedOut)]));
    }

    /** `getUser` for the user `userId` that the authorisation middleware resolved. */
    method GetUser(userId: Id) returns (res: Response)
      requires Valid()
      ensures userId in users ==> res == Response(Some(200), None, Json(ProfileFields(users[userId])))
      ensures userId !in users ==> res == Reject(400, MsgGetUserMissing)
      ensures res.body.Json? ==> "password" !in res.body.fields && "token" !in res.body.fields
    {
      if userId in users {
        res := Response(Some(200), None, Json(ProfileFields(users[userId])));
      } else {
        res := Reject(400, MsgGetUserMissing);
      }
    }

    /** `loginStatus` for the request's `token` cookie. */
    method LoginStatus(token: Option<string>, now: int) returns (res: Response)
      ensures Falsy(token) ==> res == Response(Some(200), None, JsonBool(false))
      ensures !Falsy(token) && env.verify(token.value, now) ==> res == Response(Some(200), None, JsonBool(true))
      ensures !Falsy(token) && !env.verify(token.value, now) ==> res == Response(None, None, TokenRejected)
      ensures res.body == JsonBool(true) <==> !Falsy(token) && env.verify(token.value, now)
    {
      if Falsy(token) {
        res := Response(Some(200), None, JsonBool(false));
        return;
      }
      if env.verify(token.value, now) {
        res := Response(Some(200), None, JsonBool(true));
      } else {
        res := Response(None, None, TokenRejected);
      }
    }

    /** `updateUser` for the user `userId` that the authorisation middleware resolved. */
    method UpdateUser(userId: Id, body: UpdateBody) returns (res: Response)
      requires Valid()
      modifies this
      ensures Valid()
      ensures emails == old(emails) && nextId == old(nextId)
      ensures userId !in old(users) ==> res == Reject(404, MsgUpdateUserMissing) && users == old(users)
      ensures userId in old(users) ==>
                var m := Merge(old(users)[userId], body);
                && (|m.bio| <= BioMaxLength ==>
                      users == old(users)[userId := m]
                      && res == Response(Some(200), None, Json(UpdatedFields(m))))
                && (|m.bio| > BioMaxLength ==>
                      users == old(users) && res == Response(None, None, ValidationFailed({BioTooLong})))
      ensures users.Keys == old(users).Keys
      ensures forall id :: id in users ==>
                users[id].email == old(users)[id].email && users[id].password == old(users)[id].password
    {
      if userId !in users {
        res := Reject(404, MsgUpdateUserMissing);
        return;
      }
      var user := Merge(users[userId], body);
      MergeOnlyBioCanFail(users[userId], body, env.isEmail);
      var violations := Violations(user, env.isEmail);
      if violations != {} {
        res := Response(None, None, ValidationFailed(violations));
        return;
      }
      ReplaceKeepsIndex(users, emails, nextId, user, env.isEmail);
      users := users[userId := user];
      res := Response(Some(200), None, Json(UpdatedFields(user)));
    }
  }
}

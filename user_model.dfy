/**
 * The user schema: which fields a user document has, the defaults and the
 * `trim` setter applied when a document is built, and the validators that
 * decide whether it may be stored.
 */
module UserModel {
  import opened Wrappers
  import opened JsStrings

  /** A document identifier (`_id`). */
  type Id = nat

  const DefaultPhoto: string := "<Link to default photo>"
  const DefaultBio: string := "Tell more about yourself!"
  const PasswordMinLength: nat := 6
  const PasswordMaxLength: nat := 16
  const BioMaxLength: nat := 255

  /** The fields handed to `User.create` or assigned before `save`; None is `undefined`. */
  datatype UserInput = UserInput(
    name: Option<string>,
    email: Option<string>,
    password: Option<string>,
    photo: Option<string>,
    phone: Option<string>,
    bio: Option<string>)

  /**
   * A user document. The password is kept exactly as it was given: the
   * schema installs no hashing hook.
   */
  datatype UserRecord = UserRecord(
    id: Id,
    name: string,
    email: string,
    password: string,
    photo: string,
    phone: Option<string>,
    bio: string)

  /** One failing validator; Mongoose reports at most one per path. */
  datatype Violation =
    | NameRequired
    | EmailRequired
    | EmailInvalid
    | PasswordRequired
    | PasswordTooShort
    | PasswordTooLong
    | BioTooLong

  /**
   * Building the document: `undefined` photo and bio take their defaults and
   * the email goes through the `trim` setter. A missing required string is
   * represented by "", which the `required` validator rejects just as it
   * rejects `undefined`.
   */
  function Cast(id: Id, input: UserInput): (doc: UserRecord)
    ensures doc.id == id && IsTrimmed(doc.email)
    ensures doc.email == "" <==> input.email.None? || AllWhitespace(input.email.value)
    ensures doc.photo == (if input.photo.None? then DefaultPhoto else input.photo.value)
    ensures doc.bio == (if input.bio.None? then DefaultBio else input.bio.value)
    ensures doc.name == "" <==> Falsy(input.name)
    ensures doc.password == "" <==> Falsy(input.password)
  {
    UserRecord(
      id,
      input.name.GetOr(""),
      Trim(input.email.GetOr("")),
      input.password.GetOr(""),
      input.photo.GetOr(DefaultPhoto),
      input.phone,
      input.bio.GetOr(DefaultBio))
  }

  /** Every constraint of the schema, stated field by field. */
  ghost predicate Conforms(doc: UserRecord, isEmail: string -> bool) {
    && doc.name != ""
    && doc.email != ""
    && isEmail(doc.email)
    && PasswordMinLength <= |doc.password| <= PasswordMaxLength
    && |doc.bio| <= BioMaxLength
  }

  /** What a stored document satisfies: it conforms and its email is already trimmed. */
  ghost predicate Stored(doc: UserRecord, isEmail: string -> bool) {
    Conforms(doc, isEmail) && IsTrimmed(doc.email)
  }

  /**
   * The validators of the schema, each path checked in its declared order
   * and stopping at its first failure (`required` before `match`, `minLength`,
   * `maxLength`). `isEmail` is the email regular expression.
   */
  function Violations(doc: UserRecord, isEmail: string -> bool): (v: set<Violation>)
    ensures v == {} <==> Conforms(doc, isEmail)
    ensures NameRequired in v <==> doc.name == ""
    ensures EmailRequired in v <==> doc.email == ""
    ensures EmailInvalid in v <==> doc.email != "" && !isEmail(doc.email)
    ensures PasswordRequired in v <==> doc.password == ""
    ensures PasswordTooShort in v <==> 0 < |doc.password| < PasswordMinLength
    ensures PasswordTooLong in v <==> |doc.password| > PasswordMaxLength
    ensures BioTooLong in v <==> |doc.bio| > BioMaxLength
  {
    (if doc.name == "" then {NameRequired} else {})
    + (if doc.email == "" then {EmailRequired}
       else if !isEmail(doc.email) then {EmailInvalid}
       else {})
    + (if doc.password == "" then {PasswordRequired}
       else if |doc.password| < PasswordMinLength then {PasswordTooShort}
       else if |doc.password| > PasswordMaxLength then {PasswordTooLong}
       else {})
    + (if |doc.bio| > BioMaxLength then {BioTooLong} else {})
  }

  /**
   * `User.create(input)` under the identifier `id`: the built document if
   * every validator passes, otherwise the set of failing validators.
   */
  function Create(id: Id, input: UserInput, isEmail: string -> bool): (r: Result<UserRecord, set<Violation>>)
    ensures r.Success? <==>
      && !Falsy(input.name)
      && input.email.Some? && !AllWhitespace(input.email.value)
      && isEmail(Trim(input.email.value))
      && input.password.Some?
      && PasswordMinLength <= |input.password.value| <= PasswordMaxLength
      && |input.bio.GetOr(DefaultBio)| <= BioMaxLength
    ensures r.Success? ==> Stored(r.value, isEmail) && r.value.id == id
    ensures r.Success? ==>
      && r.value.name == input.name.value
      && r.value.email == Trim(input.email.value)
      && r.value.password == input.password.value
      && r.value.photo == (if input.photo.None? then DefaultPhoto else input.photo.value)
      && r.value.phone == input.phone
      && r.value.bio == (if input.bio.None? then DefaultBio else input.bio.value)
    ensures r.Failure? ==> r.error == Violations(Cast(id, input), isEmail)
    ensures Falsy(input.name) ==> r.Failure? && NameRequired in r.error
    ensures input.email.None? || AllWhitespace(input.email.value) ==> r.Failure? && EmailRequired in r.error
    ensures Falsy(input.password) ==> r.Failure? && PasswordRequired in r.error
  {
    var doc := Cast(id, input);
    var v := Violations(doc, isEmail);
    if v == {} then Success(doc) else Failure(v)
  }

  /** The fields of a document, as they would be handed back to `User.create`. */
  function InputOf(doc: UserRecord): UserInput {
    UserInput(Some(doc.name), Some(doc.email), Some(doc.password), Some(doc.photo), doc.phone, Some(doc.bio))
  }

  /** Casting is idempotent: the setters and defaults change nothing the second time. */
  lemma CastIdempotent(id: Id, input: UserInput)
    ensures Cast(id, InputOf(Cast(id, input))) == Cast(id, input)
  {
    TrimIdempotent(input.email.GetOr(""));
  }

  /** Building a stored document again from its own fields yields that same document. */
  lemma {:induction false} CreateOfStored(doc: UserRecord, isEmail: string -> bool)
    requires Stored(doc, isEmail)
    ensures Create(doc.id, InputOf(doc), isEmail) == Success(doc)
  {
    var input := InputOf(doc);
    assert Cast(doc.id, input) == doc by { TrimOfTrimmed(doc.email); }
    assert Violations(doc, isEmail) == {};
  }
}

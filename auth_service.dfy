/**
 * The client's authentication state: the auth slice (its initial state,
 * the SET_LOGIN, SET_NAME and SET_USER reducers and the selectors), the
 * browser storage the slice persists the name to, and `validateEmail`.
 */
module AuthService {
  import opened Wrappers
  import opened JsStrings

  // ---------------------------------------------------------------------
  // State and selectors

  /** `state.user`; a field is None when the profile it was copied from lacked it. */
  datatype UserProfile = UserProfile(
    name: Option<string>,
    email: Option<string>,
    phone: Option<string>,
    bio: Option<string>,
    photo: Option<string>)

  /** The profile the slice starts with: all five fields "". */
  const EmptyProfile: UserProfile := UserProfile(Some(""), Some(""), Some(""), Some(""), Some(""))

  datatype AuthState = AuthState(isLoggedIn: bool, name: string, user: UserProfile)

  /** The store's root state, with the slice under `auth`. */
  datatype RootState = RootState(auth: AuthState)

  /** `selectIsLoggedIn`. */
  function SelectIsLoggedIn(state: RootState): bool {
    state.auth.isLoggedIn
  }

  /** `selectName`. */
  function SelectName(state: RootState): string {
    state.auth.name
  }

  /** `selectUser`. */
  function SelectUser(state: RootState): UserProfile {
    state.auth.user
  }

  /** The three selectors together see the whole slice: states they agree on are equal. */
  lemma SelectorsDetermineState(a: RootState, b: RootState)
    requires SelectIsLoggedIn(a) == SelectIsLoggedIn(b)
    requires SelectName(a) == SelectName(b) && SelectUser(a) == SelectUser(b)
    ensures a == b
  {
  }

  /** The storage key the name is persisted under. */
  const NameKey: string := "name"

  /** `name ? name : ""` for the value persisted under "name", if any. */
  function InitialName(items: map<string, string>): (n: string)
    ensures n == "" || (NameKey in items && n == items[NameKey])
    ensures NameKey in items ==> n == items[NameKey]
  {
    if NameKey in items && items[NameKey] != "" then items[NameKey] else ""
  }

  /** `initialState`, read from the storage contents `items`. */
  function InitialState(items: map<string, string>): (s: AuthState)
    ensures !s.isLoggedIn && s.user == EmptyProfile
    ensures s.name == InitialName(items)
  {
    AuthState(false, InitialName(items), EmptyProfile)
  }

  /** A name written under "name" is the name the next initial state starts with. */
  lemma NameSurvivesReload(items: map<string, string>, n: string)
    ensures InitialState(items[NameKey := n]).name == n
  {
  }

  /** A field of an action payload: `profile.key`, None when the payload has no such key. */
  function Field(payload: map<string, string>, key: string): Option<string> {
    if key in payload then Some(payload[key]) else None
  }

  // ---------------------------------------------------------------------
  // The browser storage and the slice

  /** `localStorage`, holding each value as the string itself. */
  class LocalStorage {
    var items: map<string, string>

    constructor (items: map<string, string>)
      ensures this.items == items
    {
      this.items := items;
    }

    /** `localStorage.setItem(key, value)`. */
    method SetItem(key: string, value: string)
      modifies this
      ensures items == old(items)[key := value]
    {
      items := items[key := value];
    }
  }

  /** The auth slice, whose reducers update its fields in place. */
  class AuthSlice {
    var isLoggedIn: bool
    var name: string
    var user: UserProfile
    const storage: LocalStorage

    /** The slice's state as a value. */
    function State(): AuthState
      reads this
    {
      AuthState(isLoggedIn, name, user)
    }

    /** The root state the selectors read. */
    function Root(): RootState
      reads this
    {
      RootState(State())
    }

    /** The slice as created when the module loads, reading the persisted name. */
    constructor (storage: LocalStorage)
      ensures this.storage == storage
      ensures State() == InitialState(storage.items)
      ensures !SelectIsLoggedIn(Root()) && SelectUser(Root()) == EmptyProfile
      ensures SelectName(Root()) == InitialName(storage.items)
    {
      this.storage := storage;
      isLoggedIn := false;
      name := InitialName(storage.items);
      user := EmptyProfile;
    }

    /** `SET_LOGIN(b)`. */
    method SetLogin(b: bool)
      modifies this
      ensures SelectIsLoggedIn(Root()) == b
      ensures SelectName(Root()) == old(SelectName(Root()))
      ensures SelectUser(Root()) == old(SelectUser(Root()))
    {
      isLoggedIn := b;
    }

    /** `SET_NAME(n)`: persists `n` under "name", then sets the name. */
    method SetName(n: string)
      modifies this, storage
      ensures SelectName(Root()) == n
      ensures SelectIsLoggedIn(Root()) == old(SelectIsLoggedIn(Root()))
      ensures SelectUser(Root()) == old(SelectUser(Root()))
      ensures storage.items == old(storage.items)[NameKey := n]
      ensures InitialState(storage.items).name == n
    {
      storage.SetItem(NameKey, n);
      name := n;
      NameSurvivesReload(old(storage.items), n);
    }

    /** `SET_USER(profile)`: copies the five profile fields, field by field. */
    method SetUser(profile: map<string, string>)
      modifies this
      ensures SelectUser(Root()) == UserProfile(
                Field(profile, "name"), Field(profile, "email"), Field(profile, "phone"),
                Field(profile, "bio"), Field(profile, "photo"))
      ensures SelectIsLoggedIn(Root()) == old(SelectIsLoggedIn(Root()))
      ensures SelectName(Root()) == old(SelectName(Root()))
    {
      user := user.(name := Field(profile, "name"));
      user := user.(email := Field(profile, "email"));
      user := user.(phone := Field(profile, "phone"));
      user := user.(bio := Field(profile, "bio"));
      user := user.(photo := Field(profile, "photo"));
    }
  }

  // ---------------------------------------------------------------------
  // validateEmail

  /** The character class `[^\s@]`. */
  predicate AddressChar(c: char) {
    !IsWhitespace(c) && c != '@'
  }

  /** `[^\s@]+`: a non-empty run of address characters. */
  predicate AddressRun(t: string) {
    |t| > 0 && forall k :: 0 <= k < |t| ==> AddressChar(t[k])
  }

  /**
   * `/^[^\s@]+@[^\s@]+\.[^\s@]+$/.test(s)`: `s` splits at an '@' at `p` and
   * a '.' at `q` into three runs of address characters.
   */
  predicate MatchesEmailRegex(s: string) {
    exists p, q | 0 <= p < q < |s| ::
      && s[p] == '@' && s[q] == '.'
      && AddressRun(s[..p]) && AddressRun(s[p + 1..q]) && AddressRun(s[q + 1..])
  }


  /** The only '@' in `s` is the one at `p`. */
  ghost predicate OnlyAt(s: string, p: int) {
    && 0 <= p < |s| && s[p] == '@'
    && forall k :: 0 <= k < |s| && k != p ==> s[k] != '@'
  }

  ghost predicate NoWhitespace(s: string) {
    forall k :: 0 <= k < |s| ==> !IsWhitespace(s[k])
  }

  /**
   * The plain reading of the pattern: no white space, a single '@' with a
   * non-empty local part before it, and after it a domain holding a '.'
   * with text on both sides.
   */
  ghost predicate WellFormedAddress(s: string) {
    && NoWhitespace(s)
    && exists p :: OnlyAt(s, p) && p > 0 && exists q :: p + 1 < q < |s| - 1 && s[q] == '.'
  }

  /** A match of the pattern is a well-formed address. */
  lemma RegexGivesWellFormed(s: string, p: int, q: int)
    requires 0 <= p < q < |s| && s[p] == '@' && s[q] == '.'
    requires AddressRun(s[..p]) && AddressRun(s[p + 1..q]) && AddressRun(s[q + 1..])
    ensures WellFormedAddress(s)
  {
    var local, domain, top := s[..p], s[p + 1..q], s[q + 1..];
    forall k | 0 <= k < |s|
      ensures !IsWhitespace(s[k]) && (k != p ==> s[k] != '@')
    {
      if k < p {
        assert local[k] == s[k];
      } else if p < k < q {
        assert domain[k - p - 1] == s[k];
      } else if q < k {
        assert top[k - q - 1] == s[k];
      }
    }
    assert OnlyAt(s, p);
  }

  /** A well-formed address, split at its '@' and at a '.' of its domain, matches the pattern. */
  lemma WellFormedGivesRegex(s: string, p: int, q: int)
    requires NoWhitespace(s) && OnlyAt(s, p) && p > 0 && p + 1 < q < |s| - 1 && s[q] == '.'
    ensures AddressRun(s[..p]) && AddressRun(s[p + 1..q]) && AddressRun(s[q + 1..])
  {
    var local, domain, top := s[..p], s[p + 1..q], s[q + 1..];
    forall k | 0 <= k < |local| ensures AddressChar(local[k]) {
      assert local[k] == s[k];
    }
    forall k | 0 <= k < |domain| ensures AddressChar(domain[k]) {
      assert domain[k] == s[p + 1 + k];
    }
    forall k | 0 <= k < |top| ensures AddressChar(top[k]) {
      assert top[k] == s[q + 1 + k];
    }
  }

  /** The pattern and its plain reading agree on every string. */
  lemma RegexMeansWellFormed(s: string)
    ensures MatchesEmailRegex(s) <==> WellFormedAddress(s)
  {
    if MatchesEmailRegex(s) {
      var p, q :| 0 <= p < q < |s| && s[p] == '@' && s[q] == '.'
        && AddressRun(s[..p]) && AddressRun(s[p + 1..q]) && AddressRun(s[q + 1..]);
      RegexGivesWellFormed(s, p, q);
    }
    if WellFormedAddress(s) {
      var p :| OnlyAt(s, p) && p > 0 && exists q :: p + 1 < q < |s| - 1 && s[q] == '.';
      var q :| p + 1 < q < |s| - 1 && s[q] == '.';
      WellFormedGivesRegex(s, p, q);
    }
  }

  /** Lower-casing changes neither the white space, nor the '@'s, nor the '.'s of a string. */
  lemma {:induction false} LowerKeepsWellFormed(s: string)
    ensures WellFormedAddress(ToLower(s)) <==> WellFormedAddress(s)
  {
    var t := ToLower(s);
    assert NoWhitespace(t) <==> NoWhitespace(s) by {
      assert forall k :: 0 <= k < |s| ==> IsWhitespace(t[k]) == IsWhitespace(s[k]);
    }
    assert forall k :: 0 <= k < |s| ==> (t[k] == '@') == (s[k] == '@') && (t[k] == '.') == (s[k] == '.');
    if WellFormedAddress(s) {
      var p :| OnlyAt(s, p) && p > 0 && exists q :: p + 1 < q < |s| - 1 && s[q] == '.';
      var q :| p + 1 < q < |s| - 1 && s[q] == '.';
      assert OnlyAt(t, p) && t[q] == '.';
    }
    if WellFormedAddress(t) {
      var p :| OnlyAt(t, p) && p > 0 && exists q :: p + 1 < q < |t| - 1 && t[q] == '.';
      var q :| p + 1 < q < |t| - 1 && t[q] == '.';
      assert OnlyAt(s, p) && s[q] == '.';
    }
  }

  /**
   * `validateEmail(email)`: the pattern tested against the lower-cased
   * string. It accepts exactly the well-formed addresses.
   */
  function ValidateEmail(email: string): (b: bool)
    ensures b <==> WellFormedAddress(email)
  {
    RegexMeansWellFormed(ToLower(email));
    LowerKeepsWellFormed(email);
    MatchesEmailRegex(ToLower(email))
  }

  /**
   * `validateEmail(s)` holds exactly when `s` has no white space, a single
   * '@' with a non-empty local part, and a domain with a '.' that has text
   * on both sides. Testing the lower-cased string decides the same as
   * testing `s` itself.
   */
  lemma ValidateEmailMeans(s: string)
    ensures ValidateEmail(s) <==> WellFormedAddress(s)
    ensures ValidateEmail(s) <==> MatchesEmailRegex(s)
  {
    RegexMeansWellFormed(s);
  }

  /** `validateEmail` rejects a string with no '@', with two '@'s, or with any white space. */
  lemma ValidateEmailRejects(s: string)
    requires || '@' !in s
             || (exists i, j :: 0 <= i < j < |s| && s[i] == '@' && s[j] == '@')
             || (exists k :: 0 <= k < |s| && IsWhitespace(s[k]))
    ensures !ValidateEmail(s)
  {
    ValidateEmailMeans(s);
  }

  /** A concrete address is accepted, upper case included. */
  lemma ValidateEmailAccepts()
    ensures ValidateEmail("Ann@Example.com")
  {
    var s := "Ann@Example.com";
    assert OnlyAt(s, 3) by {
      forall k | 0 <= k < |s| && k != 3 ensures s[k] != '@' { }
    }
    assert s[11] == '.';
    assert WellFormedAddress(s);
    ValidateEmailMeans(s);
  }
}

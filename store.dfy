// The persisted side of the account lifecycle: the User record that the
// Users controller reads and writes, the attribute hashes that requests
// carry, the unsaved in-memory user (with its transient password fields),
// and the `User.first(:field => value)` lookups the controller issues.

module Store {

  datatype Option<T> = None | Some(value: T)

  type UserId = nat

  /** A persisted user. `password` stands for the stored credential (the
      model keeps no hashing); `profile` holds every other profile field. */
  datatype User = User(
    email: string,
    activated: bool,
    activationCode: string,
    passwordResetKey: Option<string>,
    password: string,
    profile: map<string, string>)

  /** The `user` hash of a request. `None` means the key is absent or nil. */
  datatype Attributes = Attributes(
    email: Option<string>,
    password: Option<string>,
    passwordConfirmation: Option<string>,
    profile: map<string, string>)

  /** A user object in memory: a record plus the transient `password` and
      `password_confirmation`, which are never stored as such. */
  datatype Draft = Draft(
    user: User,
    password: Option<string>,
    passwordConfirmation: Option<string>)

  /** The user model's behaviour that the controller relies on but that is
      not part of this model: `valid?`, `errors_as_params` and
      `User.authenticate`. They are left uninterpreted. */
  datatype Env = Env(
    validates: Draft -> bool,
    errors: Draft -> map<string, seq<string>>,
    authenticates: (string, Option<string>) -> bool)

  const BlankUser := User("", false, "", None, "", map[])

  /** An unsaved record as loaded by `User.get`: no transient password. */
  function Load(u: User): Draft
  {
    Draft(u, None, None)
  }

  /** `attributes=`: sets the fields the hash names and keeps the others. */
  function Assign(d: Draft, a: Attributes): (r: Draft)
    ensures r.user.email == (if a.email.Some? then a.email.value else d.user.email)
    ensures r.user.profile.Keys == d.user.profile.Keys + a.profile.Keys
    ensures forall k :: k in a.profile ==> r.user.profile[k] == a.profile[k]
    ensures forall k :: k in d.user.profile && k !in a.profile ==> r.user.profile[k] == d.user.profile[k]
    ensures r.user.activated == d.user.activated && r.user.activationCode == d.user.activationCode
    ensures r.user.passwordResetKey == d.user.passwordResetKey && r.user.password == d.user.password
    ensures r.password == (if a.password.Some? then a.password else d.password)
    ensures r.passwordConfirmation ==
              (if a.passwordConfirmation.Some? then a.passwordConfirmation else d.passwordConfirmation)
  {
    var email := if a.email.Some? then a.email.value else d.user.email;
    Draft(d.user.(email := email, profile := d.user.profile + a.profile),
          if a.password.Some? then a.password else d.password,
          if a.passwordConfirmation.Some? then a.passwordConfirmation else d.passwordConfirmation)
  }

  /** What `save` writes: the record, with the credential replaced only when
      a new password was set on the object. */
  function Persist(d: Draft): (u: User)
    ensures u.(password := d.user.password) == d.user
    ensures d.password.None? ==> u == d.user
    ensures d.password.Some? ==> u.password == d.password.value
  {
    if d.password.Some? then d.user.(password := d.password.value) else d.user
  }

  /** The conditions of the `User.first` calls in the controller. A nil
      condition value matches a nil column, as a database `IS NULL` does. */
  datatype Query =
    | ByEmail(email: Option<string>)
    | ByActivationCode(code: string)
    | ByResetKey(key: Option<string>)

  predicate Matches(u: User, q: Query)
  {
    match q
    case ByEmail(e) => e == Some(u.email)
    case ByActivationCode(c) => u.activationCode == c
    case ByResetKey(k) => u.passwordResetKey == k
  }

  /** The lowest id in [i, n) whose user matches `q`, if there is one. */
  function FirstFrom(users: map<UserId, User>, q: Query, i: nat, n: nat): (r: Option<UserId>)
    decreases n - i
    ensures r.Some? ==> i <= r.value < n && r.value in users && Matches(users[r.value], q)
    ensures r.Some? ==> forall j :: i <= j < r.value && j in users ==> !Matches(users[j], q)
    ensures r.None? ==> forall j :: i <= j < n && j in users ==> !Matches(users[j], q)
  {
    if i >= n then None
    else if i in users && Matches(users[i], q) then Some(i)
    else FirstFrom(users, q, i + 1, n)
  }

  /** `User.first(q)` over a store whose ids are all below `bound`: the
      matching user with the lowest id (records are ordered by key). */
  function First(users: map<UserId, User>, bound: nat, q: Query): (r: Option<UserId>)
    requires forall id :: id in users ==> id < bound
    ensures r.Some? <==> exists id: UserId :: id in users && Matches(users[id], q)
    ensures r.Some? ==> r.value in users && Matches(users[r.value], q)
    ensures r.Some? ==> forall j: UserId :: j < r.value && j in users ==> !Matches(users[j], q)
  {
    FirstFrom(users, q, 0, bound)
  }

  /** Two stores that agree, key by key, on which users match `q` give the
      same answer to `User.first(q)`. */
  lemma FirstFromAgrees(a: map<UserId, User>, b: map<UserId, User>, q: Query, i: nat, n: nat)
    requires forall j :: i <= j < n ==> (j in a && Matches(a[j], q) <==> j in b && Matches(b[j], q))
    decreases n - i
    ensures FirstFrom(a, q, i, n) == FirstFrom(b, q, i, n)
  {
  }
}

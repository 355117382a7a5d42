// The requests the Users controller serves and the authentication filter
// in front of them: `before :ensure_authenticated` with its list of
// excluded (public) actions.

module Routing {
  import opened Store
  import opened Lifecycle

  /** One request per controller action, with the action's parameters. */
  datatype Request =
    | NewUser(user: Attributes)
    | ValidateUserRequest(user: Attributes, target: Option<UserId>)
    | CreateUser(user: Attributes)
    | ActivateUser(activationCode: string)
    | ForgotPasswordRequest
    | PasswordResetKeyRequested(email: Option<string>)
    | ResetPasswordRequest(key: Option<string>)
    | ShowUser(id: UserId)
    | EditUser(id: UserId)
    | UpdateUser(id: UserId, user: Attributes)
    | ValidateResetPasswordRequest(user: Attributes, currentPassword: Option<string>)
    | UpdatePasswordRequest(user: Attributes, currentPassword: Option<string>)

  /** The actions excluded from the authentication filter. */
  predicate IsPublic(r: Request)
  {
    r.NewUser? || r.ValidateUserRequest? || r.CreateUser? || r.ActivateUser? ||
    r.ForgotPasswordRequest? || r.PasswordResetKeyRequested? || r.ResetPasswordRequest?
  }

  /** Serves one request. A private action without a logged-in user is
      refused before it runs. `token` is the fresh value the user model
      generates: the activation code of a new user, or a reset key. */
  function Dispatch(e: Env, s: State, r: Request, token: string): (res: Step)
    requires Inv(s) && token != ""
    ensures Inv(res.state)
    ensures !IsPublic(r) && !Authenticated(s) ==> res == Step(s, Unauthorized)
    ensures res.outcome.Unauthorized? ==> res.state == s && !IsPublic(r)
    ensures s.nextId <= res.state.nextId
    ensures s.mails <= res.state.mails && |res.state.mails| <= |s.mails| + 1
    ensures forall id :: id in s.users ==>
              id in res.state.users &&
              res.state.users[id].activationCode == s.users[id].activationCode &&
              (s.users[id].activated ==> res.state.users[id].activated)
  {
    if !IsPublic(r) && !Authenticated(s) then Step(s, Unauthorized)
    else
      match r
      case NewUser(_) => Step(s, Render(NewForm, None))
      case ValidateUserRequest(user, id) => Step(s, ValidateUser(e, s, user, id))
      case CreateUser(user) => Create(e, s, user, token)
      case ActivateUser(code) => Activate(s, code)
      case ForgotPasswordRequest => ForgotPassword(s)
      case PasswordResetKeyRequested(email) => PasswordResetKeyRequest(s, email, token)
      case ResetPasswordRequest(key) => ResetPassword(s, key)
      case ShowUser(id) => Step(s, ProfilePage(s, id))
      case EditUser(id) => Step(s, ProfilePage(s, id))
      case UpdateUser(id, user) => Update(e, s, id, user)
      case ValidateResetPasswordRequest(user, current) => Step(s, ValidateResetPassword(e, s, user, current))
      case UpdatePasswordRequest(user, current) => UpdatePassword(e, s, user, current)
  }
}

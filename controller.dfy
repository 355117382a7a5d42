// The Users controller as the object it is: actions that work step by step
// on the user store, the session and the outgoing mail, each proved to do
// what the matching function of module Lifecycle specifies.

module Controller {
  import opened Store
  import opened Lifecycle
  import opened Routing

  class Users {
    /** The user model's `valid?`, `errors_as_params` and `authenticate`. */
    const env: Env
    var users: map<UserId, User>
    var nextId: nat
    var session: Option<UserId>
    var mails: seq<Mail>

    function Snapshot(): State
      reads this
    {
      State(users, nextId, session, mails)
    }

    ghost predicate Valid()
      reads this
    {
      Inv(Snapshot())
    }

    constructor (env: Env)
      ensures Valid() && Snapshot() == State(map[], 0, None, [])
    {
      this.env := env;
      users, nextId, session, mails := map[], 0, None, [];
    }

    /** `session.authenticated?` */
    predicate LoggedIn()
      reads this
    {
      Authenticated(Snapshot())
    }

    /** `session.abandon!` */
    method Abandon()
      modifies this`session
      ensures session.None?
    {
      session := None;
    }

    /** `deliver_email`: hands one message to the mailer. */
    method DeliverEmail(kind: MailKind, to: User, subject: string, token: string)
      modifies this`mails
      ensures mails == old(mails) + [Mail(kind, to.email, subject, token)]
    {
      mails := mails + [Mail(kind, to.email, subject, token)];
    }

    /** Runs the authentication filter, then the action. */
    method Handle(r: Request, token: string) returns (o: Outcome)
      requires Valid() && token != ""
      modifies this
      ensures Valid()
      ensures Step(Snapshot(), o) == Dispatch(env, old(Snapshot()), r, token)
    {
      if !IsPublic(r) && !LoggedIn() {
        return Unauthorized;
      }
      match r
      case NewUser(user) => o := New(user);
      case ValidateUserRequest(user, id) => o := ValidateUser(user, id);
      case CreateUser(user) => o := Create(user, token);
      case ActivateUser(code) => o := Activate(code);
      case ForgotPasswordRequest => o := ForgotPassword();
      case PasswordResetKeyRequested(email) => o := PasswordResetKey(email, token);
      case ResetPasswordRequest(key) => o := ResetPassword(key);
      case ShowUser(id) => o := Show(id);
      case EditUser(id) => o := Edit(id);
      case UpdateUser(id, user) => o := Update(id, user);
      case ValidateResetPasswordRequest(user, current) => o := ValidateResetPassword(user, current);
      case UpdatePasswordRequest(user, current) => o := UpdatePassword(user, current);
    }

    method Edit(id: UserId) returns (o: Outcome)
      ensures o == ProfilePage(Snapshot(), id)
    {
      if id !in users {
        return NotFound;
      }
      o := Render(EditForm, None);
    }

    /** Defers to the edit form. */
    method Show(id: UserId) returns (o: Outcome)
      ensures o == ProfilePage(Snapshot(), id)
    {
      o := Edit(id);
    }

    method ValidateUser(user: Attributes, id: Option<UserId>) returns (o: Outcome)
      ensures o == Lifecycle.ValidateUser(env, Snapshot(), user, id)
    {
      if id.Some? && id.value !in users {
        return ServerError;
      }
      var draft := Load(if id.Some? then users[id.value] else BlankUser);
      draft := Assign(draft, user);
      if env.validates(draft) {
        o := Json(Accepted);
      } else {
        o := Json(Rejected(env.errors(draft)));
      }
    }

    method Update(id: UserId, user: Attributes) returns (o: Outcome)
      requires Valid()
      modifies this
      ensures Valid()
      ensures Step(Snapshot(), o) == Lifecycle.Update(env, old(Snapshot()), id, user)
    {
      if id !in users {
        return NotFound;
      }
      var attrs := user.(password := None, passwordConfirmation := None);
      var draft := Assign(Load(users[id]), attrs);
      if env.validates(draft) {
        users := users[id := Persist(draft)];
        o := Redirect(UpdatedNotice);
      } else {
        o := Render(EditForm, None);
      }
    }

    method New(user: Attributes) returns (o: Outcome)
      ensures o == Render(NewForm, None)
    {
      o := Render(NewForm, None);
    }

    /** `code` is the activation code the user model generates on create. */
    method Create(user: Attributes, code: string) returns (o: Outcome)
      requires Valid()
      modifies this
      ensures Valid()
      ensures Step(Snapshot(), o) == Lifecycle.Create(env, old(Snapshot()), user, code)
    {
      var draft := Assign(Load(BlankUser), user);
      if !env.validates(draft) {
        return Render(NewForm, Some(CreateFailed));
      }
      var u := Persist(draft).(activationCode := code);
      users := users[nextId := u];
      nextId := nextId + 1;
      DeliverEmail(Signup, u, SignupSubject, code);
      o := Redirect(CreatedNotice);
    }

    method Activate(code: string) returns (o: Outcome)
      requires Valid()
      modifies this
      ensures Valid()
      ensures Step(Snapshot(), o) == Lifecycle.Activate(old(Snapshot()), code)
    {
      Abandon();
      var found := First(users, nextId, ByActivationCode(code));
      if found.None? {
        return NotFound;
      }
      var id := found.value;
      session := Some(id);
      if !users[id].activated {
        var u := users[id];
        users := users[id := u.(activated := true)];
        DeliverEmail(Activation, u, WelcomeSubject, u.email);
      }
      o := Redirect(ActivatedNotice);
    }

    method ForgotPassword() returns (o: Outcome)
      requires Valid()
      modifies this
      ensures Valid()
      ensures Step(Snapshot(), o) == Lifecycle.ForgotPassword(old(Snapshot()))
    {
      Abandon();
      o := Render(ForgotPasswordForm, None);
    }

    /** `key` is the reset key the user model generates. */
    method PasswordResetKey(email: Option<string>, key: string) returns (o: Outcome)
      requires Valid() && key != ""
      modifies this
      ensures Valid()
      ensures Step(Snapshot(), o) == PasswordResetKeyRequest(old(Snapshot()), email, key)
    {
      Abandon();
      var found := First(users, nextId, ByEmail(email));
      if found.None? {
        return Render(ForgotPasswordForm, Some(UnknownEmail));
      }
      var id := found.value;
      var u := users[id].(passwordResetKey := Some(key));
      users := users[id := u];
      DeliverEmail(MailKind.PasswordResetKey, u, ResetSubject, key);
      o := Redirect(ResetMailedNotice);
    }

    method ResetPassword(key: Option<string>) returns (o: Outcome)
      requires Valid()
      modifies this
      ensures Valid()
      ensures Step(Snapshot(), o) == Lifecycle.ResetPassword(old(Snapshot()), key)
    {
      var found := session;
      if found.None? && key.Some? {
        found := First(users, nextId, ByResetKey(key));
      }
      if found.None? {
        return NotFound;
      }
      session := found;
      o := Render(ResetPasswordForm, None);
    }

    method ValidateResetPassword(user: Attributes, current: Option<string>) returns (o: Outcome)
      requires LoggedIn()
      ensures o == Lifecycle.ValidateResetPassword(env, Snapshot(), user, current)
    {
      var draft := Assign(Load(users[session.value]), user);
      var msgs := map[];
      if !MayChangePassword(env, draft.user, draft.user.email, current) {
        msgs := map[CurrentPasswordField := [IncorrectCurrentPassword]];
      }
      if env.validates(draft) && msgs == map[] {
        o := Json(Accepted);
      } else {
        o := Json(Rejected(msgs + env.errors(draft)));
      }
    }

    method UpdatePassword(user: Attributes, current: Option<string>) returns (o: Outcome)
      requires Valid() && LoggedIn()
      modifies this
      ensures Valid()
      ensures Step(Snapshot(), o) == Lifecycle.UpdatePassword(env, old(Snapshot()), user, current)
    {
      var id := session.value;
      var u := users[id];
      if !MayChangePassword(env, u, u.email, current) {
        return Unauthorized;
      }
      var draft := Draft(u, user.password, user.passwordConfirmation);
      if !env.validates(draft) {
        return Render(ResetPasswordForm, Some(PasswordNotChanged));
      }
      users := users[id := Persist(draft)];
      users := users[id := users[id].(passwordResetKey := None)];
      o := Redirect(PasswordChangedNotice);
    }
  }
}

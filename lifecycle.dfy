// The account lifecycle driven by the Users controller, one function per
// action: the state before the request goes in, the state after it and the
// response come out. These functions are the specification that the
// imperative controller (module Controller) is proved against.

module Lifecycle {
  import opened Store

  datatype Form = EditForm | NewForm | ForgotPasswordForm | ResetPasswordForm

  /** The body of a JSON validation response: `true` or a field-to-messages map. */
  datatype Verdict = Accepted | Rejected(errors: map<string, seq<string>>)

  /** What an action answers. `ServerError` is an exception the controller
      does not handle (a method called on nil). */
  datatype Outcome =
    | Redirect(notice: string)
    | Render(form: Form, error: Option<string>)
    | Json(verdict: Verdict)
    | NotFound
    | Unauthorized
    | ServerError

  datatype MailKind = Signup | Activation | PasswordResetKey

  /** One `deliver_email` call. `token` is what the mailed link carries:
      the activation code, the email to log in with, or the reset key. */
  datatype Mail = Mail(kind: MailKind, to: string, subject: string, token: string)

  /** The user store with the next id it will assign, the session's user,
      and the log of emails handed to the mailer. */
  datatype State = State(
    users: map<UserId, User>,
    nextId: nat,
    session: Option<UserId>,
    mails: seq<Mail>)

  datatype Step = Step(state: State, outcome: Outcome)

  const UpdatedNotice := "Updated your account."
  const CreatedNotice := "Created your account.  Please check your email."
  const CreateFailed := "User could not be created"
  const ActivatedNotice := "Your account has been activated.  Welcome to Repertoire."
  const ResetMailedNotice := "We've emailed a link to reset your password."
  const UnknownEmail := "Unknown user email."
  const PasswordChangedNotice := "Password Changed"
  const PasswordNotChanged := "Password not changed: Please try again"
  const SignupSubject := "Please Activate Your Account"
  const WelcomeSubject := "Welcome"
  const ResetSubject := "Request to change your password"
  const CurrentPasswordField := "current_password"
  const IncorrectCurrentPassword := "Incorrect current password"

  /** Every id in use is below the next one to be assigned, the session
      names a stored user, and a pending reset key is never empty. */
  predicate Inv(s: State)
  {
    (forall id :: id in s.users ==> id < s.nextId) &&
    (s.session.Some? ==> s.session.value in s.users) &&
    (forall id :: id in s.users ==> s.users[id].passwordResetKey != Some(""))
  }

  /** `session.authenticated?`: a stored user is bound to the session. */
  predicate Authenticated(s: State)
  {
    s.session.Some? && s.session.value in s.users
  }

  function Lookup(s: State, q: Query): (r: Option<UserId>)
    requires Inv(s)
    ensures r.Some? <==> exists id: UserId :: id in s.users && Matches(s.users[id], q)
    ensures r.Some? ==> r.value in s.users && Matches(s.users[r.value], q)
  {
    First(s.users, s.nextId, q)
  }

  /** `show` and `edit`: the profile form of user `id`. */
  function ProfilePage(s: State, id: UserId): (o: Outcome)
    ensures o.NotFound? <==> id !in s.users
    ensures o.NotFound? || o == Render(EditForm, None)
  {
    if id in s.users then Render(EditForm, None) else NotFound
  }

  /** The object `validate_user` checks: the stored user `id`, or a new one,
      with the request's attributes assigned. */
  function Candidate(s: State, user: Attributes, id: Option<UserId>): Draft
    requires id.Some? ==> id.value in s.users
  {
    Assign(Load(if id.Some? then s.users[id.value] else BlankUser), user)
  }

  /** `validate_user`: a read-only validity check for the signup and edit
      forms. An unknown id leaves `@user` nil, so assigning to it fails. */
  function ValidateUser(e: Env, s: State, user: Attributes, id: Option<UserId>): (o: Outcome)
    ensures o.ServerError? <==> id.Some? && id.value !in s.users
    ensures !o.ServerError? ==> o.Json?
    ensures o == Json(Accepted) <==>
              (id.None? || id.value in s.users) && e.validates(Candidate(s, user, id))
    ensures o.Json? && o.verdict.Rejected? ==> o.verdict.errors == e.errors(Candidate(s, user, id))
  {
    if id.Some? && id.value !in s.users then ServerError
    else
      var d := Candidate(s, user, id);
      if e.validates(d) then Json(Accepted) else Json(Rejected(e.errors(d)))
  }

  /** `update`: saves the profile attributes of user `id`. The password
      fields of the hash are set to nil first, so the stored credential is
      never touched, whatever the request held. */
  function Update(e: Env, s: State, id: UserId, user: Attributes): (r: Step)
    ensures Inv(s) ==> Inv(r.state)
    ensures id !in s.users ==> r == Step(s, NotFound)
    ensures r.outcome.NotFound? <==> id !in s.users
    ensures id in s.users && !r.outcome.Redirect? ==> r.outcome == Render(EditForm, None)
    ensures r.state.users.Keys == s.users.Keys
    ensures r.state.nextId == s.nextId && r.state.session == s.session && r.state.mails == s.mails
    ensures forall j :: j in s.users ==> r.state.users[j].password == s.users[j].password
    ensures forall j :: j in s.users && j != id ==> r.state.users[j] == s.users[j]
    ensures r.outcome.Redirect? <==> id in s.users && e.validates(Assign(Load(s.users[id]), user.(password := None, passwordConfirmation := None)))
    ensures r.outcome.Redirect? ==> r.outcome.notice == UpdatedNotice && r.state.users[id] == Assign(Load(s.users[id]), user).user
    ensures !r.outcome.Redirect? ==> r.state == s
  {
    if id !in s.users then Step(s, NotFound)
    else
      var attrs := user.(password := None, passwordConfirmation := None);
      var d := Assign(Load(s.users[id]), attrs);
      if e.validates(d) then Step(s.(users := s.users[id := Persist(d)]), Redirect(UpdatedNotice))
      else Step(s, Render(EditForm, None))
  }

  /** The object `create` saves: a new user with the request's attributes. */
  function Registration(user: Attributes): Draft
  {
    Assign(Load(BlankUser), user)
  }

  /** `create`: registers a user under the next id with a fresh activation
      `code`, and mails the code only when the save succeeds. */
  function Create(e: Env, s: State, user: Attributes, code: string): (r: Step)
    ensures Inv(s) ==> Inv(r.state)
    ensures r.outcome.Redirect? <==> e.validates(Registration(user))
    ensures !r.outcome.Redirect? ==> r == Step(s, Render(NewForm, Some(CreateFailed)))
    ensures r.outcome.Redirect? ==>
              var id := s.nextId;
              r.outcome.notice == CreatedNotice &&
              r.state.nextId == id + 1 && r.state.session == s.session &&
              r.state.users.Keys == s.users.Keys + {id} &&
              (forall j :: j in s.users && j != id ==> r.state.users[j] == s.users[j]) &&
              !r.state.users[id].activated && r.state.users[id].activationCode == code &&
              r.state.users[id].passwordResetKey.None? &&
              r.state.users[id].email == (if user.email.Some? then user.email.value else BlankUser.email) &&
              r.state.users[id].password == (if user.password.Some? then user.password.value else BlankUser.password) &&
              r.state.users[id].profile == user.profile &&
              r.state.mails == s.mails + [Mail(Signup, r.state.users[id].email, SignupSubject, code)]
  {
    var d := Registration(user);
    if e.validates(d) then
      var u := Persist(d).(activationCode := code);
      Step(State(s.users[s.nextId := u], s.nextId + 1, s.session,
                 s.mails + [Mail(Signup, u.email, SignupSubject, code)]),
           Redirect(CreatedNotice))
    else Step(s, Render(NewForm, Some(CreateFailed)))
  }

  /** `activate`: abandons the session, then logs in the user holding
      `code`. Only a user not yet activated is activated and welcomed;
      the response is the same either way. */
  function Activate(s: State, code: string): (r: Step)
    requires Inv(s)
    ensures Inv(r.state)
    ensures r.state.nextId == s.nextId && r.state.users.Keys == s.users.Keys
    ensures Lookup(s, ByActivationCode(code)).None? ==> r == Step(s.(session := None), NotFound)
    ensures Lookup(s, ByActivationCode(code)).Some? ==>
              var id := Lookup(s, ByActivationCode(code)).value;
              var u := s.users[id];
              r.outcome == Redirect(ActivatedNotice) && r.state.session == Some(id) &&
              r.state.users == s.users[id := u.(activated := true)] &&
              r.state.mails == if u.activated then s.mails
                               else s.mails + [Mail(Activation, u.email, WelcomeSubject, u.email)]
  {
    var s := s.(session := None);
    match Lookup(s, ByActivationCode(code))
    case None => Step(s, NotFound)
    case Some(id) =>
      var u := s.users[id];
      var s := s.(session := Some(id));
      if u.activated then Step(s, Redirect(ActivatedNotice))
      else
        Step(s.(users := s.users[id := u.(activated := true)],
                mails := s.mails + [Mail(Activation, u.email, WelcomeSubject, u.email)]),
             Redirect(ActivatedNotice))
  }

  /** `forgot_password`: abandons the session and shows the reset form. */
  function ForgotPassword(s: State): (r: Step)
    ensures Inv(s) ==> Inv(r.state)
    ensures r.state.session.None? && r.state == s.(session := None)
    ensures r.outcome == Render(ForgotPasswordForm, None)
  {
    Step(s.(session := None), Render(ForgotPasswordForm, None))
  }

  /** `password_reset_key`: abandons the session; for a known email issues
      the reset `key` and mails it, otherwise reports the unknown email. */
  function PasswordResetKeyRequest(s: State, email: Option<string>, key: string): (r: Step)
    requires Inv(s) && key != ""
    ensures Inv(r.state)
    ensures r.state.session.None? && r.state.nextId == s.nextId && r.state.users.Keys == s.users.Keys
    ensures Lookup(s, ByEmail(email)).None? <==> !exists id :: id in s.users && email == Some(s.users[id].email)
    ensures Lookup(s, ByEmail(email)).None? ==>
              r == Step(s.(session := None), Render(ForgotPasswordForm, Some(UnknownEmail)))
    ensures Lookup(s, ByEmail(email)).Some? ==>
              var id := Lookup(s, ByEmail(email)).value;
              var u := s.users[id];
              email == Some(u.email) &&
              r.outcome == Redirect(ResetMailedNotice) &&
              r.state.users == s.users[id := u.(passwordResetKey := Some(key))] &&
              r.state.mails == s.mails + [Mail(PasswordResetKey, u.email, ResetSubject, key)]
  {
    var s := s.(session := None);
    match Lookup(s, ByEmail(email))
    case None => Step(s, Render(ForgotPasswordForm, Some(UnknownEmail)))
    case Some(id) =>
      var u := s.users[id].(passwordResetKey := Some(key));
      Step(s.(users := s.users[id := u],
              mails := s.mails + [Mail(PasswordResetKey, u.email, ResetSubject, key)]),
           Redirect(ResetMailedNotice))
  }

  /** `reset_password` as written: without a session user it runs
      `User.first(:password_reset_key => key)` even when `key` is nil, and
      a nil key matches every user with no reset pending. */
  function ResetPasswordAsWritten(s: State, key: Option<string>): (r: Step)
    requires Inv(s)
    ensures Inv(r.state)
    ensures r.state.users == s.users && r.state.mails == s.mails && r.state.nextId == s.nextId
    ensures s.session.Some? ==> r == Step(s, Render(ResetPasswordForm, None))
    ensures r.outcome.NotFound? <==>
              s.session.None? && !exists id :: id in s.users && s.users[id].passwordResetKey == key
    ensures r.outcome.NotFound? ==> r.state == s
    ensures !r.outcome.NotFound? ==> r.outcome == Render(ResetPasswordForm, None) && r.state.session.Some?
    ensures s.session.None? && r.state.session.Some? ==>
              s.users[r.state.session.value].passwordResetKey == key
    ensures s.session.None? && r.state.session.Some? ==>
              forall j: UserId :: j < r.state.session.value && j in s.users ==> s.users[j].passwordResetKey != key
  {
    var found := if s.session.Some? then s.session else Lookup(s, ByResetKey(key));
    if found.None? then Step(s, NotFound)
    else Step(s.(session := found), Render(ResetPasswordForm, None))
  }

  /** `reset_password`: the session's user, or else the user holding the
      reset key presented. Without a key there is nobody to look up. */
  function ResetPassword(s: State, key: Option<string>): (r: Step)
    requires Inv(s)
    ensures Inv(r.state)
    ensures r.state.users == s.users && r.state.mails == s.mails && r.state.nextId == s.nextId
    ensures s.session.Some? ==> r == Step(s, Render(ResetPasswordForm, None))
    ensures r.outcome.NotFound? <==>
              s.session.None? && (key.None? || !exists id :: id in s.users && s.users[id].passwordResetKey == key)
    ensures r.outcome.NotFound? ==> r.state == s
    ensures !r.outcome.NotFound? ==> r.outcome == Render(ResetPasswordForm, None) && r.state.session.Some?
    ensures s.session.None? && r.state.session.Some? ==>
              key.Some? && s.users[r.state.session.value].passwordResetKey == key
    ensures s.session.None? && r.state.session.Some? ==>
              forall j: UserId :: j < r.state.session.value && j in s.users ==> s.users[j].passwordResetKey != key
  {
    var found := if s.session.Some? then s.session
                 else if key.Some? then Lookup(s, ByResetKey(key))
                 else None;
    if found.None? then Step(s, NotFound)
    else Step(s.(session := found), Render(ResetPasswordForm, None))
  }

  /** The guard of both password-change actions: a reset is pending for
      `u`, or `current` is the password of the account named by `email`. */
  predicate MayChangePassword(e: Env, u: User, email: string, current: Option<string>)
  {
    u.passwordResetKey.Some? || e.authenticates(email, current)
  }

  /** The messages `validate_reset_password` adds before merging the
      object's own errors. */
  function CurrentPasswordErrors(e: Env, u: User, email: string, current: Option<string>): (m: map<string, seq<string>>)
    ensures m == map[] <==> MayChangePassword(e, u, email, current)
    ensures m.Keys <= {CurrentPasswordField}
    ensures CurrentPasswordField in m ==> m[CurrentPasswordField] == [IncorrectCurrentPassword]
  {
    if MayChangePassword(e, u, email, current) then map[]
    else
      var m := map[CurrentPasswordField := [IncorrectCurrentPassword]];
      assert CurrentPasswordField in m;  // so m differs from map[]
      m
  }

  /** `validate_reset_password`: a read-only check of a password change for
      the session's user. The guard reads the email after the request's
      attributes were assigned. */
  function ValidateResetPassword(e: Env, s: State, user: Attributes, current: Option<string>): (o: Outcome)
    requires Authenticated(s)
    ensures o.Json?
    ensures var d := Assign(Load(s.users[s.session.value]), user);
            o == Json(Accepted) <==>
              e.validates(d) && MayChangePassword(e, d.user, d.user.email, current)
    ensures var d := Assign(Load(s.users[s.session.value]), user);
            o.verdict.Rejected? ==>
              o.verdict.errors.Keys ==
                e.errors(d).Keys + (if MayChangePassword(e, d.user, d.user.email, current) then {} else {CurrentPasswordField}) &&
              (forall k :: k in e.errors(d) ==> o.verdict.errors[k] == e.errors(d)[k]) &&
              (CurrentPasswordField !in e.errors(d) && !MayChangePassword(e, d.user, d.user.email, current) ==>
                 o.verdict.errors[CurrentPasswordField] == [IncorrectCurrentPassword])
  {
    var d := Assign(Load(s.users[s.session.value]), user);
    var msgs := CurrentPasswordErrors(e, d.user, d.user.email, current);
    if e.validates(d) && msgs == map[] then Json(Accepted)
    else Json(Rejected(msgs + e.errors(d)))
  }

  /** The object `update_password` saves: the session's user with the
      request's password and confirmation assigned, nil when absent. */
  function PasswordChange(u: User, user: Attributes): Draft
  {
    Draft(u, user.password, user.passwordConfirmation)
  }

  /** `update_password`: refused unless a reset is pending or the current
      password is confirmed; a successful save also clears the reset key. */
  function UpdatePassword(e: Env, s: State, user: Attributes, current: Option<string>): (r: Step)
    requires Authenticated(s)
    ensures Inv(s) ==> Inv(r.state)
    ensures var u := s.users[s.session.value];
            r.outcome.Unauthorized? <==> !MayChangePassword(e, u, u.email, current)
    ensures r.state.nextId == s.nextId && r.state.session == s.session && r.state.mails == s.mails
    ensures r.state.users.Keys == s.users.Keys
    ensures !r.outcome.Redirect? ==> r.state == s
    ensures var u := s.users[s.session.value];
            r.outcome.Render? <==> MayChangePassword(e, u, u.email, current) && !e.validates(PasswordChange(u, user))
    ensures r.outcome.Render? ==> r.outcome == Render(ResetPasswordForm, Some(PasswordNotChanged))
    ensures var u := s.users[s.session.value];
            r.outcome.Redirect? <==> MayChangePassword(e, u, u.email, current) && e.validates(PasswordChange(u, user))
    ensures r.outcome.Redirect? ==>
              var id := s.session.value;
              var u := s.users[id];
              r.outcome.notice == PasswordChangedNotice &&
              r.state.users == s.users[id := u.(password := if user.password.Some? then user.password.value else u.password,
                                                passwordResetKey := None)]
  {
    var id := s.session.value;
    var u := s.users[id];
    if !MayChangePassword(e, u, u.email, current) then Step(s, Unauthorized)
    else
      var d := PasswordChange(u, user);
      if e.validates(d) then
        Step(s.(users := s.users[id := Persist(d).(passwordResetKey := None)]), Redirect(PasswordChangedNotice))
      else Step(s, Render(ResetPasswordForm, Some(PasswordNotChanged)))
  }
}

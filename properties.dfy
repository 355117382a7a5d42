// Properties of the account lifecycle that relate several requests, or all
// requests, to each other.

module Properties {
  import opened Store
  import opened Lifecycle
  import opened Routing

  /** Without a logged-in user, exactly the private actions are refused. */
  lemma AnonymousRefusedExactlyOnPrivate(e: Env, s: State, r: Request, token: string)
    requires Inv(s) && token != "" && !Authenticated(s)
    ensures Dispatch(e, s, r, token).outcome.Unauthorized? <==> !IsPublic(r)
  {
  }

  /** A public action never answers Unauthorized, whoever is logged in. */
  lemma PublicNeverUnauthorized(e: Env, s: State, r: Request, token: string)
    requires Inv(s) && token != "" && IsPublic(r)
    ensures !Dispatch(e, s, r, token).outcome.Unauthorized?
  {
  }

  /** No request but `update_password` changes a stored password. */
  lemma OnlyUpdatePasswordChangesPasswords(e: Env, s: State, r: Request, token: string)
    requires Inv(s) && token != "" && !r.UpdatePasswordRequest?
    ensures var t := Dispatch(e, s, r, token).state;
            forall id :: id in s.users ==> id in t.users && t.users[id].password == s.users[id].password
  {
  }

  /** `activate` with the same code a second time changes nothing and
      answers the same: one activation, one welcome email. */
  lemma ActivateIsIdempotent(s: State, code: string)
    requires Inv(s)
    ensures Activate(Activate(s, code).state, code) == Activate(s, code)
  {
    var q := ByActivationCode(code);
    var s1 := Activate(s, code).state;
    FirstFromAgrees(s.users, s1.users, q, 0, s.nextId);
    assert Lookup(s1, q) == Lookup(s, q);
    assert Lookup(s1.(session := None), q) == Lookup(s1, q);
    assert Lookup(s.(session := None), q) == Lookup(s, q);
  }

  /** Registration followed by two activations with the mailed code: the
      new user is pending, then active with one welcome email, and the
      second activation adds nothing. */
  lemma RegisterThenActivateTwice(e: Env, s: State, user: Attributes, code: string)
    requires Inv(s) && code != ""
    requires forall id :: id in s.users ==> s.users[id].activationCode != code
    requires e.validates(Registration(user))
    ensures var r1 := Create(e, s, user, code);
            var id := s.nextId;
            var u := r1.state.users[id];
            var r2 := Activate(r1.state, code);
            var r3 := Activate(r2.state, code);
            r1.outcome == Redirect(CreatedNotice) && !u.activated &&
            r1.state.mails == s.mails + [Mail(Signup, u.email, SignupSubject, code)] &&
            r2.outcome == Redirect(ActivatedNotice) &&
            r2.state.session == Some(id) && r2.state.users[id].activated &&
            r2.state.mails == r1.state.mails + [Mail(Activation, u.email, WelcomeSubject, u.email)] &&
            r3 == r2
  {
  }

  /** A reset key works once: after a password change that succeeds, the
      same key no longer finds anyone from a new session. */
  lemma ResetKeyIsSingleUse(e: Env, s: State, user: Attributes, current: Option<string>, key: string)
    requires Inv(s) && Authenticated(s)
    requires s.users[s.session.value].passwordResetKey == Some(key)
    requires forall id :: id in s.users && id != s.session.value ==> s.users[id].passwordResetKey != Some(key)
    ensures var r := UpdatePassword(e, s, user, current);
            r.outcome.Redirect? ==>
              Inv(r.state) &&
              ResetPassword(r.state.(session := None), Some(key)) == Step(r.state.(session := None), NotFound)
  {
  }

  /** The reset path end to end: asking for a key for a known email mails
      the key; presenting the mailed key from a new session logs in the
      owner of that email, who may then change the password without the
      current one. */
  lemma ResetKeyUnlocksPasswordChange(e: Env, s: State, email: string, key: string, user: Attributes, current: Option<string>)
    requires Inv(s) && key != ""
    requires exists id :: id in s.users && s.users[id].email == email
    requires forall id :: id in s.users ==> s.users[id].passwordResetKey != Some(key)
    ensures var r1 := PasswordResetKeyRequest(s, Some(email), key);
            var m := r1.state.mails[|r1.state.mails| - 1];
            var r2 := ResetPassword(r1.state, Some(m.token));
            r1.outcome == Redirect(ResetMailedNotice) &&
            m.kind == PasswordResetKey && m.to == email &&
            r2.outcome == Render(ResetPasswordForm, None) &&
            Authenticated(r2.state) && r2.state.users[r2.state.session.value].email == email &&
            !UpdatePassword(e, r2.state, user, current).outcome.Unauthorized?
  {
  }

  /** As written, `reset_password` without a key and without a session
      logs the visitor in as the oldest account that has no reset pending. */
  lemma NilKeyLogsInUserWithoutReset(s: State, victim: UserId)
    requires Inv(s) && s.session.None?
    requires victim in s.users && s.users[victim].passwordResetKey.None?
    ensures var r := ResetPasswordAsWritten(s, None);
            r.outcome == Render(ResetPasswordForm, None) && Authenticated(r.state) &&
            r.state.users[r.state.session.value].passwordResetKey.None? &&
            r.state.session.value <= victim &&
            forall j: UserId :: j < r.state.session.value && j in s.users ==> s.users[j].passwordResetKey.Some?
  {
  }
}

# Account lifecycle of the Repertoire Users controller

This project models the Users controller of repertoire-core
(`app/controllers/users.rb`). The controller is Merb glue around a user
account's lifecycle:

- registration, which mails an activation code;
- activation, which logs the user in and welcomes them once;
- password reset, which mails a reset key, and a reset-key login that leads
  to a password change;
- profile updates, which must never touch the password;
- an authentication filter in front of every action outside a fixed public
  list.

The model has five modules:

- `Store` (store.dfy) holds the persisted user record, the request's attribute
  hash, the unsaved in-memory user with its transient password fields, and
  the `User.first(...)` lookups. A lookup returns the matching user with the
  lowest id, because records are ordered by key.
- `Lifecycle` (lifecycle.dfy) has one function per action. Each one maps the
  state before a request to the state after it and to the response. The
  state is the user store with its next id, the session's user, and the
  append-only log of mails handed to the mailer.
- `Routing` (routing.dfy) holds the requests, the public-action list of the
  `before :ensure_authenticated` filter, and `Dispatch`, which serves one
  request. For `reset_password` it uses the corrected lookup of the finding
  below, not the line as written. `Dispatch` keeps the store invariant. It
  never removes a user, never deactivates one and never changes an
  activation code. It appends at most one mail per request.
- `Properties` (properties.dfy) holds the lemmas that relate requests to
  each other: idempotent activation, single-use reset keys, and the
  registration and reset paths end to end.
- `Controller` (controller.dfy) is the controller as a class whose fields
  are the store, the session and the mail log. Its action methods work step
  by step, and each is proved to produce the new state and the response
  that the matching `Lifecycle` function specifies. Its `ResetPassword`,
  like `Dispatch` and the lemmas over `Dispatch`, follows the corrected
  `reset_password` of the finding below. Only
  `Lifecycle.ResetPasswordAsWritten` models that line as written.

The user model is not part of this model. Its `valid?`, `errors_as_params`
and `User.authenticate` are uninterpreted functions in `Store.Env`. Its
`activate` sets `activated`, `forgot_password!` stores the non-empty key it
is given, and `clear_forgotten_password!` clears the key. The activation code
and the reset key that it generates are parameters.

Notes on the code's behaviour:

- A signup mail is sent at registration and a welcome mail at the first
  activation.
- An unknown email in `password_reset_key` renders the forgot-password form
  with "Unknown user email." rather than failing.
- A reset-key login binds the session user outright. Every private action
  is then open to that user, not only the password change.
- `show`, `edit` and `update` do not check that the id is the session's own.
  Any logged-in user reaches any profile, as in the code.

## Model

| member | source | states |
|---|---|---|
| `Store.First` | app/controllers/users.rb:81 | `User.first`: finds a user iff some stored user matches the condition, and returns the matching one with the lowest id |
| `Store.FirstFromAgrees` | app/controllers/users.rb:81 | two stores that agree on which ids match a condition give the same lookup result |
| `Lifecycle.ProfilePage` | app/controllers/users.rb:12-24 | `show`/`edit` raise NotFound exactly for an unknown id and otherwise display the edit form |
| `Lifecycle.ValidateUser` | app/controllers/users.rb:27-34 | answers `true` iff the stored or new user with the attributes assigned is valid, otherwise its errors; an unknown id dereferences nil (ServerError) |
| `Lifecycle.Update` | app/controllers/users.rb:37-48 | NotFound exactly for an unknown id; no stored password changes whatever the hash held; on a valid save the user gets the hash's other attributes; a failed save renders the edit form and changes nothing |
| `Lifecycle.Create` | app/controllers/users.rb:63-76 | a valid registration stores a new pending user under a fresh id, with the submitted email, password and profile and the activation code, and mails exactly one signup email carrying that code to the submitted address; an invalid one changes nothing and mails nothing |
| `Lifecycle.Activate` | app/controllers/users.rb:79-94 | abandons the session; an unknown code gives NotFound with no user and no mail changed; a known code logs its user in and answers the same welcome, activating and mailing once only if the user was not yet activated |
| `Lifecycle.ForgotPassword` | app/controllers/users.rb:101-106 | abandons the session and shows the forgot-password form, changing nothing else |
| `Lifecycle.PasswordResetKeyRequest` | app/controllers/users.rb:109-123 | abandons the session; an unknown email renders "Unknown user email." with no key and no mail; a known email stores the key on that user and mails it to that address |
| `Lifecycle.ResetPasswordAsWritten` | app/controllers/users.rb:127-134 | as written: a logged-in session user is kept; without one the lookup runs with the key given, nil included, and binds the lowest-id user holding exactly that key value; NotFound changes nothing |
| `Lifecycle.ResetPassword` | app/controllers/users.rb:127-134 | keeps a logged-in session user; otherwise binds the lowest-id user whose pending key equals the key presented, and gives NotFound, changing nothing, when there is no key or no holder |
| `Lifecycle.CurrentPasswordErrors` | app/controllers/users.rb:143-147 | the "Incorrect current password" message is added exactly when no reset is pending and authentication fails |
| `Lifecycle.ValidateResetPassword` | app/controllers/users.rb:138-150 | answers `true` iff the user with the attributes assigned is valid and the password-change guard holds; otherwise the object's errors merged over the current-password message |
| `Lifecycle.UpdatePassword` | app/controllers/users.rb:154-170 | Unauthorized, with nothing changed, iff no reset is pending and the current password fails; the change succeeds iff the guard holds and the object validates, storing the new password and clearing the reset key; a failed save keeps the state, the key included, and renders the error |
| `Routing.Dispatch` | app/controllers/users.rb:5 | private actions without a logged-in user are refused with nothing changed; every request keeps the store invariant, keeps users, activation codes and activation, and appends at most one mail |
| `Properties.AnonymousRefusedExactlyOnPrivate` | app/controllers/users.rb:5 | without a logged-in user a request is refused iff its action is not on the public list |
| `Properties.PublicNeverUnauthorized` | app/controllers/users.rb:5 | the seven public actions never answer Unauthorized |
| `Properties.OnlyUpdatePasswordChangesPasswords` | app/controllers/users.rb:37-43 | no request other than `update_password` changes any stored password |
| `Properties.ActivateIsIdempotent` | app/controllers/users.rb:84-93 | activating twice with the same code gives the same state and response as activating once, so one activation and at most one welcome mail |
| `Properties.RegisterThenActivateTwice` | app/controllers/users.rb:63-93 | register then activate twice with the mailed code: pending, then active with one signup and one welcome mail, then unchanged |
| `Properties.ResetKeyIsSingleUse` | app/controllers/users.rb:158-165 | after a password change that succeeds, the former reset key finds nobody from a new session |
| `Properties.ResetKeyUnlocksPasswordChange` | app/controllers/users.rb:109-158 | requesting a key mails it to the address given; presenting the mailed key logs in that address's owner, who passes the password-change guard without the current password |
| `Properties.NilKeyLogsInUserWithoutReset` | app/controllers/users.rb:129-132 | as written, a keyless request from a fresh session logs in the lowest-id user who has no reset pending |
| `Controller.Users.Handle` | app/controllers/users.rb:5 | runs the authentication filter and then the action, with the state and response `Routing.Dispatch` specifies (corrected `reset_password`) |
| `Controller.Users.Show` | app/controllers/users.rb:12-16 | answers as `Lifecycle.ProfilePage` specifies, changing nothing |
| `Controller.Users.Edit` | app/controllers/users.rb:19-24 | answers as `Lifecycle.ProfilePage` specifies, changing nothing |
| `Controller.Users.ValidateUser` | app/controllers/users.rb:27-34 | answers as `Lifecycle.ValidateUser` specifies, changing nothing |
| `Controller.Users.Update` | app/controllers/users.rb:37-48 | new state and response as `Lifecycle.Update` specifies; keeps the store invariant |
| `Controller.Users.New` | app/controllers/users.rb:55-59 | displays the signup form and changes nothing |
| `Controller.Users.Create` | app/controllers/users.rb:63-76 | new state and response as `Lifecycle.Create` specifies; keeps the store invariant |
| `Controller.Users.Activate` | app/controllers/users.rb:79-94 | new state and response as `Lifecycle.Activate` specifies; keeps the store invariant |
| `Controller.Users.ForgotPassword` | app/controllers/users.rb:101-106 | new state and response as `Lifecycle.ForgotPassword` specifies |
| `Controller.Users.PasswordResetKey` | app/controllers/users.rb:109-123 | new state and response as `Lifecycle.PasswordResetKeyRequest` specifies; keeps the store invariant |
| `Controller.Users.ResetPassword` | app/controllers/users.rb:127-134 | new state and response as the corrected `Lifecycle.ResetPassword` specifies |
| `Controller.Users.ValidateResetPassword` | app/controllers/users.rb:138-150 | answers as `Lifecycle.ValidateResetPassword` specifies, changing nothing |
| `Controller.Users.UpdatePassword` | app/controllers/users.rb:154-170 | new state and response as `Lifecycle.UpdatePassword` specifies; keeps the store invariant |
| `Controller.Users.Abandon` | app/controllers/users.rb:80 | `session.abandon!` leaves no user bound to the session |
| `Controller.Users.DeliverEmail` | app/controllers/users.rb:186-190 | appends exactly one mail (kind, recipient's address, subject, link token) to the log |

## Left out

- Rendering, `display`, `redirect`, `only_provides` and `absolute_url` are left out. Responses are outcome tags carrying the notice or error text and the form. A mail records the token its link carries, not the URL.
- The Merb framework, the `log_params_filtered` filter and JSON serialisation are left out.
- `ensure_authenticated`'s login strategies are left out. The filter is modelled as "a stored user is bound to the session".
- Mail transport is left out. `deliver_email` only appends an intent to the log.
- The user model's internals are left out: password hashing, validation rules, error messages, authentication and token generation. The stored `password` stands for the encrypted credential. The activation code and the reset key are parameters.
- `Store.Env`: `valid?` and `authenticate` see only the object and the credentials, not the rest of the store. An "email already taken" rule is therefore not expressible.
- The attribute hash carries only `email`, `password`, `password_confirmation` and free profile fields. Mass assignment of other columns (the stored credential, activation code, reset key, activation flag) is not modelled. The user model's protection of those columns is not shown.
- `Lifecycle.Activate`: the user model's `activate` is taken to always succeed. A failed save inside it is not modelled.
- Transactions, rollback on database or mail failure, and concurrent activation are left out. Requests run one at a time, and nothing fails inside a transaction.
- Users are never deleted, because no action here deletes one.
- `Lifecycle.PasswordResetKeyRequest`: a nil email matches nobody, because every stored user has an email in this model.
- The HTTPS and brute-force remarks in the source are not modelled.

## Findings

| source | as written | input that shows it | evidently intended | confidence | as-written member | corrected member |
|---|---|---|---|---|---|---|
| app/controllers/users.rb:129 | with no session user, `User.first(:password_reset_key => key)` also runs when `key` is nil, and a nil condition matches every user with no reset pending; line 132 then binds that user to the session | a request to `reset_password` without a key, from a fresh session, while some user has no reset pending | without a key (or without a holder of the key) there is nobody to log in: NotFound | medium (relies on nil conditions matching nil columns); not executed | `Properties.NilKeyLogsInUserWithoutReset` | `Lifecycle.ResetPassword` |

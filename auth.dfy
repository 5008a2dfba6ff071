/** What a session slot holds, the responses the handlers send, and the pure decisions
    behind them: the credential check of POST /login, the profile a login creates, and
    the authentication and administrator gates. */
module Auth {
  import opened Json
  import opened Directory

  /** `req.session.user`: the raw `username` value of the login body, the administrator
      flag and the profile object. */
  datatype SessionUser = SessionUser(username: Json, isAdmin: bool, profile: Json)

  datatype Response = Response(status: int, body: Json)

  const MsgMissingCredentials := "Username et password requis"
  const MsgInvalidCredentials := "Identifiants invalides"
  const MsgLoginOk := "Connexion réussie"
  const MsgNotAuthenticated := "Non authentifié"
  const MsgProfile := "Profil utilisateur"
  const MsgAccessDenied := "Accès refusé - Privilèges administrateur requis"
  const MsgUsersListed := "Liste des utilisateurs récupérée avec succès"
  const MsgInternal := "Erreur interne du serveur"

  function ErrorResponse(status: int, message: string): Response
  {
    Response(status, Obj(map["error" := Str(message)]))
  }

  /** What the final error handler answers for an exception that escapes a route. */
  const InternalError := ErrorResponse(500, MsgInternal)

  const Unauthenticated := ErrorResponse(401, MsgNotAuthenticated)

  /** The session user serialised as `{username, isAdmin, profile}`. */
  function UserJson(u: SessionUser): Json
  {
    Obj(map["username" := u.username, "isAdmin" := Bool(u.isAdmin), "profile" := u.profile])
  }

  /** The profile every login starts from; `name` is String() of the submitted username. */
  function DefaultProfile(name: string): Json
  {
    Obj(map[
      "email" := Str(name + "@example.com"),
      "fullName" := Str("User " + name),
      "preferences" := Obj(map["theme" := Str("light"), "notifications" := Bool(true)])])
  }

  /** A fresh login profile carries none of the keys that the escalation checks look at. */
  lemma DefaultProfileIsPlain(name: string)
    ensures DefaultProfile(name).Obj?
    ensures Get(DefaultProfile(name), "isAdmin") == None
    ensures Get(DefaultProfile(name), "hasOwnProperty") == None
    ensures Get(DefaultProfile(name), "__proto__") == None
  {
  }

  /** Outcome of the credential check of POST /login. `Crash` is a TypeError thrown by the
      handler: destructuring a null body, or converting a username object whose own
      "toString" key is not callable. */
  datatype LoginDecision =
    | Crash
    | MissingCredentials
    | InvalidCredentials
    | Accept(name: string)

  /** Lines 184-193: destructure, reject falsy fields, look the username up as a property
      key of the directory, compare the password strictly. A key that is not an own entry
      of the directory (an inherited one such as "toString" included) has no password, so
      it is rejected like an unknown name. */
  function CheckCredentials(body: Json): (d: LoginDecision)
    ensures body == Null ==> d == Crash
    ensures d.Accept? ==>
      && d.name in Users && body.Obj? && "password" in body.fields
      && body.fields["password"] == Str(Users[d.name].password)
  {
    if body == Null then Crash
    else
      var username := Get(body, "username");
      var password := Get(body, "password");
      if !Truthy(username) || !Truthy(password) then MissingCredentials
      else
        match ToJsString(username.value)
        case None => Crash
        case Some(name) =>
          if name in Users && password.value == Str(Users[name].password) then Accept(name)
          else InvalidCredentials
  }

  /** The session user a successful login stores: the submitted username, the directory's
      administrator flag and the default profile. */
  function NewSessionUser(username: Json, name: string): SessionUser
    requires name in Users
  {
    SessionUser(username, Users[name].isAdmin, DefaultProfile(name))
  }

  /** A missing or falsy username or password is answered with 400, and only that. */
  lemma MissingCredentialsExactly(body: Json)
    ensures CheckCredentials(body) == MissingCredentials <==>
      body != Null && (!Truthy(Get(body, "username")) || !Truthy(Get(body, "password")))
  {
  }

  /** The handler throws before answering exactly for a null body, or for present
      credentials whose username is a value String() cannot convert. */
  lemma CrashExactly(body: Json)
    ensures CheckCredentials(body) == Crash <==>
      body == Null ||
      (Truthy(Get(body, "username")) && Truthy(Get(body, "password")) &&
       HasOwnToString(body.fields["username"]))
  {
    if body.Obj? && "username" in body.fields {
      ToJsStringFailsExactly(body.fields["username"]);
    }
  }

  /** A login is accepted exactly when the body is an object whose username converts to a
      directory name and whose password is that entry's password, as a string. */
  lemma AcceptedExactly(body: Json)
    ensures CheckCredentials(body).Accept? <==>
      body.Obj? && "username" in body.fields && "password" in body.fields &&
      (exists k :: k in Users && ToJsString(body.fields["username"]) == Some(k) &&
                   body.fields["password"] == Str(Users[k].password))
    ensures CheckCredentials(body).Accept? ==>
      var d := CheckCredentials(body);
      d.name in Users && ToJsString(body.fields["username"]) == Some(d.name)
  {
    if body.Obj? && "username" in body.fields && "password" in body.fields &&
       exists k :: k in Users && ToJsString(body.fields["username"]) == Some(k) &&
                   body.fields["password"] == Str(Users[k].password)
    {
      var k :| k in Users && ToJsString(body.fields["username"]) == Some(k) &&
               body.fields["password"] == Str(Users[k].password);
      AcceptsMatchingName(body, k);
    }
  }

  /** A body naming directory entry `k` with `k`'s password is accepted as `k`. */
  lemma AcceptsMatchingName(body: Json, k: string)
    requires k in Users && body.Obj? && "username" in body.fields && "password" in body.fields
    requires ToJsString(body.fields["username"]) == Some(k)
    requires body.fields["password"] == Str(Users[k].password)
    ensures CheckCredentials(body) == Accept(k)
  {
    DirectoryNamesAreWords(k);
    NamedValueIsTruthy(body.fields["username"], k);
    PasswordsAreNonEmpty(k);
    assert Truthy(Get(body, "password"));
  }

  /** Only two shapes of username log in: the directory name as a string, or a
      one-element array around a value that converts to that name. */
  lemma {:induction false} AcceptedUsernameShapes(body: Json)
    requires CheckCredentials(body).Accept?
    ensures var k := CheckCredentials(body).name;
      var v := body.fields["username"];
      v == Str(k) || (v.Arr? && |v.items| == 1 && ToJsString(v.items[0]) == Some(k))
  {
    AcceptedExactly(body);
    var k := CheckCredentials(body).name;
    DirectoryNamesAreWords(k);
    NameShapes(body.fields["username"], k);
  }

  /** Outcome of an authentication or administrator gate. */
  datatype Gate = Pass(user: SessionUser) | Deny(response: Response)

  /** Lines 243, 306 and 419: no session user means 401. */
  function RequireSession(slot: Option<SessionUser>): (g: Gate)
    ensures g.Pass? <==> slot.Some?
    ensures g.Pass? ==> g.user == slot.value
    ensures g.Deny? ==> g.response == Unauthenticated
  {
    match slot
    case None => Deny(Unauthenticated)
    case Some(u) => Pass(u)
  }

  /** Lines 419-429: 401 without a session, 403 carrying `isAdmin: false` for a session
      whose flag is false, otherwise through. */
  function RequireAdmin(slot: Option<SessionUser>): (g: Gate)
    ensures g.Pass? <==> slot.Some? && slot.value.isAdmin
    ensures g.Pass? ==> g.user == slot.value
    ensures slot.None? ==> g == Deny(Unauthenticated)
    ensures slot.Some? && !slot.value.isAdmin ==>
      g.Deny? && g.response.status == 403 &&
      g.response.body == Obj(map["error" := Str(MsgAccessDenied), "isAdmin" := Bool(false)])
  {
    match RequireSession(slot)
    case Deny(r) => Deny(r)
    case Pass(u) =>
      if !u.isAdmin then
        Deny(Response(403, Obj(map["error" := Str(MsgAccessDenied), "isAdmin" := Bool(u.isAdmin)])))
      else Pass(u)
  }
}

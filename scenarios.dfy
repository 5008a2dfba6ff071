/** The request sequences of the repository's client scripts and the examples the
    service is expected to answer, replayed against the session model. The merge is left
    as a parameter: none of these outcomes depends on what `_.merge` does. */
module Scenarios {
  import opened Json
  import opened Directory
  import opened Auth
  import opened Merge
  import opened Sessions
  import opened Escalation

  function Credentials(username: string, password: string): Json
  {
    Obj(map["username" := Str(username), "password" := Str(password)])
  }

  /** Non-empty string credentials are accepted exactly when they match a directory entry. */
  lemma StringCredentials(username: string, password: string)
    requires username != "" && password != ""
    ensures CheckCredentials(Credentials(username, password)) ==
      if username in Users && Users[username].password == password then Accept(username)
      else InvalidCredentials
  {
    var body := Credentials(username, password);
    assert Get(body, "username") == Some(Str(username));
    assert Get(body, "password") == Some(Str(password));
  }

  /** The payload of the exploit: a profile change plus `__proto__: {isAdmin: true}`. */
  const PollutionPayload: Json := Obj(map[
    "email" := Str("hacker@example.com"),
    "__proto__" := Obj(map["isAdmin" := Bool(true)])])

  /** The exploit payload passes the payload check without throwing. */
  lemma PayloadIsCaught()
    ensures HasProtoPollution(PollutionPayload) == Value(true)
  {
    assert Get(PollutionPayload, "hasOwnProperty") == None;
    assert Get(PollutionPayload, "__proto__") == Some(Obj(map["isAdmin" := Bool(true)]));
  }

  /** "user1" logs in as a regular user, "admin" as an administrator, and a wrong
      password is refused with 401. */
  method LoginExamples() returns (user1: Response, admin: Response, wrong: Response)
    ensures user1 == Response(200, LoginBody(SessionUser(Str("user1"), false, DefaultProfile("user1"))))
    ensures admin == Response(200, LoginBody(SessionUser(Str("admin"), true, DefaultProfile("admin"))))
    ensures wrong == ErrorResponse(401, MsgInvalidCredentials)
  {
    StringCredentials("user1", "password123");
    StringCredentials("admin", "4dminTheB3st!");
    StringCredentials("user1", "wrong");
    var s := new ClientSession();
    user1 := s.Login(Credentials("user1", "password123"));
    admin := s.Login(Credentials("admin", "4dminTheB3st!"));
    wrong := s.Login(Credentials("user1", "wrong"));
  }

  /** The exploit script as it stands logs in as "alice", who is not in the directory:
      the login is refused, so every later request finds no session and gets 401. */
  method PollutionScriptAsWritten(merge: (Json, Json, Json) -> MergeOutcome)
    returns (login: int, profile: int, adminBefore: int, update: int, adminAfter: int)
    ensures login == 401 && profile == 401 && adminBefore == 401 && update == 401 && adminAfter == 401
  {
    StringCredentials("alice", "password123");
    var s := new ClientSession();
    var r := s.Login(Credentials("alice", "password123"));
    assert r.status == 401 && s.user.None?;
    login := r.status;
    r := s.Profile();
    profile := r.status;
    r := s.AdminUsers();
    adminBefore := r.status;
    r := s.UpdateProfile(PollutionPayload, merge);
    update := r.status;
    r := s.AdminUsers();
    adminAfter := r.status;
  }

  /** The same script with a directory user: the listing is refused before the payload
      and granted after it, whatever the merge returns or throws. */
  method PollutionExploit(merge: (Json, Json, Json) -> MergeOutcome)
    returns (login: int, profile: int, adminBefore: int, update: int, adminAfter: int)
    ensures login == 200 && profile == 200 && adminBefore == 403 && update == 200 && adminAfter == 200
  {
    StringCredentials("user1", "password123");
    PayloadIsCaught();
    var s := new ClientSession();
    var r := s.Login(Credentials("user1", "password123"));
    login := r.status;
    r := s.Profile();
    profile := r.status;
    r := s.AdminUsers();
    adminBefore := r.status;
    r := s.UpdateProfile(PollutionPayload, merge);
    update := r.status;
    assert s.user.Some? && s.user.value.isAdmin;
    r := s.AdminUsers();
    adminAfter := r.status;
  }

  /** Logging in again replaces the promoted session user with the directory's view. */
  method ReLoginDropsPromotion(merge: (Json, Json, Json) -> MergeOutcome)
    returns (promoted: int, afterRelogin: int)
    ensures promoted == 200 && afterRelogin == 403
  {
    StringCredentials("user2", "password456");
    PayloadIsCaught();
    var s := new ClientSession();
    var r := s.Login(Credentials("user2", "password456"));
    r := s.UpdateProfile(PollutionPayload, merge);
    r := s.AdminUsers();
    promoted := r.status;
    r := s.Login(Credentials("user2", "password456"));
    r := s.AdminUsers();
    afterRelogin := r.status;
  }

  /** A "__proto__" entry that is null makes the payload check throw in the catch block as
      well: the request ends in the final error handler with 500, although the session was
      already reached by the merge. */
  method NullProtoEscapesCatch(merge: (Json, Json, Json) -> MergeOutcome) returns (status: int)
    ensures status == 500
  {
    StringCredentials("manager", "ohMyGodYouGotMe");
    var s := new ClientSession();
    var r := s.Login(Credentials("manager", "ohMyGodYouGotMe"));
    r := s.UpdateProfile(Obj(map["__proto__" := Null]), merge);
    status := r.status;
  }
}

/** One client's session slot, `req.session.user`, and the four handlers that read and
    update it. Each handler is one transition (slot, request) -> (new slot, response). */
module Sessions {
  import opened Json
  import opened Directory
  import opened Auth
  import opened Merge
  import opened Escalation

  const MsgUpdated := "Profil mis à jour avec succès"
  const MsgUpdateFailed := "Erreur lors de la mise à jour du profil"

  /** Body of a successful login (lines 209-212). */
  function LoginBody(u: SessionUser): Json
  {
    Obj(map["message" := Str(MsgLoginOk), "user" := UserJson(u)])
  }

  /** Body of a successful profile read (lines 247-250). */
  function ProfileBody(u: SessionUser): Json
  {
    Obj(map["message" := Str(MsgProfile), "user" := UserJson(u)])
  }

  /** Body of an update whose try block ran to the end (lines 343-352). */
  function UpdatedBody(u: SessionUser): Json
  {
    Obj(map[
      "message" := Str(MsgUpdated),
      "profile" := u.profile,
      "user" := UserJson(u),
      "success" := Bool(true)])
  }

  /** Body of an update whose try block threw `message` (lines 362-370); the user view
      leaves the profile out. */
  function UpdateFailedBody(u: SessionUser, message: string): Json
  {
    Obj(map[
      "message" := Str(MsgUpdateFailed),
      "error" := Str(message),
      "user" := Obj(map["username" := u.username, "isAdmin" := Bool(u.isAdmin)]),
      "success" := Bool(false)])
  }

  /** Body of the admin listing (lines 432-437). */
  function ListingBody(requestedBy: Json): Json
  {
    Obj(map[
      "message" := Str(MsgUsersListed),
      "users" := UsersJson(),
      "totalUsers" := Num(|Users.Keys|),
      "requestedBy" := requestedBy])
  }

  /** The listing hands out the whole directory (see `Directory.ListedRecord` for what each
      entry shows), counts four users and names the requesting session's username. */
  lemma ListingContents(requestedBy: Json)
    ensures ListingBody(requestedBy).fields["totalUsers"] == Num(4)
    ensures ListingBody(requestedBy).fields["requestedBy"] == requestedBy
    ensures ListingBody(requestedBy).fields["users"] == UsersJson()
    ensures UsersJson().fields.Keys == Users.Keys == {"user1", "user2", "admin", "manager"}
  {
    var body := ListingBody(requestedBy);
    assert body.fields["users"] == UsersJson();
    assert |Users.Keys| == 4 && Users.Keys == {"user1", "user2", "admin", "manager"} by {
      DirectoryShape();
    }
  }

  class ClientSession {
    /** `req.session.user`: absent until a login succeeds. */
    var user: Option<SessionUser>

    constructor()
      ensures user == None
    {
      user := None;
    }

    /** POST /login (lines 183-213). Only a successful login writes the slot, and it
        replaces the whole session user, so any earlier promotion is gone. */
    method Login(body: Json) returns (r: Response)
      modifies this
      ensures var d := CheckCredentials(body);
        match d
        case Crash => user == old(user) && r == InternalError
        case MissingCredentials => user == old(user) && r == ErrorResponse(400, MsgMissingCredentials)
        case InvalidCredentials => user == old(user) && r == ErrorResponse(401, MsgInvalidCredentials)
        case Accept(name) =>
          && body.Obj? && "username" in body.fields
          && user == Some(SessionUser(body.fields["username"], Users[name].isAdmin, DefaultProfile(name)))
          && r == Response(200, LoginBody(user.value))
      ensures r.status in {200, 400, 401, 500}
      ensures r.status != 200 ==> user == old(user)
    {
      var d := CheckCredentials(body);
      match d {
        case Crash =>
          r := InternalError;
        case MissingCredentials =>
          r := ErrorResponse(400, MsgMissingCredentials);
        case InvalidCredentials =>
          r := ErrorResponse(401, MsgInvalidCredentials);
        case Accept(name) =>
          AcceptedExactly(body);
          user := Some(NewSessionUser(body.fields["username"], name));
          r := Response(200, LoginBody(user.value));
      }
    }

    /** GET /profile (lines 242-251): reads the slot and changes nothing. */
    method Profile() returns (r: Response)
      ensures user.None? ==> r == Unauthenticated
      ensures user.Some? ==> r == Response(200, ProfileBody(user.value))
    {
      match RequireSession(user) {
        case Deny(denied) => r := denied;
        case Pass(u) => r := Response(200, ProfileBody(u));
      }
    }

    /** POST /update-profile (lines 305-372), with `merge` standing for `_.merge`.
        Past the session gate the profile becomes the merged target as soon as the merge
        returns, the administrator flag can only go from false to true, and the answer is
        200 unless the payload check in the catch block throws, which escapes to the
        final error handler as a 500. */
    method UpdateProfile(updates: Json, merge: (Json, Json, Json) -> MergeOutcome) returns (r: Response)
      modifies this
      ensures old(user).None? ==> user == old(user) && r == Unauthenticated
      ensures old(user).Some? ==>
        var before := old(user).value;
        var outcome := merge(EmptyObject, before.profile, updates);
        && user.Some?
        && user.value.username == before.username
        && user.value.isAdmin == (before.isAdmin || Escalates(updates, outcome))
        && user.value.profile == (if outcome.Merged? then outcome.result else before.profile)
        && r == (if HasProtoPollution(updates).TypeError? then InternalError
                 else if EarlyError(outcome).None? then Response(200, UpdatedBody(user.value))
                 else Response(200, UpdateFailedBody(user.value, EarlyError(outcome).value)))
      ensures old(user).Some? && old(user).value.isAdmin ==> user.Some? && user.value.isAdmin
      ensures old(user).Some? ==> r.status in {200, 500}
    {
      if user.None? {
        r := Unauthenticated;
        return;
      }
      var caught: Option<string> := None;
      // try
      var outcome := merge(EmptyObject, user.value.profile, updates);
      if outcome.Threw? {
        caught := Some(outcome.message);
      } else {
        user := Some(user.value.(profile := outcome.result));
        var polluted := IsPolluted(outcome.result, outcome.ancestorIsAdmin);
        if polluted.TypeError? {
          caught := Some(polluted.message);
        } else {
          if polluted.holds {
            user := Some(user.value.(isAdmin := true));
          }
          var proto := HasProtoPollution(updates);
          if proto.TypeError? {
            caught := Some(proto.message);
          } else if proto.holds {
            user := Some(user.value.(isAdmin := true));
          }
        }
      }
      if caught.None? {
        r := Response(200, UpdatedBody(user.value));
        return;
      }
      // catch: the same payload check, now outside any try block
      var proto := HasProtoPollution(updates);
      if proto.TypeError? {
        r := InternalError;
        return;
      }
      if proto.holds {
        user := Some(user.value.(isAdmin := true));
      }
      r := Response(200, UpdateFailedBody(user.value, caught.value));
    }

    /** GET /admin/users (lines 418-438): reads the slot and changes nothing. */
    method AdminUsers() returns (r: Response)
      ensures user.None? ==> r == Unauthenticated
      ensures user.Some? && !user.value.isAdmin ==>
        r == Response(403, Obj(map["error" := Str(MsgAccessDenied), "isAdmin" := Bool(false)]))
      ensures user.Some? && user.value.isAdmin ==> r == Response(200, ListingBody(user.value.username))
      ensures r.status == 200 <==> user.Some? && user.value.isAdmin
    {
      match RequireAdmin(user) {
        case Deny(denied) => r := denied;
        case Pass(u) => r := Response(200, ListingBody(u.username));
      }
    }
  }
}

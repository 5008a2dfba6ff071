# User profile service: sessions, authorization and the profile-merge escalation

This project models the core of a small Express service, `build/app/app.js`. The
service has four routes:

- `POST /login` checks a username and password against a fixed directory of four users.
  On success it stores `{username, isAdmin, profile}` in the client's session.
- `GET /profile` returns the session user.
- `POST /update-profile` deep-merges the request body into the session profile with
  lodash `_.merge`. It then promotes the session to administrator when the merge target
  reads `isAdmin === true`, or when the raw body has an own `__proto__` key whose
  `isAdmin` is `true`. The application is a prototype-pollution exercise, so this
  escalation is deliberate.
- `GET /admin/users` hands out the whole directory, passwords included, to
  administrator sessions only.

The model is written in Dafny:

- `Json` models parsed request bodies. It also models the JavaScript conversions the
  handlers apply to them: truthiness, own-property lookup, and `String()`. `String()`
  is what `users[username]` and `${username}` use.
- `Directory` holds the user directory as a constant. No handler can change it.
- `Auth` holds the pure decisions: the credential check, the profile a login creates,
  and the authentication and administrator gates.
- `Escalation` holds the two promotion checks as pure functions. In JavaScript both
  can throw a TypeError, and the model keeps that.
- `Merge` models the merge result as `MergeOutcome`. The handler receives `_.merge`
  as a parameter. `Merge` also has a labelled stand-in, `DeepMerge` and `StandIn`,
  used only for properties of merging in general.
- `Sessions.ClientSession` is one client's session slot, `req.session.user`, with one
  method per route. The methods update the slot step by step, like the handlers.
- `Scenarios` replays the repository's client scripts against the model.

Behaviour of the code that the model keeps as written:

- Update-profile can answer 500. Its Swagger block (app.js:283-303) documents only 200
  and 401. The catch block, however, repeats the `__proto__` check outside any try block
  (the comment at app.js:356 describes it). That check throws for a null body, for a
  body with an own `hasOwnProperty` key, and for a body whose `__proto__` entry is
  `null`. The exception then reaches the final error handler (app.js:443-446), which
  answers 500. The merged profile is kept, because it was stored before the throw. See
  `Sessions.ClientSession.UpdateProfile` and `Scenarios.NullProtoEscapesCatch`.
- The administrator flag set at login can later become true through update-profile, as
  described above. Nothing ever sets it back to false except a new login.
- There is no logout route and no session expiry.
- The exploit script logs in as `alice`, who is not in the directory. So after its
  connectivity request to `/`, every request it sends gets 401, as
  `Scenarios.PollutionScriptAsWritten` shows. With a directory user, the same requests
  give 200, 200, 403, 200, 200 (`Scenarios.PollutionExploit`).

## Model

| member | source | states |
|---|---|---|
| `Json.FalsyValues` | build/app/app.js:186 | a property read is falsy exactly when it is absent, null, false, 0 or the empty string |
| `Json.NameShapes` | build/app/app.js:190 | a value whose `String()` is a comma-free word with a character that is neither a digit nor `-`, other than "null", "true", "false" and "[object Object]", is that string, or a one-element array around a non-null value converting to it |
| `Json.ToJsStringFailsExactly` | build/app/app.js:190 | `String()` of a parsed value throws exactly when the value, or an array element at any depth, is an object with an own `toString` key |
| `Directory.DirectoryShape` | build/app/app.js:115-148 | the directory has exactly the keys user1, user2, admin and manager, and only admin has `isAdmin` set |
| `Directory.PasswordsAreNonEmpty` | build/app/app.js:115-148 | every directory password is non-empty, so a correct password always passes the falsy check |
| `Directory.ListedRecord` | build/app/app.js:434 | each listed entry shows that user's password and administrator flag |
| `Auth.DefaultProfileIsPlain` | build/app/app.js:199-206 | a fresh login profile has no own `isAdmin`, `hasOwnProperty` or `__proto__` key, so it never triggers an escalation check by itself |
| `Auth.CheckCredentials` | build/app/app.js:184-193 | the credential decision: a null body crashes, and an accepted name is a directory key whose password the body carries as a string. Exact characterisations: `Auth.MissingCredentialsExactly`, `Auth.CrashExactly`, `Auth.AcceptedExactly` |
| `Auth.MissingCredentialsExactly` | build/app/app.js:186-188 | the credential check answers "missing credentials" exactly when the body is not null and the username or password is falsy |
| `Auth.CrashExactly` | build/app/app.js:184-190 | the login handler throws exactly for a null body, or for truthy credentials whose username `String()` cannot convert |
| `Auth.AcceptedExactly` | build/app/app.js:190-193 | a login is accepted exactly when the username converts to a directory name and the password is that entry's password as a string; an accepted decision names a directory key that the username converts to |
| `Auth.AcceptsMatchingName` | build/app/app.js:186-193 | a body naming a directory entry, with that entry's password as a string, is accepted as that entry |
| `Auth.AcceptedUsernameShapes` | build/app/app.js:190 | only the directory name as a string, or a one-element array around a value converting to it, can log in |
| `Auth.RequireSession` | build/app/app.js:243-245 | the gate lets a request through exactly when the slot holds a user, and otherwise answers 401 "Non authentifié" |
| `Auth.RequireAdmin` | build/app/app.js:419-429 | the gate lets a request through exactly when the session user is an administrator; no session gives 401; a non-admin gives 403 with `isAdmin: false` |
| `Escalation.IsPolluted` | build/app/app.js:327-328 | the expression, evaluated with its short-circuits, is true exactly when the merge target reads `isAdmin === true`, so the second disjunct never decides it; it throws exactly when that is false and the target has a truthy own `hasOwnProperty` |
| `Escalation.HasProtoPollution` | build/app/app.js:336 | the payload check: it holds only for a payload carrying `__proto__.isAdmin === true`, and throws for a null payload. Exact characterisations: `Escalation.ProtoCheckHoldsExactly`, `Escalation.ProtoCheckThrowsExactly` |
| `Escalation.ProtoCheckHoldsExactly` | build/app/app.js:336 | `hasProtoPollution` holds exactly when the payload has an own `__proto__` whose own `isAdmin` is true, and no own `hasOwnProperty` key |
| `Escalation.ProtoCheckThrowsExactly` | build/app/app.js:357 | the payload check throws exactly for a null payload, an own `hasOwnProperty` key, or a `__proto__` entry that is null |
| `Escalation.ProtoPayloadEscalatesUnderAnyMerge` | build/app/app.js:336-339 | a `__proto__.isAdmin === true` payload with no own `hasOwnProperty` key promotes the session whatever the merge returns or throws |
| `Escalation.WithoutProtoKeyOnlyTargetCounts` | build/app/app.js:327-339 | without a `__proto__` key, promotion happens exactly when the merge returned and its target reads `isAdmin === true` |
| `Escalation.StandInOwnIsAdminEscalates` | build/app/app.js:320-333 | with the stand-in merge, any object payload with a top-level `isAdmin: true` promotes the session through the merge target, without any `__proto__` key |
| `Escalation.StandInProtoPayloadCaughtTwice` | build/app/app.js:327-339 | with the stand-in merge, a `__proto__.isAdmin === true` payload with no own `hasOwnProperty` key trips both checks: the shared ancestor reads true and the payload check holds |
| `Escalation.StandInAncestorMatchesPayloadCheck` | build/app/app.js:320-339 | with the stand-in merge and no own `hasOwnProperty` in the payload, the shared ancestor reads `isAdmin === true` exactly when the stored profile carried `__proto__.isAdmin === true` or the payload check holds |
| `Merge.DeepMergeFields` | build/app/app.js:320 | stand-in: the merged object has the keys of both sides; a key only one side has keeps that side's value; a key both have is merged recursively |
| `Merge.DeepMergeIdempotent` | build/app/app.js:320 | stand-in: merging a value onto itself changes nothing |
| `Merge.DeepMergeEmptyTarget` | build/app/app.js:317-320 | stand-in: merging onto the empty target object copies the source unchanged |
| `Merge.DeepMergeUpdateTwice` | build/app/app.js:320 | stand-in: applying the same update twice gives the same result as applying it once |
| `Merge.DeepMergeScalarWins` | build/app/app.js:320 | stand-in: a non-object value in the overlay replaces whatever the base held at that key |
| `Merge.StandInResult` | build/app/app.js:317-323 | stand-in: the stored profile is the old profile merged with the update, without any `__proto__` entry |
| `Sessions.ListingContents` | build/app/app.js:432-437 | the listing reports `totalUsers` 4, names the requesting username, and contains the whole directory |
| `Sessions.ClientSession.constructor` | build/app/app.js:12-17 | a new client has no session user |
| `Sessions.ClientSession.Login` | build/app/app.js:183-213 | a null body or an unconvertible username gives 500, falsy fields give 400, and bad credentials give 401, all with the slot unchanged; success replaces the whole session user with the submitted username, the directory's flag and the default profile, and answers 200 |
| `Sessions.ClientSession.Profile` | build/app/app.js:242-251 | 401 without a session, otherwise 200 with the session user; the slot is not written |
| `Sessions.ClientSession.UpdateProfile` | build/app/app.js:305-372 | no session gives 401 and no change. Otherwise the username is kept, the profile becomes the merge result if the merge returned, and `isAdmin` becomes old flag OR escalation, so it never goes from true to false. The answer is 500 exactly when the payload check throws; otherwise it is 200 with `success: true`, or `success: false` and the error message |
| `Sessions.ClientSession.AdminUsers` | build/app/app.js:418-438 | 401 without a session, 403 with `isAdmin: false` for a regular user, and 200 with the listing exactly for an administrator |
| `Scenarios.StringCredentials` | build/app/app.js:184-193 | non-empty string credentials are accepted exactly when they match a directory entry, and are otherwise rejected as invalid |
| `Scenarios.PayloadIsCaught` | build/test_prototype_pollution.py:77-82 | the exploit payload passes the `__proto__` check without throwing |
| `Scenarios.LoginExamples` | build/app/app.js:190-212 | user1 logs in with `isAdmin` false, admin with `isAdmin` true, and a wrong password gets 401 |
| `Scenarios.PollutionScriptAsWritten` | build/test_prototype_pollution.py:27-41 | logging in as `alice` fails with 401, and so does every later request of the script: profile, listing, update and listing again |
| `Scenarios.PollutionExploit` | build/test_prototype_pollution.py:73-95 | a directory user gets 403 from the listing before the payload and 200 after it, whatever the merge does |
| `Scenarios.ReLoginDropsPromotion` | build/app/app.js:196-207 | a new login after a promotion puts the directory's flag back, so the listing is refused again |
| `Scenarios.NullProtoEscapesCatch` | build/app/app.js:353-371 | a payload whose `__proto__` is null ends in the final error handler with 500 |

## Left out

- Express routing, body-parser, express-session, cookies and session identifiers are not modelled. One client's session slot is modelled directly. The final error handler is kept only as its 500 answer (`Auth.InternalError`).
- Swagger set-up, the JSDoc blocks, the request logger, the `/` redirect and `listen` are not modelled. They are documentation and I/O.
- The lodash `_.merge` function is not part of this model, because its source and version are not visible. The handler takes it as a parameter returning `MergeOutcome`. Its abstract `ancestorIsAdmin` bit says whether the shared prototype reads `isAdmin === true` after the call. `Merge.DeepMerge` and `Merge.StandIn` are an assumption, not lodash. They replace arrays, and whether lodash does the same is unknown.
- Escalation.HasProtoPollution: reads only the own `isAdmin` of the `__proto__` value. An `isAdmin` inherited from an already polluted prototype is read as not true, because the prototype chain is process-global state. It also takes `updates.hasOwnProperty` to be the built-in whenever the payload has no own key of that name.
- Escalation.IsPolluted: takes an inherited `hasOwnProperty` to be the built-in. `MergeOutcome` records only whether the shared prototype reads `isAdmin === true`. A merge that descends into `__proto__` could also overwrite the inherited `hasOwnProperty`, for example with the payload `{"__proto__": {"hasOwnProperty": 1}}`. In the program, the checks at app.js:328, 336 and 357 would then all throw. In the model they do not.
- Sessions.ClientSession.UpdateProfile: "500 exactly when the payload check throws" holds under the restriction just above. For a merge that overwrites the inherited `hasOwnProperty`, the program answers 500 where the model answers 200.
- Auth.CheckCredentials: looks names up among the directory's own entries only. A `password` field inherited through a polluted `Object.prototype` by a name such as `__proto__` or `toString` cannot let anyone log in here. Prototype state shared across requests is global runtime behaviour and is left out.
- Sessions.ClientSession: models one client. The corruption of a second session through the shared prototype, and races between concurrent requests, are not modelled.
- Json.IntToDecimal: JSON numbers are integers here. Fractions and the exponent form that JavaScript prints from 1e21 upward are not modelled. This does not affect the directory lookup, because no directory name is numeric.
- Object key order is not kept (`Json.Obj` is a map). No handler result depends on it.
- The TypeError message of `isPolluted` is V8's wording. It is the only TypeError message that reaches a response.

/** The two checks by which POST /update-profile promotes a session to administrator,
    as pure functions of the merge outcome and of the raw update payload. Each may throw a
    TypeError in JavaScript; `Eval` records that. */
module Escalation {
  import opened Json
  import opened Merge

  /** Result of evaluating a boolean JavaScript expression that may throw. */
  datatype Eval = Value(holds: bool) | TypeError(message: string)

  const TargetHasOwnPropertyNotAFunction := "targetObject.hasOwnProperty is not a function"
  const UpdatesIsNull := "Cannot read properties of null (reading 'hasOwnProperty')"
  const UpdatesHasOwnPropertyNotAFunction := "updates.hasOwnProperty is not a function"
  const ProtoIsNull := "Cannot read properties of null (reading 'isAdmin')"

  /** `target.isAdmin === true` on the merge target: its own field if it has one, otherwise
      the field of the shared ancestor it falls back to. */
  predicate TargetReadsAdmin(target: Json, ancestorIsAdmin: bool)
  {
    match Get(target, "isAdmin")
    case Some(v) => v == Bool(true)
    case None => ancestorIsAdmin
  }

  /** `isPolluted` (lines 327-328), evaluated left to right with short-circuiting:
      `target.isAdmin === true || (target.hasOwnProperty && target.hasOwnProperty('isAdmin')
      && target.isAdmin === true)`. `target.hasOwnProperty` is the target's own field when
      it has one (never callable, so calling a truthy one throws), and otherwise the
      inherited built-in, which is truthy and reports whether `isAdmin` is an own key.
      The contract shows that the second disjunct never decides the result: it is true
      exactly when the first is, and it throws exactly when the first is false and the
      target carries a truthy own "hasOwnProperty". */
  function IsPolluted(target: Json, ancestorIsAdmin: bool): (e: Eval)
    ensures e == Value(true) <==> TargetReadsAdmin(target, ancestorIsAdmin)
    ensures e.TypeError? <==> !TargetReadsAdmin(target, ancestorIsAdmin) && Truthy(Get(target, "hasOwnProperty"))
  {
    if TargetReadsAdmin(target, ancestorIsAdmin) then Value(true)
    else
      var own := Get(target, "hasOwnProperty");
      if own.Some? then
        if !Truthy(own) then Value(false)
        else TypeError(TargetHasOwnPropertyNotAFunction)
      else
        Value(Get(target, "isAdmin").Some? && TargetReadsAdmin(target, ancestorIsAdmin))
  }

  /** `hasProtoPollution` (lines 336 and 357): `updates.hasOwnProperty('__proto__') &&
      updates.__proto__.isAdmin === true`. It throws for a null payload, for a payload with
      an own "hasOwnProperty" key (not callable), and for a "__proto__" entry that is null. */
  function HasProtoPollution(updates: Json): (e: Eval)
    ensures e == Value(true) ==> CarriesProtoAdmin(updates)
    ensures updates == Null ==> e.TypeError?
  {
    if updates == Null then TypeError(UpdatesIsNull)
    else if Get(updates, "hasOwnProperty").Some? then TypeError(UpdatesHasOwnPropertyNotAFunction)
    else
      match Get(updates, "__proto__")
      case None => Value(false)
      case Some(Null) => TypeError(ProtoIsNull)
      case Some(p) => Value(Get(p, "isAdmin") == Some(Bool(true)))
  }

  /** The check holds exactly for payloads carrying `__proto__.isAdmin === true`, unless an
      own "hasOwnProperty" key makes it throw first. */
  lemma ProtoCheckHoldsExactly(updates: Json)
    ensures HasProtoPollution(updates) == Value(true) <==>
      CarriesProtoAdmin(updates) && Get(updates, "hasOwnProperty") == None
  {
  }

  /** The payloads for which the check throws. */
  lemma ProtoCheckThrowsExactly(updates: Json)
    ensures HasProtoPollution(updates).TypeError? <==>
      updates == Null || Get(updates, "hasOwnProperty").Some? || Get(updates, "__proto__") == Some(Null)
  {
  }

  /** Whether one update-profile call promotes its session: the merge target reads
      `isAdmin === true`, or the payload check holds. Every path of the handler, the catch
      block included, ends with this promotion. */
  predicate Escalates(updates: Json, outcome: MergeOutcome)
  {
    || (outcome.Merged? && TargetReadsAdmin(outcome.result, outcome.ancestorIsAdmin))
    || HasProtoPollution(updates) == Value(true)
  }

  /** A `__proto__.isAdmin === true` payload promotes its session whatever the merge does,
      throwing included. */
  lemma ProtoPayloadEscalatesUnderAnyMerge(updates: Json, outcome: MergeOutcome)
    requires CarriesProtoAdmin(updates) && Get(updates, "hasOwnProperty") == None
    ensures Escalates(updates, outcome)
  {
    ProtoCheckHoldsExactly(updates);
  }

  /** Without a "__proto__" key in the payload, promotion depends on the merge target alone. */
  lemma WithoutProtoKeyOnlyTargetCounts(updates: Json, outcome: MergeOutcome)
    requires Get(updates, "__proto__") == None
    ensures Escalates(updates, outcome) <==>
      outcome.Merged? && TargetReadsAdmin(outcome.result, outcome.ancestorIsAdmin)
  {
  }

  /** The error, if any, thrown between the merge call and the payload check
      (lines 320-328); a thrown error sends the handler to its catch block. */
  function EarlyError(outcome: MergeOutcome): Option<string>
  {
    match outcome
    case Threw(m) => Some(m)
    case Merged(p, a) =>
      match IsPolluted(p, a)
      case TypeError(m) => Some(m)
      case Value(_) => None
  }

  /** With the stand-in merge, a top-level `isAdmin: true` in the payload promotes the
      session through the merge target, without any "__proto__" key. */
  lemma StandInOwnIsAdminEscalates(profile: Json, updates: Json)
    requires profile.Obj? && updates.Obj? && Get(updates, "isAdmin") == Some(Bool(true))
    ensures Escalates(updates, StandIn(EmptyObject, profile, updates))
  {
    var m := StandIn(EmptyObject, profile, updates);
    StandInResult(profile, updates);
    DeepMergeFields(WithoutProto(profile), WithoutProto(updates), "isAdmin");
    assert Get(m.result, "isAdmin") == Some(Bool(true));
  }

  /** With the stand-in merge, a `__proto__.isAdmin === true` payload is caught twice: the
      shared ancestor reads true after the merge, and the payload check holds. */
  lemma StandInProtoPayloadCaughtTwice(profile: Json, updates: Json)
    requires CarriesProtoAdmin(updates) && Get(updates, "hasOwnProperty") == None
    ensures StandIn(EmptyObject, profile, updates).ancestorIsAdmin
    ensures HasProtoPollution(updates) == Value(true)
  {
    ProtoCheckHoldsExactly(updates);
  }

  /** With the stand-in merge and a payload without an own "hasOwnProperty", the two
      escalation paths see the same thing: the shared ancestor reads `isAdmin === true`
      after the merge exactly when the stored profile already carried the payload, or the
      payload check on the update holds. */
  lemma StandInAncestorMatchesPayloadCheck(profile: Json, updates: Json)
    requires Get(updates, "hasOwnProperty") == None
    ensures StandIn(EmptyObject, profile, updates).ancestorIsAdmin <==>
      CarriesProtoAdmin(profile) || HasProtoPollution(updates) == Value(true)
  {
    ProtoCheckHoldsExactly(updates);
  }
}

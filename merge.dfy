/** The deep merge that POST /update-profile applies, `_.merge(target, profile, updates)`.
    The library function itself is not part of this model: the handler receives it as a
    parameter whose outcome is a `MergeOutcome`. `DeepMerge` and `StandIn` below are a
    labelled stand-in (an object-recursive merge that writes a top-level "__proto__" entry
    into a shared ancestor table) used only to state properties of merging in general;
    no handler contract depends on them. */
module Merge {
  import opened Json

  /** What one call of the merge produces: the merged target object, together with whether
      the shared ancestor of all objects (the prototype every object falls back to for a
      missing field) reads `isAdmin === true` afterwards; or the message of what it threw. */
  datatype MergeOutcome =
    | Merged(result: Json, ancestorIsAdmin: bool)
    | Threw(message: string)

  /** Stand-in: two objects merge key by key, recursing where both sides hold an object;
      in every other case the overlay replaces the base. */
  function DeepMerge(base: Json, overlay: Json): Json
  {
    if base.Obj? && overlay.Obj? then
      Obj(map k | k in base.fields.Keys + overlay.fields.Keys ::
        if k !in overlay.fields then base.fields[k]
        else if k !in base.fields then overlay.fields[k]
        else DeepMerge(base.fields[k], overlay.fields[k]))
    else overlay
  }

  /** How the stand-in treats one key of two objects: keys of either side survive, a key
      only the base has keeps its value, a key only the overlay has takes its value, and a
      key both have is merged recursively. */
  lemma DeepMergeFields(base: Json, overlay: Json, k: string)
    requires base.Obj? && overlay.Obj?
    ensures DeepMerge(base, overlay).Obj?
    ensures DeepMerge(base, overlay).fields.Keys == base.fields.Keys + overlay.fields.Keys
    ensures k in base.fields && k !in overlay.fields ==> DeepMerge(base, overlay).fields[k] == base.fields[k]
    ensures k !in base.fields && k in overlay.fields ==> DeepMerge(base, overlay).fields[k] == overlay.fields[k]
    ensures k in base.fields && k in overlay.fields ==>
      DeepMerge(base, overlay).fields[k] == DeepMerge(base.fields[k], overlay.fields[k])
  {
  }

  /** Merging a value onto itself changes nothing. */
  lemma {:induction false} DeepMergeIdempotent(p: Json)
    ensures DeepMerge(p, p) == p
    decreases p
  {
    if p.Obj? {
      var m := DeepMerge(p, p);
      forall k | k in p.fields
        ensures m.fields[k] == p.fields[k]
      {
        DeepMergeIdempotent(p.fields[k]);
      }
      assert m.fields == p.fields;
    }
  }

  /** Merging onto an empty object copies the source: the empty target of the handler
      leaves the stored profile as it is. */
  lemma DeepMergeEmptyTarget(p: Json)
    ensures DeepMerge(EmptyObject, p) == p
  {
    if p.Obj? {
      assert DeepMerge(EmptyObject, p).fields == p.fields;
    }
  }

  /** Applying the same update twice gives the same profile as applying it once. */
  lemma {:induction false} DeepMergeUpdateTwice(base: Json, update: Json)
    ensures DeepMerge(DeepMerge(base, update), update) == DeepMerge(base, update)
    decreases update
  {
    if base.Obj? && update.Obj? {
      var once := DeepMerge(base, update);
      var twice := DeepMerge(once, update);
      forall k | k in once.fields
        ensures twice.fields[k] == once.fields[k]
      {
        if k in update.fields {
          if k in base.fields {
            DeepMergeUpdateTwice(base.fields[k], update.fields[k]);
          } else {
            DeepMergeIdempotent(update.fields[k]);
          }
        }
      }
      assert twice.fields == once.fields;
    } else {
      DeepMergeIdempotent(update);
    }
  }

  /** A value that is not an object always wins over whatever the base held. */
  lemma DeepMergeScalarWins(base: Json, overlay: Json, k: string)
    requires base.Obj? && overlay.Obj? && k in overlay.fields && !overlay.fields[k].Obj?
    ensures DeepMerge(base, overlay).fields[k] == overlay.fields[k]
  {
  }

  /** The object without its own "__proto__" entry. */
  function WithoutProto(v: Json): Json
  {
    if v.Obj? then Obj(v.fields - {"__proto__"}) else v
  }

  /** Whether `source` has an own "__proto__" key whose value has an own `isAdmin` equal
      to true: the payload the handler looks for, and the one with which a merge that
      descends into "__proto__" sets `isAdmin: true` on the shared ancestor. */
  predicate CarriesProtoAdmin(source: Json)
  {
    match Get(source, "__proto__")
    case Some(w) => Get(w, "isAdmin") == Some(Bool(true))
    case None => false
  }

  /** Stand-in for the call `_.merge(target, profile, updates)`: merge the two sources left
      to right into the target; the "__proto__" entry of a source lands on the shared
      ancestor instead of the target. It never throws. The ancestor bit is an OR: it
      records that some source wrote `isAdmin: true` there, and does not let a later
      source's `__proto__.isAdmin` of another value overwrite it. */
  function StandIn(target: Json, profile: Json, updates: Json): MergeOutcome
  {
    Merged(DeepMerge(DeepMerge(target, WithoutProto(profile)), WithoutProto(updates)),
           CarriesProtoAdmin(profile) || CarriesProtoAdmin(updates))
  }

  /** With the stand-in, the merged profile never keeps a "__proto__" entry and the handler's
      empty target contributes nothing: the result is the profile merged with the update. */
  lemma StandInResult(profile: Json, updates: Json)
    requires profile.Obj? && updates.Obj?
    ensures StandIn(EmptyObject, profile, updates).result ==
      DeepMerge(WithoutProto(profile), WithoutProto(updates))
    ensures "__proto__" !in StandIn(EmptyObject, profile, updates).result.fields
  {
    DeepMergeEmptyTarget(WithoutProto(profile));
  }
}

/** The value-level rule behind `updateResource`: which fields an update may touch. */
module ResourceRules {
  import opened Domain
  import opened Validations

  /** Each present field overwrites, an absent one is left alone; the owning event is not part
      of the update schema and never changes. */
  function ApplyResourceUpdate(res: Resource, u: UpdateResourceInput): (r: Resource)
    ensures u.name.Some? ==> r.name == u.name.value
    ensures u.quantity.Some? ==> r.quantity == u.quantity.value
    ensures u.unit.Some? ==> r.unit == u.unit.value
    ensures u.name.None? ==> r.name == res.name
    ensures u.quantity.None? ==> r.quantity == res.quantity
    ensures u.unit.None? ==> r.unit == res.unit
    ensures r.eventId == res.eventId
  {
    res.(name := if u.name.Some? then u.name.value else res.name,
         quantity := if u.quantity.Some? then u.quantity.value else res.quantity,
         unit := if u.unit.Some? then u.unit.value else res.unit)
  }

  /** A resource built from valid input, updated with valid input, still satisfies the bounds
      of the create schema. */
  lemma UpdateKeepsResourceValid(res: Resource, u: UpdateResourceInput)
    requires ValidCreateResource(CreateResourceInput(res.name, res.quantity, res.unit, res.eventId))
    requires ValidUpdateResource(u)
    ensures var r := ApplyResourceUpdate(res, u);
            ValidCreateResource(CreateResourceInput(r.name, r.quantity, r.unit, r.eventId))
  {
  }
}

/** The value-level rules behind the event actions: how a new event row is built, how the
    partial updates overwrite an event, and the queries on the participation table that
    decide who may do what. */
module EventRules {
  import opened Domain
  import opened Validations

  // ---- the event row

  /** The row `createEvent` inserts: the validated fields, the caller as creator, no metrics yet. */
  function NewEvent(i: CreateEventInput, creator: UserId): (e: Event)
    ensures e.createdById == creator
    ensures e.title == i.title && e.description == i.description && e.date == i.date && e.location == i.location
    ensures e.latitude == i.latitude && e.longitude == i.longitude
    ensures e.collectedWasteKg.None? && e.plantedTrees.None? && e.areaRecoveredM2.None?
  {
    Event(i.title, i.description, i.date, i.location, i.latitude, i.longitude, creator, None, None, None)
  }

  /** `updateEvent`'s write: each present field overwrites, an absent one is left alone. The date
      is written only when it is present and not the empty string (the code tests it for truth). */
  function ApplyEventUpdate(e: Event, u: UpdateEventInput): (r: Event)
    ensures u.title.Some? ==> r.title == u.title.value
    ensures u.description.Some? ==> r.description == u.description.value
    ensures u.location.Some? ==> r.location == u.location.value
    ensures u.latitude.Some? ==> r.latitude == u.latitude
    ensures u.longitude.Some? ==> r.longitude == u.longitude
    ensures u.date.Some? && u.date.value != "" ==> r.date == u.date.value
    ensures u.title.None? ==> r.title == e.title
    ensures u.description.None? ==> r.description == e.description
    ensures u.location.None? ==> r.location == e.location
    ensures u.latitude.None? ==> r.latitude == e.latitude
    ensures u.longitude.None? ==> r.longitude == e.longitude
    ensures u.date.None? || u.date.value == "" ==> r.date == e.date
    // the creator and the metrics are not part of the update schema
    ensures r.createdById == e.createdById
    ensures r.collectedWasteKg == e.collectedWasteKg && r.plantedTrees == e.plantedTrees
    ensures r.areaRecoveredM2 == e.areaRecoveredM2
  {
    e.(title := if u.title.Some? then u.title.value else e.title,
       description := if u.description.Some? then u.description.value else e.description,
       date := if u.date.Some? && u.date.value != "" then u.date.value else e.date,
       location := if u.location.Some? then u.location.value else e.location,
       latitude := if u.latitude.Some? then u.latitude else e.latitude,
       longitude := if u.longitude.Some? then u.longitude else e.longitude)
  }

  /** `updateMetrics`'s write: each present metric overwrites, an absent one is left alone, and
      nothing but the three metrics changes. */
  function ApplyMetrics(e: Event, m: UpdateMetricsInput): (r: Event)
    requires ValidMetrics(m)
    ensures m.collectedWasteKg.Some? ==> r.collectedWasteKg == m.collectedWasteKg
    ensures m.plantedTrees.Some? ==> r.plantedTrees.Some? && r.plantedTrees.value as real == m.plantedTrees.value
    ensures m.areaRecoveredM2.Some? ==> r.areaRecoveredM2 == m.areaRecoveredM2
    ensures m.collectedWasteKg.None? ==> r.collectedWasteKg == e.collectedWasteKg
    ensures m.plantedTrees.None? ==> r.plantedTrees == e.plantedTrees
    ensures m.areaRecoveredM2.None? ==> r.areaRecoveredM2 == e.areaRecoveredM2
    ensures r.(collectedWasteKg := e.collectedWasteKg, plantedTrees := e.plantedTrees,
               areaRecoveredM2 := e.areaRecoveredM2) == e
  {
    e.(collectedWasteKg := if m.collectedWasteKg.Some? then m.collectedWasteKg else e.collectedWasteKg,
       plantedTrees := if m.plantedTrees.Some? then Some(m.plantedTrees.value.Floor) else e.plantedTrees,
       areaRecoveredM2 := if m.areaRecoveredM2.Some? then m.areaRecoveredM2 else e.areaRecoveredM2)
  }

  /** Applying the same metrics twice is the same as applying them once. */
  lemma ApplyMetricsIdempotent(e: Event, m: UpdateMetricsInput)
    requires ValidMetrics(m)
    ensures ApplyMetrics(ApplyMetrics(e, m), m) == ApplyMetrics(e, m)
  {
  }

  /** Applying the same event update twice is the same as applying it once. */
  lemma ApplyEventUpdateIdempotent(e: Event, u: UpdateEventInput)
    ensures ApplyEventUpdate(ApplyEventUpdate(e, u), u) == ApplyEventUpdate(e, u)
  {
  }

  /** An update that names no field leaves the event as it was. */
  lemma EmptyEventUpdateIsIdentity(e: Event, id: EventId)
    ensures ApplyEventUpdate(e, UpdateEventInput(id, None, None, None, None, None, None)) == e
  {
  }

  // ---- the participation table

  /** The database's unique index on (userId, eventId). */
  ghost predicate ParticipationKeysUnique(parts: set<Participation>) {
    forall p, q | p in parts && q in parts :: p.userId == q.userId && p.eventId == q.eventId ==> p == q
  }

  /** The lookup by the compound key (userId, eventId) finds a row. */
  predicate Joined(parts: set<Participation>, u: UserId, e: EventId) {
    exists p | p in parts :: p.userId == u && p.eventId == e
  }

  /** The rows the organizer count of event `e` counts. */
  function OrganizerRows(parts: set<Participation>, e: EventId): (rows: set<Participation>)
    ensures forall p :: p in rows <==> p in parts && p.eventId == e && p.role == Organizer
  {
    set p | p in parts && p.eventId == e && p.role == Organizer
  }

  /** The sole-organizer invariant for one event. */
  ghost predicate HasOrganizer(parts: set<Participation>, e: EventId) {
    exists p | p in parts :: p.eventId == e && p.role == Organizer
  }

  /** Under the unique index, a user holding any other role on an event holds no ORGANIZER row
      there: no other role passes the organizer check. */
  lemma OnlyOrganizerRowQualifies(parts: set<Participation>, u: UserId, e: EventId, role: Role)
    requires ParticipationKeysUnique(parts)
    requires Participation(u, e, role) in parts && role != Organizer
    ensures Participation(u, e, Organizer) !in parts
  {
  }

  /** Inserting a row for a key that has none keeps the index unique. */
  lemma InsertKeepsKeysUnique(parts: set<Participation>, row: Participation)
    requires ParticipationKeysUnique(parts)
    requires !Joined(parts, row.userId, row.eventId)
    ensures ParticipationKeysUnique(parts + {row})
  {
  }

  /** An ORGANIZER whose event's organizer count is not 1 is not the last one: another
      ORGANIZER row remains for that event once theirs is removed. */
  lemma {:induction false} AnotherOrganizerRemains(parts: set<Participation>, row: Participation)
    requires row in parts && row.role == Organizer
    requires |OrganizerRows(parts, row.eventId)| != 1
    ensures HasOrganizer(parts - {row}, row.eventId)
  {
    var rows := OrganizerRows(parts, row.eventId);
    assert row in rows;
    var rest := rows - {row};
    assert |rest| == |rows| - 1;
    assert |rest| >= 1;
    var q :| q in rest;
    assert q in parts - {row} && q.eventId == row.eventId && q.role == Organizer;
  }

  /** Removing a row keeps every listed event organized, provided the row is not the ORGANIZER
      row of an event whose organizer count is 1 (the guard of `leaveEvent`). */
  lemma {:induction false} LeaveKeepsEventsOrganized(parts: set<Participation>, events: set<EventId>, row: Participation)
    requires forall e | e in events :: HasOrganizer(parts, e)
    requires row in parts
    requires row.role == Organizer ==> |OrganizerRows(parts, row.eventId)| != 1
    ensures forall e | e in events :: HasOrganizer(parts - {row}, e)
  {
    forall e | e in events
      ensures HasOrganizer(parts - {row}, e)
    {
      if row.role == Organizer && row.eventId == e {
        AnotherOrganizerRemains(parts, row);
      } else {
        var p :| p in parts && p.eventId == e && p.role == Organizer;
        assert p != row;
        assert p in parts - {row};
      }
    }
  }

  /** The sole organizer of an event cannot leave it: removing their row leaves the event with
      no ORGANIZER, which is what the guard of `leaveEvent` prevents. */
  lemma {:induction false} SoleOrganizerIsNeeded(parts: set<Participation>, row: Participation)
    requires row in parts && row.role == Organizer
    requires |OrganizerRows(parts, row.eventId)| == 1
    ensures !HasOrganizer(parts - {row}, row.eventId)
  {
    var rows := OrganizerRows(parts, row.eventId);
    assert row in rows;
    var rest := rows - {row};
    assert |rest| == 0;
    assert forall p | p in parts - {row} && p.eventId == row.eventId && p.role == Organizer :: p in rest;
  }
}

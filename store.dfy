/** The server actions as methods on one in-memory store holding the five tables. Every action
    authenticates (the session becomes an optional caller id), validates its input, checks the
    caller's participation row, and then performs one insert, update or delete. Every reply is
    `Ok` or `Err`; every `Err` leaves all tables as they were. */
module Store {
  import opened Domain
  import opened Validations
  import opened EventRules
  import opened ResourceRules
  import opened SurveyRules
  import opened AuthRules

  class Store {
    var users: map<UserId, User>
    var events: map<EventId, Event>
    var participations: set<Participation>
    var resources: map<ResourceId, Resource>
    var responses: set<SurveyResponse>

    // Fresh-id counters, standing in for the database's id generator.
    var nextUserId: nat
    var nextEventId: nat
    var nextResourceId: nat

    // Foreign code the actions call: the password hash, the date parser, the e-mail check.
    const hash: string -> string
    const dateParses: string -> bool
    const isEmail: string -> bool

    /** The store's invariant: the unique indexes, the sole-organizer invariant for every event,
        and ids below their counters. A fresh event or resource id therefore names no row of its
        own table, and a fresh event id no row that references an event. A fresh user id may
        already appear as the `userId` of participations and responses, because callers are not
        tied to stored users. */
    ghost predicate Valid()
      reads this
    {
      && ParticipationKeysUnique(participations)
      && ResponseKeysUnique(responses)
      && EmailsUnique(users)
      && (forall e | e in events :: HasOrganizer(participations, e))
      && (forall e | e in events :: e < nextEventId)
      && (forall p | p in participations :: p.eventId < nextEventId)
      && (forall id | id in resources :: resources[id].eventId < nextEventId)
      && (forall x | x in responses :: x.eventId < nextEventId)
      && (forall id | id in users :: id < nextUserId)
      && (forall id | id in resources :: id < nextResourceId)
    }

    constructor (hash: string -> string, dateParses: string -> bool, isEmail: string -> bool)
      ensures Valid()
      ensures users == map[] && events == map[] && participations == {}
      ensures resources == map[] && responses == {}
      ensures this.hash == hash && this.dateParses == dateParses && this.isEmail == isEmail
    {
      users, events, participations, resources, responses := map[], map[], {}, map[], {};
      nextUserId, nextEventId, nextResourceId := 0, 0, 0;
      this.hash, this.dateParses, this.isEmail := hash, dateParses, isEmail;
    }

    /** The organizer check: some participation row of `userId` on `eventId` holds ORGANIZER.
        Under the unique index it is the user's only row on that event. */
    predicate CheckIsOrganizer(eventId: EventId, userId: UserId)
      reads this
      ensures CheckIsOrganizer(eventId, userId) <==> Participation(userId, eventId, Organizer) in participations
      ensures CheckIsOrganizer(eventId, userId) && ParticipationKeysUnique(participations) ==>
                forall role | Participation(userId, eventId, role) in participations :: role == Organizer
    {
      exists p | p in participations :: p.eventId == eventId && p.userId == userId && p.role == Organizer
    }

    // ======== events

    method CreateEvent(caller: Option<UserId>, input: CreateEventInput) returns (r: Result<EventId>)
      requires Valid()
      modifies this
      ensures Valid()
      ensures caller.None? ==> r == Err(NotLoggedIn)
      ensures caller.Some? && !ValidCreateEvent(input, dateParses) ==> r == Err(Failed)
      ensures r.Ok? <==> caller.Some? && ValidCreateEvent(input, dateParses)
      ensures r.Err? ==> unchanged(this)
      ensures r.Ok? ==>
        && r.value !in old(events)
        && events == old(events)[r.value := NewEvent(input, caller.value)]
        && events[r.value].createdById == caller.value
        && !old(Joined(participations, caller.value, r.value))
        && participations == old(participations) + {Participation(caller.value, r.value, Organizer)}
        && users == old(users) && resources == old(resources) && responses == old(responses)
        && (forall id | id in resources :: resources[id].eventId != r.value)
        && (forall x | x in responses :: x.eventId != r.value)
    {
      if caller.None? {
        return Err(NotLoggedIn);
      }
      if !ValidCreateEvent(input, dateParses) {
        return Err(Failed);
      }
      var id := nextEventId;
      var row := Participation(caller.value, id, Organizer);
      InsertKeepsKeysUnique(participations, row);
      events := events[id := NewEvent(input, caller.value)];
      participations := participations + {row};
      nextEventId := nextEventId + 1;
      assert HasOrganizer(participations, id) by { assert row in participations; }
      return Ok(id);
    }

    method UpdateEvent(caller: Option<UserId>, input: UpdateEventInput) returns (r: Result<()>)
      requires Valid()
      modifies this
      ensures Valid()
      ensures caller.None? ==> r == Err(NotLoggedIn)
      ensures caller.Some? && !ValidUpdateEvent(input, dateParses) ==> r == Err(Failed)
      ensures caller.Some? && ValidUpdateEvent(input, dateParses) && !old(CheckIsOrganizer(input.id, caller.value)) ==>
                r == Err(NotOrganizer)
      ensures r.Ok? <==>
                caller.Some? && ValidUpdateEvent(input, dateParses) &&
                old(CheckIsOrganizer(input.id, caller.value)) && input.id in old(events)
      ensures (caller.Some? && ValidUpdateEvent(input, dateParses) && old(CheckIsOrganizer(input.id, caller.value)) &&
               input.id !in old(events)) ==> r == Err(Failed)
      ensures r.Err? ==> unchanged(this)
      ensures r.Ok? ==>
        && events == old(events)[input.id := ApplyEventUpdate(old(events)[input.id], input)]
        && users == old(users) && participations == old(participations)
        && resources == old(resources) && responses == old(responses)
    {
      if caller.None? {
        return Err(NotLoggedIn);
      }
      if !ValidUpdateEvent(input, dateParses) {
        return Err(Failed);
      }
      if !CheckIsOrganizer(input.id, caller.value) {
        return Err(NotOrganizer);
      }
      if input.id !in events {
        // the update of a missing row throws
        return Err(Failed);
      }
      events := events[input.id := ApplyEventUpdate(events[input.id], input)];
      return Ok(());
    }

    /** Removes the event row only; what the database does to the rows that reference the
        event is not part of this model. */
    method DeleteEvent(caller: Option<UserId>, eventId: EventId) returns (r: Result<()>)
      requires Valid()
      modifies this
      ensures Valid()
      ensures caller.None? ==> r == Err(NotLoggedIn)
      ensures caller.Some? && !old(CheckIsOrganizer(eventId, caller.value)) ==> r == Err(NotOrganizer)
      ensures r.Ok? <==> caller.Some? && old(CheckIsOrganizer(eventId, caller.value)) && eventId in old(events)
      ensures (caller.Some? && old(CheckIsOrganizer(eventId, caller.value)) && eventId !in old(events)) ==>
                r == Err(Failed)
      ensures r.Err? ==> unchanged(this)
      ensures r.Ok? ==>
        && events == old(events) - {eventId}
        && users == old(users) && participations == old(participations)
        && resources == old(resources) && responses == old(responses)
    {
      if caller.None? {
        return Err(NotLoggedIn);
      }
      if !CheckIsOrganizer(eventId, caller.value) {
        return Err(NotOrganizer);
      }
      if eventId !in events {
        // the delete of a missing row throws
        return Err(Failed);
      }
      events := events - {eventId};
      return Ok(());
    }

    /** Inserts the caller's participation with the requested role, ORGANIZER included. The event
        itself is not looked up; an unknown event fails the insert's foreign key. */
    method JoinEvent(caller: Option<UserId>, input: JoinEventInput) returns (r: Result<()>)
      requires Valid()
      modifies this
      ensures Valid()
      ensures caller.None? ==> r == Err(NotLoggedIn)
      ensures caller.Some? && !ValidJoin(input) ==> r == Err(Failed)
      ensures caller.Some? && ValidJoin(input) && old(Joined(participations, caller.value, input.eventId)) ==>
                r == Err(AlreadyJoined)
      ensures r.Ok? <==>
                caller.Some? && ValidJoin(input) &&
                !old(Joined(participations, caller.value, input.eventId)) && input.eventId in old(events)
      ensures (caller.Some? && ValidJoin(input) && !old(Joined(participations, caller.value, input.eventId)) &&
               input.eventId !in old(events)) ==> r == Err(Failed)
      ensures r.Err? ==> unchanged(this)
      ensures r.Ok? ==>
        && participations == old(participations) + {Participation(caller.value, input.eventId, ParseRole(input.role).value)}
        && users == old(users) && events == old(events)
        && resources == old(resources) && responses == old(responses)
    {
      if caller.None? {
        return Err(NotLoggedIn);
      }
      var role := ParseRole(input.role);
      if role.None? {
        return Err(Failed);
      }
      if Joined(participations, caller.value, input.eventId) {
        return Err(AlreadyJoined);
      }
      if input.eventId !in events {
        // the insert violates the foreign key to the event
        return Err(Failed);
      }
      var row := Participation(caller.value, input.eventId, role.value);
      InsertKeepsKeysUnique(participations, row);
      participations := participations + {row};
      return Ok(());
    }

    /** Deletes the caller's participation, unless it is the ORGANIZER row of an event whose
        organizer count is 1. With no participation the delete throws. */
    method LeaveEvent(caller: Option<UserId>, eventId: EventId) returns (r: Result<()>)
      requires Valid()
      modifies this
      ensures Valid()
      ensures caller.None? ==> r == Err(NotLoggedIn)
      ensures (caller.Some? && old(CheckIsOrganizer(eventId, caller.value)) &&
               old(|OrganizerRows(participations, eventId)|) == 1) ==> r == Err(SoleOrganizer)
      ensures caller.Some? && !old(Joined(participations, caller.value, eventId)) ==> r == Err(Failed)
      ensures r.Ok? <==>
                caller.Some? && old(Joined(participations, caller.value, eventId)) &&
                !(old(CheckIsOrganizer(eventId, caller.value)) && old(|OrganizerRows(participations, eventId)|) == 1)
      ensures r.Err? ==> unchanged(this)
      ensures r.Ok? ==>
        && (exists role :: participations == old(participations) - {Participation(caller.value, eventId, role)}
                          && Participation(caller.value, eventId, role) in old(participations))
        && !Joined(participations, caller.value, eventId)
        && users == old(users) && events == old(events)
        && resources == old(resources) && responses == old(responses)
    {
      if caller.None? {
        return Err(NotLoggedIn);
      }
      var c := caller.value;
      if !Joined(participations, c, eventId) {
        // the delete by compound key finds no row and throws
        return Err(Failed);
      }
      var row :| row in participations && row.userId == c && row.eventId == eventId;
      if row.role == Organizer && |OrganizerRows(participations, eventId)| == 1 {
        return Err(SoleOrganizer);
      }
      LeaveKeepsEventsOrganized(participations, events.Keys, row);
      participations := participations - {row};
      return Ok(());
    }

    method UpdateMetrics(caller: Option<UserId>, input: UpdateMetricsInput) returns (r: Result<()>)
      requires Valid()
      modifies this
      ensures Valid()
      ensures caller.None? ==> r == Err(NotLoggedIn)
      ensures caller.Some? && !ValidMetrics(input) ==> r == Err(Failed)
      ensures caller.Some? && ValidMetrics(input) && !old(CheckIsOrganizer(input.eventId, caller.value)) ==>
                r == Err(NotOrganizer)
      ensures r.Ok? <==>
                caller.Some? && ValidMetrics(input) &&
                old(CheckIsOrganizer(input.eventId, caller.value)) && input.eventId in old(events)
      ensures (caller.Some? && ValidMetrics(input) && old(CheckIsOrganizer(input.eventId, caller.value)) &&
               input.eventId !in old(events)) ==> r == Err(Failed)
      ensures r.Err? ==> unchanged(this)
      ensures r.Ok? ==>
        && events == old(events)[input.eventId := ApplyMetrics(old(events)[input.eventId], input)]
        && users == old(users) && participations == old(participations)
        && resources == old(resources) && responses == old(responses)
    {
      if caller.None? {
        return Err(NotLoggedIn);
      }
      if !ValidMetrics(input) {
        return Err(Failed);
      }
      if !CheckIsOrganizer(input.eventId, caller.value) {
        return Err(NotOrganizer);
      }
      if input.eventId !in events {
        // the update of a missing row throws
        return Err(Failed);
      }
      events := events[input.eventId := ApplyMetrics(events[input.eventId], input)];
      return Ok(());
    }

    // ======== resources

    /** Inserts one resource with the validated fields. An unknown event fails the foreign key. */
    method CreateResource(caller: Option<UserId>, input: CreateResourceInput) returns (r: Result<()>)
      requires Valid()
      modifies this
      ensures Valid()
      ensures caller.None? ==> r == Err(NotLoggedIn)
      ensures caller.Some? && !ValidCreateResource(input) ==> r == Err(Failed)
      ensures caller.Some? && ValidCreateResource(input) && !old(CheckIsOrganizer(input.eventId, caller.value)) ==>
                r == Err(NotOrganizer)
      ensures r.Ok? <==>
                caller.Some? && ValidCreateResource(input) &&
                old(CheckIsOrganizer(input.eventId, caller.value)) && input.eventId in old(events)
      ensures (caller.Some? && ValidCreateResource(input) && old(CheckIsOrganizer(input.eventId, caller.value)) &&
               input.eventId !in old(events)) ==> r == Err(Failed)
      ensures r.Err? ==> unchanged(this)
      ensures r.Ok? ==>
        && old(nextResourceId) !in old(resources)
        && resources == old(resources)[old(nextResourceId) :=
                          Resource(input.name, input.quantity, input.unit, input.eventId)]
        && users == old(users) && events == old(events)
        && participations == old(participations) && responses == old(responses)
    {
      if caller.None? {
        return Err(NotLoggedIn);
      }
      if !ValidCreateResource(input) {
        return Err(Failed);
      }
      if !CheckIsOrganizer(input.eventId, caller.value) {
        return Err(NotOrganizer);
      }
      if input.eventId !in events {
        // the insert violates the foreign key to the event
        return Err(Failed);
      }
      resources := resources[nextResourceId := Resource(input.name, input.quantity, input.unit, input.eventId)];
      nextResourceId := nextResourceId + 1;
      return Ok(());
    }

    /** Looks the resource up first, then checks the caller against the resource's own event. */
    method UpdateResource(caller: Option<UserId>, input: UpdateResourceInput) returns (r: Result<()>)
      requires Valid()
      modifies this
      ensures Valid()
      ensures caller.None? ==> r == Err(NotLoggedIn)
      ensures caller.Some? && !ValidUpdateResource(input) ==> r == Err(Failed)
      ensures caller.Some? && ValidUpdateResource(input) && input.id !in old(resources) ==> r == Err(ResourceNotFound)
      ensures (caller.Some? && ValidUpdateResource(input) && input.id in old(resources) &&
               !old(CheckIsOrganizer(resources[input.id].eventId, caller.value))) ==> r == Err(NotOrganizer)
      ensures r.Ok? <==>
                caller.Some? && ValidUpdateResource(input) && input.id in old(resources) &&
                old(CheckIsOrganizer(resources[input.id].eventId, caller.value))
      ensures r.Err? ==> unchanged(this)
      ensures r.Ok? ==>
        && resources == old(resources)[input.id := ApplyResourceUpdate(old(resources)[input.id], input)]
        && resources[input.id].eventId == old(resources)[input.id].eventId
        && users == old(users) && events == old(events)
        && participations == old(participations) && responses == old(responses)
    {
      if caller.None? {
        return Err(NotLoggedIn);
      }
      if !ValidUpdateResource(input) {
        return Err(Failed);
      }
      if input.id !in resources {
        return Err(ResourceNotFound);
      }
      var resource := resources[input.id];
      if !CheckIsOrganizer(resource.eventId, caller.value) {
        return Err(NotOrganizer);
      }
      resources := resources[input.id := ApplyResourceUpdate(resource, input)];
      return Ok(());
    }

    /** Looks the resource up first, then checks the caller against the resource's own event. */
    method DeleteResource(caller: Option<UserId>, resourceId: ResourceId) returns (r: Result<()>)
      requires Valid()
      modifies this
      ensures Valid()
      ensures caller.None? ==> r == Err(NotLoggedIn)
      ensures caller.Some? && resourceId !in old(resources) ==> r == Err(ResourceNotFound)
      ensures (caller.Some? && resourceId in old(resources) &&
               !old(CheckIsOrganizer(resources[resourceId].eventId, caller.value))) ==> r == Err(NotOrganizer)
      ensures r.Ok? <==>
                caller.Some? && resourceId in old(resources) &&
                old(CheckIsOrganizer(resources[resourceId].eventId, caller.value))
      ensures r.Err? ==> unchanged(this)
      ensures r.Ok? ==>
        && resources == old(resources) - {resourceId}
        && users == old(users) && events == old(events)
        && participations == old(participations) && responses == old(responses)
    {
      if caller.None? {
        return Err(NotLoggedIn);
      }
      if resourceId !in resources {
        return Err(ResourceNotFound);
      }
      var resource := resources[resourceId];
      if !CheckIsOrganizer(resource.eventId, caller.value) {
        return Err(NotOrganizer);
      }
      resources := resources - {resourceId};
      return Ok(());
    }

    // ======== surveys

    /** Any participation, whatever its role, lets the caller answer, once per phase. */
    method SubmitSurvey(caller: Option<UserId>, input: SurveyInput) returns (r: Result<()>)
      requires Valid()
      modifies this
      ensures Valid()
      ensures caller.None? ==> r == Err(NotLoggedIn)
      ensures caller.Some? && !ValidSurvey(input) ==> r == Err(Failed)
      ensures caller.Some? && ValidSurvey(input) && !old(Joined(participations, caller.value, input.eventId)) ==>
                r == Err(NotParticipant)
      ensures caller.Some? && ValidSurvey(input) && old(Joined(participations, caller.value, input.eventId)) &&
              old(Submitted(responses, caller.value, input.eventId, ParsePhase(input.phase).value)) ==>
                r == Err(AlreadySubmitted)
      ensures r.Ok? <==>
                caller.Some? && ValidSurvey(input) &&
                old(Joined(participations, caller.value, input.eventId)) &&
                !old(Submitted(responses, caller.value, input.eventId, ParsePhase(input.phase).value)) &&
                input.eventId in old(events)
      ensures (caller.Some? && ValidSurvey(input) && old(Joined(participations, caller.value, input.eventId)) &&
               !old(Submitted(responses, caller.value, input.eventId, ParsePhase(input.phase).value)) &&
               input.eventId !in old(events)) ==> r == Err(Failed)
      ensures r.Err? ==> unchanged(this)
      ensures r.Ok? ==>
        && responses == old(responses) +
                        {SurveyResponse(caller.value, input.eventId, ParsePhase(input.phase).value, input.answers)}
        && users == old(users) && events == old(events)
        && participations == old(participations) && resources == old(resources)
    {
      if caller.None? {
        return Err(NotLoggedIn);
      }
      var phase := ParsePhase(input.phase);
      if phase.None? {
        return Err(Failed);
      }
      if !Joined(participations, caller.value, input.eventId) {
        return Err(NotParticipant);
      }
      if Submitted(responses, caller.value, input.eventId, phase.value) {
        return Err(AlreadySubmitted);
      }
      if input.eventId !in events {
        // the insert violates the foreign key to the event
        return Err(Failed);
      }
      var response := SurveyResponse(caller.value, input.eventId, phase.value, input.answers);
      InsertKeepsResponsesUnique(responses, response);
      responses := responses + {response};
      return Ok(());
    }

    // ======== registration

    /** No session is involved. Stores the hash of the password, never the password. */
    method RegisterUser(input: RegisterInput) returns (r: Result<()>)
      requires Valid()
      modifies this
      ensures Valid()
      ensures !ValidRegister(input, isEmail) ==> r == Err(Failed)
      ensures ValidRegister(input, isEmail) && old(EmailInUse(users, input.email)) ==> r == Err(UserExists)
      ensures r.Ok? <==> ValidRegister(input, isEmail) && !old(EmailInUse(users, input.email))
      ensures r.Err? ==> unchanged(this)
      ensures r.Ok? ==>
        && old(nextUserId) !in old(users)
        && users == old(users)[old(nextUserId) := User(input.name, input.email, hash(input.password))]
        && events == old(events) && participations == old(participations)
        && resources == old(resources) && responses == old(responses)
    {
      if !ValidRegister(input, isEmail) {
        return Err(Failed);
      }
      if EmailInUse(users, input.email) {
        return Err(UserExists);
      }
      var user := User(input.name, input.email, hash(input.password));
      AddKeepsEmailsUnique(users, nextUserId, user);
      users := users[nextUserId := user];
      nextUserId := nextUserId + 1;
      return Ok(());
    }
  }
}

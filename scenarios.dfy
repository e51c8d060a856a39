/** Client sequences over a fresh store, proved from the actions' contracts alone. */
module Scenarios {
  import opened Domain
  import opened Validations
  import opened EventRules
  import opened SurveyRules
  import opened Store

  /** A store whose date check accepts any non-empty string, whose e-mail check accepts any
      string longer than three characters, and whose hash is a stand-in. */
  method NewStore() returns (s: Store)
    ensures fresh(s) && s.Valid()
    ensures s.users == map[] && s.events == map[] && s.participations == {}
    ensures s.resources == map[] && s.responses == {}
    ensures s.dateParses("2026-11-01") && forall m :: s.isEmail(m) <==> |m| > 3
  {
    s := new Store((p: string) => "bcrypt:" + p, (d: string) => d != "", (m: string) => |m| > 3);
  }

  /** The error a reply carries, if any. */
  function ErrorOf<T>(r: Result<T>): (e: Option<Error>)
    ensures e.None? <==> r.Ok?
  {
    if r.Ok? then None else Some(r.error)
  }

  function CleanupInput(): CreateEventInput {
    CreateEventInput("Beach cleanup", "Collecting litter along the shore", "2026-11-01", "Santos",
                     Some(-23.96), Some(-46.33))
  }

  /** A creates an event on a fresh store, which makes A its organizer. */
  method CreateCleanup(a: UserId) returns (s: Store, e: EventId)
    ensures fresh(s) && s.Valid() && e in s.events && s.events[e] == NewEvent(CleanupInput(), a)
    ensures s.participations == {Participation(a, e, Organizer)}
    ensures s.responses == {} && s.resources == map[]
  {
    s := NewStore();
    assert ValidCreateEvent(CleanupInput(), s.dateParses);
    var created := s.CreateEvent(Some(a), CleanupInput());
    assert created.Ok?;
    e := created.value;
  }

  /** Then B joins that event as VOLUNTEER. */
  method OrganizerAndVolunteer(a: UserId, b: UserId) returns (s: Store, e: EventId)
    requires a != b
    ensures fresh(s) && s.Valid() && e in s.events
    ensures s.events[e].collectedWasteKg.None? && s.events[e].areaRecoveredM2.None?
    ensures s.participations == {Participation(a, e, Organizer), Participation(b, e, Volunteer)}
    ensures s.responses == {} && s.resources == map[]
  {
    s, e := CreateCleanup(a);
    assert !Joined(s.participations, b, e);
    assert ValidJoin(JoinEventInput(e, "VOLUNTEER"));
    var join := s.JoinEvent(Some(b), JoinEventInput(e, "VOLUNTEER"));
    assert join.Ok?;
  }

  /** B, a VOLUNTEER, may not record metrics; A, the organizer, records 12 trees and leaves the
      other two metrics absent. */
  method RecordTrees(s: Store, a: UserId, b: UserId, e: EventId) returns (denied: Result<()>, recorded: Result<()>)
    requires s.Valid() && e in s.events && a != b
    requires s.participations == {Participation(a, e, Organizer), Participation(b, e, Volunteer)}
    requires s.events[e].collectedWasteKg.None? && s.events[e].areaRecoveredM2.None?
    modifies s
    ensures s.Valid() && e in s.events && s.participations == old(s.participations)
    ensures denied == Err(NotOrganizer) && recorded.Ok?
    ensures s.events[e].plantedTrees == Some(12)
    ensures s.events[e].collectedWasteKg.None? && s.events[e].areaRecoveredM2.None?
  {
    var metrics := UpdateMetricsInput(e, None, Some(12.0), None);
    assert ValidMetrics(metrics) by { assert (12.0).Floor == 12; }
    assert !s.CheckIsOrganizer(e, b);
    denied := s.UpdateMetrics(Some(b), metrics);
    assert s.CheckIsOrganizer(e, a);
    recorded := s.UpdateMetrics(Some(a), metrics);
  }

  /** A, the sole organizer, may not leave; C joins as ORGANIZER, which the join schema accepts;
      now A may leave, and C, who made themself organizer, may rename and then delete the event. C's
      participation row outlives the event, so a later update passes the role check and fails
      on the missing row. */
  method HandOver(s: Store, a: UserId, b: UserId, c: UserId, e: EventId)
    returns (sole: Result<()>, elevate: Result<()>, left: Result<()>, renamed: Result<()>, deleted: Result<()>,
             gone: Result<()>)
    requires s.Valid() && e in s.events && a != b && b != c && a != c
    requires s.participations == {Participation(a, e, Organizer), Participation(b, e, Volunteer)}
    modifies s
    ensures sole == Err(SoleOrganizer) && elevate.Ok? && left.Ok? && renamed.Ok? && deleted.Ok?
    ensures gone == Err(Failed)
    ensures e !in s.events
  {
    assert OrganizerRows(s.participations, e) == {Participation(a, e, Organizer)};
    assert s.CheckIsOrganizer(e, a);
    sole := s.LeaveEvent(Some(a), e);
    elevate, left := ElevateAndLeave(s, a, b, c, e);
    var rename := UpdateEventInput(e, Some("Beach cleanup II"), None, None, None, None, None);
    assert ValidUpdateEvent(rename, s.dateParses);
    assert s.CheckIsOrganizer(e, c);
    renamed := s.UpdateEvent(Some(c), rename);
    assert renamed.Ok?;
    assert s.CheckIsOrganizer(e, c);
    deleted := s.DeleteEvent(Some(c), e);
    var nothing := UpdateEventInput(e, None, None, None, None, None, None);
    assert ValidUpdateEvent(nothing, s.dateParses);
    assert s.CheckIsOrganizer(e, c);
    gone := s.UpdateEvent(Some(c), nothing);
  }

  /** The middle of `HandOver`: C joins as ORGANIZER and then A may leave. */
  method ElevateAndLeave(s: Store, a: UserId, b: UserId, c: UserId, e: EventId)
    returns (elevate: Result<()>, left: Result<()>)
    requires s.Valid() && e in s.events && a != b && b != c && a != c
    requires s.participations == {Participation(a, e, Organizer), Participation(b, e, Volunteer)}
    modifies s
    ensures s.Valid() && e in s.events
    ensures s.participations == {Participation(b, e, Volunteer), Participation(c, e, Organizer)}
    ensures elevate.Ok? && left.Ok?
  {
    assert !Joined(s.participations, c, e);
    elevate := s.JoinEvent(Some(c), JoinEventInput(e, "ORGANIZER"));
    assert elevate.Ok?;
    assert OrganizerRows(s.participations, e) == {Participation(a, e, Organizer), Participation(c, e, Organizer)};
    left := s.LeaveEvent(Some(a), e);
    assert left.Ok?;
  }

  /** The sequence of the three phases above, on a fresh store. */
  method ParticipationScenario(a: UserId, b: UserId, c: UserId) returns (replies: seq<Option<Error>>, trees: Option<int>)
    requires a != b && b != c && a != c
    ensures replies == [Some(NotOrganizer), None, Some(SoleOrganizer), None, None, None, None, Some(Failed)]
    ensures trees == Some(12)
  {
    var s, e := OrganizerAndVolunteer(a, b);
    var denied, recorded := RecordTrees(s, a, b, e);
    trees := s.events[e].plantedTrees;
    var sole, elevate, left, renamed, deleted, gone := HandOver(s, a, b, c, e);
    replies := [ErrorOf(denied), ErrorOf(recorded), ErrorOf(sole), ErrorOf(elevate), ErrorOf(left),
                ErrorOf(renamed), ErrorOf(deleted), ErrorOf(gone)];
  }

  /** A VOLUNTEER answers PRE and POST independently and may not answer PRE twice; someone
      with no participation may not answer. */
  method Surveys(s: Store, a: UserId, b: UserId, outsider: UserId, e: EventId)
    returns (pre: Result<()>, post: Result<()>, again: Result<()>, stranger: Result<()>)
    requires s.Valid() && e in s.events && a != b && b != outsider && a != outsider
    requires s.participations == {Participation(a, e, Organizer), Participation(b, e, Volunteer)}
    requires s.responses == {}
    modifies s
    ensures pre.Ok? && post.Ok? && again == Err(AlreadySubmitted) && stranger == Err(NotParticipant)
    ensures s.Valid() && e in s.events
    ensures s.participations == old(s.participations) && s.resources == old(s.resources)
  {
    var answers := map["q1" := "yes"];
    assert Joined(s.participations, b, e) && !Joined(s.participations, outsider, e);
    pre := s.SubmitSurvey(Some(b), SurveyInput(e, "PRE_INTERVENTION", answers));
    assert pre.Ok?;
    assert !Submitted(s.responses, b, e, PostIntervention);
    post := s.SubmitSurvey(Some(b), SurveyInput(e, "POST_INTERVENTION", answers));
    assert Submitted(s.responses, b, e, PreIntervention) by {
      assert SurveyResponse(b, e, PreIntervention, answers) in s.responses;
    }
    again := s.SubmitSurvey(Some(b), SurveyInput(e, "PRE_INTERVENTION", map[]));
    stranger := s.SubmitSurvey(Some(outsider), SurveyInput(e, "PRE_INTERVENTION", answers));
  }

  /** The ORGANIZER adds a resource, the VOLUNTEER may not change it, an unknown id is not
      found, and the ORGANIZER removes it. */
  method Resources(s: Store, a: UserId, b: UserId, e: EventId)
    returns (added: Result<()>, changed: Result<()>, missing: Result<()>, removed: Result<()>)
    requires s.Valid() && e in s.events && a != b
    requires s.participations == {Participation(a, e, Organizer), Participation(b, e, Volunteer)}
    requires s.resources == map[]
    modifies s
    ensures added.Ok? && changed == Err(NotOrganizer) && missing == Err(ResourceNotFound) && removed.Ok?
    ensures s.resources == map[]
  {
    assert s.CheckIsOrganizer(e, a) && !s.CheckIsOrganizer(e, b);
    var rid := s.nextResourceId;
    added := s.CreateResource(Some(a), CreateResourceInput("Gloves", 20.0, "pairs", e));
    assert added.Ok?;
    assert s.resources.Keys == {rid} && s.resources[rid].eventId == e;
    var more := UpdateResourceInput(rid, None, Some(30.0), None);
    changed := s.UpdateResource(Some(b), more);
    missing := s.UpdateResource(Some(a), more.(id := rid + 1));
    removed := s.DeleteResource(Some(a), rid);
  }

  /** Surveys and resources on the event of `OrganizerAndVolunteer`. */
  method SurveyAndResourceScenario(a: UserId, b: UserId, outsider: UserId) returns (replies: seq<Option<Error>>)
    requires a != b && b != outsider && a != outsider
    ensures replies == [None, None, Some(AlreadySubmitted), Some(NotParticipant),
                        None, Some(NotOrganizer), Some(ResourceNotFound), None]
  {
    var s, e := OrganizerAndVolunteer(a, b);
    var pre, post, again, stranger := Surveys(s, a, b, outsider, e);
    assert s.participations == {Participation(a, e, Organizer), Participation(b, e, Volunteer)};
    var added, changed, missing, removed := Resources(s, a, b, e);
    replies := [ErrorOf(pre), ErrorOf(post), ErrorOf(again), ErrorOf(stranger),
                ErrorOf(added), ErrorOf(changed), ErrorOf(missing), ErrorOf(removed)];
  }

  /** Registration: the first sign-up with an address succeeds, a second with the same address is
      refused, and a short password fails the schema. */
  method RegistrationScenario() returns (replies: seq<Option<Error>>)
    ensures replies == [None, Some(UserExists), Some(Failed)]
  {
    var s := NewStore();
    var id := s.nextUserId;
    var ana := RegisterInput("Ana", "ana@example.org", "secret1");
    assert s.isEmail(ana.email);
    var first := s.RegisterUser(ana);
    assert id in s.users && s.users[id].email == "ana@example.org";
    var again := RegisterInput("Ana B", "ana@example.org", "another1");
    assert s.isEmail(again.email);
    var second := s.RegisterUser(again);
    var weak := s.RegisterUser(RegisterInput("Bea", "bea@example.org", "123"));
    replies := [ErrorOf(first), ErrorOf(second), ErrorOf(weak)];
  }
}

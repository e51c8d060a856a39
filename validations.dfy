/** The input schemas of the server actions, each as a validity predicate over the record
    the schema infers. String lengths are counted in characters. The checks that belong to
    foreign code (whether a date string parses, whether a string is an e-mail address) are
    parameters. */
module Validations {
  import opened Domain

  datatype RegisterInput = RegisterInput(name: string, email: string, password: string)
  datatype LoginInput = LoginInput(email: string, password: string)

  datatype CreateEventInput = CreateEventInput(
    title: string,
    description: string,
    date: string,
    location: string,
    latitude: Option<real>,
    longitude: Option<real>)

  /** Every field of the create schema made optional, plus the required `id`. */
  datatype UpdateEventInput = UpdateEventInput(
    id: EventId,
    title: Option<string>,
    description: Option<string>,
    date: Option<string>,
    location: Option<string>,
    latitude: Option<real>,
    longitude: Option<real>)

  /** `plantedTrees` arrives as a number; the schema requires it to be integral. */
  datatype UpdateMetricsInput = UpdateMetricsInput(
    eventId: EventId,
    collectedWasteKg: Option<real>,
    plantedTrees: Option<real>,
    areaRecoveredM2: Option<real>)

  datatype CreateResourceInput = CreateResourceInput(name: string, quantity: real, unit: string, eventId: EventId)

  datatype UpdateResourceInput = UpdateResourceInput(
    id: ResourceId,
    name: Option<string>,
    quantity: Option<real>,
    unit: Option<string>)

  /** `phase` and `role` arrive as strings; the schemas' enums decide which are accepted. */
  datatype SurveyInput = SurveyInput(eventId: EventId, phase: string, answers: Answers)
  datatype JoinEventInput = JoinEventInput(eventId: EventId, role: string)

  // ---- authentication schemas

  predicate ValidRegister(i: RegisterInput, isEmail: string -> bool) {
    |i.name| >= 2 && isEmail(i.email) && |i.password| >= 6
  }

  predicate ValidLogin(i: LoginInput, isEmail: string -> bool) {
    isEmail(i.email) && |i.password| >= 1
  }

  // ---- event schemas, field by field so that the partial schema shares the bounds

  predicate ValidTitle(s: string) { |s| >= 3 }
  predicate ValidDescription(s: string) { |s| >= 10 }
  predicate ValidLocation(s: string) { |s| >= 3 }
  predicate ValidLatitude(x: real) { -90.0 <= x <= 90.0 }
  predicate ValidLongitude(x: real) { -180.0 <= x <= 180.0 }

  predicate ValidCreateEvent(i: CreateEventInput, dateParses: string -> bool) {
    && ValidTitle(i.title)
    && ValidDescription(i.description)
    && dateParses(i.date)
    && ValidLocation(i.location)
    && (i.latitude.None? || ValidLatitude(i.latitude.value))
    && (i.longitude.None? || ValidLongitude(i.longitude.value))
  }

  predicate ValidUpdateEvent(i: UpdateEventInput, dateParses: string -> bool) {
    && (i.title.None? || ValidTitle(i.title.value))
    && (i.description.None? || ValidDescription(i.description.value))
    && (i.date.None? || dateParses(i.date.value))
    && (i.location.None? || ValidLocation(i.location.value))
    && (i.latitude.None? || ValidLatitude(i.latitude.value))
    && (i.longitude.None? || ValidLongitude(i.longitude.value))
  }

  /** A number with no fractional part (the schema's integer check). */
  predicate IsIntegral(x: real) { x.Floor as real == x }

  predicate ValidMetrics(i: UpdateMetricsInput) {
    && (i.collectedWasteKg.None? || i.collectedWasteKg.value >= 0.0)
    && (i.plantedTrees.None? || (IsIntegral(i.plantedTrees.value) && i.plantedTrees.value >= 0.0))
    && (i.areaRecoveredM2.None? || i.areaRecoveredM2.value >= 0.0)
  }

  // ---- resource schemas

  predicate ValidResourceName(s: string) { |s| >= 2 }
  predicate ValidQuantity(q: real) { q > 0.0 }
  predicate ValidUnit(s: string) { |s| >= 1 }

  predicate ValidCreateResource(i: CreateResourceInput) {
    ValidResourceName(i.name) && ValidQuantity(i.quantity) && ValidUnit(i.unit)
  }

  predicate ValidUpdateResource(i: UpdateResourceInput) {
    && (i.name.None? || ValidResourceName(i.name.value))
    && (i.quantity.None? || ValidQuantity(i.quantity.value))
    && (i.unit.None? || ValidUnit(i.unit.value))
  }

  // ---- enums

  function PhaseName(p: Phase): string {
    match p
    case PreIntervention => "PRE_INTERVENTION"
    case PostIntervention => "POST_INTERVENTION"
  }

  function RoleName(r: Role): string {
    match r
    case Organizer => "ORGANIZER"
    case Partner => "PARTNER"
    case Volunteer => "VOLUNTEER"
  }

  /** The survey phase enum: accepts exactly the names of the two phases. */
  function ParsePhase(s: string): (r: Option<Phase>)
    ensures r.Some? ==> PhaseName(r.value) == s
    ensures forall p :: s == PhaseName(p) ==> r == Some(p)
  {
    if s == "PRE_INTERVENTION" then Some(PreIntervention)
    else if s == "POST_INTERVENTION" then Some(PostIntervention)
    else None
  }

  /** The join role enum: accepts exactly the names of the three roles, ORGANIZER included. */
  function ParseRole(s: string): (r: Option<Role>)
    ensures r.Some? ==> RoleName(r.value) == s
    ensures forall role :: s == RoleName(role) ==> r == Some(role)
  {
    if s == "ORGANIZER" then Some(Organizer)
    else if s == "PARTNER" then Some(Partner)
    else if s == "VOLUNTEER" then Some(Volunteer)
    else None
  }

  /** The answers are a record of strings to anything, so only the phase can be rejected. */
  predicate ValidSurvey(i: SurveyInput) { ParsePhase(i.phase).Some? }

  predicate ValidJoin(i: JoinEventInput) { ParseRole(i.role).Some? }

  // ---- what the schemas promise

  /** The update schema with every field present accepts exactly what the create schema accepts. */
  function AsFullUpdate(id: EventId, c: CreateEventInput): UpdateEventInput {
    UpdateEventInput(id, Some(c.title), Some(c.description), Some(c.date), Some(c.location), c.latitude, c.longitude)
  }

  lemma FullUpdateMatchesCreate(id: EventId, c: CreateEventInput, dateParses: string -> bool)
    ensures ValidUpdateEvent(AsFullUpdate(id, c), dateParses) <==> ValidCreateEvent(c, dateParses)
  {
  }

  /** Every field of the update schema is optional: an update naming only the event is valid. */
  lemma EmptyUpdateIsValid(id: EventId, dateParses: string -> bool)
    ensures ValidUpdateEvent(UpdateEventInput(id, None, None, None, None, None, None), dateParses)
  {
  }

  /** A present coordinate is accepted exactly when it lies in its range. */
  lemma CoordinateBounds(c: CreateEventInput, dateParses: string -> bool)
    requires ValidCreateEvent(c, dateParses)
    ensures c.latitude.Some? ==> -90.0 <= c.latitude.value <= 90.0
    ensures c.longitude.Some? ==> -180.0 <= c.longitude.value <= 180.0
  {
  }

  /** The resource update schema with every field present applies the create schema's bounds. */
  lemma FullResourceUpdateMatchesCreate(id: ResourceId, c: CreateResourceInput)
    ensures ValidUpdateResource(UpdateResourceInput(id, Some(c.name), Some(c.quantity), Some(c.unit)))
            <==> ValidCreateResource(c)
  {
  }

  /** A zero quantity is rejected: the bound is strict. */
  lemma ZeroQuantityRejected(c: CreateResourceInput)
    requires c.quantity == 0.0
    ensures !ValidCreateResource(c)
  {
  }

  /** A tree count with a fractional part, whatever its whole part, is rejected. */
  lemma FractionalTreesRejected(i: UpdateMetricsInput, k: int, d: real)
    requires i.plantedTrees == Some(k as real + d) && 0.0 < d < 1.0
    ensures !ValidMetrics(i)
  {
    assert (k as real + d).Floor == k;
  }

  /** Credentials accepted at registration also pass the login schema. */
  lemma RegisteredCredentialsPassLogin(i: RegisterInput, isEmail: string -> bool)
    requires ValidRegister(i, isEmail)
    ensures ValidLogin(LoginInput(i.email, i.password), isEmail)
  {
  }

  /** Both enums round-trip through their names. */
  lemma EnumNamesRoundTrip(p: Phase, r: Role)
    ensures ParsePhase(PhaseName(p)) == Some(p)
    ensures ParseRole(RoleName(r)) == Some(r)
  {
  }
}

# Event participation and authorization for a sustainability-events app, in Dafny

This project models the server actions of a community sustainability-events web application.
Users register, create environmental action events, join them as ORGANIZER, PARTNER or
VOLUNTEER, record resources and impact metrics, and answer pre- and post-intervention surveys.
Most actions authenticate their caller, parse their input against a schema, check the caller's
participation row, and perform one insert, update or delete. `registerUser` has no session and
no role check, `createEvent` checks no participation row, and `deleteEvent`, `leaveEvent` and
`deleteResource` parse no schema. Any exception, including a
rejected parse, is turned into a generic error reply.

The model is one class, `Store.Store`, holding the five tables:

- `users`: keyed by id. E-mail uniqueness is an invariant.
- `events`: keyed by id.
- `participations`: a set of (user, event, role) rows. Uniqueness per (user, event) is an invariant.
- `resources`: keyed by id.
- `responses`: a set of survey responses. Uniqueness per (user, event, phase) is an invariant.

Each action is a method on the store. It takes the caller as an `Option<UserId>`, which stands
in for the session, and returns `Ok` or `Err(kind)`. Every method's contract states the
following:

- the reply for each guard, in the order the code checks them;
- the exact condition for success;
- the whole new state on success;
- on every error, nothing changes.

`Valid()` is the store's invariant. It holds the unique indexes and the sole-organizer
invariant (every event has at least one ORGANIZER row). It also requires ids to be below
their counters. A fresh event or resource id therefore names no row of its own table, and a
fresh event id names no row that references an event. A fresh user id, however, may already be
the `userId` of participation and response rows, because callers are not tied to stored users
(see "Session lookup" below). The constructor establishes `Valid()` and
every action preserves it. The input schemas are pure predicates in `Validations`. The
value-level rules are separate modules that hold the lemmas: how an update rewrites a row,
organizer counting, and the lookups and uniqueness for responses and e-mails. The
`Scenarios` module states sequences of calls on a fresh store and proves their replies from
the contracts alone.

Files: `domain.dfy` (records, errors, replies), `validations.dfy`, `event_rules.dfy`,
`resource_rules.dfy`, `survey_rules.dfy`, `auth_rules.dfy`, `store.dfy` (the class and the
actions), `scenarios.dfy`.

The model follows the server code, including where the web pages behave differently:

- The join schema accepts ORGANIZER as a role (lib/validations.ts:61). Only the web page
  offers just VOLUNTEER and PARTNER. So any logged-in user can join an event as ORGANIZER,
  and from then on let its creator leave, update it and delete it.
  `Scenarios.ParticipationScenario` proves this sequence.
- A rejected schema parse throws inside the `try`. The reply is the same generic error as a
  storage failure (`Failed`), not a separate validation error.
- Input is validated before the role check. An invalid update from a non-organizer therefore
  gets `Failed`, not `NotOrganizer`.
- `leaveEvent` with no participation row reaches the delete, which throws. The reply is `Failed`.
- `updateEvent` writes the date only when it is present and not the empty string, because the
  code tests it for truth.
- `joinEvent`, `createResource` and `submitSurvey` never look the event up. An unknown event
  makes the insert violate its foreign key, so the reply is `Failed`. An update or delete of a
  missing event row also throws, so the reply is `Failed`.

## Model

| member | source | states |
|---|---|---|
| `Validations.ValidRegister` | lib/validations.ts:4-8 | the registration schema: a name of at least 2 characters, an e-mail address, a password of at least 6 characters |
| `Validations.ValidLogin` | lib/validations.ts:10-13 | the login schema: an e-mail address and a non-empty password |
| `Validations.ValidCreateEvent` | lib/validations.ts:16-23 | the create-event schema: title ≥ 3, description ≥ 10, a parseable date, location ≥ 3, optional latitude in [-90, 90] and longitude in [-180, 180] |
| `Validations.ValidUpdateEvent` | lib/validations.ts:25-27 | the partial update-event schema: each field optional, and a present field within the create bounds |
| `Validations.ValidMetrics` | lib/validations.ts:29-34 | the metrics schema: each metric optional; waste and area non-negative; trees a non-negative integer |
| `Validations.ValidCreateResource` | lib/validations.ts:37-42 | the create-resource schema: name ≥ 2, quantity strictly positive, unit ≥ 1 |
| `Validations.ValidUpdateResource` | lib/validations.ts:44-49 | the update-resource schema: each field optional, and a present field within the create bounds |
| `Validations.ValidSurvey` | lib/validations.ts:52-56 | the survey schema: the phase must be one of the two phase names; the answers are unconstrained |
| `Validations.ValidJoin` | lib/validations.ts:59-62 | the join schema: the role must be one of the three role names, ORGANIZER included |
| `Validations.ParsePhase` | lib/validations.ts:54 | accepts a phase string exactly when it is the name of one of the two phases, and returns that phase |
| `Validations.ParseRole` | lib/validations.ts:61 | accepts a role string exactly when it is the name of one of the three roles, ORGANIZER included, and returns that role |
| `Validations.EnumNamesRoundTrip` | lib/validations.ts:52-62 | parsing the name of any phase or role gives back that phase or role |
| `Validations.FullUpdateMatchesCreate` | lib/validations.ts:16-27 | the update-event schema with every field present accepts exactly what the create-event schema accepts: same bounds |
| `Validations.EmptyUpdateIsValid` | lib/validations.ts:25-27 | every field of the update-event schema is optional: an update naming only the event id is valid |
| `Validations.CoordinateBounds` | lib/validations.ts:21-22 | in a valid event, a present latitude lies in [-90, 90] and a present longitude in [-180, 180] |
| `Validations.FullResourceUpdateMatchesCreate` | lib/validations.ts:37-49 | the update-resource schema with every field present applies exactly the create-resource bounds |
| `Validations.ZeroQuantityRejected` | lib/validations.ts:39 | a quantity of 0 is rejected: the bound is strict |
| `Validations.FractionalTreesRejected` | lib/validations.ts:32 | every tree count with a fractional part (a whole part plus something strictly between 0 and 1) is rejected |
| `Validations.RegisteredCredentialsPassLogin` | lib/validations.ts:4-13 | an e-mail and password accepted at registration (password length ≥ 6) pass the login schema (length ≥ 1) |
| `EventRules.NewEvent` | app/actions/events.ts:27-43 | the inserted event carries the validated fields, the caller as `createdById`, and no metrics |
| `EventRules.ApplyEventUpdate` | app/actions/events.ts:77-83 | a present field overwrites and an absent one is kept; the date is written only if present and non-empty; creator and metrics never change |
| `EventRules.ApplyEventUpdateIdempotent` | app/actions/events.ts:77-83 | applying the same event update twice equals applying it once |
| `EventRules.EmptyEventUpdateIsIdentity` | app/actions/events.ts:77-83 | an update with no fields leaves the event exactly as it was |
| `EventRules.ApplyMetrics` | app/actions/events.ts:233-240 | each present metric overwrites, with the tree count stored as the given integer; absent metrics are kept; nothing but the three metrics changes |
| `EventRules.ApplyMetricsIdempotent` | app/actions/events.ts:233-240 | recording the same metrics twice equals recording them once |
| `EventRules.Joined` | app/actions/events.ts:136-148 | the lookup by the compound key (user, event): some participation row of any role has that key |
| `EventRules.OrganizerRows` | app/actions/events.ts:182-187 | the rows counted are exactly the event's rows whose role is ORGANIZER |
| `EventRules.OnlyOrganizerRowQualifies` | app/actions/resources.ts:14-23 | under the unique (user, event) index, a user holding PARTNER or VOLUNTEER on an event has no ORGANIZER row there |
| `EventRules.InsertKeepsKeysUnique` | app/actions/events.ts:137-156 | inserting a row for a (user, event) pair that has none keeps participations unique |
| `EventRules.AnotherOrganizerRemains` | app/actions/events.ts:181-191 | an ORGANIZER whose event's organizer count is not 1 leaves another ORGANIZER behind |
| `EventRules.SoleOrganizerIsNeeded` | app/actions/events.ts:189-191 | removing the only ORGANIZER row would leave the event with none, which is exactly what the guard refuses |
| `EventRules.LeaveKeepsEventsOrganized` | app/actions/events.ts:181-201 | deleting a row that passes the leave guard keeps every event with at least one ORGANIZER |
| `ResourceRules.ApplyResourceUpdate` | app/actions/resources.ts:74-77 | only the provided name, quantity and unit change; the resource's event never changes |
| `ResourceRules.UpdateKeepsResourceValid` | lib/validations.ts:37-49 | a resource within the create bounds, updated with valid input, stays within them |
| `SurveyRules.Submitted` | app/actions/surveys.ts:35-46 | the duplicate lookup: some stored response has that user, event and phase |
| `SurveyRules.InsertKeepsResponsesUnique` | app/actions/surveys.ts:35-55 | storing a response for a (user, event, phase) triple that has none keeps responses unique |
| `SurveyRules.PhasesAreIndependent` | app/actions/surveys.ts:35-42 | storing a response for one phase does not change whether the other phase was answered |
| `SurveyRules.StoredResponseIsFound` | app/actions/surveys.ts:35-46 | once a response is stored, the duplicate lookup finds its triple |
| `AuthRules.EmailInUse` | app/actions/auth.ts:13-19 | the lookup by e-mail: some stored user has that address |
| `AuthRules.AddKeepsEmailsUnique` | app/actions/auth.ts:13-31 | adding a user under a fresh id with an e-mail nobody has keeps e-mails unique |
| `Store.Store.CheckIsOrganizer` | app/actions/resources.ts:14-23 | true iff the row (user, event, ORGANIZER) exists; under the unique index that is then the user's only row on the event |
| `Store.Store.CreateEvent` | app/actions/events.ts:18-52 | no caller: NotLoggedIn; invalid: Failed; otherwise adds one event under a fresh id, created by the caller, and exactly one (caller, event, ORGANIZER) row, and returns the id; no resource or response references the new event; invariant kept |
| `Store.Store.UpdateEvent` | app/actions/events.ts:54-92 | succeeds iff caller, valid input, caller's ORGANIZER row and the event exists; it then rewrites only that event, by `ApplyEventUpdate`; NotLoggedIn, Failed for invalid input, NotOrganizer, and Failed for a missing event row, in that order, with no change |
| `Store.Store.DeleteEvent` | app/actions/events.ts:94-125 | succeeds iff caller, caller's ORGANIZER row and the event exists; it then removes exactly that event row; otherwise NotLoggedIn, NotOrganizer, or Failed for a missing event row, and no change |
| `Store.Store.JoinEvent` | app/actions/events.ts:127-164 | an invalid role gives Failed; an existing (caller, event) row gives AlreadyJoined and no second row; an unknown event gives Failed (foreign key); otherwise adds exactly one row with the requested role, ORGANIZER included |
| `Store.Store.LeaveEvent` | app/actions/events.ts:166-209 | the caller's ORGANIZER row with organizer count 1 gives SoleOrganizer; no row gives Failed; otherwise removes exactly the caller's row; every event keeps an ORGANIZER |
| `Store.Store.UpdateMetrics` | app/actions/events.ts:211-248 | succeeds iff caller, valid metrics, caller's ORGANIZER row and the event exists; it then rewrites that event's metrics only, by `ApplyMetrics`; NotLoggedIn, Failed for invalid input, NotOrganizer, and Failed for a missing event row, in that order, with no change |
| `Store.Store.CreateResource` | app/actions/resources.ts:25-49 | invalid input: Failed; non-organizer of the input event: NotOrganizer; an unknown event: Failed (foreign key); each with no change; otherwise adds exactly one resource under a fresh id with the validated fields |
| `Store.Store.UpdateResource` | app/actions/resources.ts:51-85 | after validation, an unknown id gives ResourceNotFound before any role check; authorizes against the stored resource's event; then changes only that resource by `ApplyResourceUpdate` |
| `Store.Store.DeleteResource` | app/actions/resources.ts:87-117 | an unknown id gives ResourceNotFound before any role check; authorizes against the stored resource's event; then removes exactly that resource, all others unchanged |
| `Store.Store.SubmitSurvey` | app/actions/surveys.ts:12-63 | an invalid phase: Failed; no participation of any role: NotParticipant; an existing (caller, event, phase) response: AlreadySubmitted; an unknown event: Failed (foreign key); otherwise stores exactly one response with the answers verbatim; responses stay unique |
| `Store.Store.RegisterUser` | app/actions/auth.ts:8-39 | invalid input: Failed, no user; e-mail in use: UserExists, no change; otherwise adds exactly one user with the given name and e-mail and `hash(password)`; e-mails stay unique |
| `Scenarios.RecordTrees` | app/actions/events.ts:211-248 | a VOLUNTEER recording metrics gets NotOrganizer; the organizer's 12 trees are stored and the other two metrics stay absent |
| `Scenarios.HandOver` | app/actions/events.ts:127-209 | the sole organizer cannot leave; after another user joins as ORGANIZER the first may leave, and the newcomer may rename and then delete the event; the newcomer's later update of the deleted event gets Failed, which holds only because the model keeps the participation rows of a deleted event (a cascading database would answer NotOrganizer) |
| `Scenarios.ParticipationScenario` | app/actions/events.ts:18-248 | the whole create, join, metrics, leave, rename, delete and update-after-delete sequence yields exactly the listed replies and 12 planted trees; the final Failed holds only because the model keeps the participation rows of a deleted event (a cascading database would answer NotOrganizer) |
| `Scenarios.Surveys` | app/actions/surveys.ts:12-63 | PRE and POST answers are accepted independently; a second PRE gives AlreadySubmitted; a non-participant gets NotParticipant |
| `Scenarios.Resources` | app/actions/resources.ts:25-117 | the organizer adds a resource; a VOLUNTEER gets NotOrganizer; an unknown id gives ResourceNotFound; the organizer removes it |
| `Scenarios.SurveyAndResourceScenario` | app/actions/surveys.ts:12-63 | the survey and resource sequences on one event yield exactly the listed replies |
| `Scenarios.RegistrationScenario` | app/actions/auth.ts:8-39 | a first sign-up succeeds; the same e-mail again gives UserExists; a 3-character password gives Failed |

## Left out

- Pages, React components and the map: they render, route and keep client state. Two checks
  live only in them and are not part of this server model: the join buttons offer only
  VOLUNTEER and PARTNER, and the survey form requires every question to be answered.
- The seeding script: it writes sample data through I/O.
- Session lookup: replaced by the `caller: Option<UserId>` parameter. Whether the caller's id
  names a stored user is not checked, and there is no foreign key to users in the model.
- Cache revalidation and error logging: no effect on the modelled state.
- The password hash, the date parser and the e-mail check are foreign code. They are `const`
  function fields given to the store's constructor. The hash's random salt and cost factor
  are folded into that function.
- Dates are stored as the validated string. The conversion to a timestamp is not modelled.
- Numbers are `real`. Floating-point rounding, NaN and infinities are not modelled.
- String lengths are counted in characters, not in UTF-16 code units.
- Survey answer values are strings in the model. The schema lets them be any JSON value.
- Ids are fresh counter values standing in for the database's generated ids.
- `Store.Store.DeleteEvent`: removes only the event row. What the database does to the
  event's participations, resources and responses depends on a schema these files do not
  show, so the model keeps those rows. On a database that restricts the delete, `deleteEvent`
  itself fails, because the caller's own ORGANIZER row references the event. Compared with a
  database that cascades the delete, later calls naming the deleted event reply as follows
  (model, then cascade; inputs that pass their schema):
  - `updateEvent`, `deleteEvent`, `updateMetrics` and `createResource` by a former organizer:
    `Failed` here, `NotOrganizer` there;
  - `joinEvent` by a former participant: `AlreadyJoined` here, `Failed` there;
  - `leaveEvent` by a former participant: success, removing the row, or `SoleOrganizer` for the
    former sole organizer, here; `Failed` there;
  - `submitSurvey` by a former participant: `AlreadySubmitted` for a triple already on file,
    otherwise `Failed`, here; `NotParticipant` there;
  - `updateResource` and `deleteResource` on a resource of the deleted event: success for a
    former organizer, `NotOrganizer` for anyone else, here; `ResourceNotFound` there;
  - `checkIsOrganizer` for a former organizer: true here, false there.
- Each reply's message text is modelled by its error kind.
- Storage failures unrelated to the tables' contents are not modelled: the model assumes the
  database and the cache invalidation succeed. Each action's success condition is therefore
  certain once its guards pass, while the code answers the generic error on any database
  failure. Likewise, a cache invalidation that throws after a committed write answers the
  error while keeping the write.
- Concurrency is not modelled; execution is sequential. Under concurrency, the lookup-then-insert
  of `joinEvent` is backed by the unique index, but the count-then-delete of `leaveEvent` is
  not atomic.
- The login schema is only a predicate. Its caller, the authentication library's credential
  check, is not part of this model.
- Every action requires the store's invariant `Valid()`. The constructor establishes it and
  every action preserves it; it is not a demand on the actions' callers.

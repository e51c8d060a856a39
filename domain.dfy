/** The records the server actions read and write, and the shape of their replies. */
module Domain {

  datatype Option<T> = None | Some(value: T)

  /** Row identifiers. The database generates them; the store hands out fresh ones. */
  type UserId = nat
  type EventId = nat
  type ResourceId = nat

  /** The role a participation row holds. There is no hierarchy between the three. */
  datatype Role = Organizer | Partner | Volunteer

  /** When a survey is answered: before or after the intervention. */
  datatype Phase = PreIntervention | PostIntervention

  /** A registered user; `password` holds the hash, never the clear text. */
  datatype User = User(name: string, email: string, password: string)

  /** An action event with its location and its three impact metrics (absent until recorded). */
  datatype Event = Event(
    title: string,
    description: string,
    date: string,
    location: string,
    latitude: Option<real>,
    longitude: Option<real>,
    createdById: UserId,
    collectedWasteKg: Option<real>,
    plantedTrees: Option<int>,
    areaRecoveredM2: Option<real>)

  /** The row binding one user to one event with one role. */
  datatype Participation = Participation(userId: UserId, eventId: EventId, role: Role)

  /** A material resource recorded for one event. */
  datatype Resource = Resource(name: string, quantity: real, unit: string, eventId: EventId)

  /** Survey answers: question id to answer. */
  type Answers = map<string, string>

  datatype SurveyResponse = SurveyResponse(userId: UserId, eventId: EventId, phase: Phase, answers: Answers)

  /** The `{ error }` replies of the actions, one constructor per distinct message kind.
      `Failed` is the generic reply of the catch-all handler: a rejected schema parse or a
      storage exception. */
  datatype Error =
    | NotLoggedIn
    | NotOrganizer
    | AlreadyJoined
    | SoleOrganizer
    | ResourceNotFound
    | NotParticipant
    | AlreadySubmitted
    | UserExists
    | Failed

  /** `{ success: true, ... }` or `{ error }`. */
  datatype Result<T> = Ok(value: T) | Err(error: Error)
}

/** The records shared by the screens, the card and the session holder.
    Timestamps are integer milliseconds since the epoch; a field the
    JavaScript object may lack is an Option. */
module Records {

  datatype Option<T> = None | Some(value: T)

  /** The signed-in user, as the session holder keeps and stores it. */
  datatype User = User(id: string, name: string, email: string, avatar: string)

  /** A participant is the {id, name, email} part of a user, embedded by value. */
  datatype Participant = Participant(id: string, name: string, email: string)

  datatype Milestone = Milestone(id: nat, title: string, completed: bool)

  /** A chosen location. Its coordinates are only carried along, so they are
      kept as opaque integers rather than floating point degrees. */
  datatype Place = Place(latitude: int, longitude: int, name: string)

  /** A moment record. `kind` is the JavaScript `type` field; `status`,
      `endDate`, `progress` and `milestones` are absent unless the moment
      was created as a challenge. */
  datatype Moment = Moment(
    title: string,
    description: string,
    kind: string,
    date: Option<int>,
    participants: Option<seq<Participant>>,
    location: Option<Place>,
    photos: Option<seq<string>>,
    verified: bool,
    createdBy: string,
    createdAt: Option<int>,
    status: Option<string>,
    endDate: Option<int>,
    progress: Option<int>,
    milestones: Option<seq<Milestone>>,
    nftMinted: bool)

  const InProgress: string := "in-progress"
  const Completed: string := "completed"

  /** Milliseconds in one day, 1000 * 60 * 60 * 24. */
  const DayMs: int := 86400000

  /** `!m.status` in JavaScript: the field is absent or the empty string. */
  predicate StatusFalsy(m: Moment)
  {
    m.status.None? || m.status == Some("")
  }

  /** `m.status === 'in-progress'`. */
  predicate IsInProgress(m: Moment)
  {
    m.status == Some(InProgress)
  }
}

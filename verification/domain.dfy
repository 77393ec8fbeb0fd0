/** Entities shared by the services, with the fields the services use (which
    is more than some entity classes declare: mood entries carry an emotion
    type and triggers). Every Java reference field may be null, so every such
    field is an `Option`. */
module Domain {
  import opened Base

  /** An `EmotionType` constant: the services read only its declaration
      position (`ordinal()`) and its `name()`. */
  datatype Emotion = Emotion(ordinal: nat, name: string)

  /** A reference to a `User` row as it appears inside another entity. */
  datatype UserRef = UserRef(id: Option<int>)

  /** A mood log entry. Times are epoch milliseconds. */
  datatype MoodEntry = MoodEntry(
    id: Option<int>,
    user: Option<UserRef>,
    emotion: Option<Emotion>,
    description: Option<string>,
    stressLevel: Option<int>,
    physicalState: Option<string>,
    triggers: Option<seq<string>>,
    shareToPublic: bool,
    anonymous: bool,
    recordTime: Option<int>,
    createdAt: Option<int>,
    updatedAt: Option<int>)

  /** The exception the sufficiency gate throws. */
  datatype InsufficientDataException =
    InsufficientDataException(message: Option<string>, requiredDays: int, availableDays: int)

  /** Dates (`LocalDate`) are epoch days; instants are epoch milliseconds. */
  const DayMillis: int := 86_400_000

  /** `date.atStartOfDay()` read as UTC. */
  function StartOfDay(day: int): int {
    day * DayMillis
  }

  /** How `%s` and string concatenation render a possibly-null string. */
  function NullableText(s: Option<string>): string {
    match s
    case Some(t) => t
    case None => "null"
  }
}

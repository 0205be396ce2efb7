/** The records of the marketplace: ducks with their mood and chat
    personality, booked sessions and chat messages. Prices are kept in
    whole dollars, mood modifiers in hundredths, ratings in tenths, and
    every timestamp is a count of milliseconds since the epoch. */
module Types {
  import opened Wrappers

  /** Milliseconds since 1970-01-01T00:00:00Z; ISO-8601 strings are read as such. */
  type Time = nat

  datatype Availability = Available | Busy | Offline

  datatype MoodKind = Happy | Focused | Grumpy | Excited | Sleepy

  /** A duck's mood. `priceModifier` is in hundredths (`95` is 0.95). */
  datatype Mood = Mood(
    current: MoodKind,
    priceModifier: nat,
    availabilityBonus: bool,
    lastUpdated: Time)

  datatype ResponsePatterns = ResponsePatterns(
    encouragement: seq<string>,
    confusion: seq<string>,
    success: seq<string>,
    frustration: seq<string>)

  datatype ChatPersonality = ChatPersonality(
    greeting: string,
    debuggingStyle: string,
    catchPhrases: seq<string>,
    responsePatterns: ResponsePatterns)

  /** A catalog entry. `rating` is in tenths of a star (`49` is 4.9). */
  datatype Duck = Duck(
    id: string,
    name: string,
    image: string,
    location: string,
    specialties: seq<string>,
    personality: string,
    hourlyRate: nat,
    rating: nat,
    reviewCount: nat,
    availability: Availability,
    description: string,
    experience: string,
    favoriteProblems: seq<string>,
    mood: Mood,
    chatPersonality: ChatPersonality)

  /** The one session-type enumeration; a session's `sessionType` uses it too. */
  datatype SessionType = Debugging | Career | Existential

  datatype SessionStatus = Upcoming | Active | Completed

  datatype Sender = FromUser | FromDuck

  /** The optional styling tag on a chat message. */
  datatype MessageTag = GreetingTag | DebuggingTag | EncouragementTag | SuccessTag

  datatype ChatMessage = ChatMessage(
    id: string,
    sender: Sender,
    content: string,
    timestamp: Time,
    tag: Option<MessageTag>)

  /** A booked session; `date` is the opaque local date-time string
      `yyyy-MM-ddTHH:mm:00`, `duration` is in hours, `cost` in dollars. */
  datatype Session = Session(
    id: string,
    duckId: string,
    duckName: string,
    sessionType: SessionType,
    date: string,
    duration: nat,
    status: SessionStatus,
    notes: Option<string>,
    cost: nat,
    chatHistory: Option<seq<ChatMessage>>)

  /** The chat history of a session, an absent history read as empty. */
  function History(s: Session): (h: seq<ChatMessage>)
    ensures s.chatHistory.None? ==> h == []
    ensures s.chatHistory.Some? ==> h == s.chatHistory.value
  {
    s.chatHistory.GetOr([])
  }

  // -----------------------------------------------------------------------
  // The string spellings of the enumerations

  function MoodName(k: MoodKind): string {
    match k
    case Happy => "happy"
    case Focused => "focused"
    case Grumpy => "grumpy"
    case Excited => "excited"
    case Sleepy => "sleepy"
  }

  /** Reads a mood name; `None` for any string outside the five. */
  function ParseMood(s: string): (r: Option<MoodKind>)
    ensures r.Some? ==> MoodName(r.value) == s
    ensures forall k :: MoodName(k) == s ==> r == Some(k)
  {
    if s == "happy" then Some(Happy)
    else if s == "focused" then Some(Focused)
    else if s == "grumpy" then Some(Grumpy)
    else if s == "excited" then Some(Excited)
    else if s == "sleepy" then Some(Sleepy)
    else None
  }

  function AvailabilityName(a: Availability): string {
    match a
    case Available => "available"
    case Busy => "busy"
    case Offline => "offline"
  }

  /** Reads an availability name; `None` for any string outside the three. */
  function ParseAvailability(s: string): (r: Option<Availability>)
    ensures r.Some? ==> AvailabilityName(r.value) == s
    ensures forall a :: AvailabilityName(a) == s ==> r == Some(a)
  {
    if s == "available" then Some(Available)
    else if s == "busy" then Some(Busy)
    else if s == "offline" then Some(Offline)
    else None
  }

  function SessionTypeName(t: SessionType): string {
    match t
    case Debugging => "debugging"
    case Career => "career"
    case Existential => "existential"
  }

  function StatusName(s: SessionStatus): string {
    match s
    case Upcoming => "upcoming"
    case Active => "active"
    case Completed => "completed"
  }

  /** The five moods, three availabilities, three session types and three
      statuses have pairwise distinct names, so each union type is exactly
      its listed values. */
  lemma NamesDistinct()
    ensures forall a, b :: a != b ==> MoodName(a) != MoodName(b)
    ensures forall a, b :: a != b ==> AvailabilityName(a) != AvailabilityName(b)
    ensures forall a, b :: a != b ==> SessionTypeName(a) != SessionTypeName(b)
    ensures forall a, b :: a != b ==> StatusName(a) != StatusName(b)
  {
  }
}

/**
 * The domain values of `core-model` (ChatMessage.kt, Learning.kt): chat messages and
 * their roles, user corrections, learned preferences and their categories, and the
 * aggregated `Learnings` handed to prompt building.
 *
 * Timestamps are epoch milliseconds (`Long`), kept as `int`. A preference's
 * `confidence` is a `Float` in the source; here it is in thousandths (0.7 is 700).
 */
module Domain {
  import opened Nullable

  datatype MessageRole = USER | ASSISTANT | SYSTEM

  datatype ChatMessage = ChatMessage(id: string, role: MessageRole, content: string, timestamp: int)

  datatype Correction = Correction(
    id: string,
    originalResponse: string,
    correctedResponse: string,
    context: string,
    timestamp: int)

  datatype PreferenceCategory =
    | COMMUNICATION_STYLE
    | PERSONAL_INFO
    | TIME_PREFERENCES
    | TOPICS_OF_INTEREST
    | CORRECTIONS

  datatype LearnedPreference = LearnedPreference(
    id: string,
    category: PreferenceCategory,
    key: string,
    value: string,
    confidence: int,
    learnedAt: int)

  datatype Learnings = Learnings(
    preferences: seq<LearnedPreference>,
    corrections: seq<Correction>,
    daysSinceStart: int)

  /** `MessageRole.name`. */
  function RoleName(role: MessageRole): string {
    match role
    case USER => "USER"
    case ASSISTANT => "ASSISTANT"
    case SYSTEM => "SYSTEM"
  }

  /** `MessageRole.valueOf(s)`: the role whose name is `s`; `None` stands for the exception thrown otherwise. */
  function RoleValueOf(s: string): (r: Option<MessageRole>)
    ensures forall role :: r == Some(role) <==> RoleName(role) == s
  {
    if s == "USER" then Some(USER)
    else if s == "ASSISTANT" then Some(ASSISTANT)
    else if s == "SYSTEM" then Some(SYSTEM)
    else None
  }

  /** `PreferenceCategory.name`. */
  function CategoryName(category: PreferenceCategory): string {
    match category
    case COMMUNICATION_STYLE => "COMMUNICATION_STYLE"
    case PERSONAL_INFO => "PERSONAL_INFO"
    case TIME_PREFERENCES => "TIME_PREFERENCES"
    case TOPICS_OF_INTEREST => "TOPICS_OF_INTEREST"
    case CORRECTIONS => "CORRECTIONS"
  }

  /** `PreferenceCategory.valueOf(s)`; `None` stands for the exception thrown on an unknown name. */
  function CategoryValueOf(s: string): (r: Option<PreferenceCategory>)
    ensures forall c :: r == Some(c) <==> CategoryName(c) == s
  {
    if s == "COMMUNICATION_STYLE" then Some(COMMUNICATION_STYLE)
    else if s == "PERSONAL_INFO" then Some(PERSONAL_INFO)
    else if s == "TIME_PREFERENCES" then Some(TIME_PREFERENCES)
    else if s == "TOPICS_OF_INTEREST" then Some(TOPICS_OF_INTEREST)
    else if s == "CORRECTIONS" then Some(CORRECTIONS)
    else None
  }

  /** Sort key of `sortedByDescending { it.timestamp }`. */
  function NewestFirst(c: Correction): int {
    -c.timestamp
  }

  /** Sort key of `sortedByDescending { it.confidence }`. */
  function MostConfidentFirst(p: LearnedPreference): int {
    -p.confidence
  }
}

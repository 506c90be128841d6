/**
 * The Room rows of the `messages`, `corrections`, `preferences` and `metrics` tables
 * (Entities.kt). Enum-valued columns are stored by name; `confidence` is in
 * thousandths, as in the domain model.
 */
module Entities {

  datatype MessageEntity = MessageEntity(
    id: string,
    conversationId: string,
    role: string,
    content: string,
    timestamp: int)

  datatype CorrectionEntity = CorrectionEntity(
    id: string,
    originalResponse: string,
    correctedResponse: string,
    context: string,
    timestamp: int)

  datatype PreferenceEntity = PreferenceEntity(
    id: string,
    category: string,
    key: string,
    value: string,
    confidence: int,
    learnedAt: int,
    updatedAt: int)

  datatype MetricsEntity = MetricsEntity(
    date: string,
    totalMessages: int,
    corrections: int,
    preferencesLearned: int)

  /** Primary keys and sort keys of the tables. */

  function MessageId(m: MessageEntity): string { m.id }

  function MessageOldestFirst(m: MessageEntity): int { m.timestamp }

  function CorrectionId(c: CorrectionEntity): string { c.id }

  function CorrectionNewestFirst(c: CorrectionEntity): int { -c.timestamp }

  function PreferenceId(p: PreferenceEntity): string { p.id }

  function PreferenceMostConfidentFirst(p: PreferenceEntity): int { -p.confidence }

  function MetricsDate(m: MetricsEntity): string { m.date }
}

# JARVIS chat core, modelled in Dafny

JARVIS is an on-device Android assistant. The user chats with a local language model and
corrects its replies. The corrections and learned preferences are stored and fed back into
later prompts. This project models the logic of that pipeline and proves what it promises.
The model covers these parts:

- the generic `Result` wrapper (`Results`);
- the Room tables for messages, corrections, preferences and daily metrics, read as SQL
  contracts over in-memory rows (`Entities`, `Daos`, with the shared helpers `Tables` and
  `Seqs`);
- the message and learning repositories and their entity/domain mappers
  (`MessageRepositories`, `LearningRepositories`);
- the learning engine and its context renderer (`LearningContexts`);
- the two use cases (`SaveCorrections`, `SendMessages`);
- the two language-model backends, which share one stream shape (`LlmProvider`, `FakeLlm`,
  `MediaPipeLlm`);
- the model file manager and its download loop (`ModelManagers`);
- the chat screen state and its view model (`ChatStates`, `ChatViewModels`).

Each Kotlin file keeps its own form. Pure code (mappers, renderers, `Result`, the fake reply
choice, `buildPrompt`) becomes datatypes, functions and lemmas. Code that updates fields in
place (the DAOs, repositories, providers, model manager and view model) becomes classes.
Their methods carry `modifies` clauses, and their loops carry invariants. Each method that
computes a result is proved against a specification function, whose properties are proved as
lemmas. Each view-model handler states its new state as a record update of the old
`ChatUiState`, and the event queue it leaves.

Representation choices:

- A Kotlin `T?` is `Option<T>`.
- A thrown exception is `Thrown(Throwable(message))` inside an `Attempt`.
- Ids, timestamps, file lengths and the network are parameters. The network is a sequence of
  chunk sizes, an optional interruption point and a flag for whether `renameTo` succeeds.
- Float progress is kept exactly. Load progress is in tenths (0.3 is 3). Download progress is
  a `Fraction` with a positive denominator. A preference confidence is in thousandths (0.7 is
  700).
- The models directory is a map from file name to length.
- A stream is the finite sequence of chunks it emits. A `cancel()` that lands after k chunks
  is the parameter `cancelAfter = Some(k)`.
- The view model's coroutine continuations are explicit step methods: a chunk arrives, the
  stream completes or fails, `isLoaded` fires, a progress value arrives, a download event
  arrives. The event channel is a queue (`events`), and `NextEvent` takes from it.
- SQL `ORDER BY` is a stable sort of the rows in insertion order. `INSERT OR REPLACE`
  removes the old row with that key and appends the new one.

Where the code and its description disagree, the model follows the code:

- `SendMessageUseCase` never adds a token to `fullResponse`, so no assistant message is ever
  saved (`SendMessages.ReplyStream.Collect`).
- `getLearnings` always returns no preferences.
- The fake backend's `"hi"` test also matches inside words such as "this"
  (`FakeLlm.HiInsideWordGreets`).
- A failed MediaPipe reload leaves the previous engine handle in place, so generation still
  works while `isLoaded` is false (`MediaPipeLlm.FailedReloadStillGenerates`).
- `getAvailableModels` lists only `.gguf` files, so the default `.task` model never appears
  (`ModelManagers.DefaultModelNeverListed`).
- `onRetryLoadModel` checks for the model file even when the fake backend is in use.

## Model

| member | source | states |
|---|---|---|
| Results.Result.GetOrNull | core/core-common/src/main/kotlin/com/jarvis/core/common/Result.kt:13-16 | the result is non-null exactly for a `Success`, and then it is its data |
| Results.Result.GetOrThrow | core/core-common/src/main/kotlin/com/jarvis/core/common/Result.kt:18-21 | a `Success` returns its data; an `Error` throws its cause, or an exception carrying its message when it has no cause |
| Results.Result.Map | core/core-common/src/main/kotlin/com/jarvis/core/common/Result.kt:23-26 | success is kept; a `Success` gets the transformed data; an `Error` keeps its message and cause |
| Results.Result.OnSuccess | core/core-common/src/main/kotlin/com/jarvis/core/common/Result.kt:28-31 | returns the receiver; the action runs once on a `Success` and never on an `Error` |
| Results.Result.OnError | core/core-common/src/main/kotlin/com/jarvis/core/common/Result.kt:33-36 | returns the receiver; the action runs once with message and cause on an `Error` and never on a `Success` |
| Results.RunCatching | core/core-common/src/main/kotlin/com/jarvis/core/common/Result.kt:39-45 | a returning block gives `Success(v)`; a throwing block gives an `Error` whose cause is the exception and whose message is the exception's, or "Unknown error" |
| Results.ErrorIsNotSuccess | core/core-common/src/main/kotlin/com/jarvis/core/common/Result.kt:10-11 | `isError` is exactly the negation of `isSuccess` |
| Results.MapIdentity | core/core-common/src/main/kotlin/com/jarvis/core/common/Result.kt:23-26 | mapping the identity gives back the receiver |
| Results.MapCompose | core/core-common/src/main/kotlin/com/jarvis/core/common/Result.kt:23-26 | mapping `f` then `g` equals mapping their composition |
| Results.RunCatchingGetOrThrow | core/core-common/src/main/kotlin/com/jarvis/core/common/Result.kt:18-45 | catching a block and then rethrowing reproduces the block's value or its exact exception |
| Domain.RoleValueOf | core/core-model/src/main/kotlin/com/jarvis/core/model/ChatMessage.kt:17-21 | `valueOf` finds the role whose name is the string, and fails exactly when no role has that name |
| Domain.CategoryValueOf | core/core-model/src/main/kotlin/com/jarvis/core/model/Learning.kt:31-37 | `valueOf` finds the category whose name is the string, and fails exactly when no category has that name |
| Tables.Upsert | data/src/main/kotlin/com/jarvis/data/local/dao/Daos.kt:18-19 | insert-or-replace: the new row is in, rows with other keys stay, rows with its key go; the key set gains the key; unique keys stay unique; the row count grows by one only for a new key |
| Tables.Without | data/src/main/kotlin/com/jarvis/data/local/dao/Daos.kt:18-19 | removing a key keeps exactly the rows with other keys and removes the key from the key set |
| Tables.Lookup | data/src/main/kotlin/com/jarvis/data/local/dao/Daos.kt:60-61 | the lookup finds a row exactly when the key is stored, and the row found has that key |
| Tables.UpsertThenLookup | data/src/main/kotlin/com/jarvis/data/local/dao/Daos.kt:63-64 | after an insert-or-replace, looking up the row's key gives back that row |
| Tables.UniqueKeysCount | data/src/main/kotlin/com/jarvis/data/local/dao/Daos.kt:24-25 | in a table with one row per key, the row count is the number of distinct keys |
| Seqs.SortBy | data/src/main/kotlin/com/jarvis/data/local/dao/Daos.kt:15-16 | `ORDER BY`: the result is sorted by the key and is a permutation of the input |
| Seqs.SortByStable | learning/src/main/kotlin/com/jarvis/learning/LearningEngine.kt:88-89 | the sort is stable: rows with equal keys keep their input order |
| Seqs.SortByMembers | data/src/main/kotlin/com/jarvis/data/local/dao/Daos.kt:15-16 | sorting neither adds nor loses rows |
| Seqs.Take | learning/src/main/kotlin/com/jarvis/learning/LearningEngine.kt:90 | `take(n)` is the prefix of length `min(n, size)` |
| Seqs.TakeSorted | learning/src/main/kotlin/com/jarvis/learning/LearningEngine.kt:88-90 | the first `n` of a sort are sorted by the key and all come from the input |
| Seqs.TakeSortedSplit | learning/src/main/kotlin/com/jarvis/learning/LearningEngine.kt:88-90 | the first `n` of a sort and the rest together are the input, and nothing in the rest sorts before anything kept |
| Seqs.TakeSortedKeepsTies | learning/src/main/kotlin/com/jarvis/learning/LearningEngine.kt:88-90 | the kept elements with one key are a prefix of the input's elements with that key |
| Seqs.SortBySameKey | learning/src/main/kotlin/com/jarvis/learning/LearningEngine.kt:112 | sorting a list whose keys are all equal leaves it as it is |
| Daos.OfConversation | data/src/main/kotlin/com/jarvis/data/local/dao/Daos.kt:15 | the `WHERE conversationId = c` filter keeps exactly the rows of `c` |
| Daos.OutsideConversation | data/src/main/kotlin/com/jarvis/data/local/dao/Daos.kt:21-22 | `DELETE ... WHERE conversationId = c` keeps exactly the rows of the other conversations and keeps keys unique |
| Daos.ConversationMessages | data/src/main/kotlin/com/jarvis/data/local/dao/Daos.kt:15-16 | `getMessages(c)`: exactly the rows of `c`, each once, oldest first |
| Daos.MessageDao.GetMessages | data/src/main/kotlin/com/jarvis/data/local/dao/Daos.kt:15-16 | the conversation's messages, oldest first, as `ConversationMessages` states them |
| Daos.MessageDao.Insert | data/src/main/kotlin/com/jarvis/data/local/dao/Daos.kt:18-19 | insert-or-replace by id; the ids stay unique |
| Daos.MessageDao.DeleteConversation | data/src/main/kotlin/com/jarvis/data/local/dao/Daos.kt:21-22 | removes exactly that conversation's rows; the ids stay unique |
| Daos.DeleteKeepsOtherConversations | data/src/main/kotlin/com/jarvis/data/local/dao/Daos.kt:21-22 | deleting one conversation leaves every other conversation's rows exactly as they were, in order |
| Daos.DeleteEmptiesConversation | data/src/main/kotlin/com/jarvis/data/local/dao/Daos.kt:21-22 | after deleting a conversation it has no rows |
| Daos.UpsertKeepsOtherConversations | data/src/main/kotlin/com/jarvis/data/local/dao/Daos.kt:15-19 | inserting into one conversation leaves another's message list unchanged, unless the id already belongs to that other conversation |
| Daos.MessageDao.GetTotalCount | data/src/main/kotlin/com/jarvis/data/local/dao/Daos.kt:24-25 | `COUNT(*)` is the number of distinct message ids stored |
| Daos.CorrectionDao.GetAllCorrections | data/src/main/kotlin/com/jarvis/data/local/dao/Daos.kt:30-31 | every correction, each once, newest first |
| Daos.CorrectionDao.GetRecentCorrections | data/src/main/kotlin/com/jarvis/data/local/dao/Daos.kt:33-34 | at most `limit` rows (all rows for a negative limit), and a prefix of `getAllCorrections` |
| Daos.CorrectionDao.Insert | data/src/main/kotlin/com/jarvis/data/local/dao/Daos.kt:36-37 | insert-or-replace by id; the ids stay unique |
| Daos.CorrectionDao.GetTotalCount | data/src/main/kotlin/com/jarvis/data/local/dao/Daos.kt:39-40 | the number of distinct correction ids stored |
| Daos.OfCategory | data/src/main/kotlin/com/jarvis/data/local/dao/Daos.kt:48 | the `WHERE category = k` filter keeps exactly the rows of category `k` |
| Daos.PreferenceDao.GetAllPreferences | data/src/main/kotlin/com/jarvis/data/local/dao/Daos.kt:45-46 | every preference, each once, by descending confidence |
| Daos.PreferenceDao.GetByCategory | data/src/main/kotlin/com/jarvis/data/local/dao/Daos.kt:48-49 | exactly the stored rows of that category |
| Daos.PreferenceDao.Insert | data/src/main/kotlin/com/jarvis/data/local/dao/Daos.kt:51-52 | insert-or-replace by id; the ids stay unique |
| Daos.PreferenceDao.GetTotalCount | data/src/main/kotlin/com/jarvis/data/local/dao/Daos.kt:54-55 | the number of distinct preference ids stored |
| Daos.MetricsDao.GetByDate | data/src/main/kotlin/com/jarvis/data/local/dao/Daos.kt:60-61 | a row exactly when that date is stored, and then the stored row of that date |
| Daos.MetricsDao.Insert | data/src/main/kotlin/com/jarvis/data/local/dao/Daos.kt:63-64 | insert-or-replace by date; the dates stay unique |
| Daos.SqlSum | data/src/main/kotlin/com/jarvis/data/local/dao/Daos.kt:66-70 | SQL `SUM` is `NULL` exactly on an empty table and otherwise the column total |
| Daos.SumOfAppend | data/src/main/kotlin/com/jarvis/data/local/dao/Daos.kt:66-67 | a new row adds its value to the column total |
| Daos.MetricsDao.GetTotalMessages | data/src/main/kotlin/com/jarvis/data/local/dao/Daos.kt:66-67 | `NULL` exactly on an empty table, otherwise the sum of `totalMessages` |
| Daos.MetricsDao.GetTotalCorrections | data/src/main/kotlin/com/jarvis/data/local/dao/Daos.kt:69-70 | `NULL` exactly on an empty table, otherwise the sum of `corrections` |
| Daos.NewDayAddsToTotal | data/src/main/kotlin/com/jarvis/data/local/dao/Daos.kt:63-67 | inserting a new day's metrics adds that day's messages to the total (from `NULL` counted as 0) |
| MessageRepositories.ToDomain | data/src/main/kotlin/com/jarvis/data/repository/MessageRepository.kt:34-39 | a row converts exactly when its role column names a role, and converting back gives the same row |
| MessageRepositories.MessageRoundTrip | data/src/main/kotlin/com/jarvis/data/repository/MessageRepository.kt:34-47 | `toDomain(toEntity(m, c)) == m` for every message |
| MessageRepositories.MapToDomain | data/src/main/kotlin/com/jarvis/data/repository/MessageRepository.kt:21-23 | the list converts exactly when every row converts, element by element in order |
| MessageRepositories.MapToDomainMembers | data/src/main/kotlin/com/jarvis/data/repository/MessageRepository.kt:21-23 | every row of a converted list appears in the result |
| MessageRepositories.MapToDomainSorted | data/src/main/kotlin/com/jarvis/data/repository/MessageRepository.kt:20-23 | conversion keeps oldest-first order |
| MessageRepositories.MessagesOf | data/src/main/kotlin/com/jarvis/data/repository/MessageRepository.kt:20-24 | for readable rows, `getMessages(c)` has one message per row of `c`, holds every such message, oldest first |
| MessageRepositories.SavedMessageIsListed | data/src/main/kotlin/com/jarvis/data/repository/MessageRepository.kt:20-28 | after `saveMessage(c, m)`, `getMessages(c)` contains `m` |
| MessageRepositories.SaveKeepsOtherConversations | data/src/main/kotlin/com/jarvis/data/repository/MessageRepository.kt:20-28 | `saveMessage(c, m)` leaves `getMessages(c')` unchanged for `c' != c`, unless `m`'s id is already stored under `c'` |
| MessageRepositories.SaveCount | data/src/main/kotlin/com/jarvis/data/repository/MessageRepository.kt:26-32 | saving a new id adds one row; saving a stored id adds none |
| MessageRepositories.MessageRepository.GetMessages | data/src/main/kotlin/com/jarvis/data/repository/MessageRepository.kt:20-24 | the conversation's messages from the table; never fails on rows this repository wrote |
| MessageRepositories.MessageRepository.SaveMessage | data/src/main/kotlin/com/jarvis/data/repository/MessageRepository.kt:26-28 | one insert-or-replace of the message's row tagged with the conversation |
| MessageRepositories.MessageRepository.GetTotalCount | data/src/main/kotlin/com/jarvis/data/repository/MessageRepository.kt:30-32 | the number of distinct message ids stored |
| LearningRepositories.CorrectionToDomain | data/src/main/kotlin/com/jarvis/data/repository/LearningRepository.kt:73-79 | the inverse of `toEntity`: converting back gives the same row |
| LearningRepositories.CorrectionRoundTrip | data/src/main/kotlin/com/jarvis/data/repository/LearningRepository.kt:73-87 | `toDomain(toEntity(x)) == x` for every correction |
| LearningRepositories.PreferenceToDomain | data/src/main/kotlin/com/jarvis/data/repository/LearningRepository.kt:89-96 | a row converts exactly when its category column names a category, and converting back (with the row's write time) gives the same row |
| LearningRepositories.PreferenceRoundTrip | data/src/main/kotlin/com/jarvis/data/repository/LearningRepository.kt:89-106 | every preference comes back unchanged, whatever write time `updatedAt` was stamped |
| LearningRepositories.CorrectionsToDomain | data/src/main/kotlin/com/jarvis/data/repository/LearningRepository.kt:53-55 | one correction per row, in order, each converting back to its row |
| LearningRepositories.PreferencesToDomain | data/src/main/kotlin/com/jarvis/data/repository/LearningRepository.kt:59-61 | the list converts exactly when every row converts, element by element in order |
| LearningRepositories.ConvertedInOrder | data/src/main/kotlin/com/jarvis/data/repository/LearningRepository.kt:58-62 | rows in `ORDER BY confidence DESC` order convert to preferences in descending confidence, each mapping back to its row |
| LearningRepositories.LearningRepository.SaveCorrection | data/src/main/kotlin/com/jarvis/data/repository/LearningRepository.kt:29-31 | one insert-or-replace into the corrections table; the preferences table is untouched |
| LearningRepositories.LearningRepository.SavePreference | data/src/main/kotlin/com/jarvis/data/repository/LearningRepository.kt:33-35 | one insert-or-replace into the preferences table; the corrections table is untouched |
| LearningRepositories.LearningRepository.GetLearnings | data/src/main/kotlin/com/jarvis/data/repository/LearningRepository.kt:37-50 | no preferences and `daysSinceStart` 1 whatever is stored; exactly `limit` corrections, or all of them when fewer are stored or the limit is negative (default limit 10); they are the newest rows mapped one by one, newest first |
| LearningRepositories.LearningRepository.GetCorrectionsFlow | data/src/main/kotlin/com/jarvis/data/repository/LearningRepository.kt:52-56 | every stored correction, newest first |
| LearningRepositories.LearningRepository.GetPreferencesFlow | data/src/main/kotlin/com/jarvis/data/repository/LearningRepository.kt:58-62 | with every stored row readable (an invariant `savePreference` keeps) the conversion succeeds; the result has one preference per stored row, in the `ORDER BY confidence DESC` order, and each maps back to its row |
| LearningRepositories.LearningRepository.GetCorrectionCount | data/src/main/kotlin/com/jarvis/data/repository/LearningRepository.kt:64-66 | the number of distinct correction ids stored |
| LearningRepositories.LearningRepository.GetPreferenceCount | data/src/main/kotlin/com/jarvis/data/repository/LearningRepository.kt:68-70 | the number of distinct preference ids stored |
| LearningContexts.RecentCorrections | learning/src/main/kotlin/com/jarvis/learning/LearningEngine.kt:88-90 | exactly 10 corrections, or all of them when there are fewer; taken from the input, newest first |
| LearningContexts.RecentAreNewest | learning/src/main/kotlin/com/jarvis/learning/LearningEngine.kt:88-90 | the kept and dropped corrections together are the input, and no dropped one is newer than a kept one |
| LearningContexts.RecentKeepsTiesInOrder | learning/src/main/kotlin/com/jarvis/learning/LearningEngine.kt:88-90 | for every sort key `k` (timestamp `-k`), the kept corrections with that key are a prefix of the input's, in input order |
| LearningContexts.CorrectionsSection | learning/src/main/kotlin/com/jarvis/learning/LearningEngine.kt:92-98 | the "[Corrections to Apply]" block is present exactly when there is a recent correction |
| LearningContexts.Categories | learning/src/main/kotlin/com/jarvis/learning/LearningEngine.kt:101-103 | `groupBy` keys: each category present, exactly once, in the order of their first occurrence in the input |
| LearningContexts.InCategoryMembers | learning/src/main/kotlin/com/jarvis/learning/LearningEngine.kt:101 | one group holds exactly the preferences of its category, each as often as in the input |
| LearningContexts.InCategoryAppend | learning/src/main/kotlin/com/jarvis/learning/LearningEngine.kt:101 | a group keeps the input order: a preference appended to the input is appended to its own group and leaves the others unchanged |
| LearningContexts.TopPreferences | learning/src/main/kotlin/com/jarvis/learning/LearningEngine.kt:112 | exactly 5 preferences of the group, or all of them when there are fewer, by descending confidence |
| LearningContexts.TopAreMostConfident | learning/src/main/kotlin/com/jarvis/learning/LearningEngine.kt:112 | the shown and the dropped preferences together are the group, and none dropped is more confident than one shown |
| LearningContexts.TopOfEqualConfidence | learning/src/main/kotlin/com/jarvis/learning/LearningEngine.kt:112 | when all confidences are equal (every recorded preference has 0.7), the first five of the group in input order are shown |
| LearningContexts.ContextEmptyIff | learning/src/main/kotlin/com/jarvis/learning/LearningEngine.kt:80-82 | the context is empty exactly when there are no corrections and no preferences |
| LearningContexts.ContextStartsWithHeader | learning/src/main/kotlin/com/jarvis/learning/LearningEngine.kt:84-85 | a non-empty context starts with the line "=== LEARNED FROM USER ===" |
| LearningContexts.ContextEndsWithFooter | learning/src/main/kotlin/com/jarvis/learning/LearningEngine.kt:117-118 | a non-empty context ends with the line "=== END LEARNINGS ===" |
| LearningContexts.RecentCorrectionsRendered | learning/src/main/kotlin/com/jarvis/learning/LearningEngine.kt:92-98 | every one of the ten newest corrections appears with its two lines |
| LearningContexts.CorrectionEntryQuotes | learning/src/main/kotlin/com/jarvis/learning/LearningEngine.kt:95-96 | each entry quotes the first 100 characters of each side (all of it when shorter), followed by "..." |
| LearningContexts.NoPreferencesNoCategories | learning/src/main/kotlin/com/jarvis/learning/LearningEngine.kt:69-77 | with no preferences, the context has only the header, the corrections block and the footer |
| LearningContexts.LearningEngine.RecordCorrection | learning/src/main/kotlin/com/jarvis/learning/LearningEngine.kt:24-37 | stores one correction with the given original, corrected text and context |
| LearningContexts.LearningEngine.RecordPreference | learning/src/main/kotlin/com/jarvis/learning/LearningEngine.kt:42-56 | stores one preference with the given key, value and category and confidence 0.7 |
| LearningContexts.LearningEngine.BuildContextFromLearnings | learning/src/main/kotlin/com/jarvis/learning/LearningEngine.kt:79-119 | the `StringBuilder` loops produce exactly the rendered context |
| Text.AppendEach | learning/src/main/kotlin/com/jarvis/learning/LearningEngine.kt:94-97 | a `forEach` that appends one text per element produces the start followed by every element's text, in order |
| Text.JoinedContains | learning/src/main/kotlin/com/jarvis/learning/LearningEngine.kt:94-97 | the text of every element appears in the joined text |
| LearningContexts.LearningEngine.AppendCategories | learning/src/main/kotlin/com/jarvis/learning/LearningEngine.kt:103-115 | the loop appends one block per category, in first-occurrence order |
| LearningContexts.LearningEngine.BuildLearningContext | learning/src/main/kotlin/com/jarvis/learning/LearningEngine.kt:61-64 | the context rendered from `getLearnings()` |
| LearningContexts.LearningEngine.ObserveLearnings | learning/src/main/kotlin/com/jarvis/learning/LearningEngine.kt:69-77 | the context rendered from every stored correction and no preferences |
| SaveCorrections.SaveCorrectionUseCase.Invoke | domain/src/main/kotlin/com/jarvis/domain/usecase/SaveCorrectionUseCase.kt:13-25 | exactly one correction carrying the given texts verbatim is saved; `context` defaults to "" |
| SaveCorrections.FreshCorrectionAppends | domain/src/main/kotlin/com/jarvis/domain/usecase/SaveCorrectionUseCase.kt:18-24 | with a fresh id the count grows by one and the existing corrections are unchanged |
| SendMessages.PreferencesBlock | domain/src/main/kotlin/com/jarvis/domain/usecase/SendMessageUseCase.kt:70-76 | the preferences block is present exactly when there are preferences |
| SendMessages.CorrectionsBlock | domain/src/main/kotlin/com/jarvis/domain/usecase/SendMessageUseCase.kt:78-85 | the corrections block is present exactly when there are corrections |
| SendMessages.PromptStartsWithIdentity | domain/src/main/kotlin/com/jarvis/domain/usecase/SendMessageUseCase.kt:67-68 | the prompt opens with the JARVIS identity line and a blank line |
| SendMessages.PromptEndsWithClosing | domain/src/main/kotlin/com/jarvis/domain/usecase/SendMessageUseCase.kt:87 | the prompt ends with the line "Be helpful, concise, and learn from feedback." |
| SendMessages.EveryCorrectionInPrompt | domain/src/main/kotlin/com/jarvis/domain/usecase/SendMessageUseCase.kt:80-83 | every correction given appears with its two lines, each side cut to 100 characters with no ellipsis |
| SendMessages.CorrectionLinesInOrder | domain/src/main/kotlin/com/jarvis/domain/usecase/SendMessageUseCase.kt:80-83 | the corrections are rendered in the order given |
| SendMessages.SendMessageUseCase.BuildSystemPrompt | domain/src/main/kotlin/com/jarvis/domain/usecase/SendMessageUseCase.kt:66-88 | the `buildString` loops produce exactly the rendered prompt |
| SendMessages.SendMessageUseCase.Invoke | domain/src/main/kotlin/com/jarvis/domain/usecase/SendMessageUseCase.kt:27-64 | the USER message is saved first; generation is asked for the user text and the prompt built from `getLearnings()`; the reply stream starts with an empty `fullResponse` |
| SendMessages.ReplyStream.OnToken | domain/src/main/kotlin/com/jarvis/domain/usecase/SendMessageUseCase.kt:47 | each token passes through unchanged |
| SendMessages.ReplyStream.OnCompletion | domain/src/main/kotlin/com/jarvis/domain/usecase/SendMessageUseCase.kt:49-59 | an ASSISTANT message with the trimmed text and the pre-made id is saved exactly when there is no error and `fullResponse` is not blank |
| SendMessages.ReplyStream.Collect | domain/src/main/kotlin/com/jarvis/domain/usecase/SendMessageUseCase.kt:44-63 | the tokens are exactly the provider's, `fullResponse` stays "" and the message table is unchanged: as written, no assistant reply is ever saved |
| LlmProvider.WordChunks | ai/ai-llama/src/main/kotlin/com/jarvis/ai/llama/FakeLLMProvider.kt:61-64 | one chunk per space-split piece, each the piece plus a space |
| LlmProvider.Streamed | ai/ai-llama/src/main/kotlin/com/jarvis/ai/llama/FakeLLMProvider.kt:62-66 | the word chunks in order: all of them without a cancel, and exactly the first `min(k, n)` of the `n` after a cancel once `k` were emitted |
| LlmProvider.StreamRoundTrip | ai/ai-llama/src/main/kotlin/com/jarvis/ai/llama/FakeLLMProvider.kt:61-66 | an uncancelled stream, joined, is the response plus one space |
| Text.SplitRoundTrip | ai/ai-llama/src/main/kotlin/com/jarvis/ai/llama/FakeLLMProvider.kt:61 | joining the pieces of `split(" ")`, each with a space after it, gives the text plus a space |
| FakeLlm.KeywordReplyFollowsRules | ai/ai-llama/src/main/kotlin/com/jarvis/ai/llama/FakeLLMProvider.kt:79-100 | the `when` is the reply table read top to bottom: it picks the first branch whose keywords occur (the preferences branch also needs "Corrections") |
| FakeLlm.KeywordReplyText | ai/ai-llama/src/main/kotlin/com/jarvis/ai/llama/FakeLLMProvider.kt:74-100 | when the `when` takes a fixed branch, the reply is that branch's text |
| FakeLlm.FirstMatchingRuleWins | ai/ai-llama/src/main/kotlin/com/jarvis/ai/llama/FakeLLMProvider.kt:74-100 | when branch `k` of the table matches and no earlier one does, the reply is branch `k`'s text |
| FakeLlm.NoMatchingRuleFallsBack | ai/ai-llama/src/main/kotlin/com/jarvis/ai/llama/FakeLLMProvider.kt:74-100 | when no branch matches, the reply is the catch-all that quotes the prompt |
| FakeLlm.FirstMatchIsFirst | ai/ai-llama/src/main/kotlin/com/jarvis/ai/llama/FakeLLMProvider.kt:79-100 | in any table, the first matching branch decides |
| FakeLlm.NoMatchIsOtherwise | ai/ai-llama/src/main/kotlin/com/jarvis/ai/llama/FakeLLMProvider.kt:79-100 | in any table, no matching branch means no fixed reply |
| FakeLlm.ResponseIgnoresCase | ai/ai-llama/src/main/kotlin/com/jarvis/ai/llama/FakeLLMProvider.kt:74-97 | prompts equal up to case get the same keyword reply |
| FakeLlm.FallbackQuotesPrompt | ai/ai-llama/src/main/kotlin/com/jarvis/ai/llama/FakeLLMProvider.kt:98-99 | without a keyword the reply is the fallback, which quotes the original prompt verbatim |
| FakeLlm.PreferencesReplyNeedsCorrections | ai/ai-llama/src/main/kotlin/com/jarvis/ai/llama/FakeLLMProvider.kt:77-96 | the preferences reply needs "prefer" in the prompt and "Corrections" (case-sensitive) in the system prompt |
| FakeLlm.HiInsideWordGreets | ai/ai-llama/src/main/kotlin/com/jarvis/ai/llama/FakeLLMProvider.kt:80-81 | any prompt containing "hi" anywhere, in any case, gets the greeting, since that test comes first |
| FakeLlm.LoadProgress | ai/ai-llama/src/main/kotlin/com/jarvis/ai/llama/FakeLLMProvider.kt:32-38 | load progress runs from 0 to 10 tenths, strictly increasing |
| FakeLlm.FakeLLMProvider.constructor | ai/ai-llama/src/main/kotlin/com/jarvis/ai/llama/FakeLLMProvider.kt:20-29 | starts unloaded, with no model info, progress 0 and no cancel |
| FakeLlm.FakeLLMProvider.Load | ai/ai-llama/src/main/kotlin/com/jarvis/ai/llama/FakeLLMProvider.kt:31-46 | progress goes through 0, 1, ..., 10 tenths; then model info is ("FakeLLM (POC)", 0, 4096) and the model is loaded |
| FakeLlm.FakeLLMProvider.Unload | ai/ai-llama/src/main/kotlin/com/jarvis/ai/llama/FakeLLMProvider.kt:48-52 | unloaded, no model info, progress 0, whatever the state before, so unloading twice leaves the same fields as unloading once |
| FakeLlm.FakeLLMProvider.Cancel | ai/ai-llama/src/main/kotlin/com/jarvis/ai/llama/FakeLLMProvider.kt:69-71 | sets the cancel flag and nothing else |
| FakeLlm.FakeLLMProvider.GenerateStream | ai/ai-llama/src/main/kotlin/com/jarvis/ai/llama/FakeLLMProvider.kt:54-67 | an earlier cancel is cleared; emits the word chunks of the chosen reply until a cancel; does not need the model loaded |
| FakeLlm.FakeLLMProvider.EmitWords | ai/ai-llama/src/main/kotlin/com/jarvis/ai/llama/FakeLLMProvider.kt:61-66 | the loop emits the word chunks until a cancel; the flag ends set exactly when the cancel came within the words; no other field changes |
| FakeLlm.LoadThenUnload | ai/ai-llama/src/main/kotlin/com/jarvis/ai/llama/FakeLLMProvider.kt:31-52 | loading and then unloading returns to the initial state |
| MediaPipeLlm.NameWithoutExtensionShape | ai/ai-llama/src/main/kotlin/com/jarvis/ai/llama/MediaPipeLLMProvider.kt:78 | the model name is the file's last path segment without its last extension |
| MediaPipeLlm.SystemContent | ai/ai-llama/src/main/kotlin/com/jarvis/ai/llama/MediaPipeLLMProvider.kt:151-153 | never blank: the system prompt if it is not blank, otherwise the default JARVIS line |
| MediaPipeLlm.BuildPromptCarriesBoth | ai/ai-llama/src/main/kotlin/com/jarvis/ai/llama/MediaPipeLLMProvider.kt:150-157 | the prompt starts with "System: ", ends with "\n\nAssistant:" and contains the user message and the system content |
| MediaPipeLlm.MediaPipeLLMProvider.constructor | ai/ai-llama/src/main/kotlin/com/jarvis/ai/llama/MediaPipeLLMProvider.kt:37-48 | starts unloaded, with no handle, no model info, no path and progress 0 |
| MediaPipeLlm.MediaPipeLLMProvider.Load | ai/ai-llama/src/main/kotlin/com/jarvis/ai/llama/MediaPipeLLMProvider.kt:50-95 | success exactly when the file exists and the engine is created: progress 1, 3, 5, 9, 10 tenths, then the handle, the model info (name, length, 4096) and the path are set and the model is loaded; a missing file fails with "Model file not found" after progress 1, 0; a failed creation rethrows after 1, 3, 5, 0; a failure leaves the model unloaded with progress 0 |
| MediaPipeLlm.MediaPipeLLMProvider.Unload | ai/ai-llama/src/main/kotlin/com/jarvis/ai/llama/MediaPipeLLMProvider.kt:97-111 | clears the handle, the loaded flag, the model info, progress and path, and never fails; if closing throws, nothing is cleared |
| MediaPipeLlm.MediaPipeLLMProvider.Cancel | ai/ai-llama/src/main/kotlin/com/jarvis/ai/llama/MediaPipeLLMProvider.kt:141-144 | sets the cancel flag and nothing else |
| MediaPipeLlm.MediaPipeLLMProvider.GenerateStream | ai/ai-llama/src/main/kotlin/com/jarvis/ai/llama/MediaPipeLLMProvider.kt:113-139 | with no handle it throws "Model not loaded" and asks for nothing; otherwise it asks for the built prompt, rethrows a generation failure, emits nothing for a null result or a cancel before the result, and otherwise emits the word chunks until a cancel; the cancel flag ends set exactly when a cancel landed |
| MediaPipeLlm.MediaPipeLLMProvider.EmitWords | ai/ai-llama/src/main/kotlin/com/jarvis/ai/llama/MediaPipeLLMProvider.kt:129-133 | the loop emits the word chunks until a cancel; the flag ends set exactly when the cancel came within the words; no other field changes |
| MediaPipeLlm.FailedReloadStillGenerates | ai/ai-llama/src/main/kotlin/com/jarvis/ai/llama/MediaPipeLLMProvider.kt:72-114 | after a load and a failed reload, the model reports unloaded but still holds the first engine and still generates |
| ModelManagers.JoinFileName | ai/ai-llama/src/main/kotlin/com/jarvis/ai/llama/ModelManager.kt:56-58 | the file name of `modelsDir/name` is `name` |
| ModelManagers.ModelManager.constructor | ai/ai-llama/src/main/kotlin/com/jarvis/ai/llama/ModelManager.kt:35-43 | `modelsDir` is `filesDir/models`; progress 0 and not downloading |
| ModelManagers.ModelManager.GetModelPath | ai/ai-llama/src/main/kotlin/com/jarvis/ai/llama/ModelManager.kt:56-58 | the path lies under `modelsDir`, and for a name without '/' its file name is the model name |
| ModelManagers.AvailableModelUsesStorage | ai/ai-llama/src/main/kotlin/com/jarvis/ai/llama/ModelManager.kt:48-51 | a model `isModelAvailable` reports is a non-empty file counted in the storage used |
| ModelManagers.ModelManager.GetAvailableModels | ai/ai-llama/src/main/kotlin/com/jarvis/ai/llama/ModelManager.kt:63-68 | exactly the files with extension "gguf", each with its name, path and length |
| ModelManagers.DefaultModelNeverListed | ai/ai-llama/src/main/kotlin/com/jarvis/ai/llama/ModelManager.kt:30-68 | the default ".task" model is never listed |
| ModelManagers.ProgressEvents | ai/ai-llama/src/main/kotlin/com/jarvis/ai/llama/ModelManager.kt:100-112 | one `Progress` event per chunk read |
| ModelManagers.ProgressEventAt | ai/ai-llama/src/main/kotlin/com/jarvis/ai/llama/ModelManager.kt:102-111 | event `i` reports the running byte total after chunk `i`, over `totalSize` when positive and 750000000 otherwise |
| ModelManagers.SumPrefixMonotone | ai/ai-llama/src/main/kotlin/com/jarvis/ai/llama/ModelManager.kt:102 | the running byte total never decreases |
| ModelManagers.ProgressEventsMonotone | ai/ai-llama/src/main/kotlin/com/jarvis/ai/llama/ModelManager.kt:100-112 | reported bytes and progress values never decrease, and progress stays at most 1 while the sum fits the announced size |
| ModelManagers.SumOverPeel | ai/ai-llama/src/main/kotlin/com/jarvis/ai/llama/ModelManager.kt:149 | the storage sum is any one file's length plus the sum over the rest |
| ModelManagers.DeleteFreesLength | ai/ai-llama/src/main/kotlin/com/jarvis/ai/llama/ModelManager.kt:136-150 | deleting a file lowers the storage used by exactly its length |
| ModelManagers.ModelManager.DeleteModel | ai/ai-llama/src/main/kotlin/com/jarvis/ai/llama/ModelManager.kt:136-143 | true exactly when the file existed; afterwards it is gone and not available; nothing else changes |
| ModelManagers.ModelManager.GetStorageUsed | ai/ai-llama/src/main/kotlin/com/jarvis/ai/llama/ModelManager.kt:148-150 | the sum of all file lengths in the models directory |
| ModelManagers.ModelManager.DownloadModel | ai/ai-llama/src/main/kotlin/com/jarvis/ai/llama/ModelManager.kt:74-131 | `Starting` first with downloading set and progress 0; one `Progress` per chunk written; on success the temp file is renamed to the target, progress 1, downloading cleared and `Completed(path)` last; on failure the temp file is deleted, progress 0, downloading cleared and `Failed(message or "Download failed")` last; after a renamed success the model is available exactly when bytes arrived |
| ModelManagers.ModelManager.ReadChunks | ai/ai-llama/src/main/kotlin/com/jarvis/ai/llama/ModelManager.kt:100-112 | the read loop writes the byte total to the temp file and emits and records one progress value per chunk |
| ModelManagers.ModelManager.FailDownload | ai/ai-llama/src/main/kotlin/com/jarvis/ai/llama/ModelManager.kt:124-130 | the catch block: temp deleted, downloading cleared, progress 0, `Failed` with the message or "Download failed" |
| ModelManagers.ModelManager.CompleteDownload | ai/ai-llama/src/main/kotlin/com/jarvis/ai/llama/ModelManager.kt:116-121 | the temp file becomes the target when the rename succeeds; progress 1, downloading cleared, `Completed` with the target path |
| ChatStates.FindMessage | feature/feature-chat/src/main/kotlin/com/jarvis/feature/chat/ChatViewModel.kt:217 | `find`: nothing exactly when no message has the id, otherwise the first message with it |
| ChatStates.ReplaceContent | feature/feature-chat/src/main/kotlin/com/jarvis/feature/chat/ChatViewModel.kt:247-253 | same length and order; messages with the id get the new content, all others are unchanged |
| ChatStates.ReplaceKeepsAssistantMessages | feature/feature-chat/src/main/kotlin/com/jarvis/feature/chat/ChatViewModel.kt:247-253 | replacing content keeps every assistant message on screen |
| ChatStates.AppendKeepsAssistantMessages | feature/feature-chat/src/main/kotlin/com/jarvis/feature/chat/ChatViewModel.kt:174 | appending messages keeps every assistant message on screen |
| ChatViewModels.ChatViewModel.constructor | feature/feature-chat/src/main/kotlin/com/jarvis/feature/chat/ChatUiState.kt:9-22 | the state starts with every default: no messages, empty input, not loading or streaming, no error, no correction, `NotLoaded`, both progresses 0, not downloading; no events |
| ChatViewModels.ChatViewModel.CheckModelStatus | feature/feature-chat/src/main/kotlin/com/jarvis/feature/chat/ChatViewModel.kt:52-70 | the fake backend loads at once; the real one loads if the model file is available and otherwise goes to `NeedsDownload` |
| ChatViewModels.ChatViewModel.LoadModel | feature/feature-chat/src/main/kotlin/com/jarvis/feature/chat/ChatViewModel.kt:90-104 | `Loading`, then the load path: the manager's default model path, or "fake://model" |
| ChatViewModels.ChatViewModel.OnLoadFailed | feature/feature-chat/src/main/kotlin/com/jarvis/feature/chat/ChatViewModel.kt:105-110 | `Error` with the exception's message or "Failed to load model"; nothing else changes |
| ChatViewModels.ChatViewModel.OnIsLoaded | feature/feature-chat/src/main/kotlin/com/jarvis/feature/chat/ChatViewModel.kt:74-80 | `true` sets `Ready` and queues `ModelReady`; `false` changes nothing |
| ChatViewModels.ChatViewModel.OnLoadingProgress | feature/feature-chat/src/main/kotlin/com/jarvis/feature/chat/ChatViewModel.kt:82-87 | copies the provider's progress into the state |
| ChatViewModels.ChatViewModel.OnDownloadEvent | feature/feature-chat/src/main/kotlin/com/jarvis/feature/chat/ChatViewModel.kt:121-140 | `Starting` resets progress; `Progress` shows its value; `Completed` clears downloading and starts a load; `Failed` clears downloading and sets `Error` |
| ChatViewModels.ChatViewModel.OnDownloadModel | feature/feature-chat/src/main/kotlin/com/jarvis/feature/chat/ChatViewModel.kt:114-143 | runs the manager's download and handles every event; the new state is the old one with downloading cleared and the last progress shown, plus `Error` (and no load) on a failure or `Loading` (and a load of the model path) on success; everything else is unchanged. The manager ends as its `downloadModel` of the default model leaves it (files, progress, flag and their histories), so the default model's availability is unchanged after a failed download or a failed rename |
| ChatViewModels.ChatViewModel.HandleProgressEvents | feature/feature-chat/src/main/kotlin/com/jarvis/feature/chat/ChatViewModel.kt:119-127 | after the `Starting` and `Progress` events, the state shows the last one's progress |
| ChatViewModels.ChatViewModel.OnInputChanged | feature/feature-chat/src/main/kotlin/com/jarvis/feature/chat/ChatViewModel.kt:145-147 | sets the input text and nothing else |
| ChatViewModels.ChatViewModel.OnSendMessage | feature/feature-chat/src/main/kotlin/com/jarvis/feature/chat/ChatViewModel.kt:149-177 | does nothing exactly when the trimmed input is empty, a reply is loading or the model is not `Ready`; otherwise it clears input and error, sets loading and streaming, empties the streaming text, appends one USER message with the trimmed text and requests that text |
| ChatViewModels.ChatViewModel.OnResponseChunk | feature/feature-chat/src/main/kotlin/com/jarvis/feature/chat/ChatViewModel.kt:179-183 | appends the chunk to the streaming text |
| ChatViewModels.ChatViewModel.OnResponseComplete | feature/feature-chat/src/main/kotlin/com/jarvis/feature/chat/ChatViewModel.kt:185-202 | appends one ASSISTANT message with the streamed text, clears the flags and the streaming text, queues `ScrollToBottom` |
| ChatViewModels.ChatViewModel.OnResponseFailed | feature/feature-chat/src/main/kotlin/com/jarvis/feature/chat/ChatViewModel.kt:203-212 | clears the flags, sets the error ("Unknown error" by default) and queues `ShowError` ("Failed to send message" by default); messages are unchanged |
| ChatViewModels.ChatViewModel.CollectResponse | feature/feature-chat/src/main/kotlin/com/jarvis/feature/chat/ChatViewModel.kt:178-212 | the new state is the old one with the flags and the streaming text cleared and the ASSISTANT message (all chunks joined) appended on success, or with the flags cleared, the partial text kept and the error set on a failure, which also queues `ShowError`; the download fields are unchanged |
| ChatViewModels.ChatViewModel.OnStartCorrection | feature/feature-chat/src/main/kotlin/com/jarvis/feature/chat/ChatViewModel.kt:216-229 | does nothing unless the first message with the id is an ASSISTANT message; then the correction is (id, content) and the input is that content |
| ChatViewModels.ChatViewModel.OnSubmitCorrection | feature/feature-chat/src/main/kotlin/com/jarvis/feature/chat/ChatViewModel.kt:231-266 | saved exactly when a correction is open, the trimmed input is not blank and the save succeeds; then only the matching message's content changes, correction and input are cleared and `CorrectionSaved` is queued; a failed save queues only `ShowError("Failed to save correction")`; a guard miss does nothing |
| ChatViewModels.ChatViewModel.OnCancelCorrection | feature/feature-chat/src/main/kotlin/com/jarvis/feature/chat/ChatViewModel.kt:268-275 | clears the correction and the input |
| ChatViewModels.ChatViewModel.OnDismissError | feature/feature-chat/src/main/kotlin/com/jarvis/feature/chat/ChatViewModel.kt:277-279 | clears the error |
| ChatViewModels.ChatViewModel.OnRetryLoadModel | feature/feature-chat/src/main/kotlin/com/jarvis/feature/chat/ChatViewModel.kt:281-287 | loads if the model file is available, otherwise `NeedsDownload` |
| ChatViewModels.ChatViewModel.NextEvent | feature/feature-chat/src/main/kotlin/com/jarvis/feature/chat/ChatViewModel.kt:43-44 | events come out once each, in the order they were queued |

Every `ChatViewModel` method also keeps the invariant `Valid()`. It says that `isLoading` and
`isStreaming` agree, and that an open correction always points at an assistant message on
screen.

## Left out

- Coroutines, `Flow`/`StateFlow` plumbing, `delay`, `flowOn`, dispatchers and interleavings
  between launched jobs. Each continuation is a sequential step method, and a flow is the
  finite sequence it emits.
- The `LLMProvider` interface has no Dafny counterpart of its own. Both backends are classes
  with the same members, and their common stream shape is in `LlmProvider`.
- The view model's provider and `SendMessageUseCase` are not wired in. The caller passes in
  what they return (load results, `isLoaded` and progress values, chunks, failures). Its
  `init` is the constructor followed by the caller invoking `CheckModelStatus`. The
  `learningEngine` dependency is unused by the view model and is not modelled.
- The `Channel.BUFFERED` capacity: the event queue is unbounded.
- HTTP (URL, timeouts, content length as a parameter), file streams, and the MediaPipe
  `LlmInference` runtime. Generation is a given `Attempt<Option<string>>`.
- ModelManagers.ModelManager.DownloadModel: the URL is not a parameter, because it only
  selects what the network returns. The result of `renameTo` is ignored, as in the source,
  and is the parameter `renameSucceeds`.
- ModelManagers.ModelManager.GetAvailableModels: it returns a set, because the order of
  `listFiles` is not specified.
- ModelManagers.ModelManager.DeleteModel: a `delete()` that fails on an existing file is not
  modelled; deleting an existing file always succeeds.
- 64-bit overflow of `Long` sums (`downloadedSize`, `getStorageUsed`, SQL `SUM`) and of
  `Int` counts: integers are unbounded.
- Floating point: progress and confidence are exact integers or fractions, and only their
  order and constants matter.
- `String.lowercase()` is modelled for ASCII letters only.
- LearningContexts.CorrectionEntryQuotes: `take(100)` counts UTF-16 code units, while a
  Dafny `char` is a Unicode scalar value. A snippet with characters outside the Basic
  Multilingual Plane keeps up to 100 of them here, where Android keeps 100 code units and
  can split a surrogate pair. The model does not encode strings as UTF-16.
- SendMessages.EveryCorrectionInPrompt: the same `take(100)` difference as the line above,
  for the system prompt's corrections block.
- `UUID.randomUUID`, `System.currentTimeMillis` and `Log` are parameters or dropped.
- SQL ties: rows with equal sort keys come out in insertion order, which SQLite does not
  promise.
- Daos.PreferenceDao.GetByCategory: it states which rows are returned, not their order, since
  the query has no `ORDER BY`.
- MediaPipe's `DEFAULT_MAX_TOKENS` and `DEFAULT_TEMPERATURE` only configure the native
  engine and do not appear in any contract. A reload does not close the previous engine,
  as in the source.
- LearningContexts.LearningEngine.BuildLearningContext: it uses the default correction limit
  of 10 from `getLearnings()`.
- MediaPipeLlm.NameWithoutExtensionShape: `File(path).name` here is the text after the last
  `/`. `java.io.File` first drops trailing and repeated separators, so a model path ending in
  `/` gets an empty name here. The model paths used are plain file paths.
- The Compose screen, dependency injection, Room annotations and build files.

/**
 * `SendMessageUseCase` (SendMessageUseCase.kt): saves the user's turn, builds the
 * system prompt from the stored learnings and asks the provider for a stream.
 *
 * The returned flow is described by the request it forwards to `generateStream` and by
 * a `ReplyStream` object holding what its `onStart`/`onCompletion` hooks share: the
 * captured `fullResponse` and the pre-generated assistant message id. Collecting the
 * flow is the sequence `OnStart`, one `OnToken` per chunk, `OnCompletion`.
 */
module SendMessages {
  import opened Nullable
  import opened Seqs
  import opened Text
  import opened Tables
  import opened Domain
  import opened Entities
  import opened Results
  import opened MessageRepositories
  import opened LearningRepositories
  import LearningContexts

  const IDENTITY := "You are JARVIS, a helpful AI assistant that learns and improves."
  const PREFERENCES_TITLE := "## User Preferences (Learned)"
  const CORRECTIONS_TITLE := "## IMPORTANT: Past Corrections (Never repeat these mistakes)"
  const CLOSING := "Be helpful, concise, and learn from feedback."
  const SNIPPET_LENGTH := 100

  /** The two lines for one correction: each side cut to 100 characters, no ellipsis. */
  function CorrectionEntry(c: Correction): string {
    Line("- \U{274C} Don't say: \"" + Take(c.originalResponse, SNIPPET_LENGTH) + "\"")
    + Line("  \U{2705} Say instead: \"" + Take(c.correctedResponse, SNIPPET_LENGTH) + "\"")
  }

  /** The preferences block, present only when there are preferences. */
  function PreferencesBlock(ps: seq<LearnedPreference>): (r: string)
    ensures r == "" <==> ps == []
  {
    if ps == [] then "" else Line(PREFERENCES_TITLE) + Joined(ps, LearningContexts.PreferenceLine) + Line("")
  }

  /** The corrections block, present only when there are corrections. */
  function CorrectionsBlock(cs: seq<Correction>): (r: string)
    ensures r == "" <==> cs == []
  {
    if cs == [] then "" else Line(CORRECTIONS_TITLE) + Joined(cs, CorrectionEntry) + Line("")
  }

  /** What `buildSystemPrompt(learnings)` returns. */
  function SystemPromptText(learnings: Learnings): string {
    Line(IDENTITY) + Line("") + PreferencesBlock(learnings.preferences) + CorrectionsBlock(learnings.corrections) + Line(CLOSING)
  }

  /** The prompt opens with the identity line and a blank line. */
  lemma PromptStartsWithIdentity(learnings: Learnings)
    ensures StartsWith(SystemPromptText(learnings), Line(IDENTITY) + Line(""))
  {
    var opening := Line(IDENTITY) + Line("");
    var preferences := PreferencesBlock(learnings.preferences);
    var corrections := CorrectionsBlock(learnings.corrections);
    StartsWithConcat(opening, preferences);
    StartsWithAppend(opening + preferences, opening, corrections);
    StartsWithAppend(opening + preferences + corrections, opening, Line(CLOSING));
  }

  /** The prompt closes with the closing instruction line. */
  lemma PromptEndsWithClosing(learnings: Learnings)
    ensures EndsWith(SystemPromptText(learnings), Line(CLOSING))
  {
    var body := Line(IDENTITY) + Line("") + PreferencesBlock(learnings.preferences) + CorrectionsBlock(learnings.corrections);
    EndsWithConcat(body, Line(CLOSING));
  }

  /** Every correction handed in appears in the prompt with its two lines. */
  lemma EveryCorrectionInPrompt(learnings: Learnings, i: nat)
    requires i < |learnings.corrections|
    ensures Contains(SystemPromptText(learnings), CorrectionEntry(learnings.corrections[i]))
  {
    var cs := learnings.corrections;
    var entry := CorrectionEntry(cs[i]);
    var before := Line(IDENTITY) + Line("") + PreferencesBlock(learnings.preferences);
    JoinedContains(cs, CorrectionEntry, i);
    ContainsInRight(Line(CORRECTIONS_TITLE), Joined(cs, CorrectionEntry), entry);
    ContainsInLeft(Line(CORRECTIONS_TITLE) + Joined(cs, CorrectionEntry), Line(""), entry);
    ContainsInRight(before, CorrectionsBlock(cs), entry);
    ContainsInLeft(before + CorrectionsBlock(cs), Line(CLOSING), entry);
  }

  /** The corrections are rendered in the order given: entry `i` comes before entry `i + 1`. */
  lemma {:induction false} CorrectionLinesInOrder(cs: seq<Correction>, i: nat)
    requires i + 1 < |cs|
    ensures Joined(cs[..i + 2], CorrectionEntry) == Joined(cs[..i], CorrectionEntry) + CorrectionEntry(cs[i]) + CorrectionEntry(cs[i + 1])
  {
    assert cs[..i + 2][..i + 1] == cs[..i + 1];
    assert cs[..i + 1][..i] == cs[..i];
  }

  /** The request the flow forwards to `generateStream(prompt, systemPrompt)`. */
  datatype GenerationRequest = GenerationRequest(prompt: string, systemPrompt: string)

  /** The state shared by the hooks of the returned flow. */
  class ReplyStream {
    const messageRepository: MessageRepository
    const conversationId: string
    const assistantMsgId: string
    var fullResponse: string

    constructor (messageRepository: MessageRepository, conversationId: string, assistantMsgId: string)
      ensures this.messageRepository == messageRepository
      ensures this.conversationId == conversationId && this.assistantMsgId == assistantMsgId
      ensures fullResponse == ""
    {
      this.messageRepository := messageRepository;
      this.conversationId := conversationId;
      this.assistantMsgId := assistantMsgId;
      fullResponse := "";
    }

    /** `onStart { fullResponse = "" }`. */
    method OnStart()
      modifies this
      ensures fullResponse == ""
    {
      fullResponse := "";
    }

    /** A chunk passing through: emitted as it is; nothing in the flow appends it to `fullResponse`. */
    method OnToken(token: string) returns (emitted: string)
      ensures emitted == token
    {
      emitted := token;
    }

    /**
     * `onCompletion { error -> ... }` at time `now`: only a stream that ended without an
     * error and with a non-blank `fullResponse` saves an ASSISTANT message, with the
     * trimmed text and the pre-generated id.
     */
    method OnCompletion(error: Option<Throwable>, now: int)
      requires messageRepository.Valid()
      modifies messageRepository.messageDao
      ensures messageRepository.Valid()
      ensures error.None? && !IsBlank(fullResponse) ==>
        messageRepository.messageDao.rows
        == Upsert(old(messageRepository.messageDao.rows), MessageId,
                  ToEntity(ChatMessage(assistantMsgId, ASSISTANT, Trim(fullResponse), now), conversationId))
      ensures error.Some? || IsBlank(fullResponse) ==> messageRepository.messageDao.rows == old(messageRepository.messageDao.rows)
    {
      if error.None? && !IsBlank(fullResponse) {
        messageRepository.SaveMessage(conversationId, ChatMessage(assistantMsgId, ASSISTANT, Trim(fullResponse), now));
      }
    }

    /**
     * Collecting the flow over `chunks`, ending with `error`: the collector sees exactly
     * the provider's chunks, and since `fullResponse` only ever holds "", no assistant
     * message is ever saved.
     */
    method Collect(chunks: seq<string>, error: Option<Throwable>, now: int) returns (seen: seq<string>)
      requires messageRepository.Valid()
      modifies this, messageRepository.messageDao
      ensures messageRepository.Valid()
      ensures seen == chunks
      ensures fullResponse == ""
      ensures messageRepository.messageDao.rows == old(messageRepository.messageDao.rows)
    {
      OnStart();
      seen := [];
      var i := 0;
      while i < |chunks|
        invariant 0 <= i <= |chunks|
        invariant seen == chunks[..i]
        invariant fullResponse == ""
        invariant messageRepository.messageDao.rows == old(messageRepository.messageDao.rows)
      {
        var token := OnToken(chunks[i]);
        seen := seen + [token];
        i := i + 1;
      }
      assert chunks[..i] == chunks;
      assert IsBlank(fullResponse);
      OnCompletion(error, now);
    }
  }

  class SendMessageUseCase {
    const messageRepository: MessageRepository
    const learningRepository: LearningRepository

    constructor (messageRepository: MessageRepository, learningRepository: LearningRepository)
      ensures this.messageRepository == messageRepository && this.learningRepository == learningRepository
    {
      this.messageRepository := messageRepository;
      this.learningRepository := learningRepository;
    }

    /**
     * `invoke(conversationId, userMessage)` with fresh ids `userMsgId` and
     * `assistantMsgId` and the clock reading `now`: the USER message is saved first;
     * the request carries the user's text and the prompt built from `getLearnings()`.
     */
    method Invoke(conversationId: string, userMessage: string, userMsgId: string, assistantMsgId: string, now: int)
      returns (request: GenerationRequest, reply: ReplyStream)
      requires messageRepository.Valid()
      modifies messageRepository.messageDao
      ensures messageRepository.Valid()
      ensures messageRepository.messageDao.rows
           == Upsert(old(messageRepository.messageDao.rows), MessageId,
                     ToEntity(ChatMessage(userMsgId, USER, userMessage, now), conversationId))
      ensures request == GenerationRequest(userMessage, SystemPromptText(learningRepository.GetLearnings()))
      ensures fresh(reply) && reply.messageRepository == messageRepository
      ensures reply.conversationId == conversationId && reply.assistantMsgId == assistantMsgId && reply.fullResponse == ""
    {
      messageRepository.SaveMessage(conversationId, ChatMessage(userMsgId, USER, userMessage, now));
      var learnings := learningRepository.GetLearnings();
      var systemPrompt := BuildSystemPrompt(learnings);
      request := GenerationRequest(userMessage, systemPrompt);
      reply := new ReplyStream(messageRepository, conversationId, assistantMsgId);
    }

    /** `buildSystemPrompt(learnings)`: the `buildString` with its two `forEach` loops. */
    method BuildSystemPrompt(learnings: Learnings) returns (text: string)
      ensures text == SystemPromptText(learnings)
    {
      text := Line(IDENTITY) + Line("");
      text := AppendPreferencesBlock(text, learnings.preferences);
      text := AppendCorrectionsBlock(text, learnings.corrections);
      text := text + Line(CLOSING);
    }

    method AppendPreferencesBlock(start: string, ps: seq<LearnedPreference>) returns (text: string)
      ensures text == start + PreferencesBlock(ps)
    {
      text := start;
      if ps != [] {
        text := AppendEach(text + Line(PREFERENCES_TITLE), ps, LearningContexts.PreferenceLine);
        ConcatAssoc(start, Line(PREFERENCES_TITLE), Joined(ps, LearningContexts.PreferenceLine));
        ConcatAssoc(start, Line(PREFERENCES_TITLE) + Joined(ps, LearningContexts.PreferenceLine), Line(""));
        text := text + Line("");
      }
    }

    method AppendCorrectionsBlock(start: string, cs: seq<Correction>) returns (text: string)
      ensures text == start + CorrectionsBlock(cs)
    {
      text := start;
      if cs != [] {
        text := AppendEach(text + Line(CORRECTIONS_TITLE), cs, CorrectionEntry);
        ConcatAssoc(start, Line(CORRECTIONS_TITLE), Joined(cs, CorrectionEntry));
        ConcatAssoc(start, Line(CORRECTIONS_TITLE) + Joined(cs, CorrectionEntry), Line(""));
        text := text + Line("");
      }
    }
  }
}

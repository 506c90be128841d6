/**
 * `FakeLLMProvider` (FakeLLMProvider.kt): the stand-in backend that fakes a ten-step
 * load, answers from a fixed keyword table and streams its answer word by word.
 *
 * `loadingProgress` is in tenths (the source's `i / 10f`); `progressHistory` records
 * every value written to it. A collector of the state flow sees a subsequence of it,
 * since the flow conflates.
 */
module FakeLlm {
  import opened Nullable
  import opened Seqs
  import opened Text
  import opened LlmProvider

  const FAKE_MODEL_INFO := ModelInfo("FakeLLM (POC)", 0, 4096)
  const LOAD_STEPS := 10

  const GREETING := "Hello! I'm JARVIS, your AI assistant. How can I help you today?"
  const WELLBEING := "I'm functioning optimally, thank you for asking! How are you doing?"
  const CAPABILITIES := "I'm a proof-of-concept AI assistant. Right now I can chat with you and learn from corrections. More capabilities coming soon!"
  const TEST_REPLY := "Test received! The system is working. I'm currently in POC mode - using fake responses until llama.cpp is integrated."
  const LEARNING_REPLY := "I learn from our conversations! When you correct me, I store that feedback and use it to improve future responses."
  const PREFERENCES_REPLY := "I see you have some preferences! I'll do my best to follow them. You can always correct me if I make mistakes."

  /** The catch-all reply, quoting the prompt as typed. */
  function Fallback(prompt: string): string {
    "I understand you said: \"" + prompt + "\". This is a POC response - real LLM integration coming soon! Feel free to correct me by editing my responses."
  }

  /** `generateFakeResponse(prompt, systemPrompt)`: the first matching rule wins. */
  function GenerateFakeResponse(prompt: string, systemPrompt: string): string {
    var lowerPrompt := Lowercase(prompt);
    var hasCorrections := Contains(systemPrompt, "Corrections");
    if Contains(lowerPrompt, "hello") || Contains(lowerPrompt, "hi") then GREETING
    else if Contains(lowerPrompt, "how are you") then WELLBEING
    else if Contains(lowerPrompt, "what can you do") then CAPABILITIES
    else if Contains(lowerPrompt, "test") then TEST_REPLY
    else if Contains(lowerPrompt, "learn") || Contains(lowerPrompt, "remember") then LEARNING_REPLY
    else if hasCorrections && Contains(lowerPrompt, "prefer") then PREFERENCES_REPLY
    else Fallback(prompt)
  }

  /** The branch the `when` of `generateFakeResponse` takes: the first that matches; `None` is its `else`. */
  function KeywordReply(lowerPrompt: string, hasCorrections: bool): Option<Reply> {
    if Contains(lowerPrompt, "hello") || Contains(lowerPrompt, "hi") then Some(Greeting)
    else if Contains(lowerPrompt, "how are you") then Some(Wellbeing)
    else if Contains(lowerPrompt, "what can you do") then Some(Capabilities)
    else if Contains(lowerPrompt, "test") then Some(TestReply)
    else if Contains(lowerPrompt, "learn") || Contains(lowerPrompt, "remember") then Some(LearningReply)
    else if hasCorrections && Contains(lowerPrompt, "prefer") then Some(PreferencesReply)
    else None
  }

  /** The fixed replies of the table. */
  datatype Reply = Greeting | Wellbeing | Capabilities | TestReply | LearningReply | PreferencesReply

  function ReplyText(reply: Reply): string {
    match reply
    case Greeting => GREETING
    case Wellbeing => WELLBEING
    case Capabilities => CAPABILITIES
    case TestReply => TEST_REPLY
    case LearningReply => LEARNING_REPLY
    case PreferencesReply => PREFERENCES_REPLY
  }

  /** One branch of the reply table: any of its keywords in the lowercased prompt selects its reply. */
  datatype Rule = Rule(keywords: seq<string>, needsCorrections: bool, reply: Reply)

  /** The branches in the order they are tried. */
  const RULES := [
    Rule(["hello", "hi"], false, Greeting),
    Rule(["how are you"], false, Wellbeing),
    Rule(["what can you do"], false, Capabilities),
    Rule(["test"], false, TestReply),
    Rule(["learn", "remember"], false, LearningReply),
    Rule(["prefer"], true, PreferencesReply)
  ]

  /** Some keyword of the list occurs in `lowerPrompt`. */
  predicate AnyOccurs(lowerPrompt: string, keywords: seq<string>) {
    |keywords| > 0 && (Contains(lowerPrompt, keywords[0]) || AnyOccurs(lowerPrompt, keywords[1..]))
  }

  lemma AnyOccursOne(lowerPrompt: string, a: string)
    ensures AnyOccurs(lowerPrompt, [a]) == Contains(lowerPrompt, a)
  {
    assert [a][1..] == [];
  }

  lemma AnyOccursTwo(lowerPrompt: string, a: string, b: string)
    ensures AnyOccurs(lowerPrompt, [a, b]) == (Contains(lowerPrompt, a) || Contains(lowerPrompt, b))
  {
    assert [a, b][1..] == [b];
    AnyOccursOne(lowerPrompt, b);
  }

  /** The branch applies to the lowercased prompt. */
  predicate Matches(rule: Rule, lowerPrompt: string, hasCorrections: bool) {
    (!rule.needsCorrections || hasCorrections) && AnyOccurs(lowerPrompt, rule.keywords)
  }

  /** Reference reading of a `when` over `rules`: the reply of the first branch that applies, if any. */
  function FirstMatch(rules: seq<Rule>, lowerPrompt: string, hasCorrections: bool): Option<Reply> {
    if rules == [] then None
    else if Matches(rules[0], lowerPrompt, hasCorrections) then Some(rules[0].reply)
    else FirstMatch(rules[1..], lowerPrompt, hasCorrections)
  }

  /** The `when` is the table read top to bottom. */
  lemma KeywordReplyFollowsRules(lowerPrompt: string, hasCorrections: bool)
    ensures KeywordReply(lowerPrompt, hasCorrections) == FirstMatch(RULES, lowerPrompt, hasCorrections)
  {
    AnyOccursTwo(lowerPrompt, "hello", "hi");
    AnyOccursOne(lowerPrompt, "how are you");
    AnyOccursOne(lowerPrompt, "what can you do");
    AnyOccursOne(lowerPrompt, "test");
    AnyOccursTwo(lowerPrompt, "learn", "remember");
    AnyOccursOne(lowerPrompt, "prefer");
    assert RULES[6..] == [];
    FirstMatchStep(RULES, 5, lowerPrompt, hasCorrections);
    FirstMatchStep(RULES, 4, lowerPrompt, hasCorrections);
    FirstMatchStep(RULES, 3, lowerPrompt, hasCorrections);
    FirstMatchStep(RULES, 2, lowerPrompt, hasCorrections);
    FirstMatchStep(RULES, 1, lowerPrompt, hasCorrections);
    FirstMatchStep(RULES, 0, lowerPrompt, hasCorrections);
  }

  lemma FirstMatchStep(rules: seq<Rule>, i: nat, lowerPrompt: string, hasCorrections: bool)
    requires i < |rules|
    ensures FirstMatch(rules[i..], lowerPrompt, hasCorrections)
      == if Matches(rules[i], lowerPrompt, hasCorrections) then Some(rules[i].reply) else FirstMatch(rules[i + 1..], lowerPrompt, hasCorrections)
  {
    assert rules[i..][1..] == rules[i + 1..];
  }

  /** When the `when` takes a fixed branch, the reply is that branch's text. */
  lemma KeywordReplyText(prompt: string, systemPrompt: string)
    requires KeywordReply(Lowercase(prompt), Contains(systemPrompt, "Corrections")).Some?
    ensures GenerateFakeResponse(prompt, systemPrompt) == ReplyText(KeywordReply(Lowercase(prompt), Contains(systemPrompt, "Corrections")).value)
  {
    var lowerPrompt := Lowercase(prompt);
    var reply := KeywordReply(lowerPrompt, Contains(systemPrompt, "Corrections"));
    if Contains(lowerPrompt, "hello") || Contains(lowerPrompt, "hi") {
      assert reply == Some(Greeting);
    } else if Contains(lowerPrompt, "how are you") {
      assert reply == Some(Wellbeing);
    } else if Contains(lowerPrompt, "what can you do") {
      assert reply == Some(Capabilities);
    } else if Contains(lowerPrompt, "test") {
      assert reply == Some(TestReply);
    } else if Contains(lowerPrompt, "learn") || Contains(lowerPrompt, "remember") {
      assert reply == Some(LearningReply);
    } else {
      assert reply == Some(PreferencesReply);
    }
  }

  /** In any table, the first branch that applies decides the reply. */
  lemma {:induction false} FirstMatchIsFirst(rules: seq<Rule>, lowerPrompt: string, hasCorrections: bool, k: nat)
    requires k < |rules| && Matches(rules[k], lowerPrompt, hasCorrections)
    requires forall j :: 0 <= j < k ==> !Matches(rules[j], lowerPrompt, hasCorrections)
    ensures FirstMatch(rules, lowerPrompt, hasCorrections) == Some(rules[k].reply)
  {
    if k > 0 {
      assert !Matches(rules[0], lowerPrompt, hasCorrections);
      FirstMatchIsFirst(rules[1..], lowerPrompt, hasCorrections, k - 1);
    }
  }

  /** In any table, when no branch applies there is no fixed reply. */
  lemma {:induction false} NoMatchIsOtherwise(rules: seq<Rule>, lowerPrompt: string, hasCorrections: bool)
    requires forall j :: 0 <= j < |rules| ==> !Matches(rules[j], lowerPrompt, hasCorrections)
    ensures FirstMatch(rules, lowerPrompt, hasCorrections) == None
  {
    if rules != [] {
      assert !Matches(rules[0], lowerPrompt, hasCorrections);
      NoMatchIsOtherwise(rules[1..], lowerPrompt, hasCorrections);
    }
  }

  /** The first branch that applies decides the reply. */
  lemma FirstMatchingRuleWins(prompt: string, systemPrompt: string, k: nat)
    requires k < |RULES|
    requires Matches(RULES[k], Lowercase(prompt), Contains(systemPrompt, "Corrections"))
    requires forall j :: 0 <= j < k ==> !Matches(RULES[j], Lowercase(prompt), Contains(systemPrompt, "Corrections"))
    ensures GenerateFakeResponse(prompt, systemPrompt) == ReplyText(RULES[k].reply)
  {
    KeywordReplyFollowsRules(Lowercase(prompt), Contains(systemPrompt, "Corrections"));
    FirstMatchIsFirst(RULES, Lowercase(prompt), Contains(systemPrompt, "Corrections"), k);
    KeywordReplyText(prompt, systemPrompt);
  }

  /** When no branch applies, the catch-all reply is given. */
  lemma NoMatchingRuleFallsBack(prompt: string, systemPrompt: string)
    requires forall j :: 0 <= j < |RULES| ==> !Matches(RULES[j], Lowercase(prompt), Contains(systemPrompt, "Corrections"))
    ensures GenerateFakeResponse(prompt, systemPrompt) == Fallback(prompt)
  {
    KeywordReplyFollowsRules(Lowercase(prompt), Contains(systemPrompt, "Corrections"));
    NoMatchIsOtherwise(RULES, Lowercase(prompt), Contains(systemPrompt, "Corrections"));
    FallbackQuotesPrompt(prompt, systemPrompt);
  }

  /** Some keyword of the `when` occurs, so the fallback is not taken. */
  predicate HasKeyword(lowerPrompt: string, hasCorrections: bool) {
    KeywordReply(lowerPrompt, hasCorrections).Some?
  }

  /**
   * Matching is case-insensitive: two prompts that agree once lowercased get the same
   * reply, unless neither matches a keyword (the fallback quotes the prompt as typed).
   */
  lemma ResponseIgnoresCase(p1: string, p2: string, systemPrompt: string)
    requires Lowercase(p1) == Lowercase(p2)
    requires HasKeyword(Lowercase(p1), Contains(systemPrompt, "Corrections"))
    ensures GenerateFakeResponse(p1, systemPrompt) == GenerateFakeResponse(p2, systemPrompt)
  {
  }

  /** Without any keyword, the reply quotes the prompt verbatim, original case kept. */
  lemma FallbackQuotesPrompt(prompt: string, systemPrompt: string)
    requires !HasKeyword(Lowercase(prompt), Contains(systemPrompt, "Corrections"))
    ensures GenerateFakeResponse(prompt, systemPrompt) == Fallback(prompt)
    ensures Contains(GenerateFakeResponse(prompt, systemPrompt), prompt)
  {
    var lowerPrompt := Lowercase(prompt);
    assert !Contains(lowerPrompt, "hello") && !Contains(lowerPrompt, "hi");
    assert !Contains(lowerPrompt, "how are you") && !Contains(lowerPrompt, "what can you do");
    assert !Contains(lowerPrompt, "test") && !Contains(lowerPrompt, "learn") && !Contains(lowerPrompt, "remember");
    FallbackContainsPrompt(prompt);
  }

  /** The catch-all reply contains the prompt. */
  lemma FallbackContainsPrompt(prompt: string)
    ensures Contains(Fallback(prompt), prompt)
  {
    var prefix := "I understand you said: \"";
    var rest := "\". This is a POC response - real LLM integration coming soon! Feel free to correct me by editing my responses.";
    ContainsMiddle(prefix, prompt, rest);
  }

  /** The preferences reply is only ever given when the system prompt mentions "Corrections" (case-sensitive). */
  lemma PreferencesReplyNeedsCorrections(prompt: string, systemPrompt: string)
    requires GenerateFakeResponse(prompt, systemPrompt) == PREFERENCES_REPLY
    ensures Contains(systemPrompt, "Corrections")
    ensures Contains(Lowercase(prompt), "prefer")
  {
  }

  /**
   * The greeting rule shadows all others and matches "hi" anywhere, so any prompt
   * containing "this" (or "which", "think", ...) is answered with the greeting.
   */
  lemma HiInsideWordGreets(prompt: string, systemPrompt: string, i: nat)
    requires OccursAt(Lowercase(prompt), "hi", i)
    ensures GenerateFakeResponse(prompt, systemPrompt) == GREETING
  {
  }

  /** The progress values a load writes: 0, then 1 to 10 tenths. */
  function LoadProgress(): (r: seq<nat>)
    ensures |r| == LOAD_STEPS + 1 && r[0] == 0 && r[LOAD_STEPS] == LOAD_STEPS
    ensures forall i, j :: 0 <= i < j < |r| ==> r[i] < r[j]
  {
    seq(LOAD_STEPS + 1, i => i)
  }

  class FakeLLMProvider {
    var isLoaded: bool
    var loadingProgress: nat
    var modelInfo: Option<ModelInfo>
    var isCancelled: bool
    ghost var progressHistory: seq<nat>

    /** The state of a fresh provider, and of one after `unload()`. */
    predicate Unloaded()
      reads this
    {
      !isLoaded && loadingProgress == 0 && modelInfo.None?
    }

    constructor ()
      ensures Unloaded() && !isCancelled && progressHistory == []
    {
      isLoaded := false;
      loadingProgress := 0;
      modelInfo := None;
      isCancelled := false;
      progressHistory := [];
    }

    /** `load(modelPath)`: progress 0, then the ten steps, then the model info and the loaded flag. */
    method Load(modelPath: string)
      modifies this
      ensures isLoaded && modelInfo == Some(FAKE_MODEL_INFO) && loadingProgress == LOAD_STEPS
      ensures progressHistory == old(progressHistory) + LoadProgress()
      ensures isCancelled == old(isCancelled)
    {
      loadingProgress := 0;
      progressHistory := progressHistory + [0];
      var i := 1;
      while i <= LOAD_STEPS
        invariant 1 <= i <= LOAD_STEPS + 1
        invariant loadingProgress == i - 1
        invariant progressHistory == old(progressHistory) + LoadProgress()[..i]
        invariant isCancelled == old(isCancelled)
      {
        loadingProgress := i;
        progressHistory := progressHistory + [i];
        assert LoadProgress()[..i + 1] == LoadProgress()[..i] + [i];
        i := i + 1;
      }
      assert LoadProgress()[..i] == LoadProgress();
      modelInfo := Some(FAKE_MODEL_INFO);
      isLoaded := true;
    }

    /** `unload()`: back to the unloaded state, whatever the state before. */
    method Unload()
      modifies this
      ensures Unloaded()
      ensures isCancelled == old(isCancelled)
      ensures progressHistory == old(progressHistory) + [0]
    {
      isLoaded := false;
      modelInfo := None;
      loadingProgress := 0;
      progressHistory := progressHistory + [0];
    }

    /** `cancel()`: raises the flag the streaming loop checks. */
    method Cancel()
      modifies this
      ensures isCancelled
      ensures isLoaded == old(isLoaded) && loadingProgress == old(loadingProgress) && modelInfo == old(modelInfo)
      ensures progressHistory == old(progressHistory)
    {
      isCancelled := true;
    }

    /**
     * `generateStream(prompt, systemPrompt)`, collected. The flag is cleared first, so
     * a cancel from before the call has no effect; a cancel arriving once `k` chunks were
     * emitted stops the loop there. The loaded flag is not consulted.
     */
    method GenerateStream(prompt: string, systemPrompt: string, cancelAfter: Option<nat>) returns (chunks: seq<string>)
      modifies this
      ensures chunks == Streamed(GenerateFakeResponse(prompt, systemPrompt), cancelAfter)
      ensures isCancelled <==> cancelAfter.Some? && cancelAfter.value <= |Split(GenerateFakeResponse(prompt, systemPrompt))|
      ensures isLoaded == old(isLoaded) && loadingProgress == old(loadingProgress) && modelInfo == old(modelInfo)
      ensures progressHistory == old(progressHistory)
    {
      isCancelled := false;
      var response := GenerateFakeResponse(prompt, systemPrompt);
      chunks := EmitWords(response, cancelAfter);
    }

    /** The word loop: each word emitted with a trailing space until the flag is seen set. */
    method EmitWords(response: string, cancelAfter: Option<nat>) returns (chunks: seq<string>)
      requires !isCancelled
      modifies this
      ensures chunks == Streamed(response, cancelAfter)
      ensures isCancelled <==> cancelAfter.Some? && cancelAfter.value <= |Split(response)|
      ensures isLoaded == old(isLoaded) && loadingProgress == old(loadingProgress) && modelInfo == old(modelInfo)
      ensures progressHistory == old(progressHistory)
    {
      var words := Split(response);
      chunks := [];
      var i := 0;
      if cancelAfter == Some(0) {
        Cancel();
      }
      while i < |words| && !isCancelled
        invariant 0 <= i <= |words|
        invariant chunks == WordChunks(response)[..i]
        invariant cancelAfter.Some? ==> i <= cancelAfter.value
        invariant isCancelled <==> cancelAfter.Some? && cancelAfter.value == i
        invariant isLoaded == old(isLoaded) && loadingProgress == old(loadingProgress) && modelInfo == old(modelInfo)
        invariant progressHistory == old(progressHistory)
      {
        PrefixStep(WordChunks(response), i);
        chunks := chunks + [words[i] + " "];
        i := i + 1;
        if cancelAfter == Some(i) {
          Cancel();
        }
      }
    }
  }

  /** Loading and then unloading a fresh provider gives back the fresh state. */
  method LoadThenUnload() returns (p: FakeLLMProvider)
    ensures p.Unloaded() && !p.isCancelled
    ensures p.progressHistory == LoadProgress() + [0]
  {
    p := new FakeLLMProvider();
    p.Load("");
    p.Unload();
  }
}

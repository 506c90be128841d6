/**
 * `MediaPipeLLMProvider` (MediaPipeLLMProvider.kt): the on-device backend. The
 * inference engine itself is outside the model: its creation outcome, the file's
 * length and the text it generates are parameters, and `InferenceHandle` stands for
 * the engine object, remembering which model file it was created from.
 *
 * `loadingProgress` is in tenths (0.1f is 1, 1.0f is 10); `progressHistory` records
 * every value written to it.
 */
module MediaPipeLlm {
  import opened Nullable
  import opened Text
  import opened Results
  import opened LlmProvider
  import opened Seqs

  const DEFAULT_MAX_TOKENS := 512
  const DEFAULT_CONTEXT_LENGTH := 4096
  const DEFAULT_SYSTEM_CONTENT := "You are J.A.R.V.I.S., a helpful AI assistant. Be concise and helpful."
  const NOT_LOADED := "Model not loaded"

  /** The engine created from one model file. */
  datatype InferenceHandle = InferenceHandle(modelPath: string)

  function NotFoundMessage(modelPath: string): string {
    "Model file not found: " + modelPath
  }

  /** `File(path).name`: the part after the last separator. */
  function FileName(path: string): string {
    if '/' in path then AfterLast(path, '/', path) else path
  }

  /** `File(path).nameWithoutExtension`: the file name up to its last dot. */
  function NameWithoutExtension(path: string): string {
    var name := FileName(path);
    BeforeLast(name, '.', name)
  }

  /**
   * The name reported for a model file: the file name, with no directory part, cut
   * before its last dot when it has one.
   */
  lemma NameWithoutExtensionShape(path: string)
    ensures '/' !in FileName(path) && EndsWith(path, FileName(path))
    ensures StartsWith(FileName(path), NameWithoutExtension(path))
    ensures '.' in FileName(path) ==>
      |NameWithoutExtension(path)| < |FileName(path)| && FileName(path)[|NameWithoutExtension(path)|] == '.'
    ensures '.' !in FileName(path) ==> NameWithoutExtension(path) == FileName(path)
  {
    if '/' !in path {
      assert path[|path| - |path|..] == path;
    }
    var name := FileName(path);
    if '.' !in name {
      assert name[..|name|] == name;
    }
  }

  /** `systemPrompt.ifBlank { ... }`: the system section is never blank. */
  function SystemContent(systemPrompt: string): (r: string)
    ensures !IsBlank(r)
    ensures !IsBlank(systemPrompt) ==> r == systemPrompt
    ensures IsBlank(systemPrompt) ==> r == DEFAULT_SYSTEM_CONTENT
  {
    assert DEFAULT_SYSTEM_CONTENT[|DEFAULT_SYSTEM_CONTENT| - 1] == '.';
    if IsBlank(systemPrompt) then DEFAULT_SYSTEM_CONTENT else systemPrompt
  }

  /** `buildPrompt(userMessage, systemPrompt)`: the plain System/User/Assistant template. */
  function BuildPrompt(userMessage: string, systemPrompt: string): string {
    "System: " + SystemContent(systemPrompt) + "\n\nUser: " + userMessage + "\n\nAssistant:"
  }

  /**
   * The prompt opens with the system section, ends on the assistant cue, and carries
   * the user's message verbatim and the system content verbatim.
   */
  lemma BuildPromptCarriesBoth(userMessage: string, systemPrompt: string)
    ensures StartsWith(BuildPrompt(userMessage, systemPrompt), "System: ")
    ensures EndsWith(BuildPrompt(userMessage, systemPrompt), "\n\nAssistant:")
    ensures Contains(BuildPrompt(userMessage, systemPrompt), userMessage)
    ensures Contains(BuildPrompt(userMessage, systemPrompt), SystemContent(systemPrompt))
  {
    var a := "System: ";
    var s := SystemContent(systemPrompt);
    var b := "\n\nUser: ";
    var c := "\n\nAssistant:";
    StartsWithConcat(a, s);
    StartsWithAppend(a + s, a, b);
    StartsWithAppend(a + s + b, a, userMessage);
    StartsWithAppend(a + s + b + userMessage, a, c);
    EndsWithConcat(a + s + b + userMessage, c);
    ContainsMiddle(a + s + b, userMessage, c);
    ContainsMiddle(a, s, b);
    ContainsInLeft(a + s + b, userMessage, s);
    ContainsInLeft(a + s + b + userMessage, c, s);
  }

  class MediaPipeLLMProvider {
    var isLoaded: bool
    var loadingProgress: nat
    var modelInfo: Option<ModelInfo>
    var llmInference: Option<InferenceHandle>
    var isCancelled: bool
    var currentModelPath: Option<string>
    ghost var progressHistory: seq<nat>

    /**
     * The engine, the model info and the current path are present together, the path
     * is the engine's, and a loaded provider has an engine and full progress.
     */
    ghost predicate Valid()
      reads this
    {
      && (llmInference.Some? <==> currentModelPath.Some?)
      && (llmInference.Some? <==> modelInfo.Some?)
      && (llmInference.Some? ==> llmInference.value.modelPath == currentModelPath.value)
      && (isLoaded ==> llmInference.Some? && loadingProgress == 10)
    }

    /** Everything except the cancel flag. */
    ghost function Snapshot(): (bool, nat, Option<ModelInfo>, Option<InferenceHandle>, Option<string>, seq<nat>)
      reads this
    {
      (isLoaded, loadingProgress, modelInfo, llmInference, currentModelPath, progressHistory)
    }

    constructor ()
      ensures Valid()
      ensures !isLoaded && loadingProgress == 0 && modelInfo.None? && llmInference.None?
      ensures !isCancelled && currentModelPath.None? && progressHistory == []
    {
      isLoaded := false;
      loadingProgress := 0;
      modelInfo := None;
      llmInference := None;
      isCancelled := false;
      currentModelPath := None;
      progressHistory := [];
    }

    method SetProgress(tenths: nat)
      modifies this
      ensures loadingProgress == tenths && progressHistory == old(progressHistory) + [tenths]
      ensures isLoaded == old(isLoaded) && modelInfo == old(modelInfo) && llmInference == old(llmInference)
      ensures isCancelled == old(isCancelled) && currentModelPath == old(currentModelPath)
    {
      loadingProgress := tenths;
      progressHistory := progressHistory + [tenths];
    }

    /**
     * `load(modelPath)`: `fileLength` is the model file's length (`None`: no such file)
     * and `createFailure` what `createFromOptions` throws, if anything. The thrown
     * exception comes back as `failure`. A failure clears the loaded flag and the
     * progress but leaves the previous engine, model info and path in place.
     */
    method Load(modelPath: string, fileLength: Option<nat>, createFailure: Option<Throwable>) returns (failure: Option<Throwable>)
      requires Valid()
      modifies this
      ensures Valid()
      ensures failure.None? <==> fileLength.Some? && createFailure.None?
      ensures fileLength.None? ==> failure == Some(Throwable(Some(NotFoundMessage(modelPath))))
      ensures fileLength.Some? && createFailure.Some? ==> failure == createFailure
      ensures failure.None? ==>
        && isLoaded && loadingProgress == 10
        && llmInference == Some(InferenceHandle(modelPath))
        && modelInfo == Some(ModelInfo(NameWithoutExtension(modelPath), fileLength.value, DEFAULT_CONTEXT_LENGTH))
        && currentModelPath == Some(modelPath)
        && progressHistory == old(progressHistory) + [1, 3, 5, 9, 10]
      ensures failure.Some? ==>
        && !isLoaded && loadingProgress == 0
        && llmInference == old(llmInference) && modelInfo == old(modelInfo) && currentModelPath == old(currentModelPath)
        && progressHistory == old(progressHistory) + (if fileLength.None? then [1, 0] else [1, 3, 5, 0])
      ensures isCancelled == old(isCancelled)
    {
      ghost var before := progressHistory;
      SetProgress(1);
      if fileLength.None? {
        failure := Some(Throwable(Some(NotFoundMessage(modelPath))));
        FailLoad();
        assert progressHistory == before + [1] + [0];
        return;
      }
      SetProgress(3);
      SetProgress(5);
      ghost var created := progressHistory;
      assert created == before + [1, 3, 5];
      if createFailure.Some? {
        failure := createFailure;
        FailLoad();
        assert progressHistory == created + [0];
        return;
      }
      FinishLoad(modelPath, fileLength.value);
      failure := None;
      assert progressHistory == created + [9, 10];
    }

    /** The catch block of `load`: the flag and the progress are cleared, nothing else. */
    method FailLoad()
      modifies this
      ensures !isLoaded && loadingProgress == 0 && progressHistory == old(progressHistory) + [0]
      ensures modelInfo == old(modelInfo) && llmInference == old(llmInference)
      ensures isCancelled == old(isCancelled) && currentModelPath == old(currentModelPath)
    {
      isLoaded := false;
      SetProgress(0);
    }

    /** The end of a successful `load`, once the engine exists. */
    method FinishLoad(modelPath: string, length: nat)
      modifies this
      ensures isLoaded && loadingProgress == 10
      ensures llmInference == Some(InferenceHandle(modelPath))
      ensures modelInfo == Some(ModelInfo(NameWithoutExtension(modelPath), length, DEFAULT_CONTEXT_LENGTH))
      ensures currentModelPath == Some(modelPath)
      ensures progressHistory == old(progressHistory) + [9, 10]
      ensures isCancelled == old(isCancelled)
    {
      llmInference := Some(InferenceHandle(modelPath));
      SetProgress(9);
      modelInfo := Some(ModelInfo(NameWithoutExtension(modelPath), length, DEFAULT_CONTEXT_LENGTH));
      currentModelPath := Some(modelPath);
      SetProgress(10);
      isLoaded := true;
    }

    /**
     * `unload()`: `closeFails` says whether closing the engine throws. That exception is
     * only logged, and then nothing has changed; otherwise everything is cleared.
     */
    method Unload(closeFails: bool)
      requires Valid()
      modifies this
      ensures Valid()
      ensures isCancelled == old(isCancelled)
      ensures old(llmInference).Some? && closeFails ==>
        && isLoaded == old(isLoaded) && loadingProgress == old(loadingProgress) && modelInfo == old(modelInfo)
        && llmInference == old(llmInference) && currentModelPath == old(currentModelPath)
        && progressHistory == old(progressHistory)
      ensures old(llmInference).None? || !closeFails ==>
        && !isLoaded && loadingProgress == 0 && modelInfo.None? && llmInference.None? && currentModelPath.None?
        && progressHistory == old(progressHistory) + [0]
    {
      if llmInference.Some? && closeFails {
        return;
      }
      llmInference := None;
      isLoaded := false;
      modelInfo := None;
      SetProgress(0);
      currentModelPath := None;
    }

    /** `cancel()`: raises the flag the streaming loop checks. */
    method Cancel()
      modifies this
      ensures isCancelled
      ensures Snapshot() == old(Snapshot())
    {
      isCancelled := true;
    }

    /**
     * `generateStream(prompt, systemPrompt)`, collected. `sent` is the full prompt handed
     * to the engine (none when there is no engine), `generated` what the engine's
     * `generateResponse` returned or threw. Only the presence of an engine is checked,
     * not the loaded flag. A cancel during generation (`Some(0)`) suppresses all output.
     */
    method GenerateStream(prompt: string, systemPrompt: string, generated: Attempt<Option<string>>, cancelAfter: Option<nat>)
      returns (sent: Option<string>, outcome: Attempt<seq<string>>)
      requires Valid()
      modifies this
      ensures Valid()
      ensures old(llmInference).None? ==>
        sent.None? && outcome == Thrown(Throwable(Some(NOT_LOADED))) && isCancelled == old(isCancelled)
      ensures old(llmInference).Some? ==> sent == Some(BuildPrompt(prompt, systemPrompt))
      ensures old(llmInference).Some? && generated.Thrown? ==> outcome == Thrown(generated.exception) && !isCancelled
      ensures old(llmInference).Some? && generated.Returned? && generated.value.None? ==>
        outcome == Returned([]) && (isCancelled <==> cancelAfter == Some(0))
      ensures old(llmInference).Some? && generated.Returned? && generated.value.Some? ==>
        && outcome == Returned(Streamed(generated.value.value, cancelAfter))
        && (isCancelled <==> cancelAfter.Some? && cancelAfter.value <= |Split(generated.value.value)|)
      ensures Snapshot() == old(Snapshot())
    {
      if llmInference.None? {
        sent := None;
        outcome := Thrown(Throwable(Some(NOT_LOADED)));
        return;
      }
      isCancelled := false;
      sent := Some(BuildPrompt(prompt, systemPrompt));
      if generated.Thrown? {
        outcome := Thrown(generated.exception);
        return;
      }
      if cancelAfter == Some(0) {
        Cancel();
      }
      var result := generated.value;
      if isCancelled || result.None? {
        outcome := Returned([]);
        return;
      }
      var chunks := EmitWords(result.value, cancelAfter);
      outcome := Returned(chunks);
    }

    /** The word loop: each word emitted with a trailing space until the flag is seen set. */
    method EmitWords(response: string, cancelAfter: Option<nat>) returns (chunks: seq<string>)
      requires !isCancelled && cancelAfter != Some(0)
      modifies this
      ensures chunks == Streamed(response, cancelAfter)
      ensures isCancelled <==> cancelAfter.Some? && cancelAfter.value <= |Split(response)|
      ensures Snapshot() == old(Snapshot())
    {
      var words := Split(response);
      chunks := [];
      var i := 0;
      while i < |words| && !isCancelled
        invariant 0 <= i <= |words|
        invariant chunks == WordChunks(response)[..i]
        invariant cancelAfter.Some? ==> i <= cancelAfter.value
        invariant isCancelled <==> cancelAfter.Some? && cancelAfter.value == i
        invariant Snapshot() == old(Snapshot())
      {
        PrefixStep(WordChunks(response), i);
        chunks := chunks + [words[i] + " "];
        i := i + 1;
        if cancelAfter == Some(i) {
          Cancel();
        }
      }
    }
  }

  /**
   * After a successful load, a reload whose engine creation fails reports the provider
   * as not loaded, yet generation still runs on the engine of the earlier model.
   */
  method FailedReloadStillGenerates(first: string, second: string, length: nat, e: Throwable, reply: string)
    returns (failure: Option<Throwable>, sent: Option<string>, outcome: Attempt<seq<string>>, loaded: bool, engine: Option<InferenceHandle>)
    ensures failure == Some(e) && !loaded
    ensures engine == Some(InferenceHandle(first))
    ensures sent.Some? && outcome == Returned(WordChunks(reply))
  {
    var p := new MediaPipeLLMProvider();
    var ok := p.Load(first, Some(length), None);
    failure := p.Load(second, Some(length), Some(e));
    loaded := p.isLoaded;
    engine := p.llmInference;
    sent, outcome := p.GenerateStream("", "", Returned(Some(reply)), None);
  }
}

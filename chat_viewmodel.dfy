/**
 * `ChatViewModel` (ChatViewModel.kt): the chat screen's state holder. Every handler
 * replaces `uiState` with an updated copy and may queue one-shot events on `events`
 * (the channel, unbounded here).
 *
 * The coroutines the source launches are explicit steps the environment calls in
 * order: the model load's outcome (`OnLoadFailed`), each value of the provider's
 * `isLoaded` and `loadingProgress` flows (`OnIsLoaded`, `OnLoadingProgress`), and the
 * reply stream (`CollectResponse`). Ids and clock readings are parameters.
 */
module ChatViewModels {
  import opened Nullable
  import opened Seqs
  import opened Text
  import opened Fractions
  import opened Tables
  import opened Domain
  import opened Entities
  import opened ChatStates
  import opened ModelManagers
  import opened SaveCorrections

  const FAKE_MODEL_PATH := "fake://model"
  const LOAD_FAILED := "Failed to load model"
  const SEND_FAILED_ERROR := "Unknown error"
  const SEND_FAILED_EVENT := "Failed to send message"
  const SAVE_FAILED := "Failed to save correction"

  /** The `context` a correction made on screen is saved with. */
  function CorrectionContext(conversationId: string, messageId: string): string {
    "conversation:" + conversationId + ",message:" + messageId
  }

  /** The progress the screen shows once the Starting and Progress events in `events` were handled. */
  function ShownProgress(events: seq<DownloadState>): Fraction {
    if events == [] then ZERO
    else match events[|events| - 1]
      case Progress(p, _, _) => p
      case _ => ZERO
  }

  /** `Starting` shows zero, so a download's shown progress is that of its progress events. */
  lemma ShownAfterStarting(emitted: seq<DownloadState>, progress: seq<DownloadState>)
    requires 2 <= |emitted| && emitted[0] == Starting && emitted[1..|emitted| - 1] == progress
    ensures emitted[..|emitted| - 1] == [Starting] + progress
    ensures ShownProgress(emitted[..|emitted| - 1]) == ShownProgress(progress)
  {
    assert emitted[..|emitted| - 1] == [Starting] + progress;
  }

  class ChatViewModel {
    const useRealLlm: bool
    const conversationId: string
    const modelManager: ModelManager
    const saveCorrectionUseCase: SaveCorrectionUseCase
    var uiState: ChatUiState
    var events: seq<ChatEvent>

    /**
     * Loading and streaming go together, and a correction in progress always refers
     * to an assistant message on screen.
     */
    ghost predicate Valid()
      reads this
    {
      && uiState.isLoading == uiState.isStreaming
      && (uiState.correctionMode.Some? ==>
            HasAssistantMessage(uiState.messages, uiState.correctionMode.value.originalMessageId))
    }

    /** The state before `init` launches its two jobs. */
    constructor (useRealLlm: bool, conversationId: string, modelManager: ModelManager, saveCorrectionUseCase: SaveCorrectionUseCase)
      ensures Valid()
      ensures this.useRealLlm == useRealLlm && this.conversationId == conversationId
      ensures this.modelManager == modelManager && this.saveCorrectionUseCase == saveCorrectionUseCase
      ensures uiState == INITIAL_STATE && events == []
    {
      this.useRealLlm := useRealLlm;
      this.conversationId := conversationId;
      this.modelManager := modelManager;
      this.saveCorrectionUseCase := saveCorrectionUseCase;
      uiState := INITIAL_STATE;
      events := [];
    }

    /** `loadModel()` up to the provider call: the state turns Loading; returns the path to load. */
    method LoadModel() returns (modelPath: string)
      requires Valid()
      modifies this
      ensures Valid()
      ensures uiState == old(uiState).(modelState := Loading) && events == old(events)
      ensures modelPath == if useRealLlm then modelManager.GetModelPath(DEFAULT_MODEL_NAME) else FAKE_MODEL_PATH
    {
      uiState := uiState.(modelState := Loading);
      modelPath := if useRealLlm then modelManager.GetModelPath() else FAKE_MODEL_PATH;
    }

    /** The catch block of `loadModel()`: the provider's exception message, or a fixed one. */
    method OnLoadFailed(message: Option<string>)
      requires Valid()
      modifies this
      ensures Valid()
      ensures uiState == old(uiState).(modelState := Error(message.GetOr(LOAD_FAILED))) && events == old(events)
    {
      uiState := uiState.(modelState := Error(message.GetOr(LOAD_FAILED)));
    }

    /**
     * `checkModelStatus()`: the fake backend loads at once; the real one loads when the
     * default model file is available and otherwise asks for a download. `loadPath` is
     * the path handed to the provider, if any.
     */
    method CheckModelStatus() returns (loadPath: Option<string>)
      requires Valid()
      modifies this
      ensures Valid()
      ensures events == old(events)
      ensures !useRealLlm ==> loadPath == Some(FAKE_MODEL_PATH) && uiState == old(uiState).(modelState := Loading)
      ensures useRealLlm && modelManager.IsModelAvailable(DEFAULT_MODEL_NAME) ==>
        loadPath == Some(modelManager.GetModelPath(DEFAULT_MODEL_NAME)) && uiState == old(uiState).(modelState := Loading)
      ensures useRealLlm && !modelManager.IsModelAvailable(DEFAULT_MODEL_NAME) ==>
        loadPath.None? && uiState == old(uiState).(modelState := NeedsDownload)
    {
      if !useRealLlm || modelManager.IsModelAvailable() {
        var path := LoadModel();
        loadPath := Some(path);
      } else {
        uiState := uiState.(modelState := NeedsDownload);
        loadPath := None;
      }
    }

    /** One value of the provider's `isLoaded` flow: `true` makes the model Ready and queues ModelReady. */
    method OnIsLoaded(isLoaded: bool)
      requires Valid()
      modifies this
      ensures Valid()
      ensures isLoaded ==> uiState == old(uiState).(modelState := Ready) && events == old(events) + [ModelReady]
      ensures !isLoaded ==> uiState == old(uiState) && events == old(events)
    {
      if isLoaded {
        uiState := uiState.(modelState := Ready);
        events := events + [ModelReady];
      }
    }

    /** One value of the provider's `loadingProgress` flow. */
    method OnLoadingProgress(progress: nat)
      requires Valid()
      modifies this
      ensures Valid()
      ensures uiState == old(uiState).(modelLoadProgress := progress) && events == old(events)
    {
      uiState := uiState.(modelLoadProgress := progress);
    }

    /** One event of the download flow; a Completed download goes on to load, returning the path. */
    method OnDownloadEvent(state: DownloadState) returns (loadPath: Option<string>)
      requires Valid()
      modifies this
      ensures Valid()
      ensures events == old(events)
      ensures state.Starting? ==> uiState == old(uiState).(downloadProgress := ZERO) && loadPath.None?
      ensures state.Progress? ==> uiState == old(uiState).(downloadProgress := state.progress) && loadPath.None?
      ensures state.Completed? ==>
        && uiState == old(uiState).(isDownloading := false, modelState := Loading)
        && loadPath == Some(if useRealLlm then modelManager.GetModelPath(DEFAULT_MODEL_NAME) else FAKE_MODEL_PATH)
      ensures state.Failed? ==>
        uiState == old(uiState).(isDownloading := false, modelState := Error(state.error)) && loadPath.None?
    {
      match state
      case Starting =>
        uiState := uiState.(downloadProgress := ZERO);
        loadPath := None;
      case Progress(p, _, _) =>
        uiState := uiState.(downloadProgress := p);
        loadPath := None;
      case Completed(_) =>
        uiState := uiState.(isDownloading := false);
        var path := LoadModel();
        loadPath := Some(path);
      case Failed(e) =>
        uiState := uiState.(isDownloading := false, modelState := Error(e));
        loadPath := None;
    }

    /**
     * `onDownloadModel()`: the default model is downloaded (see `ModelManager.DownloadModel`
     * for the parameters) and every event it emits is handled in order. A completed
     * download ends in a load of the model, a failed one in the Error state; either way
     * the screen stops showing the download.
     */
    method OnDownloadModel(totalSize: int, chunks: seq<nat>, failure: Option<Interruption>, renameSucceeds: bool)
      returns (loadPath: Option<string>)
      requires Valid()
      requires forall i :: 0 <= i < |chunks| ==> 0 < chunks[i] <= BUFFER_SIZE
      modifies this, modelManager
      ensures Valid()
      ensures events == old(events)
      ensures failure.Some? ==>
        && uiState == old(uiState).(
             isDownloading := false,
             downloadProgress := ShownProgress(ProgressEvents(chunks[..Written(chunks, failure)], totalSize)),
             modelState := Error(failure.value.message.GetOr(DOWNLOAD_FAILED)))
        && loadPath.None?
      ensures failure.None? ==>
        && uiState == old(uiState).(
             isDownloading := false,
             downloadProgress := ShownProgress(ProgressEvents(chunks[..Written(chunks, failure)], totalSize)),
             modelState := Loading)
        && loadPath == Some(if useRealLlm then modelManager.GetModelPath(DEFAULT_MODEL_NAME) else FAKE_MODEL_PATH)
      ensures !modelManager.isDownloading
      ensures modelManager.downloadingHistory == old(modelManager.downloadingHistory) + [true, false]
      ensures modelManager.progressHistory
           == old(modelManager.progressHistory) + [ZERO]
              + ProgressValues(chunks[..Written(chunks, failure)], totalSize) + [modelManager.downloadProgress]
      ensures failure.Some? ==>
        && modelManager.files == old(modelManager.files) - {DEFAULT_MODEL_NAME + TEMP_SUFFIX}
        && modelManager.downloadProgress == ZERO
      ensures failure.None? ==>
        && modelManager.downloadProgress == ONE
        && modelManager.files
           == if renameSucceeds then (old(modelManager.files) - {DEFAULT_MODEL_NAME + TEMP_SUFFIX})[DEFAULT_MODEL_NAME := Sum(chunks)]
              else old(modelManager.files)[DEFAULT_MODEL_NAME + TEMP_SUFFIX := Sum(chunks)]
      ensures failure.None? && renameSucceeds ==>
        (modelManager.IsModelAvailable(DEFAULT_MODEL_NAME) <==> Sum(chunks) > 0)
      ensures failure.Some? || !renameSucceeds ==>
        (modelManager.IsModelAvailable(DEFAULT_MODEL_NAME) <==> old(modelManager.IsModelAvailable(DEFAULT_MODEL_NAME)))
    {
      ghost var before := uiState;
      uiState := uiState.(isDownloading := true, downloadProgress := ZERO);
      var emitted := modelManager.DownloadModel(DEFAULT_MODEL_NAME, totalSize, chunks, failure, renameSucceeds);
      ghost var progress := ProgressEvents(chunks[..Written(chunks, failure)], totalSize);
      ShownAfterStarting(emitted, progress);
      var reported := emitted[..|emitted| - 1];
      HandleProgressEvents(reported);
      assert uiState == before.(isDownloading := true, downloadProgress := ShownProgress(progress));
      var last := emitted[|emitted| - 1];
      if failure.Some? {
        assert last == Failed(failure.value.message.GetOr(DOWNLOAD_FAILED));
        loadPath := OnDownloadEvent(last);
      } else {
        assert last.Completed?;
        loadPath := OnDownloadEvent(last);
      }
    }

    /** The Starting and Progress events of a download, handled in order. */
    method HandleProgressEvents(reported: seq<DownloadState>)
      requires Valid()
      requires forall i :: 0 <= i < |reported| ==> reported[i].Starting? || reported[i].Progress?
      modifies this
      ensures Valid() && events == old(events)
      ensures reported == [] ==> uiState == old(uiState)
      ensures reported != [] ==> uiState == old(uiState).(downloadProgress := ShownProgress(reported))
    {
      var i := 0;
      while i < |reported|
        invariant 0 <= i <= |reported|
        invariant Valid() && events == old(events)
        invariant i == 0 ==> uiState == old(uiState)
        invariant i > 0 ==> uiState == old(uiState).(downloadProgress := ShownProgress(reported[..i]))
      {
        var ignored := OnDownloadEvent(reported[i]);
        assert reported[..i + 1][i] == reported[i];
        i := i + 1;
      }
      assert reported[..i] == reported;
    }

    /** `onInputChanged(text)`. */
    method OnInputChanged(text: string)
      requires Valid()
      modifies this
      ensures Valid()
      ensures uiState == old(uiState).(inputText := text) && events == old(events)
    {
      uiState := uiState.(inputText := text);
    }

    /**
     * `onSendMessage()` up to the launch: ignored with blank input, while a reply is
     * loading, or unless the model is Ready; otherwise the input is cleared, the reply
     * awaited and the user's trimmed text shown as a USER message. `request` is the text
     * handed to the send-message use case.
     */
    method OnSendMessage(userMsgId: string, now: int) returns (request: Option<string>)
      requires Valid()
      modifies this
      ensures Valid()
      ensures events == old(events)
      ensures request.None? <==> Trim(old(uiState).inputText) == "" || old(uiState).isLoading || old(uiState).modelState != Ready
      ensures request.None? ==> uiState == old(uiState)
      ensures request.Some? ==>
        && request.value == Trim(old(uiState).inputText)
        && uiState == old(uiState).(
             inputText := "", isLoading := true, isStreaming := true, streamingText := "", error := None,
             messages := old(uiState).messages + [ChatMessage(userMsgId, USER, request.value, now)])
    {
      var text := Trim(uiState.inputText);
      if text == "" || uiState.isLoading {
        return None;
      }
      if uiState.modelState != Ready {
        return None;
      }
      uiState := uiState.(inputText := "", isLoading := true, isStreaming := true, streamingText := "", error := None);
      var userMessage := ChatMessage(userMsgId, USER, text, now);
      if uiState.correctionMode.Some? {
        AppendKeepsAssistantMessages(uiState.messages, [userMessage], uiState.correctionMode.value.originalMessageId);
      }
      uiState := uiState.(messages := uiState.messages + [userMessage]);
      request := Some(text);
    }

    /** One chunk of the reply: appended to the text being streamed. */
    method OnResponseChunk(chunk: string)
      requires Valid()
      modifies this
      ensures Valid()
      ensures uiState == old(uiState).(streamingText := old(uiState).streamingText + chunk) && events == old(events)
    {
      uiState := uiState.(streamingText := uiState.streamingText + chunk);
    }

    /** The reply stream completed: the streamed text becomes one ASSISTANT message. */
    method OnResponseComplete(assistantMsgId: string, now: int)
      requires Valid()
      modifies this
      ensures Valid()
      ensures uiState == old(uiState).(
        messages := old(uiState).messages + [ChatMessage(assistantMsgId, ASSISTANT, old(uiState).streamingText, now)],
        isLoading := false, isStreaming := false, streamingText := "")
      ensures events == old(events) + [ScrollToBottom]
    {
      var assistantMessage := ChatMessage(assistantMsgId, ASSISTANT, uiState.streamingText, now);
      if uiState.correctionMode.Some? {
        AppendKeepsAssistantMessages(uiState.messages, [assistantMessage], uiState.correctionMode.value.originalMessageId);
      }
      uiState := uiState.(messages := uiState.messages + [assistantMessage], isLoading := false, isStreaming := false, streamingText := "");
      events := events + [ScrollToBottom];
    }

    /**
     * The reply stream failed: no message is added, the streamed text is left as it is,
     * the error is shown and ShowError queued (with different fallback texts).
     */
    method OnResponseFailed(message: Option<string>)
      requires Valid()
      modifies this
      ensures Valid()
      ensures uiState == old(uiState).(isLoading := false, isStreaming := false, error := Some(message.GetOr(SEND_FAILED_ERROR)))
      ensures events == old(events) + [ShowError(message.GetOr(SEND_FAILED_EVENT))]
    {
      uiState := uiState.(isLoading := false, isStreaming := false, error := Some(message.GetOr(SEND_FAILED_ERROR)));
      events := events + [ShowError(message.GetOr(SEND_FAILED_EVENT))];
    }

    /**
     * The job `onSendMessage()` launches: `chunks` are collected one by one, then the
     * stream either completes or ends with `failure` (the exception's message, if any).
     * On completion the new ASSISTANT message holds exactly the collected text.
     */
    method CollectResponse(chunks: seq<string>, failure: Option<Option<string>>, assistantMsgId: string, now: int)
      requires Valid()
      modifies this
      ensures Valid()
      ensures failure.None? ==>
        && uiState == old(uiState).(
             messages := old(uiState).messages + [ChatMessage(assistantMsgId, ASSISTANT, old(uiState).streamingText + Flatten(chunks), now)],
             isLoading := false, isStreaming := false, streamingText := "")
        && events == old(events) + [ScrollToBottom]
      ensures failure.Some? ==>
        && uiState == old(uiState).(
             isLoading := false, isStreaming := false,
             streamingText := old(uiState).streamingText + Flatten(chunks),
             error := Some(failure.value.GetOr(SEND_FAILED_ERROR)))
        && events == old(events) + [ShowError(failure.value.GetOr(SEND_FAILED_EVENT))]
    {
      var i := 0;
      while i < |chunks|
        invariant 0 <= i <= |chunks|
        invariant Valid() && events == old(events)
        invariant uiState == old(uiState).(streamingText := old(uiState).streamingText + Flatten(chunks[..i]))
      {
        OnResponseChunk(chunks[i]);
        PrefixStep(chunks, i);
        FlattenAppend(chunks[..i], chunks[i]);
        i := i + 1;
      }
      assert chunks[..i] == chunks;
      if failure.None? {
        OnResponseComplete(assistantMsgId, now);
      } else {
        OnResponseFailed(failure.value);
      }
    }

    /**
     * `onStartCorrection(messageId)`: only the first message with that id counts, and
     * only when it is an ASSISTANT message; then it is the one being corrected and its
     * text is put in the input.
     */
    method OnStartCorrection(messageId: string)
      requires Valid()
      modifies this
      ensures Valid()
      ensures events == old(events)
      ensures var found := FindMessage(old(uiState).messages, messageId);
        if found.Some? && found.value.role == ASSISTANT then
          uiState == old(uiState).(correctionMode := Some(CorrectionMode(messageId, found.value.content)), inputText := found.value.content)
        else uiState == old(uiState)
    {
      var found := FindMessage(uiState.messages, messageId);
      if found.None? || found.value.role != ASSISTANT {
        return;
      }
      uiState := uiState.(correctionMode := Some(CorrectionMode(messageId, found.value.content)), inputText := found.value.content);
    }

    /**
     * `onSubmitCorrection()`, with the launched job run to its end: nothing happens
     * without a correction in progress or with blank input. Otherwise one correction is
     * saved, or `saveFails` and only ShowError is queued. A saved correction replaces
     * the content of the messages with the corrected id, in place, and ends the
     * correction.
     */
    method OnSubmitCorrection(correctionId: string, now: int, saveFails: bool) returns (saved: bool)
      requires Valid()
      requires saveCorrectionUseCase.learningRepository.Valid()
      modifies this, saveCorrectionUseCase.learningRepository.correctionDao
      ensures Valid()
      ensures saveCorrectionUseCase.learningRepository.Valid()
      ensures saved <==> old(uiState).correctionMode.Some? && Trim(old(uiState).inputText) != "" && !saveFails
      ensures !saved ==> uiState == old(uiState)
      ensures !saved ==> (saveCorrectionUseCase.learningRepository.correctionDao.rows
                          == old(saveCorrectionUseCase.learningRepository.correctionDao.rows))
      ensures !saved && old(uiState).correctionMode.Some? && Trim(old(uiState).inputText) != "" ==>
        events == old(events) + [ShowError(SAVE_FAILED)]
      ensures !saved && (old(uiState).correctionMode.None? || Trim(old(uiState).inputText) == "") ==> events == old(events)
      ensures saved ==>
        var mode := old(uiState).correctionMode.value;
        var corrected := Trim(old(uiState).inputText);
        && saveCorrectionUseCase.learningRepository.correctionDao.rows
           == Upsert(old(saveCorrectionUseCase.learningRepository.correctionDao.rows), CorrectionId,
                     CorrectionEntity(correctionId, mode.originalResponse, corrected,
                                      CorrectionContext(conversationId, mode.originalMessageId), now))
        && uiState == old(uiState).(
             messages := ReplaceContent(old(uiState).messages, mode.originalMessageId, corrected),
             correctionMode := None, inputText := "")
        && events == old(events) + [CorrectionSaved]
    {
      if uiState.correctionMode.None? {
        return false;
      }
      var mode := uiState.correctionMode.value;
      var correctedText := Trim(uiState.inputText);
      if correctedText == "" {
        return false;
      }
      if saveFails {
        events := events + [ShowError(SAVE_FAILED)];
        return false;
      }
      saveCorrectionUseCase.Invoke(mode.originalResponse, correctedText, correctionId, now,
                                   CorrectionContext(conversationId, mode.originalMessageId));
      uiState := uiState.(messages := ReplaceContent(uiState.messages, mode.originalMessageId, correctedText),
                          correctionMode := None, inputText := "");
      events := events + [CorrectionSaved];
      saved := true;
    }

    /** `onCancelCorrection()`. */
    method OnCancelCorrection()
      requires Valid()
      modifies this
      ensures Valid()
      ensures uiState == old(uiState).(correctionMode := None, inputText := "") && events == old(events)
    {
      uiState := uiState.(correctionMode := None, inputText := "");
    }

    /** `onDismissError()`. */
    method OnDismissError()
      requires Valid()
      modifies this
      ensures Valid()
      ensures uiState == old(uiState).(error := None) && events == old(events)
    {
      uiState := uiState.(error := None);
    }

    /**
     * `onRetryLoadModel()`: loads when the default model file is available and asks for
     * a download otherwise; unlike `checkModelStatus` it does so with the fake backend too.
     */
    method OnRetryLoadModel() returns (loadPath: Option<string>)
      requires Valid()
      modifies this
      ensures Valid()
      ensures events == old(events)
      ensures modelManager.IsModelAvailable(DEFAULT_MODEL_NAME) ==>
        && uiState == old(uiState).(modelState := Loading)
        && loadPath == Some(if useRealLlm then modelManager.GetModelPath(DEFAULT_MODEL_NAME) else FAKE_MODEL_PATH)
      ensures !modelManager.IsModelAvailable(DEFAULT_MODEL_NAME) ==>
        uiState == old(uiState).(modelState := NeedsDownload) && loadPath.None?
    {
      if modelManager.IsModelAvailable() {
        var path := LoadModel();
        loadPath := Some(path);
      } else {
        uiState := uiState.(modelState := NeedsDownload);
        loadPath := None;
      }
    }

    /** The screen receiving from `events`: the oldest queued event, if any. */
    method NextEvent() returns (event: Option<ChatEvent>)
      modifies this
      ensures uiState == old(uiState)
      ensures old(events) == [] ==> event.None? && events == []
      ensures old(events) != [] ==> event == Some(old(events)[0]) && events == old(events)[1..]
    {
      if events == [] {
        return None;
      }
      event := Some(events[0]);
      events := events[1..];
    }
  }
}

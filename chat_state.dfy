/**
 * The chat screen's state (ChatUiState.kt): one immutable record the view model
 * replaces on every change, the model's lifecycle as the screen sees it, the message
 * being corrected, and the one-shot events.
 *
 * `modelLoadProgress` is in tenths, as the providers report it; `downloadProgress`
 * is the exact fraction the model manager reports.
 */
module ChatStates {
  import opened Nullable
  import opened Domain
  import opened Fractions

  datatype ModelState = NotLoaded | Loading | Ready | NeedsDownload | Error(message: string)

  datatype CorrectionMode = CorrectionMode(originalMessageId: string, originalResponse: string)

  datatype ChatEvent = ScrollToBottom | ShowError(message: string) | CorrectionSaved | ModelReady

  datatype ChatUiState = ChatUiState(
    messages: seq<ChatMessage>,
    inputText: string,
    isLoading: bool,
    isStreaming: bool,
    streamingText: string,
    error: Option<string>,
    correctionMode: Option<CorrectionMode>,
    modelState: ModelState,
    modelLoadProgress: nat,
    downloadProgress: Fraction,
    isDownloading: bool)

  /** `ChatUiState()`: every field at its default. */
  const INITIAL_STATE := ChatUiState([], "", false, false, "", None, None, NotLoaded, 0, ZERO, false)

  /** `messages.find { it.id == id }`: the first message with that id. */
  function FindMessage(messages: seq<ChatMessage>, id: string): (r: Option<ChatMessage>)
    ensures r.None? <==> forall i :: 0 <= i < |messages| ==> messages[i].id != id
    ensures r.Some? ==> exists i :: (0 <= i < |messages| && messages[i] == r.value && r.value.id == id
                                     && forall j :: 0 <= j < i ==> messages[j].id != id)
  {
    if messages == [] then None
    else if messages[0].id == id then
      assert messages[0] == messages[0];
      Some(messages[0])
    else
      var rest := FindMessage(messages[1..], id);
      assert rest.Some? ==> exists i :: (0 <= i < |messages| && messages[i] == rest.value && rest.value.id == id
                                         && forall j :: 0 <= j < i ==> messages[j].id != id)
      by {
        if rest.Some? {
          var k :| 0 <= k < |messages[1..]| && messages[1..][k] == rest.value && rest.value.id == id
            && forall j :: 0 <= j < k ==> messages[1..][j].id != id;
          assert messages[k + 1] == rest.value;
          assert forall j :: 0 <= j < k + 1 ==> messages[j].id != id by {
            forall j | 0 <= j < k + 1
              ensures messages[j].id != id
            {
              if j > 0 {
                assert messages[j] == messages[1..][j - 1];
              }
            }
          }
        }
      }
      assert rest.None? ==> forall i :: 0 <= i < |messages| ==> messages[i].id != id by {
        if rest.None? {
          forall i | 0 <= i < |messages|
            ensures messages[i].id != id
          {
            if i > 0 {
              assert messages[i] == messages[1..][i - 1];
            }
          }
        }
      }
      rest
  }

  /**
   * `messages.map { if (it.id == id) it.copy(content = content) else it }`: same
   * length, same order, the matching messages get the new content and nothing else changes.
   */
  function ReplaceContent(messages: seq<ChatMessage>, id: string, content: string): (r: seq<ChatMessage>)
    ensures |r| == |messages|
    ensures forall i :: 0 <= i < |r| ==>
      if messages[i].id == id then r[i] == messages[i].(content := content) else r[i] == messages[i]
  {
    if messages == [] then []
    else
      var head := if messages[0].id == id then messages[0].(content := content) else messages[0];
      [head] + ReplaceContent(messages[1..], id, content)
  }

  /** An ASSISTANT message with this id is on screen. */
  ghost predicate HasAssistantMessage(messages: seq<ChatMessage>, id: string) {
    exists i :: 0 <= i < |messages| && messages[i].id == id && messages[i].role == ASSISTANT
  }

  /** Replacing contents keeps every message's id and role, so the assistant messages stay. */
  lemma ReplaceKeepsAssistantMessages(messages: seq<ChatMessage>, id: string, content: string, target: string)
    requires HasAssistantMessage(messages, target)
    ensures HasAssistantMessage(ReplaceContent(messages, id, content), target)
  {
    var i :| 0 <= i < |messages| && messages[i].id == target && messages[i].role == ASSISTANT;
    assert ReplaceContent(messages, id, content)[i].id == target;
  }

  /** Appending messages keeps the assistant messages already there. */
  lemma AppendKeepsAssistantMessages(messages: seq<ChatMessage>, more: seq<ChatMessage>, target: string)
    requires HasAssistantMessage(messages, target)
    ensures HasAssistantMessage(messages + more, target)
  {
    var i :| 0 <= i < |messages| && messages[i].id == target && messages[i].role == ASSISTANT;
    assert (messages + more)[i] == messages[i];
  }
}

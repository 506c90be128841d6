/**
 * The shapes shared by the `LLMProvider` implementations (LLMProvider.kt): the model
 * description and the word-by-word stream both backends emit.
 *
 * A stream that `cancel()` interrupts is described by `cancelAfter`: `Some(k)` means
 * the cancel flag is seen set once `k` chunks were emitted (`Some(0)`: before the
 * first check); `None` means no cancel arrives during the stream.
 */
module LlmProvider {
  import opened Nullable
  import opened Seqs
  import opened Text

  datatype ModelInfo = ModelInfo(name: string, sizeBytes: int, contextLength: int)

  /** `response.split(" ")`, each word emitted as `"$word "`. */
  function WordChunks(response: string): (r: seq<string>)
    ensures |r| == |Split(response)| >= 1
    ensures forall i :: 0 <= i < |r| ==> r[i] == Split(response)[i] + " "
  {
    SpaceTerminated(Split(response))
  }

  /** The chunks emitted before a cancel, if any, stops the loop. */
  function Streamed(response: string, cancelAfter: Option<nat>): (r: seq<string>)
    ensures cancelAfter.None? ==> r == WordChunks(response)
    ensures cancelAfter.Some? ==> |r| == if |WordChunks(response)| <= cancelAfter.value then |WordChunks(response)| else cancelAfter.value
    ensures |r| <= |WordChunks(response)| && r == WordChunks(response)[..|r|]
  {
    match cancelAfter
    case None => WordChunks(response)
    case Some(k) => Take(WordChunks(response), k)
  }

  /** An uncancelled stream, joined, is the response with one trailing space. */
  lemma StreamRoundTrip(response: string)
    ensures Flatten(Streamed(response, None)) == response + " "
  {
    SplitRoundTrip(response);
  }
}

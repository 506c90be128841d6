/**
 * `ModelManager` (ModelManager.kt): the model files in the app's `models` directory,
 * their download, deletion and size.
 *
 * The directory is a map from file name to length. The network is the sequence of
 * chunk sizes the input stream returns, the server's content length and an optional
 * `Interruption`: the exception raised once a number of chunks were written (0: while
 * connecting). Whether `renameTo` succeeds is a parameter, since its result is ignored.
 */
module ModelManagers {
  import opened Nullable
  import opened Text
  import opened Fractions
  import opened MediaPipeLlm

  const MODELS_DIR := "models"
  const DEFAULT_MODEL_NAME := "gemma-3-1b-it-int4.task"
  const DEFAULT_MODEL_URL := "https://huggingface.co/litert-community/Gemma3-1B-IT/resolve/main/gemma-3-1b-it-int4.task"
  const DEFAULT_MODEL_SIZE_BYTES: Positive := 750_000_000
  const BUFFER_SIZE := 8192
  const DOWNLOAD_FAILED := "Download failed"
  const TEMP_SUFFIX := ".tmp"

  datatype ModelFile = ModelFile(name: string, path: string, sizeBytes: int)

  datatype DownloadState =
    | Starting
    | Progress(progress: Fraction, downloadedBytes: int, totalBytes: int)
    | Completed(filePath: string)
    | Failed(error: string)

  /** The exception a download hits after `afterChunks` chunks were written. */
  datatype Interruption = Interruption(afterChunks: nat, message: Option<string>)

  /** `File.extension`: the text after the last dot, or "" without one. */
  function Extension(name: string): string {
    AfterLast(name, '.', "")
  }

  /** `File(dir, name).absolutePath`. */
  function Join(dir: string, name: string): string {
    dir + "/" + name
  }

  /** A path built from a plain file name reports that name back. */
  lemma JoinFileName(dir: string, name: string)
    requires '/' !in name
    ensures FileName(Join(dir, name)) == name
  {
    var path := Join(dir, name);
    assert path[|dir|] == '/';
    var i := LastIndexOf(path, '/');
    assert i >= |dir|;
    assert path[i + 1..] == name;
  }

  /** The denominator of the progress: the announced size if positive, else the estimate. */
  function Denominator(totalSize: int): Positive {
    if totalSize > 0 then totalSize else DEFAULT_MODEL_SIZE_BYTES
  }

  /** The bytes in `chunks`. */
  function Sum(chunks: seq<nat>): nat {
    if chunks == [] then 0 else Sum(chunks[..|chunks| - 1]) + chunks[|chunks| - 1]
  }

  /** The event reporting `done` bytes downloaded. */
  function ProgressEvent(done: nat, totalSize: int): DownloadState {
    Progress(Fraction(done, Denominator(totalSize)), done, totalSize)
  }

  /** One Progress event per chunk, each carrying the bytes downloaded so far. */
  function ProgressEvents(chunks: seq<nat>, totalSize: int): (r: seq<DownloadState>)
    ensures |r| == |chunks|
    ensures forall i :: 0 <= i < |r| ==> r[i].Progress?
  {
    if chunks == [] then []
    else ProgressEvents(chunks[..|chunks| - 1], totalSize) + [ProgressEvent(Sum(chunks), totalSize)]
  }

  /** The values the progress takes along the chunks, one per Progress event. */
  function ProgressValues(chunks: seq<nat>, totalSize: int): (r: seq<Fraction>)
    ensures |r| == |chunks|
  {
    if chunks == [] then []
    else ProgressValues(chunks[..|chunks| - 1], totalSize) + [Fraction(Sum(chunks), Denominator(totalSize))]
  }

  /** The number of chunks written before the download ends. */
  function Written(chunks: seq<nat>, failure: Option<Interruption>): (r: nat)
    ensures r <= |chunks|
  {
    if failure.Some? && failure.value.afterChunks < |chunks| then failure.value.afterChunks else |chunks|
  }

  /** The `i`-th Progress event reports the running byte count after chunk `i`. */
  lemma {:induction false} ProgressEventAt(chunks: seq<nat>, totalSize: int, i: nat)
    requires i < |chunks|
    ensures ProgressEvents(chunks, totalSize)[i] == ProgressEvent(Sum(chunks[..i + 1]), totalSize)
    decreases |chunks|
  {
    var init := chunks[..|chunks| - 1];
    if i < |chunks| - 1 {
      ProgressEventAt(init, totalSize, i);
      assert init[..i + 1] == chunks[..i + 1];
    } else {
      assert chunks[..i + 1] == chunks;
    }
  }

  /** Running byte counts never decrease along the chunks. */
  lemma {:induction false} SumPrefixMonotone(chunks: seq<nat>, i: nat, j: nat)
    requires i <= j <= |chunks|
    ensures Sum(chunks[..i]) <= Sum(chunks[..j])
    decreases j
  {
    if i < j {
      SumPrefixMonotone(chunks, i, j - 1);
      assert chunks[..j][..j - 1] == chunks[..j - 1];
    }
  }

  /**
   * The downloaded byte counts and the progress values of the Progress events never
   * decrease, and with the announced size known and not exceeded, no progress passes one.
   */
  lemma ProgressEventsMonotone(chunks: seq<nat>, totalSize: int)
    ensures forall i, j :: 0 <= i < j < |chunks| ==>
      ProgressEvents(chunks, totalSize)[i].downloadedBytes <= ProgressEvents(chunks, totalSize)[j].downloadedBytes
    ensures forall i, j :: 0 <= i < j < |chunks| ==>
      ProgressEvents(chunks, totalSize)[i].progress.AtMost(ProgressEvents(chunks, totalSize)[j].progress)
    ensures totalSize > 0 && Sum(chunks) <= totalSize ==>
      forall i :: 0 <= i < |chunks| ==> ProgressEvents(chunks, totalSize)[i].progress.AtMostOne()
  {
    var r := ProgressEvents(chunks, totalSize);
    forall i, j | 0 <= i < j < |chunks|
      ensures r[i].downloadedBytes <= r[j].downloadedBytes
      ensures r[i].progress.AtMost(r[j].progress)
    {
      ProgressEventAt(chunks, totalSize, i);
      ProgressEventAt(chunks, totalSize, j);
      SumPrefixMonotone(chunks, i + 1, j + 1);
      SameDenominatorOrder(Sum(chunks[..i + 1]), Sum(chunks[..j + 1]), Denominator(totalSize));
    }
    if totalSize > 0 && Sum(chunks) <= totalSize {
      forall i | 0 <= i < |chunks|
        ensures r[i].progress.AtMostOne()
      {
        ProgressEventAt(chunks, totalSize, i);
        SumPrefixMonotone(chunks, i + 1, |chunks|);
        assert chunks[..|chunks|] == chunks;
      }
    }
  }

  /** A key of `keys`, the one sums peel off first. */
  ghost function Pick(keys: set<string>): (k: string)
    requires keys != {}
    ensures k in keys
  {
    var k :| k in keys; k
  }

  /** The total length of the files named in `keys`. */
  ghost function SumOver(files: map<string, nat>, keys: set<string>): nat
    requires keys <= files.Keys
    decreases keys
  {
    if keys == {} then 0
    else
      var k := Pick(keys);
      files[k] + SumOver(files, keys - {k})
  }

  /** The total can be taken apart at any file, not just the one `Pick` chooses. */
  lemma {:induction false} SumOverPeel(files: map<string, nat>, keys: set<string>, k: string)
    requires keys <= files.Keys && k in keys
    ensures SumOver(files, keys) == files[k] + SumOver(files, keys - {k})
    decreases keys
  {
    var j := Pick(keys);
    if j != k {
      SumOverPeel(files, keys - {j}, k);
      SumOverPeel(files, keys - {k}, j);
      assert keys - {j} - {k} == keys - {k} - {j};
    }
  }

  /** The total over `keys` only depends on the lengths of those files. */
  lemma {:induction false} SumOverAgree(files: map<string, nat>, other: map<string, nat>, keys: set<string>)
    requires keys <= files.Keys && keys <= other.Keys
    requires forall k :: k in keys ==> files[k] == other[k]
    ensures SumOver(files, keys) == SumOver(other, keys)
    decreases keys
  {
    if keys != {} {
      var k := Pick(keys);
      SumOverAgree(files, other, keys - {k});
    }
  }

  /** `listFiles().sumOf { it.length() }`. */
  ghost function StorageUsed(files: map<string, nat>): nat {
    SumOver(files, files.Keys)
  }

  /** Deleting a file frees exactly its length. */
  lemma DeleteFreesLength(files: map<string, nat>, name: string)
    requires name in files
    ensures StorageUsed(files - {name}) + files[name] == StorageUsed(files)
  {
    SumOverPeel(files, files.Keys, name);
    assert (files - {name}).Keys == files.Keys - {name};
    SumOverAgree(files - {name}, files, files.Keys - {name});
  }

  /** A model that `isModelAvailable` reports takes up some of the storage `getStorageUsed` reports. */
  lemma AvailableModelUsesStorage(manager: ModelManager, modelName: string)
    requires manager.IsModelAvailable(modelName)
    ensures 0 < manager.files[modelName] <= StorageUsed(manager.files)
  {
    DeleteFreesLength(manager.files, modelName);
  }

  class ModelManager {
    const modelsDir: string
    var files: map<string, nat>
    var downloadProgress: Fraction
    var isDownloading: bool
    ghost var progressHistory: seq<Fraction>
    ghost var downloadingHistory: seq<bool>

    /** A manager over `filesDir/models`, which holds `files`. */
    constructor (filesDir: string, files: map<string, nat>)
      ensures modelsDir == Join(filesDir, MODELS_DIR) && this.files == files
      ensures downloadProgress == ZERO && !isDownloading
      ensures progressHistory == [] && downloadingHistory == []
    {
      modelsDir := Join(filesDir, MODELS_DIR);
      this.files := files;
      downloadProgress := ZERO;
      isDownloading := false;
      progressHistory := [];
      downloadingHistory := [];
    }

    /** `isModelAvailable(modelName)`: the file exists and is not empty. */
    predicate IsModelAvailable(modelName: string := DEFAULT_MODEL_NAME)
      reads this
    {
      modelName in files && files[modelName] > 0
    }

    /** `getModelPath(modelName)`: the file's absolute path in the models directory. */
    function GetModelPath(modelName: string := DEFAULT_MODEL_NAME): (r: string)
      ensures '/' !in modelName ==> FileName(r) == modelName
      ensures StartsWith(r, modelsDir + "/")
    {
      assert '/' !in modelName ==> FileName(Join(modelsDir, modelName)) == modelName by {
        if '/' !in modelName {
          JoinFileName(modelsDir, modelName);
        }
      }
      StartsWithConcat(modelsDir + "/", modelName);
      Join(modelsDir, modelName)
    }

    /** `getAvailableModels()`: the ".gguf" files, with path and length. */
    function GetAvailableModels(): (r: set<ModelFile>)
      reads this
      ensures forall m :: m in r <==>
        m.name in files && Extension(m.name) == "gguf" && m.path == GetModelPath(m.name) && m.sizeBytes == files[m.name]
    {
      set name | name in files && Extension(name) == "gguf" :: ModelFile(name, GetModelPath(name), files[name])
    }

    /** `deleteModel(modelName)`: true exactly when the file was there; it is gone afterwards. */
    method DeleteModel(modelName: string) returns (deleted: bool)
      modifies this
      ensures deleted <==> modelName in old(files)
      ensures files == old(files) - {modelName}
      ensures !IsModelAvailable(modelName)
      ensures downloadProgress == old(downloadProgress) && isDownloading == old(isDownloading)
      ensures progressHistory == old(progressHistory) && downloadingHistory == old(downloadingHistory)
    {
      if modelName in files {
        files := files - {modelName};
        deleted := true;
      } else {
        deleted := false;
      }
    }

    /** `getStorageUsed()`: the total length of the files in the directory. */
    method GetStorageUsed() returns (total: nat)
      ensures total == StorageUsed(files)
    {
      total := 0;
      var remaining := files.Keys;
      while remaining != {}
        invariant remaining <= files.Keys
        invariant total + SumOver(files, remaining) == StorageUsed(files)
        decreases |remaining|
      {
        var name :| name in remaining;
        SumOverPeel(files, remaining, name);
        total := total + files[name];
        remaining := remaining - {name};
      }
    }

    method SetProgress(p: Fraction)
      modifies this
      ensures downloadProgress == p && progressHistory == old(progressHistory) + [p]
      ensures files == old(files) && isDownloading == old(isDownloading) && downloadingHistory == old(downloadingHistory)
    {
      downloadProgress := p;
      progressHistory := progressHistory + [p];
    }

    method SetDownloading(b: bool)
      modifies this
      ensures isDownloading == b && downloadingHistory == old(downloadingHistory) + [b]
      ensures files == old(files) && downloadProgress == old(downloadProgress) && progressHistory == old(progressHistory)
    {
      isDownloading := b;
      downloadingHistory := downloadingHistory + [b];
    }

    /**
     * `downloadModel(url, fileName)`, collected: the events emitted. The url only
     * selects the server, so it is not a parameter here.
     */
    method DownloadModel(fileName: string, totalSize: int, chunks: seq<nat>, failure: Option<Interruption>, renameSucceeds: bool)
      returns (events: seq<DownloadState>)
      requires forall i :: 0 <= i < |chunks| ==> 0 < chunks[i] <= BUFFER_SIZE
      modifies this
      ensures |events| == Written(chunks, failure) + 2 && events[0] == Starting
      ensures events[1..|events| - 1] == ProgressEvents(chunks[..Written(chunks, failure)], totalSize)
      ensures !isDownloading && downloadingHistory == old(downloadingHistory) + [true, false]
      ensures progressHistory
           == old(progressHistory) + [ZERO] + ProgressValues(chunks[..Written(chunks, failure)], totalSize) + [downloadProgress]
      ensures failure.Some? ==>
        && events[|events| - 1] == Failed(failure.value.message.GetOr(DOWNLOAD_FAILED))
        && files == old(files) - {fileName + TEMP_SUFFIX}
        && downloadProgress == ZERO
      ensures failure.None? ==>
        && events[|events| - 1] == Completed(GetModelPath(fileName))
        && downloadProgress == ONE
        && files == if renameSucceeds then (old(files) - {fileName + TEMP_SUFFIX})[fileName := Sum(chunks)]
                    else old(files)[fileName + TEMP_SUFFIX := Sum(chunks)]
      ensures failure.None? && renameSucceeds ==> (IsModelAvailable(fileName) <==> Sum(chunks) > 0)
      ensures failure.Some? || !renameSucceeds ==> (IsModelAvailable(fileName) <==> old(IsModelAvailable(fileName)))
    {
      SetDownloading(true);
      SetProgress(ZERO);
      var tempFile := fileName + TEMP_SUFFIX;
      var written := Written(chunks, failure);
      if written > 0 || failure.None? {
        files := files[tempFile := 0];
      }
      ghost var created := files;
      var progress := ReadChunks(tempFile, totalSize, chunks[..written]);
      ghost var read := progressHistory;
      var last: DownloadState;
      if failure.Some? {
        last := FailDownload(tempFile, failure.value.message);
        assert files == old(files) - {tempFile};
      } else {
        assert chunks[..written] == chunks;
        WriteTwice(old(files), tempFile, 0, Sum(chunks));
        assert files == old(files)[tempFile := Sum(chunks)];
        RemoveAfterWrite(old(files), tempFile, Sum(chunks));
        last := CompleteDownload(fileName, renameSucceeds);
      }
      events := [Starting] + progress + [last];
      assert events[1..|events| - 1] == progress;
      assert progressHistory == read + [downloadProgress];
      assert |tempFile| > |fileName|;
    }

    /** The catch block of `downloadModel`: the temp file is deleted and Failed is the last event. */
    method FailDownload(tempFile: string, message: Option<string>) returns (last: DownloadState)
      modifies this
      ensures last == Failed(message.GetOr(DOWNLOAD_FAILED))
      ensures files == old(files) - {tempFile}
      ensures !isDownloading && downloadingHistory == old(downloadingHistory) + [false]
      ensures downloadProgress == ZERO && progressHistory == old(progressHistory) + [ZERO]
    {
      files := files - {tempFile};
      SetDownloading(false);
      SetProgress(ZERO);
      last := Failed(message.GetOr(DOWNLOAD_FAILED));
    }

    /** The end of a download that read everything: rename, progress one, Completed. */
    method CompleteDownload(fileName: string, renameSucceeds: bool) returns (last: DownloadState)
      requires fileName + TEMP_SUFFIX in files
      modifies this
      ensures last == Completed(GetModelPath(fileName))
      ensures files == if renameSucceeds then (old(files) - {fileName + TEMP_SUFFIX})[fileName := old(files)[fileName + TEMP_SUFFIX]]
                       else old(files)
      ensures !isDownloading && downloadingHistory == old(downloadingHistory) + [false]
      ensures downloadProgress == ONE && progressHistory == old(progressHistory) + [ONE]
    {
      var tempFile := fileName + TEMP_SUFFIX;
      if renameSucceeds {
        files := (files - {tempFile})[fileName := files[tempFile]];
      }
      SetProgress(ONE);
      SetDownloading(false);
      last := Completed(GetModelPath(fileName));
    }

    /** The read loop: each chunk is appended to the temp file and reported. */
    method ReadChunks(tempFile: string, totalSize: int, chunks: seq<nat>) returns (events: seq<DownloadState>)
      modifies this
      ensures events == ProgressEvents(chunks, totalSize)
      ensures progressHistory == old(progressHistory) + ProgressValues(chunks, totalSize)
      ensures chunks != [] ==> files == old(files)[tempFile := Sum(chunks)]
      ensures chunks == [] ==> files == old(files)
      ensures isDownloading == old(isDownloading) && downloadingHistory == old(downloadingHistory)
    {
      events := [];
      var downloadedSize := 0;
      var i := 0;
      while i < |chunks|
        invariant 0 <= i <= |chunks|
        invariant downloadedSize == Sum(chunks[..i])
        invariant events == ProgressEvents(chunks[..i], totalSize)
        invariant progressHistory == old(progressHistory) + ProgressValues(chunks[..i], totalSize)
        invariant i > 0 ==> files == old(files)[tempFile := downloadedSize]
        invariant i == 0 ==> files == old(files)
        invariant isDownloading == old(isDownloading) && downloadingHistory == old(downloadingHistory)
      {
        assert chunks[..i + 1][..i] == chunks[..i];
        downloadedSize := downloadedSize + chunks[i];
        files := files[tempFile := downloadedSize];
        var event := ProgressEvent(downloadedSize, totalSize);
        SetProgress(event.progress);
        events := events + [event];
        i := i + 1;
      }
      assert chunks[..i] == chunks;
    }
  }

  /** Writing a file twice leaves the second content. */
  lemma WriteTwice(files: map<string, nat>, name: string, first: nat, second: nat)
    ensures files[name := first][name := second] == files[name := second]
  {
  }

  /** Deleting a file just written leaves the files there were apart from it. */
  lemma RemoveAfterWrite(files: map<string, nat>, name: string, size: nat)
    ensures files[name := size] - {name} == files - {name}
  {
  }

  /** The default model is a ".task" file, so the listing of ".gguf" files never shows it. */
  lemma DefaultModelNeverListed(manager: ModelManager)
    ensures forall m :: m in manager.GetAvailableModels() ==> m.name != DEFAULT_MODEL_NAME
  {
  }
}

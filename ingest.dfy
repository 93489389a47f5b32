/**
 * The ingestion bookkeeping of server/store.py as functions on a world made
 * of the disk and the index: the idempotent per-item steps for uploads and
 * for Daily recordings, batches of them, and the bulk build of the index from
 * the transcripts directory. The store class in store.dfy is proved to act
 * exactly as these functions say.
 */
module Ingest {
  import opened Wrappers
  import opened Paths
  import opened Media
  import opened Daily
  import opened Transcription

  /** A document in the vector index: the text of one transcript. */
  datatype Doc = Doc(text: string)

  datatype Source = DailySource | Uploads

  /**
   * The outside world the store talks to: its directories, the upload
   * directory listing for a given disk, the recording download, the audio
   * extraction and the Daily API.
   */
  datatype Environment = Environment(
    uploadDir: string,
    transcriptsDir: string,
    listUploads: map<string, string> -> seq<DirEntry>,
    download: string -> Option<string>,
    extract: string -> Option<string>,
    daily: DailyApi)

  /**
   * The disk and the index handle. The index is the multiset of documents it
   * holds: concurrent jobs insert in no fixed order.
   */
  datatype World = World(files: map<string, string>, index: Option<multiset<Doc>>)

  /** One item's effect: the world after it, the transcript it wrote (if any), and whether it raised. */
  datatype StepResult = StepResult(world: World, written: Option<string>, ok: bool)

  /** A batch's effect: the world after it, the transcripts written in order, and whether any item raised. */
  datatype BatchResult = BatchResult(world: World, written: seq<string>, ok: bool)

  datatype Item = UploadItem(path: string) | RecordingItem(recording: Recording)

  function DigitChar(d: int): char
    requires 0 <= d < 10
  {
    "0123456789"[d]
  }

  function NatToString(n: nat): string
    decreases n
  {
    if n < 10 then [DigitChar(n)] else NatToString(n / 10) + [DigitChar(n % 10)]
  }

  function IntToString(i: int): string
  {
    if i < 0 then "-" + NatToString(-i) else NatToString(i)
  }

  /** `<transcripts dir>/<key>.txt` */
  function TranscriptPath(transcriptsDir: string, key: string): string
  {
    WithExtension(transcriptsDir, key, ".txt")
  }

  /** An upload is keyed by its file's stem. */
  function UploadKey(videoPath: string): string
  {
    Stem(Basename(videoPath))
  }

  /** A recording is keyed by `<completion time>_<room>_<id>`. */
  function RecordingKey(rec: Recording): string
  {
    IntToString(rec.timestamp) + "_" + rec.roomName + "_" + rec.id
  }

  function ItemTranscriptPath(env: Environment, item: Item): string
  {
    match item
    case UploadItem(p) => TranscriptPath(env.transcriptsDir, UploadKey(p))
    case RecordingItem(r) => TranscriptPath(env.transcriptsDir, RecordingKey(r))
  }

  /** Writes the transcript, then inserts it into the index if (and only if) one is loaded. */
  function SaveTranscript(w: World, transcriptPath: string, text: string): World
  {
    World(w.files[transcriptPath := text],
          if w.index.Some? then Some(w.index.value + multiset{Doc(text)}) else None)
  }

  /** Removes the audio file used, once the transcript is saved; removing a missing file raises. */
  function ReleaseAudio(w: World, audioPath: string, text: string): StepResult
  {
    if audioPath == "" then StepResult(w, Some(text), true)
    else if audioPath in w.files then StepResult(w.(files := w.files - {audioPath}), Some(text), true)
    else StepResult(w, Some(text), false)
  }

  /**
   * The common tail of both per-item steps: transcribe, save the transcript
   * (inserting it if an index is loaded), then remove the audio used.
   */
  function FinishItem(t: Transcriber, w: World, url: Option<string>, audio: Option<string>,
                      transcriptPath: string): StepResult
  {
    match Transcribe(t, url, audio, w.files)
    case Failure(_) => StepResult(w, None, false)
    case Success(text) =>
      var saved := SaveTranscript(w, transcriptPath, text);
      if audio.Some? then ReleaseAudio(saved, audio.value, text) else StepResult(saved, Some(text), true)
  }

  /**
   * The audio an upload is transcribed from: `<stem>.wav` if that file
   * exists (a path relative to the working directory, as written), else the
   * audio extracted next to the video.
   */
  function UploadAudio(env: Environment, files: map<string, string>, videoPath: string): (e: FileEffect)
    ensures e.result.Success? ==> EndsWith(e.result.value, ".wav")
  {
    var cached := GetAudioPath(UploadKey(videoPath));
    if cached in files then FileEffect(files, Success(cached))
    else ExtractAudioEffect(files, videoPath, env.extract)
  }

  /** An upload without a transcript: get audio, delete the video, then finish. */
  function TranscribeUpload(env: Environment, t: Transcriber, w: World, videoPath: string,
                            transcriptPath: string): StepResult
  {
    var e := UploadAudio(env, w.files, videoPath);
    if e.result.Failure? || videoPath !in e.files then StepResult(w.(files := e.files), None, false)
    else FinishItem(t, w.(files := e.files - {videoPath}), None, Some(e.result.value), transcriptPath)
  }

  /** `transcribe_and_index_file` for one uploaded video. */
  function FileStep(env: Environment, t: Transcriber, w: World, videoPath: string): StepResult
  {
    var transcriptPath := TranscriptPath(env.transcriptsDir, UploadKey(videoPath));
    if transcriptPath in w.files then
      if videoPath in w.files then StepResult(w.(files := w.files - {videoPath}), None, true)
      else StepResult(w, None, false)
    else TranscribeUpload(env, t, w, videoPath, transcriptPath)
  }

  /** The local audio a recording's transcription uses: none, a cached file, or a freshly produced one. */
  datatype AudioEffect = AudioEffect(files: map<string, string>, result: Result<Option<string>, MediaError>)

  function LocalAudio(env: Environment, t: Transcriber, files: map<string, string>, url: string, key: string)
    : (a: AudioEffect)
    ensures a.result.Success? && a.result.value.Some? ==> EndsWith(a.result.value.value, ".wav")
  {
    if !RequiresLocalAudio(t) then AudioEffect(files, Success(None))
    else
      var cached := GetAudioPath(key);
      if cached in files then AudioEffect(files, Success(Some(cached)))
      else
        var p := ProduceLocalAudio(files, env.uploadDir, url, key, env.download, env.extract);
        if p.result.Failure? then AudioEffect(p.files, Failure(p.result.error))
        else
          ProducedAudioPath(files, env.uploadDir, url, key, env.download, env.extract);
          AudioEffect(p.files, Success(Some(p.result.value)))
  }

  /** A recording without a transcript, once its URL is known: get audio if needed, then finish. */
  function TranscribeRecording(env: Environment, t: Transcriber, w: World, url: string, key: string,
                               transcriptPath: string): StepResult
  {
    var a := LocalAudio(env, t, w.files, url, key);
    if a.result.Failure? then StepResult(w.(files := a.files), None, false)
    else FinishItem(t, w.(files := a.files), Some(url), a.result.value, transcriptPath)
  }

  /** `transcribe_and_index_recording` for one Daily recording, under the configured room name. */
  function RecordingStep(env: Environment, t: Transcriber, room: Option<string>, w: World, rec: Recording)
    : StepResult
  {
    if Truthy(room) && room.value != rec.roomName then StepResult(w, None, true)
    else
      var key := RecordingKey(rec);
      var transcriptPath := TranscriptPath(env.transcriptsDir, key);
      if transcriptPath in w.files then StepResult(w, None, true)
      else match GetAccessLink(env.daily, rec.id)
        case Failure(_) => StepResult(w, None, false)
        case Success(url) => TranscribeRecording(env, t, w, url, key, transcriptPath)
  }

  /** Only `.mp4` and `.mov` uploads are processed. */
  predicate IsVideoPath(p: string)
  {
    EndsWith(p, ".mp4") || EndsWith(p, ".mov")
  }

  function Step(env: Environment, t: Transcriber, room: Option<string>, w: World, item: Item): StepResult
  {
    match item
    case UploadItem(p) => if IsVideoPath(p) then FileStep(env, t, w, p) else StepResult(w, None, true)
    case RecordingItem(r) => RecordingStep(env, t, room, w, r)
  }

  /**
   * A batch run one item after the other, each by `step`. Every item is
   * attempted even after one has raised, and the batch raises if any item
   * raised.
   */
  function RunSteps(step: (World, Item) -> StepResult, w: World, items: seq<Item>): BatchResult
    decreases |items|
  {
    if items == [] then BatchResult(w, [], true)
    else
      var b := RunSteps(step, w, items[..|items| - 1]);
      var s := step(b.world, items[|items| - 1]);
      BatchResult(s.world, b.written + (if s.written.Some? then [s.written.value] else []), b.ok && s.ok)
  }

  /** The store's per-item step, for a given environment, transcriber and room. */
  function ItemStep(env: Environment, t: Transcriber, room: Option<string>): (World, Item) -> StepResult
  {
    (w: World, item: Item) => Step(env, t, room, w, item)
  }

  /** The store's batch: its per-item step run over the items in turn. */
  function RunItems(env: Environment, t: Transcriber, room: Option<string>, w: World, items: seq<Item>)
    : BatchResult
  {
    RunSteps(ItemStep(env, t, room), w, items)
  }

  function UploadItems(paths: seq<string>): (items: seq<Item>)
    ensures |items| == |paths|
    ensures forall i :: 0 <= i < |paths| ==> items[i] == UploadItem(paths[i])
  {
    seq(|paths|, i requires 0 <= i < |paths| => UploadItem(paths[i]))
  }

  function RecordingItems(recs: seq<Recording>): (items: seq<Item>)
    ensures |items| == |recs|
    ensures forall i :: 0 <= i < |recs| ==> items[i] == RecordingItem(recs[i])
  {
    seq(|recs|, i requires 0 <= i < |recs| => RecordingItem(recs[i]))
  }

  /** `generate_upload_transcripts` or `index_daily_recordings`, depending on the source. */
  function Batch(env: Environment, t: Transcriber, room: Option<string>, limit: Option<int>,
                 source: Source, w: World): BatchResult
  {
    match source
    case Uploads =>
      RunItems(env, t, room, w, UploadItems(UploadScan(env.uploadDir, env.listUploads(w.files))))
    case DailySource =>
      match RecordingsOf(env.daily, room, limit)
      case Failure(_) => BatchResult(w, [], false)
      case Success(recs) => RunItems(env, t, room, w, RecordingItems(recs))
  }

  /** A file the directory reader picks up: directly in the directory, and not hidden. */
  predicate InDirectory(dir: string, p: string)
  {
    Dirname(p) == dir && !(|Basename(p)| > 0 && Basename(p)[0] == '.')
  }

  function TranscriptFiles(files: map<string, string>, dir: string): map<string, string>
  {
    map p | p in files && InDirectory(dir, p) :: files[p]
  }

  /** The documents read from a set of files, one per file. */
  ghost function Corpus(m: map<string, string>): multiset<Doc>
    decreases |m|
  {
    if m == map[] then multiset{}
    else
      var k :| k in m;
      assert (m - {k}).Keys == m.Keys - {k};
      multiset{Doc(m[k])} + Corpus(m - {k})
  }

  /** The bulk build (`create_index`): an index of every transcript in the transcripts directory. */
  ghost function BuildIndex(env: Environment, w: World): World
  {
    World(w.files, Some(Corpus(TranscriptFiles(w.files, env.transcriptsDir))))
  }

  function DocsOf(texts: seq<string>): multiset<Doc>
  {
    if texts == [] then multiset{} else DocsOf(texts[..|texts| - 1]) + multiset{Doc(texts[|texts| - 1])}
  }
}

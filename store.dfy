/**
 * The `Store` of server/store.py: a status state machine (state and message)
 * around an optional vector index, and the imperative ingestion that fills
 * it. Every method is proved to act exactly as the functions of module
 * Ingest say, so the properties proved there hold of the store.
 */
module IndexStore {
  import opened Wrappers
  import opened Disk
  import opened Media
  import opened Daily
  import opened Transcription
  import opened Ingest
  import opened IngestProperties

  datatype State = Uninitialized | Creating | Updating | Loading | Ready | Error

  /** A status: a state and a message (`None` when `update_status` is called without one). */
  datatype Status = Status(state: State, message: Option<string>)

  /** What loading a persisted index from the index directory gives. */
  datatype LoadOutcome =
    | Loaded(docs: multiset<Doc>)  // an index was found
    | LoadedNothing                // the loader returned no index
    | NotFound                     // FileNotFoundError: nothing persisted yet
    | CollectionMissing            // ValueError: the collection is not in the vector store
    | LoadCrashed                  // any other exception, which escapes

  const InitialMessage := "The store is uninitialized"
  const NotReadyMessage := "Index not yet initialized. Try again later"

  /** The world, the statuses passed through and whether an exception escaped. */
  datatype Run = Run(world: World, statuses: seq<Status>, raised: bool)

  /** The store's batch for a configuration and a source, as a function of the world it starts from. */
  function BatchOf(env: Environment, t: Transcriber, room: Option<string>, limit: Option<int>, source: Source)
    : World -> BatchResult
  {
    (w: World) => Batch(env, t, room, limit, source, w)
  }

  /** The bulk build from the transcripts directory, as a function of the world. */
  ghost function BuildOf(env: Environment): World -> World
  {
    (w: World) => BuildIndex(env, w)
  }

  /** A batch that neither creates nor drops the index. */
  ghost predicate KeepsIndex(batch: World -> BatchResult)
  {
    forall v :: batch(v).world.index.Some? <==> v.index.Some?
  }

  /** A build that always leaves an index loaded. */
  ghost predicate BuildsIndex(build: World -> World)
  {
    forall v :: build(v).index.Some?
  }

  /**
   * The update half of `initialize_or_update`: updating, the batch, then
   * ready; an exception in the batch escapes and leaves the status at updating.
   */
  ghost function UpdateRun(batch: World -> BatchResult, w: World): Run
  {
    var updated := batch(w);
    Run(updated.world,
        [Status(Updating, Some("Updating index"))]
        + (if updated.ok then [Status(Ready, Some("Index ready to query"))] else []),
        !updated.ok)
  }

  /** Whether the creation half of `initialize_or_update` succeeds: its batch and the bulk build both do. */
  ghost predicate Creates(batch: World -> BatchResult, w: World, buildSucceeds: bool)
  {
    batch(w).ok && buildSucceeds
  }

  /**
   * The creation half of `initialize_or_update`: creating, the batch and the
   * bulk build; a failure of either is caught and ends in the error state.
   */
  ghost function CreateRun(batch: World -> BatchResult, build: World -> World, w: World, buildSucceeds: bool): Run
  {
    if Creates(batch, w, buildSucceeds) then
      Run(build(batch(w).world), [Status(Creating, Some("Creating index"))], false)
    else
      Run(batch(w).world, [Status(Creating, Some("Creating index")), Status(Error, Some("Failed to create index"))],
          false)
  }

  /**
   * `initialize_or_update`: if no index is loaded, the creation half; unless
   * that failed, the update half follows.
   */
  ghost function Lifecycle(batch: World -> BatchResult, build: World -> World, w: World, buildSucceeds: bool): Run
  {
    if w.index.None? then
      var created := CreateRun(batch, build, w, buildSucceeds);
      if !Creates(batch, w, buildSucceeds) then created
      else
        var updated := UpdateRun(batch, created.world);
        Run(updated.world, created.statuses + updated.statuses, updated.raised)
    else
      UpdateRun(batch, w)
  }

  /** A failed creation is the whole run. */
  lemma LifecycleCreationFails(batch: World -> BatchResult, build: World -> World, w: World, buildSucceeds: bool)
    requires w.index.None? && !Creates(batch, w, buildSucceeds)
    ensures Lifecycle(batch, build, w, buildSucceeds) == CreateRun(batch, build, w, buildSucceeds)
  {
  }

  /** A successful creation is followed by the update, from the world the creation left. */
  lemma LifecycleCreationThenUpdate(batch: World -> BatchResult, build: World -> World, w: World, buildSucceeds: bool)
    requires w.index.None? && Creates(batch, w, buildSucceeds)
    ensures var c := CreateRun(batch, build, w, buildSucceeds);
            var u := UpdateRun(batch, c.world);
            Lifecycle(batch, build, w, buildSucceeds) == Run(u.world, c.statuses + u.statuses, u.raised)
  {
  }

  /** Statuses appended in two steps are the history appended once with both. */
  lemma AppendAssociates<T>(h: seq<T>, first: seq<T>, second: seq<T>)
    ensures (h + first) + second == h + (first + second)
  {
  }

  /** With an index loaded, the run is the update alone. */
  lemma LifecycleUpdateOnly(batch: World -> BatchResult, build: World -> World, w: World, buildSucceeds: bool)
    requires w.index.Some?
    ensures Lifecycle(batch, build, w, buildSucceeds) == UpdateRun(batch, w)
  {
  }

  /** The store's batches insert what they write into a loaded index and never create one. */
  lemma StoreBatchKeepsIndex(env: Environment, t: Transcriber, room: Option<string>, limit: Option<int>,
                             source: Source)
    ensures KeepsIndex(BatchOf(env, t, room, limit, source))
  {
    forall v: World
      ensures BatchOf(env, t, room, limit, source)(v).world.index.Some? <==> v.index.Some?
    {
      BatchInsertsWritten(env, t, room, limit, source, v);
    }
  }

  /**
   * The index after `initialize_or_update`: an existing index gains the
   * update batch's transcripts; a created one holds every transcript on disk
   * after the creation batch, plus the update batch's; a failed creation
   * leaves the store without an index.
   */
  lemma LifecycleIndex(env: Environment, t: Transcriber, room: Option<string>, limit: Option<int>,
                       source: Source, w: World, buildSucceeds: bool)
    ensures var run := Lifecycle(BatchOf(env, t, room, limit, source), BuildOf(env), w, buildSucceeds);
            var created := Batch(env, t, room, limit, source, w);
            var rebuilt := BuildIndex(env, created.world);
            run.world.index ==
              if w.index.Some? then Some(w.index.value + DocsOf(created.written))
              else if created.ok && buildSucceeds then
                Some(Corpus(TranscriptFiles(created.world.files, env.transcriptsDir))
                     + DocsOf(Batch(env, t, room, limit, source, rebuilt).written))
              else None
  {
    var batch, build := BatchOf(env, t, room, limit, source), BuildOf(env);
    var created := Batch(env, t, room, limit, source, w);
    BatchInsertsWritten(env, t, room, limit, source, w);
    if w.index.Some? {
      LifecycleUpdateOnly(batch, build, w, buildSucceeds);
    } else if created.ok && buildSucceeds {
      LifecycleCreationThenUpdate(batch, build, w, buildSucceeds);
      BatchInsertsWritten(env, t, room, limit, source, BuildIndex(env, created.world));
    } else {
      LifecycleCreationFails(batch, build, w, buildSucceeds);
    }
  }

  /**
   * With a batch that keeps the index and a build that makes one,
   * `initialize_or_update` ends in one of three ways: ready, with an index
   * loaded; failed, with no index (so queries keep raising); or raising in
   * the update, with the status left at updating and an index loaded.
   */
  lemma LifecycleEnds(batch: World -> BatchResult, build: World -> World, w: World, buildSucceeds: bool)
    requires KeepsIndex(batch) && BuildsIndex(build)
    ensures var run := Lifecycle(batch, build, w, buildSucceeds);
            var last := run.statuses[|run.statuses| - 1];
            && |run.statuses| > 0
            && (last.state == Ready ==> !run.raised && run.world.index.Some?)
            && (last.state == Error ==> !run.raised && run.world.index.None?)
            && (last.state == Updating ==> run.raised && run.world.index.Some?)
            && last.state in {Ready, Error, Updating}
  {
  }

  /** The bulk build always leaves an index loaded. */
  lemma BuildOfBuildsIndex(env: Environment)
    ensures BuildsIndex(BuildOf(env))
  {
  }

  /**
   * The statuses `initialize_or_update` passes through: creating first when
   * no index is loaded, and updating first otherwise; a failed creation ends
   * in the error state without entering the update; otherwise updating
   * comes, and unless the update raises, the run ends ready.
   */
  lemma LifecyclePhases(batch: World -> BatchResult, build: World -> World, w: World, buildSucceeds: bool)
    ensures var run := Lifecycle(batch, build, w, buildSucceeds);
            var creationFailed := w.index.None? && !Creates(batch, w, buildSucceeds);
            && |run.statuses| > 0
            && run.statuses[0].state == (if w.index.None? then Creating else Updating)
            && (creationFailed ==>
                  && run.statuses == [Status(Creating, Some("Creating index")), Status(Error, Some("Failed to create index"))]
                  && !run.raised)
            && (!creationFailed ==>
                  && Status(Updating, Some("Updating index")) in run.statuses
                  && (!run.raised <==> run.statuses[|run.statuses| - 1] == Status(Ready, Some("Index ready to query"))))
  {
  }

  class Store {
    var state: State
    var message: Option<string>
    var index: Option<multiset<Doc>>
    const dailyRoomName: Option<string>
    const maxVideos: Option<int>
    const transcriber: Transcriber
    /** Every status the store has had, the current one last. */
    ghost var history: seq<Status>

    ghost predicate Valid()
      reads this
    {
      |history| > 0 && history[|history| - 1] == Status(state, message)
    }

    /**
     * A store starts uninitialized, without an index; with no transcriber
     * given it uses Deepgram when an API key is configured, else Whisper.
     */
    constructor (dailyRoomName: Option<string>, maxVideos: Option<int>, given: Option<Transcriber>,
                 deepgramApiKey: Option<string>, sdk: Deepgram.Sdk, whisperModel: string -> Option<string>)
      ensures Valid()
      ensures state == Uninitialized && message == Some(InitialMessage) && index == None
      ensures history == [Status(Uninitialized, Some(InitialMessage))]
      ensures this.dailyRoomName == dailyRoomName && this.maxVideos == maxVideos
      ensures transcriber == SelectTranscriber(given, deepgramApiKey, sdk, whisperModel)
    {
      state := Uninitialized;
      message := Some(InitialMessage);
      index := None;
      this.dailyRoomName := dailyRoomName;
      this.maxVideos := maxVideos;
      transcriber := SelectTranscriber(given, deepgramApiKey, sdk, whisperModel);
      history := [Status(Uninitialized, Some(InitialMessage))];
    }

    /** `ready`: an index is loaded (whatever the status says). */
    predicate IsReady()
      reads this
      ensures IsReady() <==> index != None
    {
      index.Some?
    }

    /** Keeps the old state when none is given; always replaces the message. */
    method UpdateStatus(newState: Option<State>, newMessage: Option<string>)
      requires Valid()
      modifies this`state, this`message, this`history
      ensures Valid()
      ensures state == (if newState.Some? then newState.value else old(state))
      ensures message == newMessage
      ensures history == old(history) + [Status(state, message)]
    {
      if newState.Some? {
        state := newState.value;
      }
      message := newMessage;
      history := history + [Status(state, message)];
    }

    /** `query`: raises unless an index is loaded; otherwise asks the index's query engine. */
    method Query(q: string, engine: (multiset<Doc>, string) -> string) returns (r: Result<string, string>)
      ensures r.Failure? <==> !IsReady()
      ensures r.Failure? ==> r.error == NotReadyMessage
      ensures r.Success? ==> r.value == engine(index.value, q)
    {
      if index.None? {
        return Failure(NotReadyMessage);
      }
      return Success(engine(index.value, q));
    }

    /**
     * `load_index`: loading, then ready with the loaded index; when nothing
     * could be loaded, back to uninitialized (without a message) and the index
     * untouched. Other exceptions escape with the status left at loading.
     */
    method LoadIndex(outcome: LoadOutcome) returns (loaded: bool, raised: bool)
      requires Valid()
      modifies this`state, this`message, this`history, this`index
      ensures Valid()
      ensures loaded <==> outcome.Loaded?
      ensures raised <==> outcome.LoadCrashed?
      ensures index == if outcome.Loaded? then Some(outcome.docs) else old(index)
      ensures history == old(history) + [Status(Loading, Some("Loading index"))] +
                         match outcome
                         case Loaded(_) => [Status(Ready, Some("Index loaded and ready to query"))]
                         case LoadCrashed => []
                         case _ => [Status(Uninitialized, None)]
    {
      UpdateStatus(Some(Loading), Some("Loading index"));
      loaded, raised := false, false;
      match outcome
      case LoadCrashed =>
        raised := true;
        return;
      case Loaded(docs) =>
        index := Some(docs);
        UpdateStatus(Some(Ready), Some("Index loaded and ready to query"));
        loaded := true;
        return;
      case _ =>
      UpdateStatus(Some(Uninitialized), None);
    }

    /**
     * `create_index`: reads every transcript in the transcripts directory,
     * one document per file, and replaces the index with an index of them.
     */
    method CreateIndex(fs: FileSystem, env: Environment)
      modifies this`index
      ensures index == Some(Corpus(TranscriptFiles(fs.files, env.transcriptsDir)))
    {
      var rest := TranscriptFiles(fs.files, env.transcriptsDir);
      ghost var all := Corpus(rest);
      var docs: multiset<Doc> := multiset{};
      while rest != map[]
        invariant docs + Corpus(rest) == all
        decreases |rest|
      {
        var p :| p in rest;
        CorpusStep(docs, rest, p);
        docs, rest := docs + multiset{Doc(rest[p])}, rest - {p};
      }
      assert docs + multiset{} == docs;
      index := Some(docs);
    }

    /**
     * The common tail of both per-item steps: transcribe, save the
     * transcript and insert it if an index is loaded, then remove the audio.
     */
    method FinishTranscript(fs: FileSystem, url: Option<string>, audio: Option<string>, transcriptPath: string)
      returns (written: Option<string>, ok: bool)
      modifies fs, this`index
      ensures StepResult(World(fs.files, index), written, ok)
              == FinishItem(transcriber, World(old(fs.files), old(index)), url, audio, transcriptPath)
    {
      var transcription := Transcribe(transcriber, url, audio, fs.files);
      if transcription.Failure? {
        return None, false;
      }
      var text := transcription.value;
      fs.Write(transcriptPath, text);
      if IsReady() {
        index := Some(index.value + multiset{Doc(text)});
      }
      written, ok := Some(text), true;
      if audio.Some? && audio.value != "" {
        ok := fs.Remove(audio.value);
      }
    }

    /** The audio an upload is transcribed from: the cached `<stem>.wav`, else extracted from the video. */
    method GetUploadAudio(fs: FileSystem, env: Environment, videoPath: string) returns (audio: Result<string, MediaError>)
      modifies fs
      ensures FileEffect(fs.files, audio) == UploadAudio(env, old(fs.files), videoPath)
    {
      var cached := GetAudioPath(UploadKey(videoPath));
      if fs.Exists(cached) {
        audio := Success(cached);
      } else {
        audio := ExtractAudio(fs, videoPath, env.extract);
      }
    }

    /** An upload without a transcript: get its audio, delete the video, then finish. */
    method TranscribeUploadedFile(fs: FileSystem, env: Environment, videoPath: string, transcriptPath: string)
      returns (written: Option<string>, ok: bool)
      modifies fs, this`index
      ensures StepResult(World(fs.files, index), written, ok)
              == TranscribeUpload(env, transcriber, World(old(fs.files), old(index)), videoPath, transcriptPath)
    {
      ghost var w0 := World(fs.files, index);
      var audio := GetUploadAudio(fs, env, videoPath);
      ghost var e := UploadAudio(env, w0.files, videoPath);
      assert fs.files == e.files && audio == e.result;
      if audio.Failure? {
        assert TranscribeUpload(env, transcriber, w0, videoPath, transcriptPath) == StepResult(w0.(files := e.files), None, false);
        return None, false;
      }
      var removed := fs.Remove(videoPath);
      if !removed {
        assert fs.files == e.files;
        assert TranscribeUpload(env, transcriber, w0, videoPath, transcriptPath) == StepResult(w0.(files := e.files), None, false);
        return None, false;
      }
      ghost var w1 := World(fs.files, index);
      assert w1 == w0.(files := e.files - {videoPath});
      assert TranscribeUpload(env, transcriber, w0, videoPath, transcriptPath)
             == FinishItem(transcriber, w1, None, Some(audio.value), transcriptPath);
      written, ok := FinishTranscript(fs, None, Some(audio.value), transcriptPath);
    }

    /** `transcribe_and_index_file` for one uploaded video. */
    method TranscribeAndIndexFile(fs: FileSystem, env: Environment, videoPath: string)
      returns (written: Option<string>, ok: bool)
      modifies fs, this`index
      ensures StepResult(World(fs.files, index), written, ok)
              == FileStep(env, transcriber, World(old(fs.files), old(index)), videoPath)
    {
      var transcriptPath := TranscriptPath(env.transcriptsDir, UploadKey(videoPath));
      if fs.Exists(transcriptPath) {
        ok := fs.Remove(videoPath);
        return None, ok;
      }
      written, ok := TranscribeUploadedFile(fs, env, videoPath, transcriptPath);
    }

    /** The local audio a recording needs: none, the cached `<key>.wav`, or audio produced from the URL. */
    method GetLocalAudio(fs: FileSystem, env: Environment, url: string, key: string)
      returns (audio: Result<Option<string>, MediaError>)
      modifies fs
      ensures AudioEffect(fs.files, audio) == LocalAudio(env, transcriber, old(fs.files), url, key)
    {
      if !RequiresLocalAudio(transcriber) {
        return Success(None);
      }
      var cached := GetAudioPath(key);
      if fs.Exists(cached) {
        return Success(Some(cached));
      }
      var produced := ProduceLocalAudioFromUrl(fs, env.uploadDir, url, key, env.download, env.extract);
      if produced.Failure? {
        return Failure(produced.error);
      }
      return Success(Some(produced.value));
    }

    /** A recording without a transcript, once its URL is known: get audio if needed, then finish. */
    method TranscribeRecordingFrom(fs: FileSystem, env: Environment, url: string, key: string, transcriptPath: string)
      returns (written: Option<string>, ok: bool)
      modifies fs, this`index
      ensures StepResult(World(fs.files, index), written, ok)
              == TranscribeRecording(env, transcriber, World(old(fs.files), old(index)), url, key, transcriptPath)
    {
      var audio := GetLocalAudio(fs, env, url, key);
      if audio.Failure? {
        return None, false;
      }
      written, ok := FinishTranscript(fs, Some(url), audio.value, transcriptPath);
    }

    /** `transcribe_and_index_recording` for one Daily recording. */
    method TranscribeAndIndexRecording(fs: FileSystem, env: Environment, rec: Recording)
      returns (written: Option<string>, ok: bool)
      modifies fs, this`index
      ensures StepResult(World(fs.files, index), written, ok)
              == RecordingStep(env, transcriber, dailyRoomName, World(old(fs.files), old(index)), rec)
    {
      if Truthy(dailyRoomName) && dailyRoomName.value != rec.roomName {
        return None, true;
      }
      var key := RecordingKey(rec);
      var transcriptPath := TranscriptPath(env.transcriptsDir, key);
      if fs.Exists(transcriptPath) {
        return None, true;
      }
      var link := GetAccessLink(env.daily, rec.id);
      if link.Failure? {
        return None, false;
      }
      written, ok := TranscribeRecordingFrom(fs, env, link.value, key, transcriptPath);
    }

    /** `generate_upload_transcripts`: every `.mp4` or `.mov` upload the scan found, in turn. */
    method GenerateUploadTranscripts(fs: FileSystem, env: Environment) returns (written: seq<string>, ok: bool)
      modifies fs, this`index
      ensures BatchResult(World(fs.files, index), written, ok)
              == Batch(env, transcriber, dailyRoomName, maxVideos, Uploads, World(old(fs.files), old(index)))
    {
      var paths := GetUploadedFilePaths(env.uploadDir, env.listUploads(fs.files));
      ghost var w0 := World(fs.files, index);
      ghost var items := UploadItems(paths);
      written, ok := [], true;
      for i := 0 to |paths|
        invariant BatchResult(World(fs.files, index), written, ok)
                  == RunItems(env, transcriber, dailyRoomName, w0, items[..i])
      {
        var text: Option<string>, itemOk: bool;
        if IsVideoPath(paths[i]) {
          text, itemOk := TranscribeAndIndexFile(fs, env, paths[i]);
        } else {
          text, itemOk := None, true;
        }
        RunItemsLast(env, transcriber, dailyRoomName, w0, items[..i + 1]);
        assert items[..i + 1][..i] == items[..i];
        written := written + if text.Some? then [text.value] else [];
        ok := ok && itemOk;
      }
      assert items[..|paths|] == items;
    }

    /** The loop of `index_daily_recordings`: each fetched recording in turn. */
    method IndexRecordings(fs: FileSystem, env: Environment, recs: seq<Recording>)
      returns (written: seq<string>, ok: bool)
      modifies fs, this`index
      ensures BatchResult(World(fs.files, index), written, ok)
              == RunItems(env, transcriber, dailyRoomName, World(old(fs.files), old(index)), RecordingItems(recs))
    {
      ghost var w0 := World(fs.files, index);
      ghost var items := RecordingItems(recs);
      written, ok := [], true;
      for i := 0 to |recs|
        invariant BatchResult(World(fs.files, index), written, ok)
                  == RunItems(env, transcriber, dailyRoomName, w0, items[..i])
      {
        var text, itemOk := TranscribeAndIndexRecording(fs, env, recs[i]);
        RunItemsLast(env, transcriber, dailyRoomName, w0, items[..i + 1]);
        assert items[..i + 1][..i] == items[..i];
        written := written + if text.Some? then [text.value] else [];
        ok := ok && itemOk;
      }
      assert items[..|recs|] == items;
    }

    /** `index_daily_recordings`: fetch the room's recordings, then transcribe each in turn. */
    method IndexDailyRecordings(fs: FileSystem, env: Environment) returns (written: seq<string>, ok: bool)
      modifies fs, this`index
      ensures BatchResult(World(fs.files, index), written, ok)
              == Batch(env, transcriber, dailyRoomName, maxVideos, DailySource, World(old(fs.files), old(index)))
    {
      var fetched := FetchRecordings(env.daily, dailyRoomName, maxVideos);
      if fetched.Failure? {
        return [], false;
      }
      written, ok := IndexRecordings(fs, env, fetched.value);
    }

    method RunBatch(fs: FileSystem, env: Environment, source: Source) returns (written: seq<string>, ok: bool)
      modifies fs, this`index
      ensures BatchResult(World(fs.files, index), written, ok)
              == Batch(env, transcriber, dailyRoomName, maxVideos, source, World(old(fs.files), old(index)))
    {
      match source
      case DailySource =>
        written, ok := IndexDailyRecordings(fs, env);
      case Uploads =>
        written, ok := GenerateUploadTranscripts(fs, env);
    }

    /**
     * `generate_index`: the batch, then the bulk build. Whether the index
     * engine's build raises is given by `buildSucceeds`; when it raises, the
     * index is left as it was.
     */
    method GenerateIndex(fs: FileSystem, env: Environment, source: Source, buildSucceeds: bool) returns (ok: bool)
      modifies fs, this`index
      ensures var c := Batch(env, transcriber, dailyRoomName, maxVideos, source, World(old(fs.files), old(index)));
              && ok == (c.ok && buildSucceeds)
              && World(fs.files, index) == if ok then BuildIndex(env, c.world) else c.world
    {
      var _, batchOk := RunBatch(fs, env, source);
      if !batchOk || !buildSucceeds {
        return false;
      }
      CreateIndex(fs, env);
      return true;
    }

    /** The creation half of `initialize_or_update`, as `CreateRun` gives it. */
    method Create(fs: FileSystem, env: Environment, source: Source, buildSucceeds: bool) returns (created: bool)
      requires Valid()
      modifies fs, this`index, this`state, this`message, this`history
      ensures Valid()
      ensures created == Creates(BatchOf(env, transcriber, dailyRoomName, maxVideos, source),
                                 World(old(fs.files), old(index)), buildSucceeds)
      ensures var run := CreateRun(BatchOf(env, transcriber, dailyRoomName, maxVideos, source), BuildOf(env),
                                   World(old(fs.files), old(index)), buildSucceeds);
              && World(fs.files, index) == run.world
              && history == old(history) + run.statuses
    {
      ghost var h0 := history;
      ghost var creating := Status(Creating, Some("Creating index"));
      UpdateStatus(Some(Creating), Some("Creating index"));
      created := GenerateIndex(fs, env, source, buildSucceeds);
      if !created {
        ghost var failed := Status(Error, Some("Failed to create index"));
        UpdateStatus(Some(Error), Some("Failed to create index"));
        AppendAssociates(h0, [creating], [failed]);
        assert [creating] + [failed] == [creating, failed];
      }
    }

    /** The update half of `initialize_or_update`, as `UpdateRun` gives it. */
    method Update(fs: FileSystem, env: Environment, source: Source) returns (raised: bool)
      requires Valid()
      modifies fs, this`index, this`state, this`message, this`history
      ensures Valid()
      ensures var run := UpdateRun(BatchOf(env, transcriber, dailyRoomName, maxVideos, source),
                                   World(old(fs.files), old(index)));
              && World(fs.files, index) == run.world
              && history == old(history) + run.statuses
              && raised == run.raised
    {
      ghost var h0 := history;
      ghost var updating := Status(Updating, Some("Updating index"));
      UpdateStatus(Some(Updating), Some("Updating index"));
      var _, updated := RunBatch(fs, env, source);
      if !updated {
        return true;
      }
      ghost var ready := Status(Ready, Some("Index ready to query"));
      UpdateStatus(Some(Ready), Some("Index ready to query"));
      AppendAssociates(h0, [updating], [ready]);
      return false;
    }

    /**
     * `initialize_or_update`: the statuses passed through, the final world
     * and whether an exception escaped are those `Lifecycle` gives.
     */
    method InitializeOrUpdate(fs: FileSystem, env: Environment, source: Source, buildSucceeds: bool)
      returns (raised: bool)
      requires Valid()
      modifies fs, this`index, this`state, this`message, this`history
      ensures Valid()
      ensures var run := Lifecycle(BatchOf(env, transcriber, dailyRoomName, maxVideos, source), BuildOf(env),
                                   World(old(fs.files), old(index)), buildSucceeds);
              && World(fs.files, index) == run.world
              && history == old(history) + run.statuses
              && raised == run.raised
    {
      ghost var batch := BatchOf(env, transcriber, dailyRoomName, maxVideos, source);
      ghost var build := BuildOf(env);
      ghost var w0 := World(fs.files, index);
      ghost var h0 := history;
      if !IsReady() {
        var created := Create(fs, env, source, buildSucceeds);
        ghost var c := CreateRun(batch, build, w0, buildSucceeds);
        if !created {
          LifecycleCreationFails(batch, build, w0, buildSucceeds);
          return false;
        }
        LifecycleCreationThenUpdate(batch, build, w0, buildSucceeds);
        raised := Update(fs, env, source);
        AppendAssociates(h0, c.statuses, UpdateRun(batch, c.world).statuses);
      } else {
        raised := Update(fs, env, source);
        LifecycleUpdateOnly(batch, build, w0, buildSucceeds);
      }
    }
  }
}

/**
 * What the ingestion steps and batches guarantee: idempotency, the
 * insert-only-when-loaded discipline, the release of scratch audio, the lack
 * of per-item failure isolation, and the bulk build's corpus.
 */
module IngestProperties {
  import opened Wrappers
  import opened Paths
  import opened Media
  import opened Daily
  import opened Transcription
  import opened Ingest

  /**
   * An upload whose transcript exists is not transcribed, written or indexed:
   * only its video is deleted (deleting a missing video raises).
   */
  lemma UploadWithTranscriptOnlyDeletesVideo(env: Environment, t: Transcriber, w: World, videoPath: string)
    requires TranscriptPath(env.transcriptsDir, UploadKey(videoPath)) in w.files
    ensures FileStep(env, t, w, videoPath) ==
              if videoPath in w.files then StepResult(w.(files := w.files - {videoPath}), None, true)
              else StepResult(w, None, false)
  {
  }

  /** A recording from another room, or one already transcribed, has no effect at all. */
  lemma RecordingSkipHasNoEffect(env: Environment, t: Transcriber, room: Option<string>, w: World, rec: Recording)
    requires (Truthy(room) && room.value != rec.roomName)
             || TranscriptPath(env.transcriptsDir, RecordingKey(rec)) in w.files
    ensures RecordingStep(env, t, room, w, rec) == StepResult(w, None, true)
  {
  }

  /**
   * Transcribing and saving one item: a transcript is written at its path and
   * inserted if an index is loaded; the audio used is removed afterwards
   * (raising if it is missing); a failed transcription changes nothing.
   */
  lemma FinishItemEffect(t: Transcriber, w: World, url: Option<string>, audio: Option<string>, tp: string)
    requires EndsWith(tp, ".txt")
    requires audio.Some? ==> EndsWith(audio.value, ".wav")
    ensures var s := FinishItem(t, w, url, audio, tp);
            && (s.written.None? ==> s.world == w && !s.ok)
            && (s.written.Some? ==>
                  && s.world.files == w.files[tp := s.written.value] - (if audio.Some? then {audio.value} else {})
                  && tp in s.world.files && s.world.files[tp] == s.written.value
                  && s.world.index == (if w.index.Some? then Some(w.index.value + multiset{Doc(s.written.value)}) else None)
                  && s.ok == (audio.None? || audio.value in w.files))
  {
    if audio.Some? {
      DistinctEndings(audio.value, tp, ".wav", ".txt");
      assert audio.value != "";
    }
  }

  /** The index gains exactly the transcript a step wrote, and only when an index is loaded. */
  predicate IndexFollowsWrites(w: World, s: StepResult)
  {
    s.world.index == if w.index.Some? && s.written.Some?
                     then Some(w.index.value + multiset{Doc(s.written.value)})
                     else w.index
  }

  /** A transcript is written only where none existed, and is on disk at that path afterwards. */
  predicate WritesAt(w: World, s: StepResult, tp: string)
  {
    s.written.Some? ==> tp !in w.files && tp in s.world.files && s.world.files[tp] == s.written.value
  }

  /**
   * An upload being transcribed: after a clean run its video and the audio it
   * used (the cached one, or the one extracted next to the video) are gone.
   */
  lemma TranscribeUploadEffect(env: Environment, t: Transcriber, w: World, videoPath: string, tp: string)
    requires EndsWith(tp, ".txt") && tp !in w.files
    ensures var s := TranscribeUpload(env, t, w, videoPath, tp);
            var e := UploadAudio(env, w.files, videoPath);
            && IndexFollowsWrites(w, s)
            && WritesAt(w, s, tp)
            && (s.written.Some? ==> e.result.Success?)
            && (s.ok && s.written.Some? ==> videoPath !in s.world.files && e.result.value !in s.world.files)
  {
    var e := UploadAudio(env, w.files, videoPath);
    if e.result.Success? && videoPath in e.files {
      FinishItemEffect(t, w.(files := e.files - {videoPath}), None, Some(e.result.value), tp);
      assert videoPath != tp by {
        DistinctEndings(e.result.value, tp, ".wav", ".txt");
      }
    }
  }

  lemma FileStepEffect(env: Environment, t: Transcriber, w: World, videoPath: string)
    ensures var s := FileStep(env, t, w, videoPath);
            var tp := TranscriptPath(env.transcriptsDir, UploadKey(videoPath));
            && IndexFollowsWrites(w, s)
            && WritesAt(w, s, tp)
            && (s.written.Some? ==> UploadAudio(env, w.files, videoPath).result.Success?)
            && (s.ok && s.written.Some? ==>
                  videoPath !in s.world.files && UploadAudio(env, w.files, videoPath).result.value !in s.world.files)
  {
    var tp := TranscriptPath(env.transcriptsDir, UploadKey(videoPath));
    if tp !in w.files {
      TranscribeUploadEffect(env, t, w, videoPath, tp);
    }
  }

  /**
   * A recording being transcribed: with Deepgram the disk changes at most at
   * the transcript's path; with Whisper, after a clean run the audio used is
   * gone, and so is the downloaded video when the audio was not cached.
   */
  lemma TranscribeRecordingEffect(env: Environment, t: Transcriber, w: World, url: string, key: string, tp: string)
    requires EndsWith(tp, ".txt") && tp !in w.files
    ensures var s := TranscribeRecording(env, t, w, url, key, tp);
            var cached := GetAudioPath(key);
            var video := GetRecordingVideoPath(env.uploadDir, key);
            && IndexFollowsWrites(w, s)
            && WritesAt(w, s, tp)
            && (!RequiresLocalAudio(t) ==>
                  s.world.files == (if s.written.Some? then w.files[tp := s.written.value] else w.files))
            && (RequiresLocalAudio(t) && s.ok && s.written.Some? ==>
                  && (cached in w.files ==> cached !in s.world.files)
                  && (cached !in w.files ==> GetAudioPath(video) !in s.world.files && video !in s.world.files))
  {
    var a := LocalAudio(env, t, w.files, url, key);
    if a.result.Success? {
      FinishItemEffect(t, w.(files := a.files), Some(url), a.result.value, tp);
      if RequiresLocalAudio(t) && GetAudioPath(key) !in w.files {
        ProducedAudioPath(w.files, env.uploadDir, url, key, env.download, env.extract);
        DistinctEndings(GetRecordingVideoPath(env.uploadDir, key), tp, ".mp4", ".txt");
      }
    }
  }

  /**
   * A recording uses local audio only when the transcriber needs it. With
   * Deepgram the disk changes at most at the transcript's path; with Whisper,
   * after a successful run the audio used and the downloaded video are gone.
   */
  lemma RecordingStepEffect(env: Environment, t: Transcriber, room: Option<string>, w: World, rec: Recording)
    ensures var s := RecordingStep(env, t, room, w, rec);
            var tp := TranscriptPath(env.transcriptsDir, RecordingKey(rec));
            var cached := GetAudioPath(RecordingKey(rec));
            var video := GetRecordingVideoPath(env.uploadDir, RecordingKey(rec));
            && IndexFollowsWrites(w, s)
            && WritesAt(w, s, tp)
            && (!RequiresLocalAudio(t) ==>
                  s.world.files == (if s.written.Some? then w.files[tp := s.written.value] else w.files))
            && (RequiresLocalAudio(t) && s.ok && s.written.Some? ==>
                  && (cached in w.files ==> cached !in s.world.files)
                  && (cached !in w.files ==> GetAudioPath(video) !in s.world.files && video !in s.world.files))
  {
    var key := RecordingKey(rec);
    var tp := TranscriptPath(env.transcriptsDir, key);
    if !(Truthy(room) && room.value != rec.roomName) && tp !in w.files {
      var link := GetAccessLink(env.daily, rec.id);
      if link.Success? {
        TranscribeRecordingEffect(env, t, w, link.value, key, tp);
      }
    }
  }

  /**
   * One item inserts into the index exactly the transcript it wrote, and only
   * when an index is loaded; a transcript is written only where none existed
   * for the item's key, and it is on disk at that path afterwards.
   */
  lemma StepEffect(env: Environment, t: Transcriber, room: Option<string>, w: World, item: Item)
    ensures var s := Step(env, t, room, w, item);
            IndexFollowsWrites(w, s) && WritesAt(w, s, ItemTranscriptPath(env, item))
  {
    match item {
      case UploadItem(p) =>
        if IsVideoPath(p) {
          FileStepEffect(env, t, w, p);
        }
      case RecordingItem(r) =>
        RecordingStepEffect(env, t, room, w, r);
    }
  }

  lemma DocsOfAppend(texts: seq<string>, text: string)
    ensures DocsOf(texts + [text]) == DocsOf(texts) + multiset{Doc(text)}
  {
    assert (texts + [text])[..|texts|] == texts;
  }

  /** The written transcripts of a batch followed by one more step. */
  function Extend(written: seq<string>, s: StepResult): seq<string>
  {
    written + if s.written.Some? then [s.written.value] else []
  }

  lemma RunItemsLast(env: Environment, t: Transcriber, room: Option<string>, w: World, items: seq<Item>)
    requires items != []
    ensures var b := RunItems(env, t, room, w, items[..|items| - 1]);
            var s := Step(env, t, room, b.world, items[|items| - 1]);
            RunItems(env, t, room, w, items) == BatchResult(s.world, Extend(b.written, s), b.ok && s.ok)
  {
  }

  /** The index discipline of one step, carried over a batch ending with it. */
  lemma IndexAfterOneMore(w: World, b: World, written: seq<string>, s: StepResult)
    requires b.index == if w.index.Some? then Some(w.index.value + DocsOf(written)) else None
    requires IndexFollowsWrites(b, s)
    ensures s.world.index == if w.index.Some? then Some(w.index.value + DocsOf(Extend(written, s))) else None
  {
    if s.written.Some? {
      DocsOfAppend(written, s.written.value);
      assert Extend(written, s) == written + [s.written.value];
      if w.index.Some? {
        calc {
          s.world.index.value;
          b.index.value + multiset{Doc(s.written.value)};
          w.index.value + DocsOf(written) + multiset{Doc(s.written.value)};
          w.index.value + DocsOf(Extend(written, s));
        }
      }
    } else {
      assert Extend(written, s) == written;
    }
  }

  /**
   * Over a whole batch, the index gains exactly the documents of the
   * transcripts the batch wrote; a batch run before any index exists (the
   * first creation) inserts nothing.
   */
  lemma {:induction false} BatchIndex(env: Environment, t: Transcriber, room: Option<string>, w: World, items: seq<Item>)
    ensures var b := RunItems(env, t, room, w, items);
            b.world.index == if w.index.Some? then Some(w.index.value + DocsOf(b.written)) else None
    decreases |items|
  {
    if items != [] {
      var prefix := items[..|items| - 1];
      var b := RunItems(env, t, room, w, prefix);
      var s := Step(env, t, room, b.world, items[|items| - 1]);
      RunItemsLast(env, t, room, w, items);
      BatchIndex(env, t, room, w, prefix);
      StepEffect(env, t, room, b.world, items[|items| - 1]);
      IndexAfterOneMore(w, b.world, b.written, s);
    } else {
      assert DocsOf([]) == multiset{};
      if w.index.Some? {
        assert w.index.value + multiset{} == w.index.value;
      }
    }
  }

  /** `BatchIndex` for either source, including a failed fetch of the recordings list. */
  lemma BatchInsertsWritten(env: Environment, t: Transcriber, room: Option<string>, limit: Option<int>,
                            source: Source, w: World)
    ensures var b := Batch(env, t, room, limit, source, w);
            b.world.index == if w.index.Some? then Some(w.index.value + DocsOf(b.written)) else None
  {
    match source
    case Uploads =>
      BatchIndex(env, t, room, w, UploadItems(UploadScan(env.uploadDir, env.listUploads(w.files))));
    case DailySource =>
      match RecordingsOf(env.daily, room, limit)
      case Failure(_) =>
        assert DocsOf([]) == multiset{};
        if w.index.Some? {
          assert w.index.value + multiset{} == w.index.value;
        }
      case Success(recs) =>
        BatchIndex(env, t, room, w, RecordingItems(recs));
  }

  /** Whether the `k`-th step of a sequential run, after the ones before it, completed without raising. */
  predicate StepOk(step: (World, Item) -> StepResult, w: World, items: seq<Item>, k: int)
    requires 0 <= k < |items|
  {
    step(RunSteps(step, w, items[..k]).world, items[k]).ok
  }

  /**
   * No failure isolation: a batch (`RunItems` is `RunSteps` of the store's
   * per-item step) completes without raising exactly when every one of its
   * items, run in turn after the ones before it, completes without raising.
   */
  lemma {:induction false} BatchOkIffEveryStepOk(step: (World, Item) -> StepResult, w: World, items: seq<Item>)
    ensures RunSteps(step, w, items).ok <==> forall k :: 0 <= k < |items| ==> StepOk(step, w, items, k)
    decreases |items|
  {
    if items != [] {
      var n := |items| - 1;
      var prefix := items[..n];
      BatchOkIffEveryStepOk(step, w, prefix);
      forall k | 0 <= k < n
        ensures StepOk(step, w, prefix, k) == StepOk(step, w, items, k)
      {
        assert prefix[..k] == items[..k];
      }
      assert StepOk(step, w, items, n) == step(RunSteps(step, w, prefix).world, items[n]).ok;
    }
  }

  /** One item whose transcript already exists writes nothing, inserts nothing and keeps every transcript. */
  lemma TranscribedStepKeepsTranscripts(env: Environment, t: Transcriber, room: Option<string>, w: World, item: Item)
    requires ItemTranscriptPath(env, item) in w.files
    ensures var s := Step(env, t, room, w, item);
            && s.written.None?
            && s.world.index == w.index
            && forall p :: p in w.files && EndsWith(p, ".txt") ==> p in s.world.files
  {
    match item {
      case UploadItem(v) =>
        if IsVideoPath(v) {
          UploadWithTranscriptOnlyDeletesVideo(env, t, w, v);
          forall p | p in w.files && EndsWith(p, ".txt") ensures p != v {
            if EndsWith(v, ".mp4") {
              DistinctEndings(v, p, ".mp4", ".txt");
            } else {
              DistinctEndings(v, p, ".mov", ".txt");
            }
          }
        }
      case RecordingItem(r) =>
        RecordingSkipHasNoEffect(env, t, room, w, r);
    }
  }

  /**
   * Re-running a batch whose items all have transcripts already writes no
   * transcript and inserts no document.
   */
  lemma {:induction false} AlreadyTranscribedBatchWritesNothing(env: Environment, t: Transcriber, room: Option<string>,
                                                               w: World, items: seq<Item>)
    requires forall i :: 0 <= i < |items| ==> ItemTranscriptPath(env, items[i]) in w.files
    ensures var b := RunItems(env, t, room, w, items);
            && b.written == []
            && b.world.index == w.index
            && forall p :: p in w.files && EndsWith(p, ".txt") ==> p in b.world.files
    decreases |items|
  {
    if items != [] {
      var prefix := items[..|items| - 1];
      AlreadyTranscribedBatchWritesNothing(env, t, room, w, prefix);
      var b := RunItems(env, t, room, w, prefix);
      var last := items[|items| - 1];
      assert ItemTranscriptPath(env, last) in w.files;
      TranscribedStepKeepsTranscripts(env, t, room, b.world, last);
    }
  }

  /** For recordings the re-run is a complete no-op: the disk and the index are untouched. */
  lemma {:induction false} AlreadyTranscribedRecordingsNoOp(env: Environment, t: Transcriber, room: Option<string>,
                                                           w: World, recs: seq<Recording>)
    requires forall i :: 0 <= i < |recs| ==> TranscriptPath(env.transcriptsDir, RecordingKey(recs[i])) in w.files
    ensures RunItems(env, t, room, w, RecordingItems(recs)) == BatchResult(w, [], true)
    decreases |recs|
  {
    if recs != [] {
      var items := RecordingItems(recs);
      var prefix := recs[..|recs| - 1];
      assert items[..|items| - 1] == RecordingItems(prefix);
      AlreadyTranscribedRecordingsNoOp(env, t, room, w, prefix);
      RunItemsLast(env, t, room, w, items);
      RecordingSkipHasNoEffect(env, t, room, w, recs[|recs| - 1]);
      assert Step(env, t, room, w, items[|items| - 1]) == StepResult(w, None, true);
    }
  }

  /**
   * A transcript written under a slash-free, non-hidden key in a well-formed
   * transcripts directory is part of the corpus a later bulk build reads.
   */
  lemma TranscriptReadByBulkBuild(files: map<string, string>, dir: string, key: string)
    requires IsDirname(dir) && key != "" && '/' !in key && key[0] != '.'
    requires TranscriptPath(dir, key) in files
    ensures TranscriptPath(dir, key) in TranscriptFiles(files, dir)
  {
    WithExtensionParts(dir, key, ".txt");
  }

  /** Upload keys are slash-free, so uploads with a non-hidden stem are part of a bulk build. */
  lemma UploadTranscriptReadByBulkBuild(files: map<string, string>, dir: string, videoPath: string)
    requires IsDirname(dir) && UploadKey(videoPath) != "" && UploadKey(videoPath)[0] != '.'
    requires TranscriptPath(dir, UploadKey(videoPath)) in files
    ensures TranscriptPath(dir, UploadKey(videoPath)) in TranscriptFiles(files, dir)
  {
    BasenameHasNoSlash(videoPath);
    TranscriptReadByBulkBuild(files, dir, UploadKey(videoPath));
  }

  /** Whatever file the bulk build picks first, the corpus is the same: one document per file. */
  lemma {:induction false} CorpusRemove(m: map<string, string>, k: string)
    requires k in m
    ensures Corpus(m) == multiset{Doc(m[k])} + Corpus(m - {k})
    decreases |m|
  {
    var j :| j in m && Corpus(m) == multiset{Doc(m[j])} + Corpus(m - {j});
    if j != k {
      var mj := m - {j};
      var mk := m - {k};
      assert mj.Keys == m.Keys - {j};
      assert mk.Keys == m.Keys - {k};
      assert k in mj && mj[k] == m[k];
      assert j in mk && mk[j] == m[j];
      CorpusRemove(mj, k);
      CorpusRemove(mk, j);
      RemoveCommutes(m, j, k);
      calc {
        Corpus(m);
        multiset{Doc(m[j])} + Corpus(mj);
        multiset{Doc(m[j])} + (multiset{Doc(m[k])} + Corpus(mj - {k}));
        multiset{Doc(m[k])} + (multiset{Doc(m[j])} + Corpus(mk - {j}));
        multiset{Doc(m[k])} + Corpus(mk);
      }
    }
  }

  /** One step of reading the transcripts one file at a time: moving a file's document across keeps the total. */
  lemma CorpusStep(docs: multiset<Doc>, rest: map<string, string>, p: string)
    requires p in rest
    ensures docs + Corpus(rest) == (docs + multiset{Doc(rest[p])}) + Corpus(rest - {p})
    ensures |rest - {p}| < |rest|
  {
    CorpusRemove(rest, p);
    assert (rest - {p}).Keys == rest.Keys - {p};
  }

  lemma RemoveCommutes(m: map<string, string>, j: string, k: string)
    ensures m - {j} - {k} == m - {k} - {j}
  {
  }

  /** The bulk build holds one document per transcript file: as many as there are files. */
  lemma {:induction false} CorpusSize(m: map<string, string>)
    ensures |Corpus(m)| == |m|
    decreases |m|
  {
    if m != map[] {
      var k :| k in m;
      CorpusRemove(m, k);
      assert (m - {k}).Keys == m.Keys - {k};
      CorpusSize(m - {k});
    }
  }
}

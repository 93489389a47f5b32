# Recording vector store: the ingestion bookkeeping, in Dafny

This project models the ingestion core of a server that turns recordings into a searchable text
index. Recordings come from Daily's cloud recordings or from uploaded videos. The server
transcribes each one, writes the transcript to `<transcripts dir>/<key>.txt`, and keeps a vector
index of the transcripts.

The model covers:

- the `Store` lifecycle: its status (a state and a message), the optional index handle,
  `update_status`, `ready`, `query`, `load_index`, `create_index`, `generate_index` and
  `initialize_or_update`;
- the idempotent per-item steps `transcribe_and_index_file` and
  `transcribe_and_index_recording`, and the batches that run them;
- the path helpers, the upload scan, saving an upload and producing local audio from a recording
  URL;
- the Deepgram transcriber's validation, dispatch, options and result extraction;
- the Daily REST client's request building and response mapping.

Layout:

- `paths.dfy` holds Python's `os.path.basename`, `dirname` and `join`, and `pathlib`'s `stem` and
  `suffix`, on strings.
- `disk.dfy` is the disk: a class over a map from path to contents.
- `media.dfy`, `deepgram.dfy`, `transcription.dfy` and `daily.dfy` follow the source modules.
- `ingest.dfy` states every per-item step and batch as a function from a world (the disk and the
  index) to the world after it.
- `ingest_properties.dfy` proves what those functions guarantee.
- `store.dfy` holds the `Store` class. Its methods update the disk, the index and the status step
  by step, as the source does, and each method is proved equal to the function in `ingest.dfy`
  or `store.dfy` that specifies it.

Modelling choices:

- The index is a multiset of documents, because concurrent jobs insert in no fixed order.
- The bulk build reads one document per non-hidden file directly inside the transcripts
  directory.
- An exception is a failed `Result`, or an `ok`/`raised` flag.
- Batches run their items one after the other. The source starts every item as a task and awaits
  them with `asyncio.gather` without `return_exceptions`, so a failing item does not stop its
  siblings. The model therefore attempts every item, and the batch fails when any item failed.
- A failing item makes the whole batch raise (server/store.py:106, server/store.py:170), so there
  is no per-item failure isolation; `BatchOkIffEveryStepOk` states this.
- Deepgram's SDK, the Whisper model, the video download, the audio extraction, the HTTP GETs and
  the upload directory listing are functions passed in as parameters.

## Model

| member | source | states |
|---|---|---|
| Media.UploadVideoPathParts | server/media.py:81-84 | an upload named with a non-empty, slash-free name is stored directly in the upload directory under that name |
| Paths.WithExtension | server/media.py:87-90 | `os.path.join(dir, name + ext)`, the shape shared by the recording video path (`.mp4`), the remote recording audio path (`.wav`) and the transcript path (`.txt`), always ends in `ext` |
| Media.RecordingVideoPathParts | server/media.py:87-90 | for a slash-free name, a downloaded recording is `<name>.mp4` directly in the upload directory |
| Media.RemoteRecordingAudioPathParts | server/media.py:101-103 | for a slash-free name, the remote recording's audio is `<name>.wav` directly in the recordings directory |
| Media.GetAudioPath | server/media.py:93-98 | the audio path always ends in `.wav` |
| Media.AudioPathBesideVideo | server/media.py:93-98 | the audio path keeps the video's directory, and its base name is the video's stem plus `.wav` |
| Media.AudioPathReplacesExtension | server/media.py:95-97 | for a named video the audio's suffix is exactly `.wav` and its stem is the video's stem |
| Media.AudioPathIdempotent | server/media.py:95-97 | deriving the audio path of an audio path gives the same path |
| Media.UploadScan | server/media.py:27-39 | at most one path; none exactly when no entry is a regular, openable file with suffix `.mp4`; otherwise the path of the first such entry |
| Media.UnopenableEntrySkipped | server/media.py:33-38 | an entry that raises on open is skipped and the scan continues with the later entries |
| Media.ScanSkips | server/media.py:32-38 | an entry that is not a regular `.mp4` file, or that raises on open, is passed over and the scan goes on with the rest |
| Media.ScanTakes | server/media.py:34-36 | an accepted entry ends the scan with its path joined to the upload directory |
| Media.GetUploadedFilePaths | server/media.py:27-39 | the loop with `continue` and `break` returns exactly the scan's result |
| Media.SaveUploadedFile | server/media.py:15-24 | the file is saved under the base name of the client's file name in the upload directory; saving fails if it raised or left no file at that path |
| Media.SavedUploadPath | server/media.py:17-18 | a saved upload's path lies directly in the upload directory and its base name is the client's base name |
| Media.ExtractAudio | server/media.py:69-78 | the extracted audio is written next to the video at the derived audio path; a missing video or a failed extraction raises and writes nothing |
| Media.DownloadRecording | server/media.py:50-66 | the recording is saved at its video path; a failed download raises and leaves an empty file there |
| Media.ProduceLocalAudioFromUrl | server/media.py:42-47 | download, then extraction, then the video is deleted; the first failure stops the sequence |
| Media.ProducedAudioPath | server/media.py:42-47 | on success the audio path returned is the one derived from the downloaded video's path; it holds the extracted audio, and the video is gone |
| Media.RecordingAudioBesideVideo | server/media.py:44-45 | for a slash-free, non-empty name the produced audio is `<name>.wav` in the upload directory |
| Deepgram.OptionsOfNewTranscriber | server/transcription/dg.py:16-31 | a missing or empty model name becomes `nova`; the options carry that model, filler words on and language `en` |
| Transcription.RequiresLocalAudio | server/transcription/dg.py:22-23 | Deepgram never needs local audio; Whisper always does |
| Deepgram.Dispatch | server/transcription/dg.py:36-49 | iff for each branch: a missing key fails first; no URL and no audio path fails next; an audio path wins over a URL; the URL is used only without an audio path |
| Deepgram.TranscribeCases | server/transcription/dg.py:33-59 | the outcome of `transcribe` for every input: the key check, the argument check, the file route when an audio path is given, and the URL request otherwise |
| Deepgram.TranscribeFromFile | server/transcription/dg.py:61-72 | a missing audio file fails before any request; otherwise the file's bytes are sent as `audio/wav` with the transcriber's options |
| Deepgram.GetTranscript | server/transcription/dg.py:74-81 | the result is the first alternative of the first channel, and it fails exactly when either list is empty |
| Transcription.Transcribe | server/transcription/whspr.py:24-36 | Deepgram's outcome is passed through, its error wrapped; Whisper succeeds exactly when the local audio file exists and the model transcribes it, with the model's text, and raises otherwise; a transcriber needing local audio never succeeds without it |
| Transcription.SelectTranscriber | server/store.py:58-66 | a given transcriber is kept; otherwise Deepgram with the default model when a Deepgram key is set, else Whisper |
| Daily.DefaultLimitRaises | server/daily.py:28-32 | as written, listing recordings with the default limit `None` raises (`None > 0`) |
| Daily.QueryParams | server/daily.py:28-32 | `room_name` is present exactly when a room name is given, `limit` exactly when the limit is above 0, and no other key is present |
| Daily.QueryParamsAgreeOnGivenLimit | server/daily.py:28-32 | with a limit given, the corrected parameters equal the ones built as written |
| Daily.RecordingsOf | server/daily.py:19-49 | a missing key fails before any request; a non-OK response fails with its status and text; otherwise there is one recording per entry, in order, each with id and room copied and timestamp `start_ts + duration`; the query uses the corrected `QueryParams`, so an absent limit sends the request where the source raises (see "## Findings") |
| Daily.FetchRecordings | server/daily.py:19-49 | the parameter-building and appending loop returns exactly `RecordingsOf`; like it, it builds the corrected query, so an absent limit adds no `limit` parameter instead of raising |
| Daily.AccessLinkRequest | server/daily.py:58-59 | the request goes to `<api url>/recordings/<id>/access-link` with the bearer header |
| Daily.GetAccessLink | server/daily.py:52-67 | a missing key fails first; a non-OK response fails with its status; otherwise the result is the response's download link |
| Ingest.UploadAudio | server/store.py:194-196 | the audio an upload uses, cached or extracted, always ends in `.wav` |
| Ingest.LocalAudio | server/store.py:232-239 | local audio for a recording, when produced, ends in `.wav` |
| IngestProperties.UploadWithTranscriptOnlyDeletesVideo | server/store.py:188-192 | an upload whose transcript exists is not transcribed, written or indexed; only its video is deleted, and deleting a missing video raises |
| IngestProperties.RecordingSkipHasNoEffect | server/store.py:218-229 | a recording from another room, or one already transcribed, changes nothing |
| IngestProperties.FinishItemEffect | server/store.py:241-252 | the transcript is written at its path and inserted only if an index is loaded; the audio used is then removed, and a missing one raises; a failed transcription changes nothing |
| IngestProperties.TranscribeUploadEffect | server/store.py:194-213 | the index gains exactly the transcript written; after a clean run the video and the audio used are gone |
| IngestProperties.FileStepEffect | server/store.py:182-213 | an upload step writes only a transcript that did not exist and indexes only what it wrote; after a clean run its video and audio are gone |
| IngestProperties.TranscribeRecordingEffect | server/store.py:231-252 | without local audio the disk changes only at the transcript path; with it, the audio used is removed after saving, and so is the downloaded video |
| IngestProperties.RecordingStepEffect | server/store.py:215-252 | a recording step materialises audio only when the transcriber requires it, writes only a new transcript, indexes only what it wrote and leaves no scratch audio after a clean run |
| IngestProperties.StepEffect | server/store.py:204-209 | every item inserts exactly the transcript it wrote and only when the index is loaded; a transcript is written only where none existed, with the transcribed text |
| IngestProperties.BatchIndex | server/store.py:98-106 | over a batch, the index gains exactly the documents of the transcripts written; a batch run without an index (the first creation) inserts nothing |
| IngestProperties.BatchInsertsWritten | server/store.py:162-170 | the same for either source, including a failed recordings fetch |
| IngestProperties.BatchOkIffEveryStepOk | server/store.py:98-106 | a batch completes without raising exactly when every item, run in turn after the ones before it, completes without raising |
| IngestProperties.TranscribedStepKeepsTranscripts | server/store.py:188-192 | an already transcribed item writes nothing, inserts nothing and deletes no transcript |
| IngestProperties.AlreadyTranscribedBatchWritesNothing | server/store.py:98-106 | re-running a batch whose items all have transcripts writes and inserts nothing and keeps every transcript |
| IngestProperties.AlreadyTranscribedRecordingsNoOp | server/store.py:162-170 | re-running the recordings batch after all are transcribed leaves the disk and the index untouched |
| IngestProperties.TranscriptReadByBulkBuild | server/store.py:136-138 | a transcript under a slash-free, non-hidden key is among the files the bulk build reads |
| IngestProperties.UploadTranscriptReadByBulkBuild | server/store.py:183-186 | an upload's transcript with a non-hidden stem is read by the bulk build |
| IngestProperties.CorpusRemove | server/store.py:136-146 | the bulk build's corpus does not depend on the order files are read: one document per file |
| IngestProperties.CorpusSize | server/store.py:136-146 | the bulk build holds as many documents as there are transcript files |
| IndexStore.Store.constructor | server/store.py:51-66 | a new store is uninitialized with "The store is uninitialized", has no index, and has the transcriber the constructor chooses |
| IndexStore.Store.IsReady | server/store.py:261-262 | the store is ready exactly when an index is loaded, whatever the status says |
| IndexStore.Store.UpdateStatus | server/store.py:264-268 | with no state the old state is kept; the message is always replaced, even by none |
| IndexStore.Store.Query | server/store.py:254-262 | a query fails exactly when no index is loaded, and otherwise returns the engine's answer; nothing changes |
| IndexStore.Store.LoadIndex | server/store.py:108-130 | passes through loading; a found index is set and the store ends ready and returns true; when nothing is found it ends uninitialized with no message, returns false and keeps the index; other exceptions escape at loading |
| IndexStore.Store.CreateIndex | server/store.py:132-146 | the index becomes the corpus of every transcript file in the transcripts directory |
| IndexStore.Store.FinishTranscript | server/store.py:241-252 | the transcribe, write, insert-if-ready and remove-audio sequence acts as `FinishItem` |
| IndexStore.Store.GetUploadAudio | server/store.py:194-196 | the cached audio is used when it exists, otherwise audio is extracted from the video, as `UploadAudio` says |
| IndexStore.Store.TranscribeUploadedFile | server/store.py:194-213 | getting the audio, deleting the video and finishing act on the disk and the index as `TranscribeUpload` |
| IndexStore.Store.TranscribeAndIndexFile | server/store.py:182-213 | the upload step acts on the disk and the index as `FileStep` |
| IndexStore.Store.GetLocalAudio | server/store.py:232-239 | no local audio unless the transcriber requires it; then the cached audio, or audio produced from the URL, as `LocalAudio` says |
| IndexStore.Store.TranscribeRecordingFrom | server/store.py:232-252 | getting local audio and finishing act on the disk and the index as `TranscribeRecording` |
| IndexStore.Store.TranscribeAndIndexRecording | server/store.py:215-252 | the recording step acts on the disk and the index as `RecordingStep` |
| IndexStore.Store.GenerateUploadTranscripts | server/store.py:98-106 | the loop over the scanned uploads, `.mp4`/`.mov` only, acts as the upload batch |
| IndexStore.Store.IndexRecordings | server/store.py:167-170 | each fetched recording in turn, the disk, the index and the transcripts written acting as the fold of the per-recording step over the list |
| IndexStore.Store.IndexDailyRecordings | server/store.py:162-170 | the fetch followed by the loop over the fetched recordings acts as the recordings batch; a failed fetch raises and changes nothing |
| IndexStore.Store.RunBatch | server/store.py:83-87 | the source picks the upload batch or the recordings batch |
| IndexStore.Store.GenerateIndex | server/store.py:90-96 | the batch, then the bulk build; either failing raises, and a failed build leaves the index as it was |
| IndexStore.Store.Create | server/store.py:70-78 | creating, then the batch and the bulk build; a failure of either is caught and ends in error with "Failed to create index"; the outcome and the statuses are those of `CreateRun` |
| IndexStore.Store.Update | server/store.py:82-88 | updating, then the batch; the run ends ready unless the batch raised, as `UpdateRun` says |
| IndexStore.Store.InitializeOrUpdate | server/store.py:68-88 | the statuses passed through, the final disk and index, and whether an exception escaped, are those of `Lifecycle` for the store's own batch and bulk build |
| IndexStore.StoreBatchKeepsIndex | server/store.py:204-209 | the store's batches never create or drop the index: inserting happens only when one is loaded |
| IndexStore.BuildOfBuildsIndex | server/store.py:132-146 | the bulk build always leaves an index loaded |
| IndexStore.LifecyclePhases | server/store.py:70-88 | creating comes first on a store without an index, updating first otherwise; a failed creation ends in error with "Failed to create index" and never enters updating; otherwise updating follows, and the run ends ready with "Index ready to query" exactly when nothing escaped |
| IndexStore.LifecycleEnds | server/store.py:68-88 | with a batch that keeps the index and a build that makes one (as the store's do), the run ends ready with an index, in error without one, or raising at updating with an index |
| IndexStore.LifecycleIndex | server/store.py:68-96 | an existing index gains the update batch's transcripts; a created one holds every transcript on disk after the creation batch plus the update batch's; a failed creation leaves no index |

## Left out

- Concurrency: the bounded semaphore of 5, `create_task`, `gather` and `run_in_executor` are not modelled, and batches run sequentially. Interleavings are not modelled either. Concurrent inserts into a shared index are not modelled. When one job raises, `gather` raises at once (server/store.py:106, server/store.py:170), but the sibling jobs keep running. They can outlive the run and overlap a later run, including its bulk build. The model lets every item of a batch finish before the batch returns.
- The HTTP routes of server/index.py are not part of this model.
- server/config.py is not part of this model. Directory paths and API keys are parameters.
- The index engine is not modelled: llama_index, Chroma, embeddings, persistence, `get_vector_store`, `get_service_context` and the query engine. The engine is a function passed to `Query`. Whether the bulk build raises is the parameter `buildSucceeds` of `GenerateIndex` and `InitializeOrUpdate`. `load_index`'s result is the parameter `LoadOutcome`.
- moviepy extraction, the `requests` download, the Deepgram SDK and the Whisper model are functions passed in. A partially written download is not modelled: a failed download leaves an empty file.
- From server/transcription/whspr.py only `requires_local_audio() == True` and "transcribe the local audio or raise" are kept. server/transcription/transcriber.py is an interface with no logic.
- Completion times are integer seconds. `datetime.fromtimestamp` (local time) is not modelled. Recording keys print the timestamp as decimal seconds, not as Python's datetime string.
- Python's path normalisation by `pathlib` (for example, `Path("a//b")` collapsing slashes) is not modelled. Paths are plain strings under `os.path` rules.
- The status is a class attribute shared by every `Store` instance in the source (server/store.py:51). The model gives each store its own status.
- Logging and `print` output are left out.
- Several call sites pass arguments their callees do not accept. They are modelled by their evident data flow:
  - `fetch_recordings` at server/store.py:163 (signature at server/daily.py:19);
  - `get_access_link` at server/store.py:231 (server/daily.py:52);
  - `extract_audio` at server/store.py:196 (server/media.py:69);
  - `DeepgramTranscriber()` at server/store.py:65 (server/transcription/dg.py:16).
- server/media.py:12 imports a `get_recordings_dir_path` that config.py does not define. The recordings directory is a parameter.
- Ingest.UploadAudio: server/store.py:194 passes the video's stem, not its path, to `get_audio_path`, which takes the stem again. So the cached-audio check looks for `<stem of the stem>.wav` relative to the working directory: `up/a.b.mp4` is looked up as `a.wav`. Extraction writes next to the video. The model keeps this as written.
- Daily.RecordingsOf: builds the query with the corrected `QueryParams`. With the default `limit=None`, server/daily.py:31 raises a TypeError before any request (`Daily.DefaultLimitRaises`), while the model sends the request without a `limit` parameter. The same holds for `Daily.FetchRecordings` and for the recordings batch that uses them.
- The Daily API base URL is the parameter `apiUrl`; the source's default `https://api.daily.co/v1` (server/daily.py:8) is not fixed by the model.

## Findings

| source | as written | input that shows it | evidently intended | confidence | as-written member | corrected member |
|---|---|---|---|---|---|---|
| server/daily.py:31 | `if limit > 0` compares the default `limit=None` with 0, which raises `TypeError` in Python 3 | `fetch_recordings(key)` with no `limit` | an absent limit means "no limit" and adds no `limit` parameter | high, not executed | Daily.DefaultLimitRaises | Daily.QueryParams |

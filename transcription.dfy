/**
 * The transcriber capability the store depends on (server/transcription/):
 * either the Deepgram variant or the local Whisper variant, chosen once when
 * the store is built. Whisper's model is a function from audio bytes to text
 * (None: it raised).
 */
module Transcription {
  import opened Wrappers
  import Deepgram

  datatype TranscribeError = DeepgramFailed(reason: Deepgram.DgError) | WhisperFailed

  datatype Transcriber =
    | DeepgramVariant(dg: Deepgram.DeepgramTranscriber, sdk: Deepgram.Sdk)
    | WhisperVariant(model: string -> Option<string>)

  /** Only the Whisper variant needs the audio on the local disk. */
  function RequiresLocalAudio(t: Transcriber): (r: bool)
    ensures r <==> t.WhisperVariant?
  {
    match t
    case DeepgramVariant(dg, _) => dg.RequiresLocalAudio()
    case WhisperVariant(_) => true
  }

  /** `transcribe(recording_url, audio_path)` of the configured variant, reading audio from `files`. */
  function Transcribe(t: Transcriber, recordingUrl: Option<string>, audioPath: Option<string>,
                      files: map<string, string>): (r: Result<string, TranscribeError>)
    ensures t.DeepgramVariant? ==>
              var d := Deepgram.Transcribe(t.dg, recordingUrl, audioPath, files, t.sdk);
              && (r.Success? <==> d.Success?)
              && (r.Success? ==> r.value == d.value)
              && (r.Failure? ==> r.error == DeepgramFailed(d.error))
    ensures t.WhisperVariant? ==>
              && (r.Success? <==> audioPath.Some? && audioPath.value in files && t.model(files[audioPath.value]).Some?)
              && (r.Success? ==> r.value == t.model(files[audioPath.value]).value)
              && (r.Failure? ==> r.error == WhisperFailed)
    ensures RequiresLocalAudio(t) && r.Success? ==> audioPath.Some? && audioPath.value in files
  {
    match t
    case DeepgramVariant(dg, sdk) =>
      (match Deepgram.Transcribe(dg, recordingUrl, audioPath, files, sdk)
       case Failure(e) => Failure(DeepgramFailed(e))
       case Success(text) => Success(text))
    case WhisperVariant(model) =>
      if audioPath.Some? && audioPath.value in files then
        match model(files[audioPath.value])
        case None => Failure(WhisperFailed)
        case Some(text) => Success(text)
      else Failure(WhisperFailed)
  }

  /**
   * The choice made by the store's constructor: a given transcriber is kept;
   * otherwise Deepgram (default model) when a Deepgram key is configured, and
   * Whisper when not.
   */
  function SelectTranscriber(given: Option<Transcriber>, deepgramApiKey: Option<string>,
                             sdk: Deepgram.Sdk, whisperModel: string -> Option<string>): (t: Transcriber)
    ensures given.Some? ==> t == given.value
    ensures given.None? && Truthy(deepgramApiKey) ==>
              t.DeepgramVariant? && t.dg.apiKey == deepgramApiKey && t.dg.modelName == Deepgram.DefaultModel
    ensures given.None? && !Truthy(deepgramApiKey) ==> t.WhisperVariant?
    ensures given.None? ==> (RequiresLocalAudio(t) <==> !Truthy(deepgramApiKey))
  {
    if given.Some? then given.value
    else if Truthy(deepgramApiKey) then DeepgramVariant(Deepgram.NewDeepgramTranscriber(deepgramApiKey, None), sdk)
    else WhisperVariant(whisperModel)
  }
}

/**
 * The Deepgram transcriber of server/transcription/dg.py: construction with a
 * default model, the options sent with every request, the choice between a
 * local audio file and a recording URL, and the extraction of the transcript
 * from the nested response. The SDK's request is a function given as a
 * parameter (None: the SDK raised).
 */
module Deepgram {
  import opened Wrappers

  const DefaultModel := "nova"

  datatype Options = Options(model: string, fillerWords: bool, language: string)

  /** What is handed to the SDK: a URL, or the bytes of a local file with their MIME type. */
  datatype Source = UrlSource(url: string) | BufferSource(data: string, mimetype: string)

  datatype Alternative = Alternative(transcript: string)
  datatype Channel = Channel(alternatives: seq<Alternative>)
  /** `result["results"]`: the per-channel alternatives. */
  datatype Response = Response(channels: seq<Channel>)

  datatype DgError = MissingApiKey | NoInput | AudioNotFound(path: string) | RequestFailed | MalformedResponse

  /** Which request `transcribe` makes. */
  datatype Route = FileRoute(audioPath: string) | UrlRoute(recordingUrl: string)

  /** The SDK's `sync_prerecorded` call, keyed by the API key. */
  type Sdk = (string, Source, Options) -> Option<Response>

  datatype DeepgramTranscriber = DeepgramTranscriber(apiKey: Option<string>, modelName: string)
  {
    /** Deepgram accepts a URL, so no local audio is needed. */
    predicate RequiresLocalAudio()
    {
      false
    }

    function GetTranscriptionOptions(): (o: Options)
    {
      Options(modelName, true, "en")
    }
  }

  /** `DeepgramTranscriber.__init__`: a missing or empty model name becomes the default model. */
  function NewDeepgramTranscriber(apiKey: Option<string>, modelName: Option<string>): DeepgramTranscriber
  {
    DeepgramTranscriber(apiKey, if Truthy(modelName) then modelName.value else DefaultModel)
  }

  /**
   * Every request of a constructed transcriber carries a non-empty model (the
   * given one, or `nova`), filler words on and English.
   */
  lemma OptionsOfNewTranscriber(apiKey: Option<string>, modelName: Option<string>)
    ensures var o := NewDeepgramTranscriber(apiKey, modelName).GetTranscriptionOptions();
            && o.model != ""
            && (Truthy(modelName) ==> o.model == modelName.value)
            && (!Truthy(modelName) ==> o.model == "nova")
            && o.fillerWords
            && o.language == "en"
  {
  }

  /** The checks and the choice `transcribe` makes before any request. */
  function Dispatch(t: DeepgramTranscriber, recordingUrl: Option<string>, audioPath: Option<string>)
    : (r: Result<Route, DgError>)
    ensures !Truthy(t.apiKey) <==> r == Failure(MissingApiKey)
    ensures r == Failure(NoInput) <==> Truthy(t.apiKey) && !Truthy(recordingUrl) && !Truthy(audioPath)
    ensures r.Success? && r.value.FileRoute? <==> Truthy(t.apiKey) && Truthy(audioPath)
    ensures r.Success? && r.value.UrlRoute? <==> Truthy(t.apiKey) && Truthy(recordingUrl) && !Truthy(audioPath)
    ensures r.Success? && r.value.FileRoute? ==> r.value.audioPath == audioPath.value
    ensures r.Success? && r.value.UrlRoute? ==> r.value.recordingUrl == recordingUrl.value
  {
    if !Truthy(t.apiKey) then Failure(MissingApiKey)
    else if !Truthy(recordingUrl) && !Truthy(audioPath) then Failure(NoInput)
    else if Truthy(audioPath) then Success(FileRoute(audioPath.value))
    else Success(UrlRoute(recordingUrl.value))
  }

  /** `get_transcript`: the first alternative of the first channel; an empty list raises. */
  function GetTranscript(res: Response): (r: Result<string, DgError>)
    ensures r.Success? <==> |res.channels| > 0 && |res.channels[0].alternatives| > 0
    ensures r.Success? ==> r.value == res.channels[0].alternatives[0].transcript
    ensures r.Failure? ==> r.error == MalformedResponse
  {
    if |res.channels| == 0 then Failure(MalformedResponse)
    else if |res.channels[0].alternatives| == 0 then Failure(MalformedResponse)
    else Success(res.channels[0].alternatives[0].transcript)
  }

  function FromSdk(res: Option<Response>): Result<string, DgError>
  {
    match res
    case None => Failure(RequestFailed)
    case Some(r) => GetTranscript(r)
  }

  /** `transcribe_from_file`: a missing audio file fails before the SDK is called. */
  function TranscribeFromFile(t: DeepgramTranscriber, apiKey: string, audioPath: string,
                              files: map<string, string>, sdk: Sdk): (r: Result<string, DgError>)
    ensures r == Failure(AudioNotFound(audioPath)) <==> audioPath !in files
    ensures audioPath in files ==>
              r == FromSdk(sdk(apiKey, BufferSource(files[audioPath], "audio/wav"), t.GetTranscriptionOptions()))
  {
    if audioPath !in files then Failure(AudioNotFound(audioPath))
    else FromSdk(sdk(apiKey, BufferSource(files[audioPath], "audio/wav"), t.GetTranscriptionOptions()))
  }

  function TranscribeFromUrl(t: DeepgramTranscriber, apiKey: string, recordingUrl: string, sdk: Sdk)
    : Result<string, DgError>
  {
    FromSdk(sdk(apiKey, UrlSource(recordingUrl), t.GetTranscriptionOptions()))
  }

  /** `transcribe`: key check, argument check, then the file route or the URL route. */
  function Transcribe(t: DeepgramTranscriber, recordingUrl: Option<string>, audioPath: Option<string>,
                      files: map<string, string>, sdk: Sdk): Result<string, DgError>
  {
    match Dispatch(t, recordingUrl, audioPath)
    case Failure(e) => Failure(e)
    case Success(FileRoute(p)) => TranscribeFromFile(t, t.apiKey.value, p, files, sdk)
    case Success(UrlRoute(u)) => TranscribeFromUrl(t, t.apiKey.value, u, sdk)
  }

  /**
   * The outcome of `transcribe` for every input: the key is checked first,
   * then that some input is given; a given audio path wins over a URL, and the
   * URL is sent only when no audio path is given.
   */
  lemma TranscribeCases(t: DeepgramTranscriber, recordingUrl: Option<string>, audioPath: Option<string>,
                        files: map<string, string>, sdk: Sdk)
    ensures var r := Transcribe(t, recordingUrl, audioPath, files, sdk);
            && (!Truthy(t.apiKey) ==> r == Failure(MissingApiKey))
            && (Truthy(t.apiKey) && !Truthy(recordingUrl) && !Truthy(audioPath) ==> r == Failure(NoInput))
            && (Truthy(t.apiKey) && Truthy(audioPath) ==>
                  r == TranscribeFromFile(t, t.apiKey.value, audioPath.value, files, sdk))
            && (Truthy(t.apiKey) && Truthy(recordingUrl) && !Truthy(audioPath) ==>
                  r == FromSdk(sdk(t.apiKey.value, UrlSource(recordingUrl.value), t.GetTranscriptionOptions())))
  {
  }
}

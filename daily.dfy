/**
 * The Daily REST client of server/daily.py: listing recordings and resolving
 * a recording's access link. The HTTP GET is a function from the request to
 * an already-decoded response.
 */
module Daily {
  import opened Wrappers

  /** A finished recording; `timestamp` is its completion time in seconds. */
  datatype Recording = Recording(id: string, roomName: string, timestamp: int)

  /** One entry of the `data` list of `GET /recordings`. */
  datatype RawRecording = RawRecording(id: string, roomName: string, startTs: int, duration: int)

  datatype ParamValue = Text(s: string) | Number(n: int)

  datatype Request = Request(url: string, params: map<string, ParamValue>, headers: map<string, string>)

  datatype RecordingsResponse = RecordingsResponse(ok: bool, statusCode: int, text: string, data: seq<RawRecording>)

  datatype LinkResponse = LinkResponse(ok: bool, statusCode: int, downloadLink: string)

  datatype DailyError =
    | MissingApiKey
    | LimitNotComparable
    | FetchFailed(statusCode: int, text: string)
    | LinkFailed(statusCode: int)

  /** The configured key and base URL, and the two GET endpoints. */
  datatype DailyApi = DailyApi(apiKey: Option<string>, apiUrl: string,
                               recordingsHttp: Request -> RecordingsResponse,
                               linkHttp: Request -> LinkResponse)

  function AuthHeaders(apiKey: string): map<string, string>
  {
    map["Authorization" := "Bearer " + apiKey]
  }

  /**
   * The query parameters exactly as daily.py:28-32 builds them: with the
   * default `limit=None`, the comparison `limit > 0` raises a TypeError.
   */
  function QueryParamsAsWritten(roomName: Option<string>, limit: Option<int>)
    : Result<map<string, ParamValue>, DailyError>
  {
    var byRoom: map<string, ParamValue> := if roomName.Some? then map["room_name" := Text(roomName.value)] else map[];
    if limit.None? then Failure(LimitNotComparable)
    else if limit.value > 0 then Success(byRoom["limit" := Number(limit.value)])
    else Success(byRoom)
  }

  /** Listing recordings with the default (absent) limit raises before any request is made. */
  lemma DefaultLimitRaises(roomName: Option<string>)
    ensures QueryParamsAsWritten(roomName, None) == Failure(LimitNotComparable)
  {
  }

  /** The query parameters with an absent limit treated as "no limit". */
  function QueryParams(roomName: Option<string>, limit: Option<int>): (params: map<string, ParamValue>)
    ensures "room_name" in params <==> roomName.Some?
    ensures roomName.Some? ==> params["room_name"] == Text(roomName.value)
    ensures "limit" in params <==> limit.Some? && limit.value > 0
    ensures "limit" in params ==> params["limit"] == Number(limit.value)
    ensures params.Keys <= {"room_name", "limit"}
  {
    var byRoom: map<string, ParamValue> := if roomName.Some? then map["room_name" := Text(roomName.value)] else map[];
    if limit.Some? && limit.value > 0 then byRoom["limit" := Number(limit.value)] else byRoom
  }

  /** The correction only touches the absent limit: with a limit given, both agree. */
  lemma QueryParamsAgreeOnGivenLimit(roomName: Option<string>, n: int)
    ensures QueryParamsAsWritten(roomName, Some(n)) == Success(QueryParams(roomName, Some(n)))
  {
  }

  function RecordingsRequest(apiKey: string, apiUrl: string, roomName: Option<string>, limit: Option<int>): Request
  {
    Request(apiUrl + "/recordings", QueryParams(roomName, limit), AuthHeaders(apiKey))
  }

  /** A recording completes `duration` seconds after it started. */
  function ToRecording(raw: RawRecording): Recording
  {
    Recording(raw.id, raw.roomName, raw.startTs + raw.duration)
  }

  /** What `fetch_recordings` returns or raises. */
  function RecordingsOf(api: DailyApi, roomName: Option<string>, limit: Option<int>)
    : (r: Result<seq<Recording>, DailyError>)
    ensures !Truthy(api.apiKey) ==> r == Failure(MissingApiKey)
    ensures Truthy(api.apiKey) ==>
              var res := api.recordingsHttp(RecordingsRequest(api.apiKey.value, api.apiUrl, roomName, limit));
              && (!res.ok ==> r == Failure(FetchFailed(res.statusCode, res.text)))
              && (res.ok ==> r.Success? && |r.value| == |res.data|
                             && forall i :: 0 <= i < |res.data| ==>
                                  && r.value[i].id == res.data[i].id
                                  && r.value[i].roomName == res.data[i].roomName
                                  && r.value[i].timestamp == res.data[i].startTs + res.data[i].duration)
  {
    if !Truthy(api.apiKey) then Failure(MissingApiKey)
    else
      var res := api.recordingsHttp(RecordingsRequest(api.apiKey.value, api.apiUrl, roomName, limit));
      if !res.ok then Failure(FetchFailed(res.statusCode, res.text))
      else Success(seq(|res.data|, i requires 0 <= i < |res.data| => ToRecording(res.data[i])))
  }

  /** `fetch_recordings`: builds the query, checks the response, maps every entry in order. */
  method FetchRecordings(api: DailyApi, roomName: Option<string>, limit: Option<int>)
    returns (r: Result<seq<Recording>, DailyError>)
    ensures r == RecordingsOf(api, roomName, limit)
  {
    if !Truthy(api.apiKey) {
      return Failure(MissingApiKey);
    }
    var headers := map["Authorization" := "Bearer " + api.apiKey.value];
    var url := api.apiUrl + "/recordings";
    var params: map<string, ParamValue> := map[];
    if roomName.Some? {
      params := params["room_name" := Text(roomName.value)];
    }
    if limit.Some? && limit.value > 0 {
      params := params["limit" := Number(limit.value)];
    }
    assert Request(url, params, headers) == RecordingsRequest(api.apiKey.value, api.apiUrl, roomName, limit);
    var res := api.recordingsHttp(Request(url, params, headers));
    if !res.ok {
      return Failure(FetchFailed(res.statusCode, res.text));
    }
    var finished: seq<Recording> := [];
    for i := 0 to |res.data|
      invariant |finished| == i
      invariant forall j :: 0 <= j < i ==> finished[j] == ToRecording(res.data[j])
    {
      var raw := res.data[i];
      var timestamp := raw.startTs + raw.duration;
      finished := finished + [Recording(raw.id, raw.roomName, timestamp)];
    }
    assert finished == seq(|res.data|, i requires 0 <= i < |res.data| => ToRecording(res.data[i]));
    r := Success(finished);
  }

  function AccessLinkRequest(apiKey: string, apiUrl: string, recordingId: string): (req: Request)
    ensures req.url == apiUrl + "/recordings/" + recordingId + "/access-link"
    ensures req.params == map[] && req.headers == AuthHeaders(apiKey)
  {
    Request(apiUrl + "/recordings/" + recordingId + "/access-link", map[], AuthHeaders(apiKey))
  }

  /** `get_access_link`: the key is checked first, a non-OK response raises, else the download link. */
  function GetAccessLink(api: DailyApi, recordingId: string): (r: Result<string, DailyError>)
    ensures r == Failure(MissingApiKey) <==> !Truthy(api.apiKey)
    ensures r.Success? <==>
              Truthy(api.apiKey) && api.linkHttp(AccessLinkRequest(api.apiKey.value, api.apiUrl, recordingId)).ok
    ensures r.Success? ==>
              r.value == api.linkHttp(AccessLinkRequest(api.apiKey.value, api.apiUrl, recordingId)).downloadLink
    ensures r.Failure? && Truthy(api.apiKey) ==>
              r.error == LinkFailed(api.linkHttp(AccessLinkRequest(api.apiKey.value, api.apiUrl, recordingId)).statusCode)
  {
    if !Truthy(api.apiKey) then Failure(MissingApiKey)
    else
      var res := api.linkHttp(AccessLinkRequest(api.apiKey.value, api.apiUrl, recordingId));
      if !res.ok then Failure(LinkFailed(res.statusCode)) else Success(res.downloadLink)
  }
}

/** internal/platformapi/client.go: building the API client with its request
    editor, and the four wrappers that turn a reply into a result by its HTTP
    status. Each wrapper is a function of its parameters and of the reply the
    platform sent; it yields the request it issued and the result. */
module PlatformApi {
  import opened Wrappers
  import opened Types
  import opened Strconv
  import opened LabError
  import opened Domain

  /** The `HttpRequestDoer` a client sends through: the package's logging doer,
      a plain `*http.Client`, or one the caller supplied. */
  datatype Doer = LoggingDoer | PlainHttpClient | Supplied(id: nat)

  /** A `*ClientWithResponses`: the server it talks to, the values its request
      editor adds, and its doer. */
  datatype Client = Client(server: string, userAgent: string, token: string, doer: Doer)

  /** `ClientFromConfig` of client.go, over the Host, UserAgent and Token of the
      run configuration: a nil doer becomes the logging doer. */
  function ClientFromConfig(host: string, userAgent: string, token: string, doer: Option<Doer>): (c: Client)
    ensures doer.None? ==> c.doer == LoggingDoer
    ensures doer.Some? ==> c.doer == doer.value
    ensures c.server == host && c.userAgent == userAgent && c.token == token
  {
    var d := if doer.None? then LoggingDoer else doer.value;
    Client(host, userAgent, token, d)
  }

  /** An `http.Header`: each key holds the list of its values. */
  type Header = map<string, seq<string>>

  function Values(h: Header, key: string): seq<string>
  {
    if key in h then h[key] else []
  }

  /** `Header.Add`: appends a value to a key and leaves every other key alone.
      Go also puts the key in canonical form; the keys the editor adds,
      "User-Agent" and "Authorization", already are, so keys are kept as given. */
  function AddHeader(h: Header, key: string, value: string): (r: Header)
    ensures Values(r, key) == Values(h, key) + [value]
    ensures forall k :: k != key ==> Values(r, k) == Values(h, k)
    ensures r.Keys == h.Keys + {key}
  {
    h[key := Values(h, key) + [value]]
  }

  /** The credential the editor sends. */
  function Bearer(token: string): string
  {
    "Bearer " + token
  }

  /** The header after the client's request editor has run. */
  function EditedHeader(h: Header, c: Client): Header
  {
    AddHeader(AddHeader(h, "User-Agent", c.userAgent), "Authorization", Bearer(c.token))
  }

  /** The editor adds the configured agent and the bearer token, after any
      values already there, and touches no other header. */
  lemma EditedHeaderAddsCredentials(h: Header, c: Client)
    ensures Values(EditedHeader(h, c), "User-Agent") == Values(h, "User-Agent") + [c.userAgent]
    ensures Values(EditedHeader(h, c), "Authorization") == Values(h, "Authorization") + ["Bearer " + c.token]
    ensures forall k :: k != "User-Agent" && k != "Authorization" ==> Values(EditedHeader(h, c), k) == Values(h, k)
  {
  }

  /** An outgoing `*http.Request`, reduced to its header, which the editor
      changes in place. */
  class Request {
    var header: Header

    constructor (header: Header)
      ensures this.header == header
    {
      this.header := header;
    }

    /** `req.Header.Add(key, value)`. */
    method Add(key: string, value: string)
      modifies this
      ensures header == AddHeader(old(header), key, value)
    {
      header := AddHeader(header, key, value);
    }
  }

  /** The request editor that `ClientFromConfig` installs (client.go:32-35). */
  method EditRequest(c: Client, req: Request)
    modifies req
    ensures req.header == EditedHeader(old(req.header), c)
  {
    req.Add("User-Agent", c.userAgent);
    req.Add("Authorization", Bearer(c.token));
  }

  /** How every wrapper reads a status code. */
  datatype StatusClass = ClientError | ServerError | Success

  /** 400 to 499 is a client error, 500 and above a server error, anything
      below 400 a success. */
  function StatusClassOf(code: int): (k: StatusClass)
    ensures k == ClientError <==> 400 <= code < 500
    ensures k == ServerError <==> 500 <= code
    ensures k == Success <==> code < 400
  {
    if code >= 400 && code < 500 then ClientError
    else if code >= 500 then ServerError
    else Success
  }

  /** One wrapper call: the request it sent and what it returns. */
  datatype Call<T> = Call(request: ApiRequest, result: Result<T, Error>)

  /** What every wrapper returns for a failed exchange: the transport error
      unchanged, or the 4xx/5xx error body. */
  function Failure<T>(reply: HttpReply<T>): (e: Error)
    requires reply.TransportFailure? || StatusClassOf(reply.statusCode) != Success
  {
    if reply.TransportFailure? then Transport(reply.detail) else Api(reply.errorBody)
  }

  predicate Succeeded<T>(reply: HttpReply<T>)
  {
    reply.Reply? && StatusClassOf(reply.statusCode) == Success
  }

  datatype TriggerParams = TriggerParams(packageName: string, group: Uuid, analysisType: string, platform: string)

  /** `TriggerAssessment`: always asks for fail-fast and for sensitive values not
      to be hidden; succeeds exactly on a reply below 400. */
  function TriggerAssessment(p: TriggerParams, reply: HttpReply<TriggerBody>): (c: Call<TriggerBody>)
    ensures c.request == TriggerRequest(p.platform, p.packageName, Some(p.group), None,
                                        Some(true), Some(p.analysisType), Some(false))
    ensures c.result.Ok? <==> Succeeded(reply)
    ensures c.result.Ok? ==> c.result.value == reply.body
    ensures c.result.Err? ==> c.result.error == Failure(reply)
  {
    var request := TriggerRequest(p.platform, p.packageName, Ptr(p.group), None,
                                  Ptr(true), Ptr(p.analysisType), Ptr(false));
    if reply.TransportFailure? then Call(request, Err(Transport(reply.detail)))
    else if reply.statusCode >= 400 && reply.statusCode < 500 then Call(request, Err(Api(reply.errorBody)))
    else if reply.statusCode >= 500 then Call(request, Err(Api(reply.errorBody)))
    else Call(request, Ok(reply.body))
  }

  datatype UploadParams = UploadParams(analysisType: string, group: Uuid)

  /** `UploadFile`: always asks for an assessment; below 400 the body is decoded
      and a decoding failure is the error. The file's bytes are not modelled. */
  function UploadFile(p: UploadParams, reply: HttpReply<Decoded<BuildBody>>): (c: Call<BuildBody>)
    ensures c.request == BuildRequest(Some(p.analysisType), Some(p.group), Some(true), None, Some(false))
    ensures c.result.Ok? <==> Succeeded(reply) && reply.body.Parsed?
    ensures c.result.Ok? ==> c.result.value == reply.body.value
    ensures !Succeeded(reply) ==> c.result == Err(Failure(reply))
    ensures Succeeded(reply) && reply.body.Undecodable? ==> c.result == Err(Malformed(reply.body.detail))
  {
    var request := BuildRequest(Ptr(p.analysisType), Ptr(p.group), Ptr(true), None, Ptr(false));
    if reply.TransportFailure? then Call(request, Err(Transport(reply.detail)))
    else if reply.statusCode >= 400 && reply.statusCode < 500 then Call(request, Err(Api(reply.errorBody)))
    else if reply.statusCode >= 500 then Call(request, Err(Api(reply.errorBody)))
    else match reply.body
      case Parsed(b) => Call(request, Ok(b))
      case Undecodable(d) => Call(request, Err(Malformed(d)))
  }

  /** `GetAppParams`: the catalogue filters, each optional. */
  datatype AppListParams = AppListParams(platform: Option<string>, package: Option<string>, group: Option<Uuid>, ref: Option<Uuid>)

  /** `GetAppList`: sends the filters as given; succeeds exactly on a reply
      below 400, with the listed apps. */
  function GetAppList(p: AppListParams, reply: HttpReply<seq<LabApp>>): (c: Call<seq<LabApp>>)
    ensures c.request == AppListRequest(p.platform, p.package, p.group, p.ref)
    ensures c.result.Ok? <==> Succeeded(reply)
    ensures c.result.Ok? ==> c.result.value == reply.body
    ensures c.result.Err? ==> c.result.error == Failure(reply)
  {
    var request := AppListRequest(p.platform, p.package, p.group, p.ref);
    if reply.TransportFailure? then Call(request, Err(Transport(reply.detail)))
    else if reply.statusCode >= 400 && reply.statusCode < 500 then Call(request, Err(Api(reply.errorBody)))
    else if reply.statusCode >= 500 then Call(request, Err(Api(reply.errorBody)))
    else Call(request, Ok(reply.body))
  }

  datatype AssessmentParams = AssessmentParams(platform: string, packageName: string, taskId: real, group: Uuid)

  /** `GetAssessment`: the task id goes out truncated toward zero; succeeds
      exactly on a reply below 400, with its status code and body. */
  function GetAssessment(p: AssessmentParams, reply: HttpReply<Assessment>): (c: Call<TaskResponse>)
    ensures c.request.AssessmentRequest? && c.request.platform == p.platform && c.request.package == p.packageName
    ensures c.request.group == Some(p.group)
    ensures p.taskId >= 0.0 ==> c.request.task as real <= p.taskId < c.request.task as real + 1.0
    ensures p.taskId < 0.0 ==> c.request.task as real - 1.0 < p.taskId <= c.request.task as real
    ensures c.result == AssessmentResult(reply)
  {
    TruncatesTowardZero(p.taskId);
    Call(AssessmentRequest(p.platform, p.packageName, TruncateTowardZero(p.taskId), Ptr(p.group)), AssessmentResult(reply))
  }

  /** What `GetAssessment` returns for a reply, whatever was
      asked: the status and the body below 400, the error otherwise. */
  function AssessmentResult(reply: HttpReply<Assessment>): (r: Result<TaskResponse, Error>)
    ensures r.Ok? <==> Succeeded(reply)
    ensures r.Ok? ==> r.value == TaskResponse(reply.statusCode, reply.body)
    ensures r.Err? ==> r.error == Failure(reply)
  {
    if reply.TransportFailure? then Err(Transport(reply.detail))
    else if reply.statusCode >= 400 && reply.statusCode < 500 then Err(Api(reply.errorBody))
    else if reply.statusCode >= 500 then Err(Api(reply.errorBody))
    else Ok(TaskResponse(reply.statusCode, reply.body))
  }

  /** A fractional task id such as 12345.5 is sent as 12345. */
  lemma TaskIdSentTruncated(platform: string, packageName: string, group: Uuid, reply: HttpReply<Assessment>)
    ensures GetAssessment(AssessmentParams(platform, packageName, 12345.5, group), reply).request.task == 12345
  {
  }
}

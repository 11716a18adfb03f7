/** The records the core passes around: identifiers, the abstract replies of the
    platform's HTTP API, the requests it is sent, what is written out, and the
    errors a command can end with. */
module Domain {
  import opened Wrappers
  import opened Strconv
  import opened Strings
  import opened LabError

  /** A `uuid.UUID`: sixteen bytes. */
  datatype Uuid = Uuid(bytes: seq<bv8>)

  /** `uuid.Nil`, the all-zero identifier. */
  const NilUuid: Uuid := Uuid([0, 0, 0, 0, 0, 0, 0, 0, 0, 0, 0, 0, 0, 0, 0, 0])

  /** What `ctx.Err()` reports once a context is done. */
  datatype ContextErr = DeadlineExceeded | Canceled

  /** The errors a command can end with, one variant per place that makes one. */
  datatype Error =
    | Transport(detail: string)              // the HTTP doer failed; its text is the library's
    | Api(body: LabRouteError)               // a 4xx or 5xx reply, returned as its *LabRouteError
    | Described(text: string)                // errors.New(*Description) in submitFile
    | Malformed(detail: string)              // json.Unmarshal of a success body failed
    | ContextDone(reason: ContextErr)        // ctx.Err() once the poll's context is done
    | HostTokenMissing
    | LevelInvalid(detail: string)           // zerolog.ParseLevel rejected log_level
    | GroupInvalid
    | PlatformInvalid
    | AppIdInvalid(detail: string)           // uuid.Parse rejected the app-id argument
    | WrongAppCount(count: nat)
    | BelowMinimum(score: real, minimum: int)
    | Io(detail: string)                     // os.Open, output.New or CLIWriter.Write failed

  /** The text of `err.Error()`. Errors made by libraries carry their own text. */
  function Message(e: Error): string
    requires e.Api? ==> Printable(e.body)
  {
    match e
    case Transport(d) => d
    case Api(b) => ErrorText(b)
    case Described(t) => t
    case Malformed(d) => d
    case ContextDone(DeadlineExceeded) => "context deadline exceeded"
    case ContextDone(Canceled) => "context canceled"
    case HostTokenMissing => "host and token must both be specified either in a config file, or through a flag"
    case LevelInvalid(d) => d
    case GroupInvalid => "must have valid group"
    case PlatformInvalid => "must have valid platform"
    case AppIdInvalid(d) => d
    case WrongAppCount(n) => "got " + Itoa(n) + " elements but expected exactly one"
    case BelowMinimum(s, m) => "the score " + Fixed2(s) + " is " + BelowMinimumPhrase + " " + Itoa(m)
    case Io(d) => d
  }

  const BelowMinimumPhrase: string := "less than the required minimum"

  /** The score-gate error says the score is below the minimum, whatever the
      numbers. */
  lemma BelowMinimumMessageSaysSo(score: real, minimum: int)
    ensures Contains(Message(BelowMinimum(score, minimum)), BelowMinimumPhrase)
  {
    PartsOccur("the score ", Fixed2(score), " is ", BelowMinimumPhrase, " ", Itoa(minimum));
  }

  /** The error texts of the group and platform checks. */
  lemma ConfigErrorMessages()
    ensures Message(GroupInvalid) == "must have valid group"
    ensures Message(PlatformInvalid) == "must have valid platform"
  {
  }

  /** The text of the missing-credentials error. */
  lemma CredentialsErrorMessage()
    ensures Message(HostTokenMissing) == "host and token must both be specified either in a config file, or through a flag"
  {
  }

  /** The two formatted errors show their numbers: the count right after
      "got ", and the score right after "the score " with the minimum ending
      the text. */
  lemma FormattedMessages(count: nat, score: real, minimum: int)
    ensures OccursAt(Message(WrongAppCount(count)), Itoa(count), 4)
    ensures Message(WrongAppCount(count))[..4] == "got "
    ensures OccursAt(Message(BelowMinimum(score, minimum)), Fixed2(score), 10)
    ensures Message(BelowMinimum(score, minimum))[..10] == "the score "
    ensures var m := Message(BelowMinimum(score, minimum));
      |Itoa(minimum)| <= |m| && m[|m| - |Itoa(minimum)|..] == Itoa(minimum)
  {
    var w := Message(WrongAppCount(count));
    assert w == "got " + Itoa(count) + " elements but expected exactly one";
    assert w[4..4 + |Itoa(count)|] == Itoa(count);
    PartsOccur("the score ", Fixed2(score), " is ", BelowMinimumPhrase, " ", Itoa(minimum));
  }

  /** The catalogue-count error names the number of apps found: "got 0 …" for
      an empty list and "got 2 …" for two matches. */
  lemma WrongAppCountMessages()
    ensures Message(WrongAppCount(0)) == "got " + "0" + " elements but expected exactly one"
    ensures Message(WrongAppCount(2)) == "got " + "2" + " elements but expected exactly one"
  {
    assert Itoa(0) == "0";
    assert Itoa(2) == "2";
  }

  /** The outcome of one HTTP exchange: the doer failed, or a status code came
      back with the error body (read for 4xx and 5xx) and the success body. */
  datatype HttpReply<T> =
    | TransportFailure(detail: string)
    | Reply(statusCode: int, errorBody: LabRouteError, body: T)

  /** The result of `json.Unmarshal` on a body. */
  datatype Decoded<T> = Parsed(value: T) | Undecodable(detail: string)

  /** The 2XX body of the trigger-assessment endpoint. */
  datatype TriggerBody = TriggerBody(application: Uuid, package: string, platform: string, task: real, ref: Uuid)

  /** The 2XX body of the assessment-status endpoint, reduced to the fields the
      core reads. */
  datatype Assessment = Assessment(
    package: string, platform: string, task: real,
    taskStatus: Option<string>, adjustedScore: Option<real>)

  /** A `*GetAppPlatformPackageAssessmentTaskResponse`: its status code and body. */
  datatype TaskResponse = TaskResponse(statusCode: int, json2xx: Assessment)

  /** `PostBuild2XX1`, the body of a successful upload. */
  datatype BuildBody = BuildBody(application: Option<Uuid>, package: string, platform: string, task: real, ref: Uuid)

  /** A catalogued app, `LabApp`, reduced to the fields the core reads. */
  datatype LabApp = LabApp(package: string, platform: string)

  /** One item of observable output: a payload written to the output sink, or a
      line printed to stdout. */
  datatype Payload =
    | TriggerPayload(trigger: TriggerBody)
    | TaskPayload(assessment: Assessment)
    | BuildPayload(build: BuildBody)
    | ErrorLine(error: Error)
    | TextLine(text: string)

  /** One request sent to the platform, with the parameters the wrapper sets.
      `None` is a parameter left nil. */
  datatype ApiRequest =
    | TriggerRequest(platform: string, package: string, group: Option<Uuid>, appstoreDownload: Option<bool>,
                     failfast: Option<bool>, analysisType: Option<string>, hideSensitiveDataValues: Option<bool>)
    | BuildRequest(analysisType: Option<string>, group: Option<Uuid>, assessment: Option<bool>,
                   version: Option<string>, hideSensitiveDataValues: Option<bool>)
    | AppListRequest(platformFilter: Option<string>, packageFilter: Option<string>,
                     groupFilter: Option<Uuid>, refFilter: Option<Uuid>)
    | AssessmentRequest(platform: string, package: string, task: int, group: Option<Uuid>)

  /** Library functions whose code is outside the program: `uuid.Parse`,
      `zerolog.ParseLevel` and `strings.ToLower`. Only their outcomes matter:
      `Err` carries the text of the library's parse error. */
  datatype Lib = Lib(
    parseUuid: string -> Result<Uuid, string>,
    parseLevel: string -> Result<int, string>,
    toLower: string -> string)
}

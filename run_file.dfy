/** cmd/ns/run/file.go: `ns run file <path>` uploads a binary, optionally polls
    for the assessment it starts and gates the score. Its output goes to
    standard output and its failures end the process with status 1. */
module RunFile {
  import opened Wrappers
  import opened Strconv
  import opened Strings
  import opened LabError
  import opened Domain
  import opened PlatformApi
  import opened Config
  import opened RunPoll

  /** What `submitFile` can dereference: a reply (`response` is nil after a
      transport error) whose 4xx or 5xx body carries a description. */
  predicate Submittable(reply: HttpReply<Decoded<BuildBody>>)
  {
    reply.Reply? && (reply.statusCode >= 400 ==> reply.errorBody.description.Some?)
  }

  /** `submitFile`: uploads with the configured analysis type and group; a 4xx
      or 5xx reply is an error whose text is the body's description, and any
      other status decodes the body. */
  function SubmitFile(config: RunConfig, reply: HttpReply<Decoded<BuildBody>>): (c: Call<BuildBody>)
    requires Submittable(reply)
    ensures c.request == BuildRequest(Some(config.analysisType), Some(config.group), None, None, None)
    ensures c.result.Ok? <==> StatusClassOf(reply.statusCode) == Success && reply.body.Parsed?
    ensures c.result.Ok? ==> c.result.value == reply.body.value
    ensures StatusClassOf(reply.statusCode) != Success ==> c.result == Err(Described(reply.errorBody.description.value))
    ensures StatusClassOf(reply.statusCode) == Success && reply.body.Undecodable? ==>
              c.result == Err(Malformed(reply.body.detail))
  {
    var request := BuildRequest(Some(config.analysisType), Some(config.group), None, None, None);
    if reply.statusCode >= 400 && reply.statusCode < 500 then
      Call(request, Err(Described(reply.errorBody.description.value)))
    else if reply.statusCode >= 500 then
      Call(request, Err(Described(reply.errorBody.description.value)))
    else match reply.body
      case Parsed(b) => Call(request, Ok(b))
      case Undecodable(d) => Call(request, Err(Malformed(d)))
  }

  /** `submitFile` accepts and rejects exactly the replies `UploadFile` does,
      with the same build; it differs in that it asks for no assessment and
      leaves the sensitive-values flag unset, and in that its errors carry the
      description rather than the whole error body. */
  lemma SubmitFileMatchesUploadFile(config: RunConfig, reply: HttpReply<Decoded<BuildBody>>)
    requires Submittable(reply)
    ensures var s := SubmitFile(config, reply);
            var u := UploadFile(UploadParams(config.analysisType, config.group), reply);
            (s.result.Ok? <==> u.result.Ok?)
            && (s.result.Ok? ==> s.result.value == u.result.value)
            && (u.result.Err? && u.result.error.Api? ==> s.result == Err(Described(u.result.error.body.description.value)))
            && s.request == u.request.(assessment := None, hideSensitiveDataValues := None)
  {
  }

  /** How the process ends: with an exit status, or still polling when the
      events run out (the file command sets no deadline). */
  datatype Ending = Exited(code: int) | StillPollingAtEnd

  /** The line printed when the score is below the minimum. */
  function BelowMinimumLine(score: real, minimum: int): string
  {
    "The score " + Fixed2(score) + " is " + BelowMinimumPhrase + " " + Itoa(minimum)
  }

  /** The printed line says the score is below the minimum and shows the score
      right after "The score ". */
  lemma BelowMinimumLineSaysSo(score: real, minimum: int)
    ensures Contains(BelowMinimumLine(score, minimum), BelowMinimumPhrase)
    ensures OccursAt(BelowMinimumLine(score, minimum), Fixed2(score), 10)
  {
    PartsOccur("The score ", Fixed2(score), " is ", BelowMinimumPhrase, " ", Itoa(minimum));
  }

  /** The upload is reached once the file opens and the configuration is valid;
      the poll once the upload succeeded and polling is asked for. */
  predicate Ready(v: Settings, lib: Lib, reading: StatusReading, openFailure: Option<string>,
                  uploadReply: HttpReply<Decoded<BuildBody>>, events: seq<Event>)
  {
    openFailure.None? && NewRunConfig(v, lib).Ok? ==>
      Submittable(uploadReply) && ReadyWith(NewRunConfig(v, lib).value, reading, uploadReply, events)
  }

  predicate ReadyWith(config: RunConfig, reading: StatusReading, uploadReply: HttpReply<Decoded<BuildBody>>, events: seq<Event>)
    requires Submittable(uploadReply)
  {
    SubmitFile(config, uploadReply).result.Ok? && config.pollForMinutes > 0 ==>
      var q := FileQuery(config, SubmitFile(config, uploadReply).result.value);
      Safe(reading, q, events) && (config.minimumScore > 0 ==> Scored(Poll(reading, q, events).0))
  }

  /** The status query the file command polls with: the uploaded build's
      package, platform and task in the configured group. file.go:60
      passes no group; the group of run.go's `pollForResults` is taken from
      the configuration, as the other commands do. */
  function FileQuery(config: RunConfig, build: BuildBody): AssessmentParams
  {
    AssessmentParams(build.platform, build.package, build.task, config.group)
  }

  /** `Run` after the upload: what is printed, the poll's queries and the exit. */
  predicate AfterUpload(config: RunConfig, reading: StatusReading, build: BuildBody, events: seq<Event>,
                        printed: seq<Payload>, queries: seq<ApiRequest>, ending: Ending)
    requires config.pollForMinutes > 0
    requires Safe(reading, FileQuery(config, build), events)
    requires config.minimumScore > 0 ==> Scored(Poll(reading, FileQuery(config, build), events).0)
  {
    var q := FileQuery(config, build);
    var (pr, n) := Poll(reading, q, events);
    queries == Queries(q, events, n)
    && (pr.Failed? ==> printed == [ErrorLine(pr.err)] && ending == Exited(1))
    && (pr.StillPolling? ==> printed == [] && ending == StillPollingAtEnd)
    && (pr.Completed? && config.minimumScore <= 0 ==> printed == [BuildPayload(build)] && ending == Exited(0))
    && (pr.Completed? && config.minimumScore > 0 && !IsAboveMinimum(pr.resp, config.minimumScore) ==>
          printed == [TextLine(BelowMinimumLine(pr.resp.json2xx.adjustedScore.value, config.minimumScore))]
          && ending == Exited(1))
    && (pr.Completed? && config.minimumScore > 0 && IsAboveMinimum(pr.resp, config.minimumScore) ==>
          printed == [BuildPayload(build)] && ending == Exited(0))
  }

  /** `Run`. `openFailure` is the error `os.Open` gives, `uploadReply` the
      platform's answer to the upload and `events` what the poll sees. The
      results are what was printed, the requests sent and how the process
      ends. */
  method Run(v: Settings, lib: Lib, reading: StatusReading, openFailure: Option<string>,
             uploadReply: HttpReply<Decoded<BuildBody>>, events: seq<Event>)
    returns (printed: seq<Payload>, calls: seq<ApiRequest>, ending: Ending)
    requires Ready(v, lib, reading, openFailure, uploadReply, events)
    ensures openFailure.Some? ==> printed == [ErrorLine(Io(openFailure.value))] && calls == [] && ending == Exited(1)
    ensures openFailure.None? && NewRunConfig(v, lib).Err? ==>
              printed == [ErrorLine(NewRunConfig(v, lib).error)] && calls == [] && ending == Exited(1)
    ensures openFailure.None? && NewRunConfig(v, lib).Ok? ==>
              var config := NewRunConfig(v, lib).value;
              var upload := SubmitFile(config, uploadReply);
              |calls| >= 1 && calls[0] == upload.request
              && (upload.result.Err? ==>
                    printed == [ErrorLine(upload.result.error)] && calls == [upload.request] && ending == Exited(1))
              && (upload.result.Ok? && config.pollForMinutes <= 0 ==>
                    printed == [BuildPayload(upload.result.value)] && calls == [upload.request] && ending == Exited(0))
              && (upload.result.Ok? && config.pollForMinutes > 0 ==>
                    AfterUpload(config, reading, upload.result.value, events, printed, calls[1..], ending))
  {
    if openFailure.Some? {
      return [ErrorLine(Io(openFailure.value))], [], Exited(1);
    }
    var loaded := NewRunConfig(v, lib);
    if loaded.Err? {
      return [ErrorLine(loaded.error)], [], Exited(1);
    }
    var config := loaded.value;
    var buildResponse := SubmitFile(config, uploadReply);
    calls := [buildResponse.request];
    if buildResponse.result.Err? {
      return [ErrorLine(buildResponse.result.error)], calls, Exited(1);
    }
    var build := buildResponse.result.value;
    if config.pollForMinutes <= 0 {
      return [BuildPayload(build)], calls, Exited(0);
    }
    var taskResponse, queries := PollForResults(reading, FileQuery(config, build), events);
    calls := calls + queries;
    assert calls[1..] == queries;
    match taskResponse
    case Failed(e) =>
      printed, ending := [ErrorLine(e)], Exited(1);
    case StillPolling =>
      printed, ending := [], StillPollingAtEnd;
    case Completed(resp) =>
      if config.minimumScore <= 0 {
        return [BuildPayload(build)], calls, Exited(0);
      }
      if !IsAboveMinimum(resp, config.minimumScore) {
        return [TextLine(BelowMinimumLine(resp.json2xx.adjustedScore.value, config.minimumScore))], calls, Exited(1);
      }
      printed, ending := [BuildPayload(build)], Exited(0);
  }

  /** An upload the platform rejects with a 4xx or 5xx ends the command with
      status 1, printing the rejection's description, and nothing is polled. */
  lemma RejectedUploadExits(v: Settings, lib: Lib, reply: HttpReply<Decoded<BuildBody>>)
    requires NewRunConfig(v, lib).Ok? && Submittable(reply) && reply.statusCode >= 400
    ensures SubmitFile(NewRunConfig(v, lib).value, reply).result == Err(Described(reply.errorBody.description.value))
  {
  }
}

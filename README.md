# nowsecure-ci: assessment runs, modelled in Dafny

`ns run` submits a mobile app to the NowSecure platform and waits for its security assessment. There are three ways to submit:

- by package name (`ns run package`);
- by catalogued app id (`ns run id`);
- by uploading a binary (`ns run file`).

After submitting, the command optionally polls the assessment status once a minute until the task is `completed` or `failed`. It then fails when the adjusted score is below a configured minimum.

This project models how one run turns inputs into results:

- **Inputs:** the merged settings, the platform's replies, and the ticks and deadline the poll sees.
- **Results:** what the command writes or prints, the requests it sends, and the way it ends.

The project also models the helpers those flows rest on:

- the HTTP-status classification of the API wrappers;
- the platform's error body;
- run-configuration validation;
- the `Status` enumeration;
- the version string.

Modules follow the source files:

| module (file) | source |
|---|---|
| `Wrappers` (wrappers.dfy) | `Option` and `Result` |
| `Strconv`, `Strings` | the parts of Go's `strconv`, `fmt` and `strings`/`unicode` that the core's results depend on: `Atoi`, `Itoa`, `%.2f`, float-to-int truncation, `TrimSpace` |
| `Version` | cmd/ns/version/version.go |
| `Types` | internal/platformapi/types.go |
| `LabError` | internal/platformapi/laberror.go |
| `Domain` | the records the core passes around: replies, bodies, requests, errors and their texts |
| `PlatformApi` | internal/platformapi/client.go |
| `Config` | internal/config.go |
| `Output` | the output sink of internal/output/output.go, as an append-only log |
| `RunPoll` (run_poll.dfy) | cmd/ns/run/run.go, plus the part of the package and id commands that follows the poll |
| `RunPackage`, `RunId`, `RunFile` | cmd/ns/run/package.go, id.go, file.go |

## How the model is built

- **Time as events.** The ticker and the context make one finite sequence of events.
  - Each `Tick` carries the reply that tick's status query received.
  - `Done` is the deadline or a cancellation.
  - `RunPoll.Poll` specifies the loop over such a sequence. `RunPoll.PollForResults`, a `while` loop over the events, is proved to compute it.
  - When the events run out before a decisive one, the result is `StillPolling`. The Go loop would still be waiting at that point.
- **Library calls as parameters.** `uuid.Parse`, `zerolog.ParseLevel` and `strings.ToLower` have code outside the program. They are the fields of a `Lib` parameter, as functions that return the library's error text or a value.
- **I/O outcomes as parameters.** `os.Open`, `output.New` and the encoder's `Write` enter as optional errors.
- **Flows as methods over a writer object.**
  - The package and id commands write through an `Output.Writer` object. Its `Write` appends a payload or returns the encoder's error.
  - `RunPackage.RunE`, `RunId.RunE` and `RunFile.Run` are methods.
  - Each method states, case by case, what it writes or prints, which requests it sends, and how the command ends.
- **Status reading.** The pollers read `StatusCode()` through a `StatusReading` parameter:
  - `AsWritten` is laberror.go's code.
  - `Intended` is the corrected helper.
  - The commands take the reading as a parameter, so every property of the commands holds for both. The source's behaviour is `AsWritten` (see Findings).
- **Panics as preconditions.** Nil dereferences in the source are preconditions:
  - the task status of a 200 poll reply;
  - the adjusted score at the gate;
  - the `Description` of a rejected upload;
  - the response after a transport error in `submitFile`.
  
  Each precondition is demanded only on the path that reaches the dereference (`Ready`, `Safe`, `Submittable`).
- **Transport errors while polling.** A transport failure during polling is returned at once, as run.go:75-84 does, because it is not a `*LabRouteError`. It is not treated as a transient failure to retry.

## Model

| member | source | states |
|---|---|---|
| Version.Version | cmd/ns/version/version.go:9-14 | an unset version reports "development"; a set one reports a slice of itself with only white space cut from both ends, and no white space left at either end |
| Version.BlankVersionIsEmpty | cmd/ns/version/version.go:10-13 | a set version made only of white space reports "", not "development" |
| Version.VersionTrimmedIdempotent | cmd/ns/version/version.go:13 | trimming a reported version again changes nothing |
| Strings.TrimSpace | cmd/ns/version/version.go:13 | the result is trimmed and is the input less a white-space prefix and a white-space suffix |
| Strings.TrimSpaceEmptyIffAllSpace | cmd/ns/version/version.go:13 | trimming gives "" exactly when every character is white space |
| Types.StatusString | internal/platformapi/types.go:12-23 | Completed, Pending, Failed print as "completed", "pending", "failed" and each name belongs to that constant only; every other value, Unknown included, prints "unknown"; never "" |
| Types.StatusStringInjectiveOnNamed | internal/platformapi/types.go:12-23 | a named status shares its text with no other status |
| Types.Ptr | internal/platformapi/types.go:26-28 | the pointer is non-nil and points at the value |
| LabError.ErrorText | internal/platformapi/laberror.go:13-15 | the text is "HTTP ", the status, " - ", the name, ": " and the message, and nothing else |
| LabError.ExitCode | internal/platformapi/laberror.go:17-19 | always 1 |
| LabError.StatusCode | internal/platformapi/laberror.go:21-31 | as written: an error exactly when Status is nil ("not defined"); a Status that parses gives 0; one that does not gives Atoi's failure value |
| LabError.StatusCodeOfDecimalIsZero | internal/platformapi/laberror.go:22-27 | as written, the decimal text of any 64-bit integer, "500" included, gives (0, nil) |
| LabError.StatusCodeAtLeast500OnlyOnOverflow | internal/platformapi/laberror.go:22-27 | as written, a code of 500 or more comes only from a Status that overflows int64, and is then 2^63-1 |
| LabError.StatusCodeIntended | internal/platformapi/laberror.go:21-31 | corrected: nil Status is "not defined", a parsing Status gives its value, an unparsable one an error |
| LabError.StatusCodeIntendedReadsDecimal | internal/platformapi/laberror.go:23-27 | corrected, the decimal text of any 64-bit integer reads back as that integer |
| Strconv.Atoi | internal/platformapi/laberror.go:23 | Go's `strconv.Atoi`: syntax errors give 0; an out-of-range value gives a range error and saturates on the side of its sign, at the int64 minimum after a '-' and at the maximum otherwise |
| Strconv.AtoiItoa | internal/platformapi/laberror.go:23 | Atoi reads back every int64 that Itoa writes |
| Strconv.ItoaShape | cmd/ns/run/id.go:62 | `%d`: a minus sign exactly for a negative number, then decimal digits only |
| Strconv.Fixed2Shape | cmd/ns/run/package.go:71 | `%.2f`: a sign exactly for negative values, a point and two digits at the end |
| Strconv.Fixed2Value | cmd/ns/run/package.go:71 | `%.2f` prints the score: the integer part reads back as the magnitude in hundredths, rounded half to even, divided by 100, the two decimals are its last two digits, and the printed value is within 0.005 of the magnitude |
| Strconv.TruncatesTowardZero | internal/platformapi/client.go:142 | `int(f)`: the integer within one of `f` on the side of zero |
| Domain.BelowMinimumMessageSaysSo | cmd/ns/run/package.go:71 | the score error contains "less than the required minimum" for every score and minimum |
| Domain.CredentialsErrorMessage | internal/config.go:50 | the missing-credentials error reads "host and token must both be specified either in a config file, or through a flag" |
| Domain.ConfigErrorMessages | internal/config.go:68-80 | the group and platform checks fail with "must have valid group" and "must have valid platform" |
| Domain.FormattedMessages | cmd/ns/run/package.go:71 | the count error starts "got " followed by the count; the score error starts "the score " followed by the score as `%.2f`, and ends with the minimum as `%d` |
| Domain.WrongAppCountMessages | cmd/ns/run/id.go:61-63 | zero and two apps give "got 0 …" and "got 2 … elements but expected exactly one" |
| PlatformApi.ClientFromConfig | internal/platformapi/client.go:26-37 | a nil doer becomes the logging doer, any other is kept; the client targets the configured host and carries its agent and token |
| PlatformApi.AddHeader | internal/platformapi/client.go:33-34 | `Header.Add` appends to the key's values and leaves every other key as it was |
| PlatformApi.EditedHeaderAddsCredentials | internal/platformapi/client.go:32-35 | the editor appends the configured User-Agent and "Bearer " + token as Authorization and touches no other header |
| PlatformApi.Request.Add | internal/platformapi/client.go:33-34 | the request's header becomes the old one with the value added |
| PlatformApi.EditRequest | internal/platformapi/client.go:32-35 | the request's header becomes the edited header of the old one |
| PlatformApi.StatusClassOf | internal/platformapi/client.go:65-73 | 400-499 is a client error, 500 and up a server error, below 400 a success, and exactly one of them holds |
| PlatformApi.TriggerAssessment | internal/platformapi/client.go:46-74 | sends fail-fast true, sensitive values not hidden, no app-store download; succeeds exactly below 400 with the body; otherwise the transport error unchanged or the error body |
| PlatformApi.UploadFile | internal/platformapi/client.go:82-108 | asks for an assessment; below 400 the decoded build, or the decoding error; otherwise the transport error or the error body |
| PlatformApi.GetAppList | internal/platformapi/client.go:110-126 | sends the filters unchanged; succeeds exactly below 400 with the listed apps |
| PlatformApi.GetAssessment | internal/platformapi/client.go:136-158 | sends the task id truncated toward zero and the group; its result is `AssessmentResult` of the reply |
| PlatformApi.AssessmentResult | internal/platformapi/client.go:145-158 | succeeds exactly below 400, with status code and body; otherwise the transport or platform error |
| PlatformApi.TaskIdSentTruncated | internal/platformapi/client.go:142 | the task id 12345.5 is sent as 12345 |
| Config.NewRunConfig | internal/config.go:45-96 | succeeds exactly when host and token are non-empty, the level parses, a set group parses and a set platform lower-cases to ios or android; the first failing check picks the error; verbose forces the debug level; unset group is Nil, unset platform ""; the other fields are copied |
| Config.MissingCredentialsFirst | internal/config.go:46-51 | without host or token nothing else is looked at |
| Config.ClientFromConfig | internal/config.go:16-27 | a nil doer becomes a plain HTTP client, any other is kept; host, agent and token are the configuration's |
| Config.ClientsDifferOnlyInDefaultDoer | internal/config.go:16-27 | the two `ClientFromConfig`s build the same client except for the doer chosen for nil |
| Output.Writer.constructor | internal/output/output.go:23-40 | a new sink has accepted nothing |
| Output.Writer.Write | internal/output/output.go:42-60 | the payload is appended and nil returned, or the encoder's error returned and nothing appended |
| RunPoll.Effect | cmd/ns/run/run.go:65-94 | done context: the context's error; transport error: returned; 4xx/5xx: retried exactly when `StatusCode()` succeeds with 500 or more, else returned; success: finished exactly on 200 with "completed" or "failed", else keep waiting |
| RunPoll.OnTick | cmd/ns/run/run.go:69-93 | one tick sends the status query and decides as `Effect` does |
| RunPoll.OnEvent | cmd/ns/run/run.go:62-94 | one pass of the `select` decides as `Effect` does and sends a query exactly on a tick |
| RunPoll.Poll | cmd/ns/run/run.go:64-96 | the loop ends within the events given, or is still polling having consumed all of them |
| RunPoll.PollFirstDecisive | cmd/ns/run/run.go:64-96 | the result is that of the first decisive event and nothing after it is consumed; still polling exactly when no event is decisive |
| RunPoll.QueriesAreStatusQueries | cmd/ns/run/run.go:69-74 | at most one query per event consumed, each the status query with the given platform, package, truncated task and group |
| RunPoll.PollForResults | cmd/ns/run/run.go:58-97 | the loop returns `Poll`'s result and has sent one query per tick it consumed |
| RunPoll.PollIgnoresLaterEvents | cmd/ns/run/run.go:64-96 | appending events after a decisive one changes nothing |
| RunPoll.PollAfterWaiting | cmd/ns/run/run.go:87-95 | ticks the loop waits on only delay the result of what follows |
| RunPoll.ContextDoneEndsPoll | cmd/ns/run/run.go:66-67 | a done context ends the loop at once with its error and no query |
| RunPoll.AsWrittenDecimalStatusIsFatal | cmd/ns/run/run.go:76-84 | as written, an error reply whose Status is a decimal is never retried |
| RunPoll.AsWrittenRetriesOnlyOnOverflow | cmd/ns/run/run.go:76-81 | as written, a retry happens only for a Status overflowing int64 |
| RunPoll.IntendedRetriesServerErrors | cmd/ns/run/run.go:76-84 | corrected, an error reply whose Status reads 500 or more is retried and any lower one returned |
| RunPoll.FlakyPlatform | cmd/ns/run/helpers_test.go:123-154 | a 500 with Status "500" then a completed task: as written the loop fails on the first tick; corrected it completes on the second |
| RunPoll.IsAboveMinimum | cmd/ns/run/run.go:99-101 | true exactly when the adjusted score reaches the threshold |
| RunPoll.GateMonotone | cmd/ns/run/run.go:99-101 | passing a threshold passes every lower threshold |
| RunPoll.GateExamples | cmd/ns/run/package_test.go:43-70 | 85.5 passes 85, 92.5 passes 90, 25.5 fails 75 |
| RunPoll.Gate | cmd/ns/run/package.go:63-75 | a poll error is returned with nothing written; a completed task is written once; success exactly when the score reaches the minimum and the write succeeds; below it the write's error, else the score error |
| RunPoll.PollAndGate | cmd/ns/run/package.go:59-75 | polls with the started assessment's package, platform and task in the configured group, then writes and returns as `Gate` says |
| RunPackage.PackageConfig | cmd/ns/run/package.go:26 | an invalid configuration is replaced by the zero configuration |
| RunPackage.RunE | cmd/ns/run/package.go:25-76 | sink error: nothing sent; trigger with the named package and configured platform; trigger error returned with nothing written; no polling: the trigger body written once; else poll on the trigger body's package, platform and task and gate |
| RunId.RunE | cmd/ns/run/id.go:25-101 | a malformed id fails before the configuration or any request; bad configuration and sink errors send nothing; lookup by configured platform and group with the id as ref and no package; anything but one app fails with the count and no trigger; the one app's package and platform are triggered and become the configured platform; then as the package command |
| RunId.WrongCountStopsBeforeTrigger | cmd/ns/run/id.go:61-63 | with a wrong app count no trigger request is sent |
| RunFile.SubmitFile | cmd/ns/run/file.go:84-107 | sends the analysis type and group only; 4xx and 5xx fail with the body's description; below 400 the decoded build or the decoding error |
| RunFile.SubmitFileMatchesUploadFile | cmd/ns/run/file.go:84-107 | accepts the same replies as `UploadFile` with the same build; its request lacks the assessment and sensitive-values flags; its errors carry the description only |
| RunFile.Run | cmd/ns/run/file.go:25-78 | an unopenable file, a bad configuration or a failed upload print the error and exit 1 before anything later; no polling: print the build, exit 0; poll error: print, exit 1; minimum at most 0: print the build, exit 0 whatever the score; below a positive minimum: print the score line, exit 1; otherwise print the build (not the task), exit 0 |
| RunFile.BelowMinimumLineSaysSo | cmd/ns/run/file.go:73 | the printed line contains "less than the required minimum" and shows the score as `%.2f` right after "The score " |
| RunFile.RejectedUploadExits | cmd/ns/run/file.go:94-100 | a 4xx or 5xx upload fails with its description |

## Left out

- Command-line and flag plumbing are not modelled. This covers `RunCommand`, the flag sections, `nowsecure.go` and `main.go`. It is library wiring.
- `writeFindings` is not modelled: it calls `GetFindings`, whose code is not part of this model. Where the output goes and its three formats are not modelled either; the sink is an append-only log of payloads, and `Close` is left out.
- Logging is not modelled. This covers internal/log.go and the log lines of every command, including the URL line at package.go:53 (which does not compile as written). internal/util/config.go is not part of this model.
- Time is not modelled. The one-minute ticker, `context.WithTimeout` and `PollForMinutes` as a duration become `Done` events in the event sequence. There is no concurrency.
- RunPoll.PollForResults: covers only finite event sequences. A run whose events never decide ends in `StillPolling`, where the Go loop keeps waiting.
- RunPoll.IsAboveMinimum: compares reals. The float32 score and the `float32(threshold)` conversion are not modelled.
- PlatformApi.GetAssessment: models `int(p.TaskId)` as truncation toward zero. The result for values outside the int range is not modelled.
- Config.NewRunConfig: a key holding a value of another kind reads as that kind's zero value. Viper's type coercion between strings, booleans and numbers is not modelled.
- `uuid.Parse`, `zerolog.ParseLevel` and `strings.ToLower` are abstract functions in `Lib`. Their behaviour on particular strings is not modelled, so neither is the fact that an empty `log_level` parses.
- The generated client is not modelled: URL construction, JSON (un)marshalling, the logging doer's own behaviour and `NewClientWithResponses` (treated as never failing). A reply is given directly as a status code with its decoded bodies.
- The logging doer reads `resp.Status` after the underlying `Do` fails (client.go:21-22), a nil dereference. In Go a transport failure therefore panics in the package and id commands, which use that doer, at the trigger, the app list and every poll tick. The model returns the transport error there instead. Only the file command, whose client has a plain `http.Client` (config.go:17-19), really returns a transport error from its poll.
- The client built by `ClientFromConfig` is not threaded through the flows: the requests they record carry their parameters only. The headers every request gets are stated by `PlatformApi.EditedHeaderAddsCredentials`.
- Panics are not modelled. A nil `*LabRouteError` body, a nil task status, a nil adjusted score, a nil `Description` and the nil response after an ignored transport error in `submitFile` are excluded by preconditions.
- `submitFile` prints a transport error before dereferencing the nil response. Because that path panics, it is excluded rather than modelled.
- RunFile.Run: the poll takes the configured group. file.go:60 does not pass a group, and `pollForResults` at run.go:58 requires one.
- RunId.RunE: the poll follows run.go:58, without the extra `PollForMinutes` argument at id.go:87.
- The request editor is modelled on the header alone. The editor of internal/config.go is the same function as that of client.go.
- Strings are sequences of characters; UTF-8 encoding is not modelled.

## Findings

| source | as written | input that shows it | evidently intended | confidence | as-written member | corrected member |
|---|---|---|---|---|---|---|
| internal/platformapi/laberror.go:23-27 | `StatusCode` returns `(i, nil)` when `strconv.Atoi` fails and `(0, nil)` when it succeeds. As a result, the 5xx retry at run.go:79-80 is taken only for a Status overflowing int64. | an error body with Status "500" on a 500 reply while polling: `StatusCode` gives (0, nil), so the loop returns the error instead of retrying | return the parsed code with a nil error, and an error when the Status does not parse; a flaky 500 is then retried, as the flaky-polling tests at package_test.go:72-101 and file_test.go:62-84 expect | high (not executed) | LabError.StatusCodeOfDecimalIsZero, RunPoll.FlakyPlatform | LabError.StatusCodeIntended, LabError.StatusCodeIntendedReadsDecimal |

Every command takes the status reading as a parameter. With `Intended`, each run property above describes the corrected program.

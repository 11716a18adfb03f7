/** cmd/ns/run/run.go: polling the assessment status until the task settles,
    and the score gate. The ticker and the context are one finite sequence of
    events: each `Tick` carries the reply the status query received, and `Done`
    is the context's deadline or cancellation. */
module RunPoll {
  import opened Wrappers
  import opened Strconv
  import opened LabError
  import opened Domain
  import opened PlatformApi
  import opened Output

  /** Which `StatusCode` the retry decision reads: the one laberror.go has, or
      the corrected one. */
  datatype StatusReading = AsWritten | Intended

  function ReadStatusCode(reading: StatusReading, e: LabRouteError): (int, Option<StatusCodeError>)
  {
    if reading == AsWritten then StatusCode(e) else StatusCodeIntended(e)
  }

  /** What the `select` receives next. */
  datatype Event = Done(reason: ContextErr) | Tick(reply: HttpReply<Assessment>)

  /** What one pass of the loop decides. */
  datatype Step = Finished(resp: TaskResponse) | KeepWaiting | Retry | Fatal(err: Error)

  /** run.go:76-81: an error is skipped when it is a `*LabRouteError` whose
      `StatusCode()` succeeds with a code of 500 or more. */
  predicate Retryable(reading: StatusReading, e: Error)
  {
    e.Api? && ReadStatusCode(reading, e.body).1.None? && ReadStatusCode(reading, e.body).0 >= 500
  }

  predicate TerminalStatus(s: string)
  {
    s == "completed" || s == "failed"
  }

  /** A tick the loop can process without dereferencing a nil task status. */
  predicate Derefable(ev: Event)
  {
    ev.Tick? && Succeeded(ev.reply) && ev.reply.statusCode == 200 ==> ev.reply.body.taskStatus.Some?
  }

  /** One pass of the loop body for the event received. */
  function Effect(reading: StatusReading, q: AssessmentParams, ev: Event): (s: Step)
    requires Derefable(ev)
    ensures ev.Done? ==> s == Fatal(ContextDone(ev.reason))
    ensures ev.Tick? && ev.reply.TransportFailure? ==> s == Fatal(Transport(ev.reply.detail))
    ensures ev.Tick? && ev.reply.Reply? && !Succeeded(ev.reply) ==>
              (s == Retry <==> Retryable(reading, Api(ev.reply.errorBody)))
              && (s != Retry ==> s == Fatal(Api(ev.reply.errorBody)))
    ensures ev.Tick? && Succeeded(ev.reply) ==>
              (s.Finished? <==> ev.reply.statusCode == 200 && TerminalStatus(ev.reply.body.taskStatus.value))
              && (s.Finished? ==> s.resp == TaskResponse(ev.reply.statusCode, ev.reply.body))
              && (!s.Finished? ==> s == KeepWaiting)
  {
    match ev
    case Done(reason) => Fatal(ContextDone(reason))
    case Tick(reply) =>
      var result := AssessmentResult(reply);
      if result.Err? then
        if Retryable(reading, result.error) then Retry else Fatal(result.error)
      else
        var resp := result.value;
        if resp.statusCode == 200 && TerminalStatus(resp.json2xx.taskStatus.value) then Finished(resp)
        else KeepWaiting
  }

  /** An event on which the loop returns. */
  predicate Decisive(reading: StatusReading, q: AssessmentParams, ev: Event)
    requires Derefable(ev)
  {
    Effect(reading, q, ev).Finished? || Effect(reading, q, ev).Fatal?
  }

  /** Every event the loop reaches is one it can process. */
  predicate Safe(reading: StatusReading, q: AssessmentParams, events: seq<Event>)
    decreases |events|
  {
    events == [] || (Derefable(events[0]) && (!Decisive(reading, q, events[0]) ==> Safe(reading, q, events[1..])))
  }

  /** How the loop ends: with the settled response, with an error, or not
      within the events given. */
  datatype PollResult = Completed(resp: TaskResponse) | Failed(err: Error) | StillPolling

  function ResultOf(s: Step): PollResult
    requires s.Finished? || s.Fatal?
  {
    if s.Finished? then Completed(s.resp) else Failed(s.err)
  }

  /** The loop over a finite sequence of events: its result and how many events
      it consumed. */
  function Poll(reading: StatusReading, q: AssessmentParams, events: seq<Event>): (t: (PollResult, nat))
    requires Safe(reading, q, events)
    ensures 1 <= t.1 <= |events| || (t == (StillPolling, |events|))
    ensures t.0.StillPolling? ==> t.1 == |events|
    decreases |events|
  {
    if events == [] then (StillPolling, 0)
    else
      var s := Effect(reading, q, events[0]);
      if s.Finished? || s.Fatal? then (ResultOf(s), 1)
      else
        var rest := Poll(reading, q, events[1..]);
        (rest.0, rest.1 + 1)
  }

  /** The result is that of the first decisive event, and nothing after it is
      consumed; when no event is decisive the loop is still waiting once they
      run out. */
  lemma {:induction false} PollFirstDecisive(reading: StatusReading, q: AssessmentParams, events: seq<Event>)
    requires Safe(reading, q, events)
    ensures Poll(reading, q, events).0.StillPolling? <==>
              forall i | 0 <= i < |events| :: Derefable(events[i]) && !Decisive(reading, q, events[i])
    ensures !Poll(reading, q, events).0.StillPolling? ==>
              var n := Poll(reading, q, events).1;
              1 <= n && Derefable(events[n - 1]) && Decisive(reading, q, events[n - 1])
              && Poll(reading, q, events).0 == ResultOf(Effect(reading, q, events[n - 1]))
              && forall i | 0 <= i < n - 1 :: Derefable(events[i]) && !Decisive(reading, q, events[i])
    decreases |events|
  {
    if events != [] && !Decisive(reading, q, events[0]) {
      PollFirstDecisive(reading, q, events[1..]);
      assert forall i | 1 <= i < |events| :: events[i] == events[1..][i - 1];
    }
  }

  /** The request each tick sends (run.go:69-74). */
  function StatusQuery(q: AssessmentParams): ApiRequest
  {
    AssessmentRequest(q.platform, q.packageName, TruncateTowardZero(q.taskId), Some(q.group))
  }

  /** The status queries sent while the first `n` events are consumed: one
      per tick, none for the context ending. */
  function Queries(q: AssessmentParams, events: seq<Event>, n: nat): seq<ApiRequest>
    requires n <= |events|
  {
    if n == 0 then []
    else Queries(q, events, n - 1) + (if events[n - 1].Tick? then [StatusQuery(q)] else [])
  }

  /** At most one query per event, and every one of them is the status query. */
  lemma {:induction false} QueriesAreStatusQueries(q: AssessmentParams, events: seq<Event>, n: nat)
    requires n <= |events|
    ensures |Queries(q, events, n)| <= n
    ensures forall i | 0 <= i < |Queries(q, events, n)| :: Queries(q, events, n)[i] == StatusQuery(q)
  {
    if n > 0 {
      QueriesAreStatusQueries(q, events, n - 1);
    }
  }

  /** One step of `Poll`, given what its first event does. */
  lemma PollHead(reading: StatusReading, q: AssessmentParams, rest: seq<Event>, step: Step)
    requires rest != [] && Safe(reading, q, rest)
    requires Derefable(rest[0]) && step == Effect(reading, q, rest[0])
    ensures step.Finished? || step.Fatal? ==>
              Poll(reading, q, rest).0 == ResultOf(step) && Poll(reading, q, rest).1 == 1
    ensures !(step.Finished? || step.Fatal?) ==>
              Safe(reading, q, rest[1..])
              && Poll(reading, q, rest).0 == Poll(reading, q, rest[1..]).0
              && Poll(reading, q, rest).1 == Poll(reading, q, rest[1..]).1 + 1
  {
  }

  /** The body of the `case <-ticker.C` branch (run.go:69-93): one status
      query, and what its outcome means for the loop. These are the
      statements the loop runs; `Effect` is the tick's meaning, and the
      first ensures proves the two agree. */
  method OnTick(reading: StatusReading, q: AssessmentParams, reply: HttpReply<Assessment>)
    returns (step: Step, query: ApiRequest)
    requires Derefable(Tick(reply))
    ensures step == Effect(reading, q, Tick(reply))
    ensures query == StatusQuery(q)
  {
    var call := GetAssessment(q, reply);
    query := call.request;
    if call.result.Err? {
      if Retryable(reading, call.result.error) {
        step := Retry;
      } else {
        step := Fatal(call.result.error);
      }
      return;
    }
    var resp := call.result.value;
    if resp.statusCode == 200 && TerminalStatus(resp.json2xx.taskStatus.value) {
      step := Finished(resp);
    } else {
      step := KeepWaiting;
    }
  }

  /** One iteration of the `select` (run.go:62-94): the context ending, or a
      tick with its status query. */
  method OnEvent(reading: StatusReading, q: AssessmentParams, ev: Event)
    returns (step: Step, sent: seq<ApiRequest>)
    requires Derefable(ev)
    ensures step == Effect(reading, q, ev)
    ensures sent == if ev.Tick? then [StatusQuery(q)] else []
  {
    match ev
    case Done(reason) =>
      step, sent := Fatal(ContextDone(reason)), [];
    case Tick(reply) =>
      var query;
      step, query := OnTick(reading, q, reply);
      sent := [query];
  }

  /** `pollForResults`: waits on the events in order, querying the status on
      each tick, until one of them decides the result. */
  method PollForResults(reading: StatusReading, q: AssessmentParams, events: seq<Event>)
    returns (result: PollResult, queries: seq<ApiRequest>)
    requires Safe(reading, q, events)
    ensures result == Poll(reading, q, events).0
    ensures queries == Queries(q, events, Poll(reading, q, events).1)
  {
    ghost var total := Poll(reading, q, events);
    ghost var rest := events;
    var i := 0;
    queries := [];
    while i < |events|
      invariant 0 <= i <= |events| && rest == events[i..]
      invariant Safe(reading, q, rest)
      invariant total.0 == Poll(reading, q, rest).0
      invariant total.1 == i + Poll(reading, q, rest).1
      invariant queries == Queries(q, events, i)
      decreases |events| - i
    {
      assert rest[0] == events[i] && Derefable(rest[0]);
      var step, sent := OnEvent(reading, q, events[i]);
      PollHead(reading, q, rest, step);
      queries := queries + sent;
      if step.Finished? || step.Fatal? {
        result := ResultOf(step);
        return;
      }
      i := i + 1;
      rest := rest[1..];
    }
    result := StillPolling;
  }

  /** Events after the deciding one are never looked at. */
  lemma {:induction false} PollIgnoresLaterEvents(reading: StatusReading, q: AssessmentParams, events: seq<Event>, later: seq<Event>)
    requires Safe(reading, q, events)
    requires !Poll(reading, q, events).0.StillPolling?
    ensures Safe(reading, q, events + later)
    ensures Poll(reading, q, events + later) == Poll(reading, q, events)
    decreases |events|
  {
    assert (events + later)[0] == events[0];
    if !Decisive(reading, q, events[0]) {
      assert (events + later)[1..] == events[1..] + later;
      PollIgnoresLaterEvents(reading, q, events[1..], later);
    }
  }

  /** Events on which the loop waits only delay the result of the ones after
      them. */
  lemma {:induction false} PollAfterWaiting(reading: StatusReading, q: AssessmentParams, waiting: seq<Event>, events: seq<Event>)
    requires forall i | 0 <= i < |waiting| :: Derefable(waiting[i]) && !Decisive(reading, q, waiting[i])
    requires Safe(reading, q, events)
    ensures Safe(reading, q, waiting + events)
    ensures Poll(reading, q, waiting + events) == (Poll(reading, q, events).0, |waiting| + Poll(reading, q, events).1)
    decreases |waiting|
  {
    if waiting != [] {
      assert (waiting + events)[0] == waiting[0];
      assert (waiting + events)[1..] == waiting[1..] + events;
      PollAfterWaiting(reading, q, waiting[1..], events);
    } else {
      assert waiting + events == events;
    }
  }

  /** A context that is done when the loop next waits ends it with the
      context's error and no further query. */
  lemma ContextDoneEndsPoll(reading: StatusReading, q: AssessmentParams, reason: ContextErr, later: seq<Event>)
    ensures Safe(reading, q, [Done(reason)] + later)
    ensures Poll(reading, q, [Done(reason)] + later) == (Failed(ContextDone(reason)), 1)
    ensures Queries(q, [Done(reason)] + later, 1) == []
  {
    assert ([Done(reason)] + later)[0] == Done(reason);
  }

  /** As written, a 4xx or 5xx reply whose Status is a well-formed decimal is
      never retried: its error is returned at once. */
  lemma AsWrittenDecimalStatusIsFatal(q: AssessmentParams, reply: HttpReply<Assessment>, n: int)
    requires reply.Reply? && reply.statusCode >= 400
    requires MinInt64 <= n <= MaxInt64 && reply.errorBody.status == Some(Itoa(n))
    ensures Effect(AsWritten, q, Tick(reply)) == Fatal(Api(reply.errorBody))
  {
    StatusCodeOfDecimalIsZero(reply.errorBody, n);
  }

  /** As written, a tick is retried only when the error body's Status overflows
      a 64-bit integer. */
  lemma AsWrittenRetriesOnlyOnOverflow(q: AssessmentParams, ev: Event)
    requires Derefable(ev) && Effect(AsWritten, q, ev) == Retry
    ensures ev.Tick? && ev.reply.Reply? && ev.reply.errorBody.status.Some?
    ensures Atoi(ev.reply.errorBody.status.value).1 == Some(NumError(ev.reply.errorBody.status.value, ErrRange))
  {
    StatusCodeAtLeast500OnlyOnOverflow(ev.reply.errorBody);
  }

  /** With the corrected reading, an error reply whose Status reads as a code of
      500 or more is retried, and every other error reply is returned. */
  lemma IntendedRetriesServerErrors(q: AssessmentParams, reply: HttpReply<Assessment>, n: int)
    requires reply.Reply? && reply.statusCode >= 400
    requires MinInt64 <= n <= MaxInt64 && reply.errorBody.status == Some(Itoa(n))
    ensures n >= 500 ==> Effect(Intended, q, Tick(reply)) == Retry
    ensures n < 500 ==> Effect(Intended, q, Tick(reply)) == Fatal(Api(reply.errorBody))
  {
    StatusCodeIntendedReadsDecimal(reply.errorBody, n);
  }

  /** A flaky platform: the first status query fails with a 500 whose body says
      Status "500", the second returns the completed task. */
  function FlakyEvents(errorBody: LabRouteError, done: Assessment): seq<Event>
  {
    [Tick(Reply(500, errorBody, done)), Tick(Reply(200, errorBody, done))]
  }

  /** As written, the loop gives up on the first 500; with the corrected
      reading it waits and returns the completed task on the second tick. */
  lemma FlakyPlatform(q: AssessmentParams, errorBody: LabRouteError, done: Assessment)
    requires errorBody.status == Some("500")
    requires done.taskStatus == Some("completed")
    ensures Safe(AsWritten, q, FlakyEvents(errorBody, done))
    ensures Poll(AsWritten, q, FlakyEvents(errorBody, done)) == (Failed(Api(errorBody)), 1)
    ensures Safe(Intended, q, FlakyEvents(errorBody, done))
    ensures Poll(Intended, q, FlakyEvents(errorBody, done)) == (Completed(TaskResponse(200, done)), 2)
  {
    assert Itoa(500) == "500";
    StatusCodeOfDecimalIsZero(errorBody, 500);
    StatusCodeIntendedReadsDecimal(errorBody, 500);
    var events := FlakyEvents(errorBody, done);
    assert events[1..] == [Tick(Reply(200, errorBody, done))];
    assert events[1..][1..] == [];
  }

  /** `isAboveMinimum`: the adjusted score reaches the threshold. */
  function IsAboveMinimum(resp: TaskResponse, threshold: int): (b: bool)
    requires resp.json2xx.adjustedScore.Some?
    ensures b <==> resp.json2xx.adjustedScore.value >= threshold as real
  {
    resp.json2xx.adjustedScore.value >= threshold as real
  }

  /** A response that passes a threshold passes every lower one. */
  lemma GateMonotone(resp: TaskResponse, threshold: int, lower: int)
    requires resp.json2xx.adjustedScore.Some?
    requires lower <= threshold && IsAboveMinimum(resp, threshold)
    ensures IsAboveMinimum(resp, lower)
  {
  }

  function WithScore(score: real): TaskResponse
  {
    TaskResponse(200, Assessment("", "", 0.0, Some("completed"), Some(score)))
  }

  /** 85.5 passes 85, 92.5 passes 90, 25.5 fails 75. */
  lemma GateExamples()
    ensures IsAboveMinimum(WithScore(85.5), 85)
    ensures IsAboveMinimum(WithScore(92.5), 90)
    ensures !IsAboveMinimum(WithScore(25.5), 75)
  {
  }

  /** The response of a completed poll carries the adjusted score the gate
      dereferences. */
  predicate Scored(pr: PollResult)
  {
    pr.Completed? ==> pr.resp.json2xx.adjustedScore.Some?
  }

  /** A poll that can run to its end and whose response can be gated. */
  predicate PollSafe(reading: StatusReading, q: AssessmentParams, events: seq<Event>)
  {
    Safe(reading, q, events) && Scored(Poll(reading, q, events).0)
  }

  /** The status query a command polls with: the package, platform and task of
      the assessment it started, in the configured group. */
  function PollQuery(group: Uuid, body: TriggerBody): AssessmentParams
  {
    AssessmentParams(body.platform, body.package, body.task, group)
  }

  /** How a command's `RunE` ends. `StillWaiting` is a poll that had not ended
      when the events ran out. */
  datatype Outcome = Returned(err: Option<Error>) | StillWaiting

  /** What `RunE` writes and returns once the poll is over (package.go:63-75 and
      id.go:88-100): a poll error is returned with nothing written; a completed
      task is written exactly once, and the command succeeds only when its score
      reaches the minimum and the write succeeds; below the minimum the
      write's own error comes first, then the score error. */
  function Gate(pr: PollResult, minimum: int, writeFailure: Option<string>): (s: (seq<Payload>, Outcome))
    requires Scored(pr)
    ensures pr.Failed? ==> s == ([], Returned(Some(pr.err)))
    ensures pr.StillPolling? ==> s == ([], StillWaiting)
    ensures pr.Completed? ==> s.0 == Accepted(writeFailure, TaskPayload(pr.resp.json2xx))
    ensures pr.Completed? ==>
              (s.1 == Returned(None) <==> writeFailure.None? && IsAboveMinimum(pr.resp, minimum))
    ensures pr.Completed? && writeFailure.Some? ==> s.1 == Returned(Some(Io(writeFailure.value)))
    ensures pr.Completed? && writeFailure.None? && !IsAboveMinimum(pr.resp, minimum) ==>
              s.1 == Returned(Some(BelowMinimum(pr.resp.json2xx.adjustedScore.value, minimum)))
  {
    match pr
    case Failed(e) => ([], Returned(Some(e)))
    case StillPolling => ([], StillWaiting)
    case Completed(resp) =>
      var written := Accepted(writeFailure, TaskPayload(resp.json2xx));
      if !IsAboveMinimum(resp, minimum) then
        if writeFailure.Some? then (written, Returned(WriteError(writeFailure)))
        else (written, Returned(Some(BelowMinimum(resp.json2xx.adjustedScore.value, minimum))))
      else (written, Returned(WriteError(writeFailure)))
  }

  /** The part of `RunE` the package and id commands share, from the poll on:
      poll for the assessment just started, then gate its score. */
  method PollAndGate(w: Writer, reading: StatusReading, group: Uuid, minimum: int, body: TriggerBody, events: seq<Event>)
    returns (queries: seq<ApiRequest>, outcome: Outcome)
    requires PollSafe(reading, PollQuery(group, body), events)
    modifies w
    ensures var (pr, n) := Poll(reading, PollQuery(group, body), events);
            queries == Queries(PollQuery(group, body), events, n)
            && w.written == old(w.written) + Gate(pr, minimum, w.failure).0
            && outcome == Gate(pr, minimum, w.failure).1
  {
    var taskResponse;
    taskResponse, queries := PollForResults(reading, PollQuery(group, body), events);
    match taskResponse
    case Failed(e) =>
      outcome := Returned(Some(e));
    case StillPolling =>
      outcome := StillWaiting;
    case Completed(resp) =>
      if !IsAboveMinimum(resp, minimum) {
        var err := w.Write(TaskPayload(resp.json2xx));
        if err.Some? {
          outcome := Returned(err);
          return;
        }
        outcome := Returned(Some(BelowMinimum(resp.json2xx.adjustedScore.value, minimum)));
        return;
      }
      var err := w.Write(TaskPayload(resp.json2xx));
      outcome := Returned(err);
  }
}

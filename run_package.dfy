/** cmd/ns/run/package.go: `ns run package <name>` starts an assessment of a
    catalogued package, optionally polls for its result and gates the score. */
module RunPackage {
  import opened Wrappers
  import opened Domain
  import opened PlatformApi
  import opened Config
  import opened Output
  import opened RunPoll

  /** `config, _ := internal.NewRunConfig(v)`: the error is dropped, so an
      invalid configuration runs with the zero `RunConfig`. */
  function PackageConfig(v: Settings, lib: Lib): (c: RunConfig)
    ensures NewRunConfig(v, lib).Ok? ==> c == NewRunConfig(v, lib).value
    ensures NewRunConfig(v, lib).Err? ==> c == ZeroConfig
  {
    if NewRunConfig(v, lib).Ok? then NewRunConfig(v, lib).value else ZeroConfig
  }

  /** The trigger request for the package named on the command line. */
  function TriggerFor(config: RunConfig, packageName: string): TriggerParams
  {
    TriggerParams(packageName, config.group, config.analysisType, config.platform)
  }

  /** The poll is reached only once the sink is open, the trigger succeeded and
      polling is asked for; only then must the events be processable. */
  predicate Ready(v: Settings, lib: Lib, reading: StatusReading, packageName: string, openFailure: Option<string>,
                  triggerReply: HttpReply<TriggerBody>, events: seq<Event>)
  {
    ReadyWith(PackageConfig(v, lib), reading, openFailure,
              TriggerAssessment(TriggerFor(PackageConfig(v, lib), packageName), triggerReply), events)
  }

  predicate ReadyWith(config: RunConfig, reading: StatusReading, openFailure: Option<string>,
                      trigger: Call<TriggerBody>, events: seq<Event>)
  {
    openFailure.None? && trigger.result.Ok? && config.pollForMinutes > 0 ==>
      PollSafe(reading, PollQuery(config.group, trigger.result.value), events)
  }

  /** `RunE`. `openFailure` is the error `output.New` gives, `writeFailure`
      that of every `Write`; `triggerReply` is the platform's answer to the
      trigger, and `events` the ticks and the deadline the poll sees. The
      results are what was written, the requests sent, and how `RunE` ends. */
  method RunE(v: Settings, lib: Lib, reading: StatusReading, packageName: string,
              openFailure: Option<string>, writeFailure: Option<string>,
              triggerReply: HttpReply<TriggerBody>, events: seq<Event>)
    returns (written: seq<Payload>, calls: seq<ApiRequest>, outcome: Outcome)
    requires Ready(v, lib, reading, packageName, openFailure, triggerReply, events)
    ensures openFailure.Some? ==> written == [] && calls == [] && outcome == Returned(Some(Io(openFailure.value)))
    ensures var config := PackageConfig(v, lib);
            var trigger := TriggerAssessment(TriggerFor(config, packageName), triggerReply);
            openFailure.None? ==>
              |calls| >= 1 && calls[0] == trigger.request
              && (trigger.result.Err? ==>
                    written == [] && calls == [trigger.request] && outcome == Returned(Some(trigger.result.error)))
              && (trigger.result.Ok? && config.pollForMinutes <= 0 ==>
                    calls == [trigger.request] && written == Accepted(writeFailure, TriggerPayload(trigger.result.value))
                    && outcome == Returned(WriteError(writeFailure)))
              && (trigger.result.Ok? && config.pollForMinutes > 0 ==>
                    var q := PollQuery(config.group, trigger.result.value);
                    var (pr, n) := Poll(reading, q, events);
                    calls == [trigger.request] + Queries(q, events, n)
                    && (written, outcome) == Gate(pr, config.minimumScore, writeFailure))
  {
    var config := PackageConfig(v, lib);
    if openFailure.Some? {
      return [], [], Returned(Some(Io(openFailure.value)));
    }
    var w := new Writer(writeFailure);
    var response := TriggerAssessment(TriggerFor(config, packageName), triggerReply);
    calls := [response.request];
    if response.result.Err? {
      return w.written, calls, Returned(Some(response.result.error));
    }
    if config.pollForMinutes <= 0 {
      var err := w.Write(TriggerPayload(response.result.value));
      return w.written, calls, Returned(err);
    }
    var queries;
    assert w.written == [] && w.failure == writeFailure;
    queries, outcome := PollAndGate(w, reading, config.group, config.minimumScore, response.result.value, events);
    calls := calls + queries;
    written := w.written;
    assert written == Gate(Poll(reading, PollQuery(config.group, response.result.value), events).0, config.minimumScore, writeFailure).0;
  }
}

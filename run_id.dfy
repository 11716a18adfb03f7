/** cmd/ns/run/id.go: `ns run id <app-id>` looks the app up in the catalogue,
    starts an assessment of it, optionally polls for its result and gates the
    score. */
module RunId {
  import opened Wrappers
  import opened Domain
  import opened PlatformApi
  import opened Config
  import opened Output
  import opened RunPoll

  /** The catalogue lookup: the configured platform and group, the app id as
      the ref, and no package filter (id.go:52-57). */
  function LookupFor(config: RunConfig, appId: Uuid): AppListParams
  {
    AppListParams(Some(config.platform), None, Some(config.group), Some(appId))
  }

  /** The trigger for the one app found: its package and platform. */
  function TriggerFor(config: RunConfig, app: LabApp): TriggerParams
  {
    TriggerParams(app.package, config.group, config.analysisType, app.platform)
  }

  /** The poll is reached only once the id and the configuration are valid,
      the sink is open, the catalogue holds exactly one app, the trigger
      succeeded and polling is asked for. */
  predicate Ready(v: Settings, lib: Lib, reading: StatusReading, appArg: string, openFailure: Option<string>,
                  listReply: HttpReply<seq<LabApp>>, triggerReply: HttpReply<TriggerBody>, events: seq<Event>)
  {
    lib.parseUuid(appArg).Ok? && NewRunConfig(v, lib).Ok? && openFailure.None? ==>
      ReadyWith(NewRunConfig(v, lib).value, reading,
                GetAppList(LookupFor(NewRunConfig(v, lib).value, lib.parseUuid(appArg).value), listReply),
                triggerReply, events)
  }

  predicate ReadyWith(config: RunConfig, reading: StatusReading, list: Call<seq<LabApp>>,
                      triggerReply: HttpReply<TriggerBody>, events: seq<Event>)
  {
    list.result.Ok? && |list.result.value| == 1 && config.pollForMinutes > 0
    && TriggerAssessment(TriggerFor(config, list.result.value[0]), triggerReply).result.Ok? ==>
      PollSafe(reading, PollQuery(config.group, TriggerAssessment(TriggerFor(config, list.result.value[0]), triggerReply).result.value), events)
  }

  /** `RunE` on what the platform answers, after the configuration is valid and
      the sink is open: the requests sent, what was written, how it ends, and
      the configuration as the run leaves it. */
  predicate Continues(config: RunConfig, reading: StatusReading, list: Call<seq<LabApp>>, writeFailure: Option<string>,
                      triggerReply: HttpReply<TriggerBody>, events: seq<Event>,
                      written: seq<Payload>, calls: seq<ApiRequest>, outcome: Outcome, used: RunConfig)
    requires ReadyWith(config, reading, list, triggerReply, events)
  {
    |calls| >= 1 && calls[0] == list.request
    && (list.result.Err? ==>
          written == [] && calls == [list.request] && outcome == Returned(Some(list.result.error)) && used == config)
    && (list.result.Ok? && |list.result.value| != 1 ==>
          written == [] && calls == [list.request] && outcome == Returned(Some(WrongAppCount(|list.result.value|)))
          && used == config)
    && (list.result.Ok? && |list.result.value| == 1 ==>
          var app := list.result.value[0];
          var trigger := TriggerAssessment(TriggerFor(config, app), triggerReply);
          used == config.(platform := app.platform)
          && |calls| >= 2 && calls[..2] == [list.request, trigger.request]
          && (trigger.result.Err? ==>
                written == [] && calls == [list.request, trigger.request] && outcome == Returned(Some(trigger.result.error)))
          && (trigger.result.Ok? && config.pollForMinutes <= 0 ==>
                calls == [list.request, trigger.request]
                && written == Accepted(writeFailure, TriggerPayload(trigger.result.value))
                && outcome == Returned(WriteError(writeFailure)))
          && (trigger.result.Ok? && config.pollForMinutes > 0 ==>
                var q := PollQuery(config.group, trigger.result.value);
                var (pr, n) := Poll(reading, q, events);
                calls == [list.request, trigger.request] + Queries(q, events, n)
                && (written, outcome) == Gate(pr, config.minimumScore, writeFailure)))
  }

  /** `RunE`. `appArg` is the argument, `openFailure` the error `output.New`
      gives, `writeFailure` that of every `Write`; `listReply` and
      `triggerReply` are the platform's answers and `events` what the poll
      sees. A malformed id is refused before the configuration is read or any
      request is sent. */
  method RunE(v: Settings, lib: Lib, reading: StatusReading, appArg: string,
              openFailure: Option<string>, writeFailure: Option<string>,
              listReply: HttpReply<seq<LabApp>>, triggerReply: HttpReply<TriggerBody>, events: seq<Event>)
    returns (written: seq<Payload>, calls: seq<ApiRequest>, outcome: Outcome, used: RunConfig)
    requires Ready(v, lib, reading, appArg, openFailure, listReply, triggerReply, events)
    ensures lib.parseUuid(appArg).Err? ==>
              written == [] && calls == [] && outcome == Returned(Some(AppIdInvalid(lib.parseUuid(appArg).error)))
    ensures lib.parseUuid(appArg).Ok? && NewRunConfig(v, lib).Err? ==>
              written == [] && calls == [] && outcome == Returned(Some(NewRunConfig(v, lib).error))
    ensures lib.parseUuid(appArg).Ok? && NewRunConfig(v, lib).Ok? && openFailure.Some? ==>
              written == [] && calls == [] && outcome == Returned(Some(Io(openFailure.value)))
    ensures lib.parseUuid(appArg).Ok? && NewRunConfig(v, lib).Ok? && openFailure.None? ==>
              var config := NewRunConfig(v, lib).value;
              Continues(config, reading, GetAppList(LookupFor(config, lib.parseUuid(appArg).value), listReply),
                        writeFailure, triggerReply, events, written, calls, outcome, used)
  {
    used := ZeroConfig;
    var appId := lib.parseUuid(appArg);
    if appId.Err? {
      return [], [], Returned(Some(AppIdInvalid(appId.error))), used;
    }
    var loaded := NewRunConfig(v, lib);
    if loaded.Err? {
      return [], [], Returned(Some(loaded.error)), used;
    }
    var config := loaded.value;
    used := config;
    if openFailure.Some? {
      return [], [], Returned(Some(Io(openFailure.value))), used;
    }
    var w := new Writer(writeFailure);
    var appList := GetAppList(LookupFor(config, appId.value), listReply);
    calls := [appList.request];
    if appList.result.Err? {
      return w.written, calls, Returned(Some(appList.result.error)), used;
    }
    if |appList.result.value| != 1 {
      return w.written, calls, Returned(Some(WrongAppCount(|appList.result.value|))), used;
    }
    var app := appList.result.value[0];
    config := config.(platform := app.platform);
    used := config;
    var response := TriggerAssessment(TriggerParams(app.package, config.group, config.analysisType, app.platform), triggerReply);
    calls := calls + [response.request];
    if response.result.Err? {
      return w.written, calls, Returned(Some(response.result.error)), used;
    }
    if config.pollForMinutes <= 0 {
      var err := w.Write(TriggerPayload(response.result.value));
      return w.written, calls, Returned(err), used;
    }
    var queries;
    assert w.written == [] && w.failure == writeFailure;
    queries, outcome := PollAndGate(w, reading, config.group, config.minimumScore, response.result.value, events);
    calls := calls + queries;
    written := w.written;
    assert written == Gate(Poll(reading, PollQuery(config.group, response.result.value), events).0, config.minimumScore, writeFailure).0;
  }

  /** The catalogue lookup has to find exactly one app: none, or two matches,
      end the command with the count and without a trigger. */
  lemma WrongCountStopsBeforeTrigger(config: RunConfig, reading: StatusReading, lookup: AppListParams,
                                     listReply: HttpReply<seq<LabApp>>, list: Call<seq<LabApp>>, writeFailure: Option<string>, triggerReply: HttpReply<TriggerBody>, events: seq<Event>,
                                     written: seq<Payload>, calls: seq<ApiRequest>, outcome: Outcome, used: RunConfig)
    requires list == GetAppList(lookup, listReply)
    requires list.result.Ok? && |list.result.value| != 1
    requires Continues(config, reading, list, writeFailure, triggerReply, events, written, calls, outcome, used)
    ensures forall i | 0 <= i < |calls| :: !calls[i].TriggerRequest?
    ensures outcome.Returned? && outcome.err.Some? && outcome.err.value.WrongAppCount?
  {
  }
}

/**
 * Update requests: what every revision's update handler does with one
 * JetStream message (decode, "past means now", schedule, Ack), and the
 * last-execution record written by SaveTaskInfoToRegistry (service/ revision)
 * and SaveTaskInfoToINI (internal/common/ revision).
 *
 * The three handlers -- updateHandlerForWindows in service/windows.go and in
 * internal/common/windows.go, updateHandler in internal/common/service.go --
 * are the same code apart from where the record goes, so their common
 * behaviour is the one function HandleUpdateSpec, parameterised by the Store.
 */
module UpdateTasks {
  import opened Env

  /** A decoded JSON payload, or the decoder's error text. */
  datatype Decoded<T> = Decoded(value: T) | Undecodable(reason: string)

  /** Where the last-execution record goes, with the outcome of opening it. */
  datatype Store =
    | Registry(hiveOk: bool)             // registry.OpenKey on SOFTWARE\OpenUEM\Agent
    | IniFile(loadOk: bool, saveOk: bool) // ini.Load and cfg.SaveTo of the agent configuration

  /** The answers the outside world gives to one run of an update handler. */
  datatype HandlerOracle = HandlerOracle(
    now: Clock,                 // time.Now()
    jobErr: Option<string>,     // the scheduler's NewJob error, if any
    ackErr: Option<string>)     // msg.Ack()'s error, if any

  const TimeName := "UpdaterLastExecutionTime"
  const StatusName := "UpdaterLastExecutionStatus"
  const ResultName := "UpdaterLastExecutionResult"

  /** Stand-ins for the text of openuem_nats.UPDATE_SUCCESS and UPDATE_ERROR. */
  function StatusText(st: Status): string
  {
    match st
    case UpdateSuccess => "UPDATE_SUCCESS"
    case UpdateError => "UPDATE_ERROR"
  }

  function AgentKey(name: string): IniKey
  {
    IniKey("Agent", name)
  }

  /** The registry after the three SetStringValue calls of SaveTaskInfoToRegistry. */
  function RegistryRecord(reg: map<string, RegValue>, report: Report, clock: Clock): (r: map<string, RegValue>)
    ensures TimeName in r && StatusName in r && ResultName in r
    ensures r[TimeName] == RegString(clock.local)
    ensures r[StatusName] == RegString(StatusText(report.status))
    ensures r[ResultName] == RegString(report.result)
    ensures forall n :: n != TimeName && n != StatusName && n != ResultName ==>
      (n in r <==> n in reg) && (n in r ==> r[n] == reg[n])
  {
    reg[TimeName := RegString(clock.local)]
       [StatusName := RegString(StatusText(report.status))]
       [ResultName := RegString(report.result)]
  }

  /** The configuration after the three SetValue calls of SaveTaskInfoToINI. */
  function IniRecord(cfg: map<IniKey, string>, report: Report, clock: Clock): (r: map<IniKey, string>)
    ensures AgentKey(TimeName) in r && AgentKey(StatusName) in r && AgentKey(ResultName) in r
    ensures r[AgentKey(TimeName)] == clock.local
    ensures r[AgentKey(StatusName)] == StatusText(report.status)
    ensures r[AgentKey(ResultName)] == report.result
    ensures forall k :: k != AgentKey(TimeName) && k != AgentKey(StatusName) && k != AgentKey(ResultName) ==>
      (k in r <==> k in cfg) && (k in r ==> r[k] == cfg[k])
  {
    cfg[AgentKey(TimeName) := clock.local]
       [AgentKey(StatusName) := StatusText(report.status)]
       [AgentKey(ResultName) := report.result]
  }

  /** One call of SaveTaskInfoToRegistry / SaveTaskInfoToINI. */
  function SaveTaskInfo(s: State, store: Store, report: Report, clock: Clock): (r: State)
    ensures r.trace == s.trace + [Recorded(report)]
    ensures r.files == s.files && r.running == s.running && r.jobs == s.jobs && r.nextJob == s.nextJob
    ensures Reports(r.trace) == Reports(s.trace) + [report]
    ensures forall m :: Outcomes(r.trace, m) == Outcomes(s.trace, m)
    ensures ServiceCalls(r.trace) == ServiceCalls(s.trace) && Launches(r.trace) == Launches(s.trace)
    ensures NatsCalls(r.trace) == NatsCalls(s.trace)
    // the registry variant: all three values written when the hive opens, nothing otherwise
    ensures store.IniFile? ==> r.registry == s.registry
    ensures store.Registry? && !store.hiveOk ==> r.registry == s.registry
    ensures store.Registry? && store.hiveOk ==>
      && TimeName in r.registry && StatusName in r.registry && ResultName in r.registry
      && r.registry[TimeName] == RegString(clock.local)
      && r.registry[StatusName] == RegString(StatusText(report.status))
      && r.registry[ResultName] == RegString(report.result)
      && forall n :: n != TimeName && n != StatusName && n != ResultName ==>
           (n in r.registry <==> n in s.registry) && (n in r.registry ==> r.registry[n] == s.registry[n])
    // the INI variant: a load or save failure leaves the file as it was
    ensures store.Registry? ==> r.ini == s.ini
    ensures store.IniFile? && !(store.loadOk && store.saveOk) ==> r.ini == s.ini
    ensures store.IniFile? && store.loadOk && store.saveOk ==>
      && AgentKey(TimeName) in r.ini && AgentKey(StatusName) in r.ini && AgentKey(ResultName) in r.ini
      && r.ini[AgentKey(TimeName)] == clock.local
      && r.ini[AgentKey(StatusName)] == StatusText(report.status)
      && r.ini[AgentKey(ResultName)] == report.result
      && forall k :: k != AgentKey(TimeName) && k != AgentKey(StatusName) && k != AgentKey(ResultName) ==>
           (k in r.ini <==> k in s.ini) && (k in r.ini ==> r.ini[k] == s.ini[k])
  {
    var logged := Logged(s, Recorded(report));
    match store
    case Registry(hiveOk) =>
      if hiveOk then logged.(registry := RegistryRecord(s.registry, report, clock)) else logged
    case IniFile(loadOk, saveOk) =>
      if loadOk && saveOk then logged.(ini := IniRecord(s.ini, report, clock)) else logged
  }

  /** The request after "if scheduled time is in the past execute now". */
  function EffectiveRequest(req: UpdateRequest, now: Clock): (r: UpdateRequest)
    ensures r.updateNow <==> req.updateNow || (req.updateAt.Instant? && req.updateAt.unix < now.unix)
    ensures r.version == req.version && r.downloadFrom == req.downloadFrom
    ensures r.downloadHash == req.downloadHash && r.updateAt == req.updateAt
    ensures req.updateAt.ZeroTime? ==> r == req
  {
    if req.updateAt.Instant? && req.updateAt.unix < now.unix then req.(updateNow := true) else req
  }

  /** The one-time job the handler asks for, if any. */
  function PlannedSchedule(data: UpdateRequest): (r: Option<Schedule>)
    ensures data.updateNow ==> r == Some(Immediately)
    ensures !data.updateNow && data.updateAt.Instant? ==> r == Some(OnceAt(data.updateAt.unix))
    ensures r.None? <==> !data.updateNow && data.updateAt.ZeroTime?
  {
    if data.updateNow then Some(Immediately)
    else if data.updateAt.Instant? then Some(OnceAt(data.updateAt.unix))
    else None
  }

  function UnmarshalError(reason: string): Report
  {
    Report(UpdateError, "could not unmarshal update request, reason: " + reason)
  }

  function ScheduleError(reason: string): Report
  {
    Report(UpdateError, "could not schedule the update task: " + reason)
  }

  function AckError(reason: string): Report
  {
    Report(UpdateError, "could not sent ACK, reason: " + reason)
  }

  /** msg.NakWithDelay(minutes * time.Minute) followed by a record. */
  function NakAndRecord(s: State, m: MsgId, minutes: nat, store: Store, report: Report, clock: Clock): (r: State)
    ensures r.files == s.files && r.running == s.running && r.jobs == s.jobs && r.nextJob == s.nextJob
    ensures Outcomes(r.trace, m) == Outcomes(s.trace, m) + [NakDelay(minutes)]
    ensures forall m2 :: m2 != m ==> Outcomes(r.trace, m2) == Outcomes(s.trace, m2)
    ensures Reports(r.trace) == Reports(s.trace) + [report]
    ensures ServiceCalls(r.trace) == ServiceCalls(s.trace) && Launches(r.trace) == Launches(s.trace)
  {
    SaveTaskInfo(Logged(s, Sent(m, NakDelay(minutes))), store, report, clock)
  }

  /** msg.Ack(), followed by an error record when the Ack fails. */
  function AckOrRecord(s: State, m: MsgId, store: Store, ackErr: Option<string>, clock: Clock): (r: State)
    ensures r.files == s.files && r.running == s.running && r.jobs == s.jobs && r.nextJob == s.nextJob
    ensures Outcomes(r.trace, m) == Outcomes(s.trace, m) + [Ack]
    ensures forall m2 :: m2 != m ==> Outcomes(r.trace, m2) == Outcomes(s.trace, m2)
    ensures Reports(r.trace) == Reports(s.trace) + (if ackErr.None? then [] else [AckError(ackErr.value)])
    ensures ServiceCalls(r.trace) == ServiceCalls(s.trace) && Launches(r.trace) == Launches(s.trace)
  {
    var acked := Logged(s, Sent(m, Ack));
    if ackErr.None? then acked else SaveTaskInfo(acked, store, AckError(ackErr.value), clock)
  }

  /** updateHandler / updateHandlerForWindows on message m with payload p. */
  function HandleUpdateSpec(s: State, m: MsgId, p: Decoded<UpdateRequest>, o: HandlerOracle, store: Store): (r: State)
    // nothing is installed, stopped or started by the handler itself
    ensures r.files == s.files && r.running == s.running
    ensures ServiceCalls(r.trace) == ServiceCalls(s.trace) && Launches(r.trace) == Launches(s.trace)
    // no outcome is sent for any other message
    ensures forall m2 :: m2 != m ==> Outcomes(r.trace, m2) == Outcomes(s.trace, m2)
    // an undecodable payload: Nak 60, an error record, no job
    ensures p.Undecodable? ==>
      && Outcomes(r.trace, m) == Outcomes(s.trace, m) + [NakDelay(60)]
      && Reports(r.trace) == Reports(s.trace) + [UnmarshalError(p.reason)]
      && r.jobs == s.jobs
    // a request asking for a job the scheduler refuses: Nak 60 and no Ack, an error record, no job
    ensures p.Decoded? && (p.value.updateNow || p.value.updateAt.Instant?) && o.jobErr.Some? ==>
      && Outcomes(r.trace, m) == Outcomes(s.trace, m) + [NakDelay(60)]
      && Reports(r.trace) == Reports(s.trace) + [ScheduleError(o.jobErr.value)]
      && r.jobs == s.jobs
    // run now (asked for, or a time already past): exactly one immediate job, then Ack
    ensures p.Decoded? && o.jobErr.None? &&
            (p.value.updateNow || (p.value.updateAt.Instant? && p.value.updateAt.unix < o.now.unix)) ==>
      && r.jobs == s.jobs + [Job(s.nextJob, Immediately, RunUpdate(p.value.(updateNow := true), m))]
      && Outcomes(r.trace, m) == Outcomes(s.trace, m) + [Ack]
    // a future time: exactly one job at that time, then Ack
    ensures p.Decoded? && o.jobErr.None? && !p.value.updateNow &&
            p.value.updateAt.Instant? && p.value.updateAt.unix >= o.now.unix ==>
      && r.jobs == s.jobs + [Job(s.nextJob, OnceAt(p.value.updateAt.unix), RunUpdate(p.value, m))]
      && Outcomes(r.trace, m) == Outcomes(s.trace, m) + [Ack]
    // no time and not now: no job, still Acked
    ensures p.Decoded? && !p.value.updateNow && p.value.updateAt.ZeroTime? ==>
      && r.jobs == s.jobs
      && Outcomes(r.trace, m) == Outcomes(s.trace, m) + [Ack]
    // a record is written only on a failure, and then exactly one
    ensures p.Decoded? && (p.value.updateNow || p.value.updateAt.Instant? ==> o.jobErr.None?) ==>
      Reports(r.trace) == Reports(s.trace) + (if o.ackErr.None? then [] else [AckError(o.ackErr.value)])
  {
    match p
    case Undecodable(reason) =>
      NakAndRecord(s, m, 60, store, UnmarshalError(reason), o.now)
    case Decoded(req) =>
      var data := EffectiveRequest(req, o.now);
      var plan := PlannedSchedule(data);
      if plan.Some? && o.jobErr.Some? then
        NakAndRecord(s, m, 60, store, ScheduleError(o.jobErr.value), o.now)
      else
        var scheduled := if plan.Some? then AfterNewJob(s, plan.value, RunUpdate(data, m), true) else s;
        AckOrRecord(scheduled, m, store, o.ackErr, o.now)
  }

  /** Every run of the handler sends exactly one outcome for its message, and it
      is an Ack exactly when no job was refused; other messages get nothing. */
  lemma HandlerSendsOneOutcome(s: State, m: MsgId, p: Decoded<UpdateRequest>, o: HandlerOracle, store: Store)
    ensures var r := HandleUpdateSpec(s, m, p, o, store);
      exists x :: Outcomes(r.trace, m) == Outcomes(s.trace, m) + [x] &&
        (x == Ack <==> p.Decoded? && (PlannedSchedule(EffectiveRequest(p.value, o.now)).None? || o.jobErr.None?)) &&
        (x != Ack ==> x == NakDelay(60))
    ensures var r := HandleUpdateSpec(s, m, p, o, store);
      forall m2 :: m2 != m ==> Outcomes(r.trace, m2) == Outcomes(s.trace, m2)
  {
    var r := HandleUpdateSpec(s, m, p, o, store);
    if p.Undecodable? {
      assert Outcomes(r.trace, m) == Outcomes(s.trace, m) + [NakDelay(60)];
    } else if PlannedSchedule(EffectiveRequest(p.value, o.now)).Some? && o.jobErr.Some? {
      assert Outcomes(r.trace, m) == Outcomes(s.trace, m) + [NakDelay(60)];
    } else {
      assert Outcomes(r.trace, m) == Outcomes(s.trace, m) + [Ack];
    }
  }

  /** The handler adds at most one job, and only an update job for its own message. */
  lemma HandlerSchedulesAtMostOne(s: State, m: MsgId, p: Decoded<UpdateRequest>, o: HandlerOracle, store: Store)
    ensures var r := HandleUpdateSpec(s, m, p, o, store);
      r.jobs == s.jobs ||
      (exists sch, req :: r.jobs == s.jobs + [Job(s.nextJob, sch, RunUpdate(req, m))])
  {
    var r := HandleUpdateSpec(s, m, p, o, store);
    if p.Decoded? && o.jobErr.None? {
      var data := EffectiveRequest(p.value, o.now);
      var plan := PlannedSchedule(data);
      if plan.Some? {
        assert r.jobs == s.jobs + [Job(s.nextJob, plan.value, RunUpdate(data, m))];
      }
    }
  }
}

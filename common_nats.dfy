/**
 * The NATS connection supervisor of internal/common/nats.go
 * (StartNATSConnectJob): connect once; when that fails, register a 2-minute
 * job whose every run reconnects if there is no connection, subscribes, and
 * on the first successful subscription removes itself from the scheduler.
 */
module CommonNats {
  import opened Env

  const RetryMinutes: nat := 2

  /** The UpdaterService fields the supervisor sets: whether NATSConnection is
      non-nil, and the NATSConnectJob handle. */
  datatype Supervisor = Supervisor(connected: bool, connectJob: Option<JobId>)

  /** The answers the outside world gives to one run of the retry job. */
  datatype TickIo = TickIo(connectOk: bool, subscribeOk: bool, removeOk: bool)

  /** fmt.Errorf("could not start the NATS connect job: %v", err). */
  function ConnectJobError(err: string): string
  {
    "could not start the NATS connect job: " + err
  }

  /** StartNATSConnectJob: the new state, the new fields and the returned error. */
  function StartSpec(s: State, sup: Supervisor, connectOk: bool, subscribeOk: bool, jobErr: Option<string>)
    : (r: (State, Supervisor, Option<string>))
    ensures r.0.files == s.files && r.0.running == s.running && r.0.ini == s.ini && r.0.registry == s.registry
    ensures forall m :: Outcomes(r.0.trace, m) == Outcomes(s.trace, m)
    ensures r.1.connected == connectOk
    // a first connection: one subscription attempt, no retry job, no error whatever the subscription did
    ensures connectOk ==>
      && NatsCalls(r.0.trace) == NatsCalls(s.trace) + [Connect(true)] + [Subscribe(subscribeOk)]
      && r.0.jobs == s.jobs && r.1.connectJob == sup.connectJob && r.2.None?
    // no connection: exactly one recurring retry job, or the scheduler's error wrapped
    ensures !connectOk ==> NatsCalls(r.0.trace) == NatsCalls(s.trace) + [Connect(false)]
    ensures !connectOk && jobErr.None? ==>
      && r.0.jobs == s.jobs + [Job(s.nextJob, Every(RetryMinutes), RetryConnect)]
      && r.1.connectJob == Some(s.nextJob) && r.2.None?
    ensures !connectOk && jobErr.Some? ==>
      && r.0.jobs == s.jobs && r.1.connectJob.None? && r.2 == Some(ConnectJobError(jobErr.value))
  {
    var connected := Logged(s, Nats(Connect(connectOk)));
    if connectOk then
      (Logged(connected, Nats(Subscribe(subscribeOk))), sup.(connected := true), None)
    else
      var scheduled := AfterNewJob(connected, Every(RetryMinutes), RetryConnect, jobErr.None?);
      var job := if jobErr.None? then Some(connected.nextJob) else None;
      (scheduled, Supervisor(false, job), if jobErr.None? then None else Some(ConnectJobError(jobErr.value)))
  }

  /** The first half of a run: connect only when there is no connection. */
  function Reconnect(s: State, sup: Supervisor, connectOk: bool): (r: (State, Supervisor))
    ensures r.1 == sup.(connected := sup.connected || connectOk)
    ensures sup.connected ==> r.0 == s
    ensures !sup.connected ==> r.0 == Logged(s, Nats(Connect(connectOk)))
  {
    if sup.connected then (s, sup) else (Logged(s, Nats(Connect(connectOk))), sup.(connected := connectOk))
  }

  /** The second half of a run, on a connection: subscribe, and on success
      remove job id from the scheduler. */
  function Resubscribe(s: State, id: JobId, io: TickIo): (r: State)
    ensures r.files == s.files && r.running == s.running && r.ini == s.ini && r.registry == s.registry
    ensures forall m :: Outcomes(r.trace, m) == Outcomes(s.trace, m)
    ensures NatsCalls(r.trace) == NatsCalls(s.trace) + [Subscribe(io.subscribeOk)]
    ensures !io.subscribeOk ==> r.jobs == s.jobs
    ensures io.subscribeOk ==>
      r.jobs == (if io.removeOk && HasJob(s.jobs, id) then WithoutJob(s.jobs, id) else s.jobs)
    ensures forall j :: j in r.jobs ==> j in s.jobs
  {
    var subscribed := Logged(s, Nats(Subscribe(io.subscribeOk)));
    if !io.subscribeOk then subscribed else AfterRemoveJob(subscribed, id, io.removeOk)
  }

  /** One run of the retry job registered under sup.connectJob. */
  function TickSpec(s: State, sup: Supervisor, io: TickIo): (r: (State, Supervisor))
    requires sup.connectJob.Some?
    ensures r.0.files == s.files && r.0.running == s.running && r.0.ini == s.ini && r.0.registry == s.registry
    ensures forall m :: Outcomes(r.0.trace, m) == Outcomes(s.trace, m)
    ensures r.1.connectJob == sup.connectJob
    // an existing connection is reused and never lost
    ensures r.1.connected == (sup.connected || io.connectOk)
    ensures sup.connected ==> NatsCalls(r.0.trace) == NatsCalls(s.trace) + [Subscribe(io.subscribeOk)]
    ensures !sup.connected ==>
      NatsCalls(r.0.trace) == NatsCalls(s.trace) + [Connect(io.connectOk)] + (if io.connectOk then [Subscribe(io.subscribeOk)] else [])
    // the job is removed only after a successful subscription; otherwise the jobs stay as they were
    ensures !((sup.connected || io.connectOk) && io.subscribeOk) ==> r.0.jobs == s.jobs
    ensures (sup.connected || io.connectOk) && io.subscribeOk ==>
      r.0.jobs == (if io.removeOk && HasJob(s.jobs, sup.connectJob.value) then WithoutJob(s.jobs, sup.connectJob.value) else s.jobs)
    ensures forall j :: j in r.0.jobs ==> j in s.jobs
  {
    var rc := Reconnect(s, sup, io.connectOk);
    if !rc.1.connected then rc else (Resubscribe(rc.0, sup.connectJob.value, io), rc.1)
  }

  /** The retry job's runs, applied in order for as long as the job is still
      scheduled; once it has removed itself no further run happens. */
  function RunTicks(s: State, sup: Supervisor, ios: seq<TickIo>): (State, Supervisor)
    requires sup.connectJob.Some?
    decreases |ios|
  {
    if ios == [] || !HasJob(s.jobs, sup.connectJob.value) then (s, sup)
    else
      var (t, sup2) := TickSpec(s, sup, ios[0]);
      RunTicks(t, sup2, ios[1..])
  }

  /** The first run whose subscription and removal succeed is the last one. */
  lemma SubscribedJobStops(s: State, sup: Supervisor, io: TickIo, rest: seq<TickIo>)
    requires sup.connectJob.Some? && HasJob(s.jobs, sup.connectJob.value)
    requires (sup.connected || io.connectOk) && io.subscribeOk && io.removeOk
    ensures var (t, sup2) := TickSpec(s, sup, io);
      && !HasJob(t.jobs, sup.connectJob.value)
      && sup2.connected
      && RunTicks(t, sup2, rest) == (t, sup2)
  {
    var (t, sup2) := TickSpec(s, sup, io);
    assert t.jobs == WithoutJob(s.jobs, sup.connectJob.value);
  }

  /** The retry runs never add a job, and never bring back one they removed. */
  lemma {:induction false} RunTicksOnlyRemoves(s: State, sup: Supervisor, ios: seq<TickIo>)
    requires sup.connectJob.Some?
    ensures forall j :: j in RunTicks(s, sup, ios).0.jobs ==> j in s.jobs
    ensures RunTicks(s, sup, ios).1.connectJob == sup.connectJob
    decreases |ios|
  {
    if ios != [] && HasJob(s.jobs, sup.connectJob.value) {
      var (t, sup2) := TickSpec(s, sup, ios[0]);
      RunTicksOnlyRemoves(t, sup2, ios[1..]);
    }
  }

  /** While no run manages to subscribe, the retry job stays scheduled, and a
      connection once made is kept. */
  lemma {:induction false} RunTicksKeepsJobUntilSubscribed(s: State, sup: Supervisor, ios: seq<TickIo>)
    requires sup.connectJob.Some? && HasJob(s.jobs, sup.connectJob.value)
    requires forall i :: 0 <= i < |ios| ==> !ios[i].subscribeOk
    ensures var (r, sup2) := RunTicks(s, sup, ios);
      && HasJob(r.jobs, sup.connectJob.value) && r.jobs == s.jobs
      && (sup.connected ==> sup2.connected)
    decreases |ios|
  {
    if ios != [] {
      var (t, sup2) := TickSpec(s, sup, ios[0]);
      assert t.jobs == s.jobs;
      RunTicksKeepsJobUntilSubscribed(t, sup2, ios[1..]);
    }
  }
}

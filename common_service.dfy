/**
 * The internal/common/ revision's UpdaterService (internal/common/service.go):
 * the JetStream consumer's replica count, the dispatcher and update handler
 * writing their record to the agent's INI configuration, ReadConfig with its
 * certificate path fallbacks, and the two recurring jobs (watchdog and NATS
 * connection supervisor) whose handles the service keeps.
 */
module CommonService {
  import opened Env
  import opened GoStd
  import opened UpdateTasks
  import opened Scheduler
  import opened CommonNats

  // ---------------------------------------------------------------------------
  // queueSubscribe: the consumer configuration

  const MaxReplicas: nat := 5

  /** len(strings.Split(us.NATSServers, ",")). */
  function ServerCount(servers: string): nat
  {
    |Split(servers, ',')|
  }

  /** consumerConfig.Replicas: set only for a list of more than one server, and
      then the number of servers capped at five; None leaves the default. */
  function ConsumerReplicas(servers: string): Option<nat>
  {
    var n := ServerCount(servers);
    if n > 1 then Some(if n < MaxReplicas then n else MaxReplicas) else None
  }

  /** Replicas are set exactly when the server list holds a comma, and then
      lie between 2 and 5 and equal the number of servers when it is at most 5. */
  lemma ReplicasFollowServerList(servers: string)
    ensures ConsumerReplicas(servers).None? <==> ',' !in servers
    ensures ConsumerReplicas(servers).Some? ==>
      && 2 <= ConsumerReplicas(servers).value <= MaxReplicas
      && (Occurrences(servers, ',') < MaxReplicas ==> ConsumerReplicas(servers).value == Occurrences(servers, ',') + 1)
      && (Occurrences(servers, ',') >= MaxReplicas ==> ConsumerReplicas(servers).value == MaxReplicas)
  {
    SplitCount(servers, ',');
    OccurrencesAbsent(servers, ',');
  }

  function UpdateSubject(agentId: string): string { "agent.update." + agentId }

  datatype ConsumerConfig = ConsumerConfig(durable: string, filterSubjects: seq<string>, replicas: Option<nat>)

  /** The consumer queueSubscribe creates or updates on AGENTS_STREAM. */
  function UpdaterConsumer(agentId: string, servers: string): ConsumerConfig
  {
    ConsumerConfig("AgentUpdater" + agentId, [UpdateSubject(agentId)], ConsumerReplicas(servers))
  }

  lemma UpdateSubjectInjective(a: string, b: string)
    ensures UpdateSubject(a) == UpdateSubject(b) ==> a == b
  {
    if UpdateSubject(a) == UpdateSubject(b) {
      assert a == UpdateSubject(a)[13..];
      assert b == UpdateSubject(b)[13..];
    }
  }

  // ---------------------------------------------------------------------------
  // JetStreamUpdaterHandler and updateHandler

  /** The answers for one message: its payload, the handler's oracle, and the
      outcomes of loading and saving the configuration for a record. */
  datatype UpdateOracle = UpdateOracle(
    payload: Decoded<UpdateRequest>,
    handler: HandlerOracle,
    loadOk: bool,
    saveOk: bool)

  /** JetStreamUpdaterHandler: one subject test. */
  function DispatchSpec(s: State, agentId: string, msg: Msg, o: UpdateOracle): State
  {
    if msg.subject == UpdateSubject(agentId) then
      HandleUpdateSpec(s, msg.id, o.payload, o.handler, IniFile(o.loadOk, o.saveOk))
    else s
  }

  /** Every message the consumer's filter lets through reaches the update
      handler and is settled exactly once; the consumer is durable under a
      name of its own agent. */
  lemma ConsumerFeedsHandler(s: State, agentId: string, servers: string, id: MsgId, o: UpdateOracle)
    ensures var c := UpdaterConsumer(agentId, servers);
      && |c.filterSubjects| == 1
      && c.durable[..12] == "AgentUpdater" && c.durable[12..] == agentId
      && forall sub :: sub in c.filterSubjects ==>
           && DispatchSpec(s, agentId, Msg(id, sub), o) == HandleUpdateSpec(s, id, o.payload, o.handler, IniFile(o.loadOk, o.saveOk))
           && |Outcomes(DispatchSpec(s, agentId, Msg(id, sub), o).trace, id)| == |Outcomes(s.trace, id)| + 1
  {
    HandlerSendsOneOutcome(s, id, o.payload, o.handler, IniFile(o.loadOk, o.saveOk));
  }

  /** Every subject other than this agent's update subject has no effect. */
  lemma OtherSubjectsIgnored(s: State, agentId: string, msg: Msg, o: UpdateOracle)
    requires msg.subject != UpdateSubject(agentId)
    ensures DispatchSpec(s, agentId, msg, o) == s
  {
  }

  /** In particular, an update message meant for another agent has no effect. */
  lemma OtherAgentsIgnored(s: State, agentId: string, other: string, id: MsgId, o: UpdateOracle)
    requires other != agentId
    ensures DispatchSpec(s, agentId, Msg(id, UpdateSubject(other)), o) == s
  {
    UpdateSubjectInjective(agentId, other);
  }

  /** SaveTaskInfoToINI: the record is noted; the configuration is written
      only when it loads, and then with exactly the three Updater keys set. */
  method SaveTaskInfoToINI(w: World, report: Report, loadOk: bool, saveOk: bool, clock: Clock)
    modifies w
    ensures w.View() == SaveTaskInfo(old(w.View()), IniFile(loadOk, saveOk), report, clock)
  {
    w.Record(report);
    if !loadOk {
      return;
    }
    var cfg := w.ini;
    cfg := cfg[AgentKey(TimeName) := clock.local];
    cfg := cfg[AgentKey(StatusName) := StatusText(report.status)];
    cfg := cfg[AgentKey(ResultName) := report.result];
    w.SaveIni(cfg, saveOk);
  }

  /** msg.NakWithDelay followed by SaveTaskInfoToINI. */
  method NakAndSave(w: World, m: MsgId, minutes: nat, report: Report, loadOk: bool, saveOk: bool, clock: Clock)
    modifies w
    ensures w.View() == NakAndRecord(old(w.View()), m, minutes, IniFile(loadOk, saveOk), report, clock)
  {
    w.Send(m, NakDelay(minutes));
    SaveTaskInfoToINI(w, report, loadOk, saveOk, clock);
  }

  // ---------------------------------------------------------------------------
  // ReadConfig

  const UuidKey := IniKey("Agent", "UUID")
  const ServersKey := IniKey("NATS", "NATSServers")
  const CACertKey := IniKey("Certificates", "CACert")
  const AgentCertKey := IniKey("Certificates", "AgentCert")
  const AgentKeyKey := IniKey("Certificates", "AgentKey")

  /** The UpdaterService fields ReadConfig assigns. */
  datatype Settings = Settings(agentId: string, natsServers: string, caCert: Path, agentCert: Path, agentKey: Path)

  /** How ReadConfig ends: nil, a returned error, or log.Fatalf ending the process. */
  datatype ConfigResult = ConfigRead | ConfigFailed | Exit(reason: Fatal)

  /** The log.Fatalf calls of ReadConfig: which step could not be completed. */
  datatype Fatal = NoWorkingDirectory | CaUnreadable | CertificateUnreadable | KeyUnreadable

  /** The answers the outside world gives to one ReadConfig. */
  datatype ConfigOracle = ConfigOracle(
    loadOk: bool,                  // ini.Load of the agent configuration
    cwd: Option<Path>,             // openuem_utils.GetWd()
    windows: bool,                 // filepath.Join's separator on the build target
    certReadable: Path -> bool,    // openuem_utils.ReadPEMCertificate
    keyReadable: Path -> bool)     // openuem_utils.ReadPEMPrivateKey

  /** filepath.Join(cwd, "certificates", name). */
  function CertPath(windows: bool, cwd: Path, name: string): Path
  {
    if windows then WinJoin(cwd, "certificates\\" + name) else UnixJoin(cwd, "certificates/" + name)
  }

  /** The configured value of a Certificates key, or the path used without one. */
  function KeyOr(cfg: map<IniKey, string>, k: IniKey, fallback: Path): Path
  {
    if k in cfg then cfg[k] else fallback
  }

  /** ReadConfig with the file name used when AgentKey is not configured. */
  function ReadConfigWith(cfg: map<IniKey, string>, prev: Settings, o: ConfigOracle, keyFallback: string): (r: (ConfigResult, Settings))
    // nil exactly when everything loads and every certificate and the key read
    ensures r.0 == ConfigRead <==>
      && o.loadOk && UuidKey in cfg && ServersKey in cfg && o.cwd.Some?
      && o.certReadable(r.1.caCert) && o.certReadable(r.1.agentCert) && o.keyReadable(r.1.agentKey)
    // a returned error: a load failure or a missing UUID or NATSServers key, and nothing but the UUID assigned
    ensures r.0 == ConfigFailed <==> !o.loadOk || UuidKey !in cfg || ServersKey !in cfg
    ensures r.0 == ConfigFailed ==>
      && r.1.natsServers == prev.natsServers && r.1.caCert == prev.caCert
      && r.1.agentCert == prev.agentCert && r.1.agentKey == prev.agentKey
      && r.1.agentId == (if o.loadOk && UuidKey in cfg then cfg[UuidKey] else prev.agentId)
    // past the two required keys, the identity and the servers come from the file
    ensures r.0 != ConfigFailed ==> r.1.agentId == cfg[UuidKey] && r.1.natsServers == cfg[ServersKey]
    ensures r.0 == Exit(NoWorkingDirectory) <==> r.0 != ConfigFailed && o.cwd.None?
    // a configured path always wins over the fallback
    ensures r.0 == ConfigRead ==>
      && r.1.caCert == KeyOr(cfg, CACertKey, CertPath(o.windows, o.cwd.value, "ca.cer"))
      && r.1.agentCert == KeyOr(cfg, AgentCertKey, CertPath(o.windows, o.cwd.value, "agent.cer"))
      && r.1.agentKey == KeyOr(cfg, AgentKeyKey, CertPath(o.windows, o.cwd.value, keyFallback))
  {
    if !o.loadOk || UuidKey !in cfg then (ConfigFailed, prev)
    else
      var named := prev.(agentId := cfg[UuidKey]);
      if ServersKey !in cfg then (ConfigFailed, named)
      else
        var served := named.(natsServers := cfg[ServersKey]);
        if o.cwd.None? then (Exit(NoWorkingDirectory), served)
        else CertificatesSpec(cfg, served, o, o.cwd.value, keyFallback)
  }

  /** The Certificates section: the CA, the agent certificate and the private
      key, each a configured path or the file of the certificates directory. */
  function CertificatesSpec(cfg: map<IniKey, string>, st: Settings, o: ConfigOracle, cwd: Path, keyFallback: string): (ConfigResult, Settings)
  {
    var withCa := st.(caCert := KeyOr(cfg, CACertKey, CertPath(o.windows, cwd, "ca.cer")));
    if !o.certReadable(withCa.caCert) then (Exit(CaUnreadable), withCa)
    else
      var withCert := withCa.(agentCert := KeyOr(cfg, AgentCertKey, CertPath(o.windows, cwd, "agent.cer")));
      if !o.certReadable(withCert.agentCert) then (Exit(CertificateUnreadable), withCert)
      else
        var withKey := withCert.(agentKey := KeyOr(cfg, AgentKeyKey, CertPath(o.windows, cwd, keyFallback)));
        if !o.keyReadable(withKey.agentKey) then (Exit(KeyUnreadable), withKey)
        else (ConfigRead, withKey)
  }

  /** ReadConfig as written: without an AgentKey entry the private key is
      looked for in certificates/agent.cer. */
  function ReadConfigSpec(cfg: map<IniKey, string>, prev: Settings, o: ConfigOracle): (r: (ConfigResult, Settings))
  {
    ReadConfigWith(cfg, prev, o, "agent.cer")
  }

  /** ReadConfig with the evidently intended key fallback, certificates/agent.key. */
  function ReadConfigIntendedSpec(cfg: map<IniKey, string>, prev: Settings, o: ConfigOracle): (r: (ConfigResult, Settings))
  {
    ReadConfigWith(cfg, prev, o, "agent.key")
  }

  /** The fallbacks name files of the certificates directory under the working directory. */
  lemma CertificateFallbacks(cfg: map<IniKey, string>, prev: Settings, o: ConfigOracle)
    requires ReadConfigSpec(cfg, prev, o).0 == ConfigRead
    ensures var st := ReadConfigSpec(cfg, prev, o).1;
      var cwd := o.cwd.value;
      && (CACertKey !in cfg ==> st.caCert == CertPath(o.windows, cwd, "ca.cer"))
      && (AgentCertKey !in cfg ==> st.agentCert == CertPath(o.windows, cwd, "agent.cer"))
      && (CACertKey !in cfg && AgentCertKey !in cfg ==> st.caCert != st.agentCert)
  {
    var cwd := o.cwd.value;
    var p := if o.windows then WinJoin(cwd, "certificates\\") else UnixJoin(cwd, "certificates/");
    assert CertPath(o.windows, cwd, "ca.cer") == p + "ca.cer";
    assert CertPath(o.windows, cwd, "agent.cer") == p + "agent.cer";
    assert (p + "ca.cer")[|p|] != (p + "agent.cer")[|p|];
  }

  /** As written, a configuration without AgentCert and AgentKey entries makes
      the private key path the agent certificate's path. */
  lemma KeyFallsBackToCertificate(cfg: map<IniKey, string>, prev: Settings, o: ConfigOracle)
    requires ReadConfigSpec(cfg, prev, o).0 == ConfigRead
    requires AgentCertKey !in cfg && AgentKeyKey !in cfg
    ensures ReadConfigSpec(cfg, prev, o).1.agentKey == ReadConfigSpec(cfg, prev, o).1.agentCert
  {
  }

  /** With the intended fallback, the key and the certificate are different files. */
  lemma IntendedKeyFallbackIsSeparate(cfg: map<IniKey, string>, prev: Settings, o: ConfigOracle)
    requires ReadConfigIntendedSpec(cfg, prev, o).0 == ConfigRead
    requires AgentCertKey !in cfg && AgentKeyKey !in cfg
    ensures var st := ReadConfigIntendedSpec(cfg, prev, o).1;
      && st.agentKey == CertPath(o.windows, o.cwd.value, "agent.key")
      && st.agentKey != st.agentCert
  {
    var cwd := o.cwd.value;
    var p := if o.windows then WinJoin(cwd, "certificates\\") else UnixJoin(cwd, "certificates/");
    assert CertPath(o.windows, cwd, "agent.key") == p + "agent.key";
    assert CertPath(o.windows, cwd, "agent.cer") == p + "agent.cer";
    assert (p + "agent.key")[|p| + 6] != (p + "agent.cer")[|p| + 6];
  }

  // ---------------------------------------------------------------------------
  // UpdaterService

  /** The fields of UpdaterService the model follows. */
  class UpdaterService {
    var agentId: string
    var natsServers: string
    var caCert: Path
    var agentCert: Path
    var agentKey: Path
    var connected: bool             // us.NATSConnection != nil
    var natsConnectJob: Option<JobId>
    var watchdogJob: Option<JobId>

    constructor ()
      ensures Fields() == Settings("", "", "", "", "")
      ensures Supervision() == Supervisor(false, None) && watchdogJob.None?
    {
      agentId, natsServers, caCert, agentCert, agentKey := "", "", "", "", "";
      connected, natsConnectJob, watchdogJob := false, None, None;
    }

    function Fields(): Settings
      reads this
    {
      Settings(agentId, natsServers, caCert, agentCert, agentKey)
    }

    function Supervision(): Supervisor
      reads this
    {
      Supervisor(connected, natsConnectJob)
    }

    /** ReadConfig: the fields as assigned up to the point where it returns or exits. */
    method ReadConfig(w: World, o: ConfigOracle) returns (res: ConfigResult)
      modifies this
      ensures (res, Fields()) == ReadConfigSpec(w.ini, old(Fields()), o)
      ensures Supervision() == old(Supervision()) && watchdogJob == old(watchdogJob)
    {
      var cfg := w.ini;
      if !o.loadOk || UuidKey !in cfg {
        return ConfigFailed;
      }
      agentId := cfg[UuidKey];
      if ServersKey !in cfg {
        return ConfigFailed;
      }
      natsServers := cfg[ServersKey];
      if o.cwd.None? {
        return Exit(NoWorkingDirectory);
      }
      res := ReadCertificates(cfg, o, o.cwd.value);
    }

    /** The Certificates section of ReadConfig, as written (the key falls back to agent.cer). */
    method ReadCertificates(cfg: map<IniKey, string>, o: ConfigOracle, cwd: Path) returns (res: ConfigResult)
      modifies this
      ensures (res, Fields()) == CertificatesSpec(cfg, old(Fields()), o, cwd, "agent.cer")
      ensures Supervision() == old(Supervision()) && watchdogJob == old(watchdogJob)
    {
      if CACertKey in cfg {
        caCert := cfg[CACertKey];
      } else {
        caCert := CertPath(o.windows, cwd, "ca.cer");
      }
      assert caCert == KeyOr(cfg, CACertKey, CertPath(o.windows, cwd, "ca.cer"));
      if !o.certReadable(caCert) {
        return Exit(CaUnreadable);
      }
      if AgentCertKey in cfg {
        agentCert := cfg[AgentCertKey];
      } else {
        agentCert := CertPath(o.windows, cwd, "agent.cer");
      }
      assert agentCert == KeyOr(cfg, AgentCertKey, CertPath(o.windows, cwd, "agent.cer"));
      if !o.certReadable(agentCert) {
        return Exit(CertificateUnreadable);
      }
      if AgentKeyKey in cfg {
        agentKey := cfg[AgentKeyKey];
      } else {
        agentKey := CertPath(o.windows, cwd, "agent.cer");
      }
      assert agentKey == KeyOr(cfg, AgentKeyKey, CertPath(o.windows, cwd, "agent.cer"));
      if !o.keyReadable(agentKey) {
        return Exit(KeyUnreadable);
      }
      return ConfigRead;
    }

    /** StartWatchdogJob: us.WatchdogJob is assigned the scheduler's answer, and
        a scheduler error is returned wrapped. */
    method StartWatchdogJob(w: World, err: Option<string>) returns (e: Option<string>)
      modifies this, w
      ensures w.View() == StartWatchdogJobSpec(old(w.View()), err)
      ensures watchdogJob == (if err.None? then Some(old(w.nextJob)) else None)
      ensures e == (if err.None? then None else Some(WatchdogJobError(err.value)))
      ensures Fields() == old(Fields()) && Supervision() == old(Supervision())
    {
      watchdogJob := w.NewJob(Every(WatchdogMinutes), RunWatchdog, err);
      if err.Some? {
        return Some(WatchdogJobError(err.value));
      }
      return None;
    }

    /** StartNATSConnectJob (internal/common/nats.go), with queueSubscribe's
        success given as subscribeOk. */
    method StartNATSConnectJob(w: World, connectOk: bool, subscribeOk: bool, jobErr: Option<string>) returns (e: Option<string>)
      modifies this, w
      ensures (w.View(), Supervision(), e) == StartSpec(old(w.View()), old(Supervision()), connectOk, subscribeOk, jobErr)
      ensures Fields() == old(Fields()) && watchdogJob == old(watchdogJob)
    {
      connected := w.CallNats(Connect(connectOk));
      if connected {
        var _ := w.CallNats(Subscribe(subscribeOk));
        return None;
      }
      natsConnectJob := w.NewJob(Every(RetryMinutes), RetryConnect, jobErr);
      if jobErr.Some? {
        return Some(ConnectJobError(jobErr.value));
      }
      return None;
    }

    /** One run of the NATS connect job's task. */
    method NATSConnectTick(w: World, io: TickIo)
      requires natsConnectJob.Some?
      modifies this, w
      ensures (w.View(), Supervision()) == TickSpec(old(w.View()), old(Supervision()), io)
      ensures Fields() == old(Fields()) && watchdogJob == old(watchdogJob)
    {
      ghost var s, sup := w.View(), Supervision();
      if !connected {
        connected := w.CallNats(Connect(io.connectOk));
        if !connected {
          return;
        }
      }
      ghost var c := w.View();
      assert (c, Supervision()) == Reconnect(s, sup, io.connectOk);
      var subscribed := w.CallNats(Subscribe(io.subscribeOk));
      if !subscribed {
        assert w.View() == Resubscribe(c, sup.connectJob.value, io);
        return;
      }
      var _ := w.RemoveJob(natsConnectJob.value, io.removeOk);
      assert w.View() == Resubscribe(c, sup.connectJob.value, io);
    }

    method JetStreamUpdaterHandler(w: World, msg: Msg, o: UpdateOracle)
      modifies w
      ensures w.View() == DispatchSpec(old(w.View()), agentId, msg, o)
    {
      if msg.subject == "agent.update." + agentId {
        UpdateHandler(w, msg.id, o.payload, o.handler, o.loadOk, o.saveOk);
      }
    }

    /** updateHandler, recording to the INI configuration. */
    method UpdateHandler(w: World, m: MsgId, p: Decoded<UpdateRequest>, o: HandlerOracle, loadOk: bool, saveOk: bool)
      modifies w
      ensures w.View() == HandleUpdateSpec(old(w.View()), m, p, o, IniFile(loadOk, saveOk))
    {
      if p.Undecodable? {
        NakAndSave(w, m, 60, UnmarshalError(p.reason), loadOk, saveOk, o.now);
        return;
      }
      ghost var s := w.View();
      var data := p.value;
      if data.updateAt.Instant? && data.updateAt.unix < o.now.unix {
        data := data.(updateNow := true);
      }
      assert data == EffectiveRequest(p.value, o.now);
      if data.updateNow || data.updateAt.Instant? {
        var schedule := if data.updateNow then Immediately else OnceAt(data.updateAt.unix);
        assert PlannedSchedule(data) == Some(schedule);
        var job := w.NewJob(schedule, RunUpdate(data, m), o.jobErr);
        if job.None? {
          NakAndSave(w, m, 60, ScheduleError(o.jobErr.value), loadOk, saveOk, o.now);
          return;
        }
        assert w.View() == AfterNewJob(s, schedule, RunUpdate(data, m), true);
      }
      ghost var scheduled := w.View();
      assert scheduled == if PlannedSchedule(data).Some? then AfterNewJob(s, PlannedSchedule(data).value, RunUpdate(data, m), true) else s;
      w.Send(m, Ack);
      if o.ackErr.Some? {
        SaveTaskInfoToINI(w, AckError(o.ackErr.value), loadOk, saveOk, o.now);
      }
      assert w.View() == AckOrRecord(scheduled, m, IniFile(loadOk, saveOk), o.ackErr, o.now);
    }
  }
}

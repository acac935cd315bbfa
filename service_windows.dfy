/**
 * The service/ revision of the Windows updater (service/windows.go): the
 * message dispatcher, the update handler writing its record to the registry,
 * the executable swap ExecuteUpdate run by the scheduled job, and the rollback.
 */
module ServiceWindows {
  import opened Env
  import opened UpdateTasks
  import opened WindowsAgent
  import opened ServiceMessenger
  import opened Scheduler

  // ---------------------------------------------------------------------------
  // JetStreamUpdaterHandler

  function UpdateSubject(agentId: string): string { "agentupdate." + agentId }
  const RollbackMessengerSubject := "agent.rollback.messenger"
  const UpdateMessengerSubject := "agent.update.messenger"
  const RollbackSubject := "agent.rollback"

  /** The subjects the updater stream is created with. */
  function RollbackMessengerStreamSubject(agentId: string): string { "agent.rollback.messenger." + agentId }
  function RollbackStreamSubject(agentId: string): string { "agent.rollback." + agentId }

  /** The answers for every handler a message may reach; the rollback-messenger
      handler can run twice on one message, with its own answers each time. */
  datatype DispatchOracle = DispatchOracle(
    payload: Decoded<UpdateRequest>,
    handler: HandlerOracle,
    hiveOk: bool,
    messenger: MessengerOracle,
    arch: string,
    compare: (string, string) -> int,
    firstRollback: MessengerRollbackOracle,
    secondRollback: MessengerRollbackOracle,
    agentRollback: RollbackOracle)

  /** The five subject tests of JetStreamUpdaterHandler, in order, as written. */
  function DispatchSpec(s: State, agentId: string, msg: Msg, o: DispatchOracle): State
  {
    var s1 := if msg.subject == UpdateSubject(agentId) then HandleUpdateSpec(s, msg.id, o.payload, o.handler, Registry(o.hiveOk)) else s;
    var s2 := if msg.subject == RollbackMessengerSubject then RollbackMessengerSpec(s1, msg.id, o.firstRollback) else s1;
    var s3 := if msg.subject == UpdateMessengerSubject then UpdateMessengerSpec(s2, o.messenger, o.arch, o.compare) else s2;
    var s4 := if msg.subject == RollbackMessengerSubject then RollbackMessengerSpec(s3, msg.id, o.secondRollback) else s3;
    if msg.subject == RollbackSubject then AgentRollbackSpec(s4, msg.id, o.agentRollback) else s4
  }

  /** The dispatcher with the repeated rollback-messenger test removed. */
  function DispatchOnceSpec(s: State, agentId: string, msg: Msg, o: DispatchOracle): State
  {
    var s1 := if msg.subject == UpdateSubject(agentId) then HandleUpdateSpec(s, msg.id, o.payload, o.handler, Registry(o.hiveOk)) else s;
    var s2 := if msg.subject == RollbackMessengerSubject then RollbackMessengerSpec(s1, msg.id, o.firstRollback) else s1;
    var s3 := if msg.subject == UpdateMessengerSubject then UpdateMessengerSpec(s2, o.messenger, o.arch, o.compare) else s2;
    if msg.subject == RollbackSubject then AgentRollbackSpec(s3, msg.id, o.agentRollback) else s3
  }

  /** No two of the subjects the dispatcher tests are equal. */
  lemma SubjectsDistinct(agentId: string)
    ensures UpdateSubject(agentId) != RollbackMessengerSubject
    ensures UpdateSubject(agentId) != UpdateMessengerSubject
    ensures UpdateSubject(agentId) != RollbackSubject
    ensures RollbackMessengerSubject != UpdateMessengerSubject
    ensures RollbackMessengerSubject != RollbackSubject
    ensures UpdateMessengerSubject != RollbackSubject
  {
    assert UpdateSubject(agentId)[5] == 'u';
    assert RollbackMessengerSubject[5] == '.' && UpdateMessengerSubject[5] == '.' && RollbackSubject[5] == '.';
    assert RollbackMessengerSubject[6] == 'r' && UpdateMessengerSubject[6] == 'u';
    assert |RollbackMessengerSubject| != |RollbackSubject|;
    assert UpdateMessengerSubject[6] != RollbackSubject[6];
  }

  /** An update message for this agent reaches the update handler and nothing else. */
  lemma UpdateSubjectReachesHandlerOnly(s: State, agentId: string, msg: Msg, o: DispatchOracle)
    requires msg.subject == UpdateSubject(agentId)
    ensures DispatchSpec(s, agentId, msg, o) == HandleUpdateSpec(s, msg.id, o.payload, o.handler, Registry(o.hiveOk))
  {
    SubjectsDistinct(agentId);
  }

  /** As written, a rollback-messenger message runs the rollback twice and is
      Acked twice. */
  lemma RollbackMessengerRunsTwice(s: State, agentId: string, msg: Msg, o: DispatchOracle)
    requires msg.subject == RollbackMessengerSubject
    ensures var r := DispatchSpec(s, agentId, msg, o);
      Outcomes(r.trace, msg.id) == Outcomes(s.trace, msg.id) + [Ack] + [Ack]
  {
    SubjectsDistinct(agentId);
    var s2 := RollbackMessengerSpec(s, msg.id, o.firstRollback);
    assert DispatchSpec(s, agentId, msg, o) == RollbackMessengerSpec(s2, msg.id, o.secondRollback);
  }

  /** Dispatching once, the rollback-messenger message is Acked once. */
  lemma RollbackMessengerRunsOnce(s: State, agentId: string, msg: Msg, o: DispatchOracle)
    requires msg.subject == RollbackMessengerSubject
    ensures var r := DispatchOnceSpec(s, agentId, msg, o);
      && r == RollbackMessengerSpec(s, msg.id, o.firstRollback)
      && Outcomes(r.trace, msg.id) == Outcomes(s.trace, msg.id) + [Ack]
  {
    SubjectsDistinct(agentId);
  }

  /** A messenger update message is never Acked, Naked or terminated. */
  lemma UpdateMessengerNeverSettles(s: State, agentId: string, msg: Msg, o: DispatchOracle)
    requires msg.subject == UpdateMessengerSubject
    ensures DispatchSpec(s, agentId, msg, o).trace == s.trace
  {
    SubjectsDistinct(agentId);
  }

  /** A subject none of the tests matches has no effect at all. */
  lemma OtherSubjectsIgnored(s: State, agentId: string, msg: Msg, o: DispatchOracle)
    requires msg.subject !in {UpdateSubject(agentId), RollbackMessengerSubject, UpdateMessengerSubject, RollbackSubject}
    ensures DispatchSpec(s, agentId, msg, o) == s
  {
  }

  lemma RollbackStreamSubjectInjective(a: string, b: string)
    ensures RollbackStreamSubject(a) == RollbackStreamSubject(b) ==> a == b
  {
    if RollbackStreamSubject(a) == RollbackStreamSubject(b) {
      assert a == RollbackStreamSubject(a)[15..];
      assert b == RollbackStreamSubject(b)[15..];
    }
  }

  /** Messages on the stream's two rollback subjects, which carry the agent
      identifier, match none of the tests (for an identifier other than "messenger"). */
  lemma StreamRollbackSubjectsIgnored(s: State, agentId: string, msg: Msg, o: DispatchOracle)
    requires agentId != "messenger"
    requires msg.subject == RollbackStreamSubject(agentId) || msg.subject == RollbackMessengerStreamSubject(agentId)
    ensures DispatchSpec(s, agentId, msg, o) == s
  {
    var sub := msg.subject;
    assert sub[5] == '.';
    assert sub != UpdateSubject(agentId) by { assert UpdateSubject(agentId)[5] == 'u'; }
    if sub == RollbackStreamSubject(agentId) {
      assert |sub| > |RollbackSubject|;
      assert sub != UpdateMessengerSubject by { assert sub[6] == 'r'; }
      assert RollbackMessengerSubject == RollbackStreamSubject("messenger");
      RollbackStreamSubjectInjective(agentId, "messenger");
    } else {
      assert |sub| > |RollbackMessengerSubject| && |sub| > |RollbackSubject|;
      assert sub != UpdateMessengerSubject by { assert sub[6] == 'r'; }
    }
  }

  /** The fields of UpdaterService this revision reads or sets. */
  class UpdaterService {
    var agentId: string
    var watchdogJob: Option<JobId>

    constructor (agentId: string)
      ensures this.agentId == agentId && watchdogJob.None?
    {
      this.agentId := agentId;
      watchdogJob := None;
    }

    /** StartWatchdogJob (service/watchdog.go): us.WatchdogJob is assigned the
        scheduler's answer, and a scheduler error is returned wrapped. */
    method StartWatchdogJob(w: World, err: Option<string>) returns (e: Option<string>)
      modifies this, w
      ensures w.View() == StartWatchdogJobSpec(old(w.View()), err)
      ensures watchdogJob == (if err.None? then Some(old(w.nextJob)) else None)
      ensures e == (if err.None? then None else Some(WatchdogJobError(err.value)))
      ensures agentId == old(agentId)
    {
      watchdogJob := w.NewJob(Every(WatchdogMinutes), RunWatchdog, err);
      if err.Some? {
        return Some(WatchdogJobError(err.value));
      }
      return None;
    }

    method JetStreamUpdaterHandler(w: World, msg: Msg, o: DispatchOracle)
      modifies w
      ensures w.View() == DispatchSpec(old(w.View()), agentId, msg, o)
    {
      if msg.subject == "agentupdate." + agentId {
        UpdateHandlerForWindows(w, msg.id, o.payload, o.handler, o.hiveOk);
      }
      if msg.subject == "agent.rollback.messenger" {
        RollbackMessengerHandler(w, msg.id, o.firstRollback);
      }
      if msg.subject == "agent.update.messenger" {
        UpdateMessengerHandler(w, o.messenger, o.arch, o.compare);
      }
      if msg.subject == "agent.rollback.messenger" {
        RollbackMessengerHandler(w, msg.id, o.secondRollback);
      }
      if msg.subject == "agent.rollback" {
        AgentRollback(w, msg.id, o.agentRollback);
      }
    }
  }

  // ---------------------------------------------------------------------------
  // SaveTaskInfoToRegistry and updateHandlerForWindows

  method SaveTaskInfoToRegistry(w: World, report: Report, hiveOk: bool, clock: Clock)
    modifies w
    ensures w.View() == SaveTaskInfo(old(w.View()), Registry(hiveOk), report, clock)
  {
    w.Record(report);
    // with the hive closed every SetStringValue fails
    w.SetRegistry(TimeName, RegString(clock.local), hiveOk);
    w.SetRegistry(StatusName, RegString(StatusText(report.status)), hiveOk);
    w.SetRegistry(ResultName, RegString(report.result), hiveOk);
  }

  /** msg.NakWithDelay followed by SaveTaskInfoToRegistry. */
  method NakAndSave(w: World, m: MsgId, minutes: nat, report: Report, hiveOk: bool, clock: Clock)
    modifies w
    ensures w.View() == NakAndRecord(old(w.View()), m, minutes, Registry(hiveOk), report, clock)
  {
    w.Send(m, NakDelay(minutes));
    SaveTaskInfoToRegistry(w, report, hiveOk, clock);
  }

  method UpdateHandlerForWindows(w: World, m: MsgId, p: Decoded<UpdateRequest>, o: HandlerOracle, hiveOk: bool)
    modifies w
    ensures w.View() == HandleUpdateSpec(old(w.View()), m, p, o, Registry(hiveOk))
  {
    if p.Undecodable? {
      NakAndSave(w, m, 60, UnmarshalError(p.reason), hiveOk, o.now);
      return;
    }
    ghost var s := w.View();
    var data := p.value;
    if data.updateAt.Instant? && data.updateAt.unix < o.now.unix {
      data := data.(updateNow := true);
    }
    assert data == EffectiveRequest(p.value, o.now);
    if data.updateNow || data.updateAt.Instant? {
      var schedule := if data.updateNow then Immediately else OnceAt(data.updateAt.unix);
      assert PlannedSchedule(data) == Some(schedule);
      var job := w.NewJob(schedule, RunUpdate(data, m), o.jobErr);
      if job.None? {
        NakAndSave(w, m, 60, ScheduleError(o.jobErr.value), hiveOk, o.now);
        return;
      }
      assert w.View() == AfterNewJob(s, schedule, RunUpdate(data, m), true);
    }
    ghost var scheduled := w.View();
    assert scheduled == if PlannedSchedule(data).Some? then AfterNewJob(s, PlannedSchedule(data).value, RunUpdate(data, m), true) else s;
    w.Send(m, Ack);
    if o.ackErr.Some? {
      SaveTaskInfoToRegistry(w, AckError(o.ackErr.value), hiveOk, o.now);
    }
    assert w.View() == AckOrRecord(scheduled, m, Registry(hiveOk), o.ackErr, o.now);
  }

  // ---------------------------------------------------------------------------
  // ExecuteUpdate

  /** The answers the outside world gives to one run of ExecuteUpdate. */
  datatype SwapOracle = SwapOracle(
    cwd: Option<Path>,  // openuem_utils.GetWd()
    fetch: Fetch,       // DownloadFile(data.DownloadFrom, updater\download.exe, data.DownloadHash)
    stopOk: bool,       // WindowsSvcControl(stop)
    backupOk: bool,     // os.Rename(agent, updater\rollback.exe), when the agent exists
    installOk: bool,    // os.Rename(download, agent)
    startOk: bool,      // the first WindowsStartService
    restoreOk: bool,    // the rename after a failed start
    retryOk: bool,      // the second WindowsStartService
    hiveOk: bool,       // registry.OpenKey in SaveTaskInfoToRegistry
    clock: Clock,       // time.Now()
    reason: string)     // the text of the error that ends the run, if one does

  const Installed := Report(UpdateSuccess, "OpenUEM Agent was installed and started")

  /** msg.NakWithDelay(minutes) and an error record. */
  function Fail(s: State, m: MsgId, minutes: nat, o: SwapOracle, text: string): (r: State)
    ensures r.files == s.files && r.running == s.running && r.jobs == s.jobs
    ensures Outcomes(r.trace, m) == Outcomes(s.trace, m) + [NakDelay(minutes)]
    ensures Reports(r.trace) == Reports(s.trace) + [Report(UpdateError, text)]
    ensures ServiceCalls(r.trace) == ServiceCalls(s.trace)
  {
    NakAndRecord(s, m, minutes, Registry(o.hiveOk), Report(UpdateError, text), o.clock)
  }

  /** The success record, and no outcome for the message. */
  function Succeed(s: State, m: MsgId, o: SwapOracle): (r: State)
    ensures r.files == s.files && r.running == s.running && r.jobs == s.jobs
    ensures Outcomes(r.trace, m) == Outcomes(s.trace, m)
    ensures Reports(r.trace) == Reports(s.trace) + [Installed]
    ensures ServiceCalls(r.trace) == ServiceCalls(s.trace)
  {
    SaveTaskInfo(s, Registry(o.hiveOk), Installed, o.clock)
  }

  /** The path the code renames onto the agent after a failed start. As written it
      is filepath.Join(cwd, "openuem-agent.exe"), the agent path itself; the
      evidently intended source is the rollback copy. */
  function RestoreSource(cwd: Path, fromRollback: bool): Path
  {
    if fromRollback then RollbackExe(cwd) else AgentExe(cwd)
  }

  /** The first start failed, a previous agent was found, and the restore rename succeeds. */
  predicate Restores(s: State, cwd: Path, o: SwapOracle, found: bool, fromRollback: bool)
  {
    !o.startOk && found && o.restoreOk && RestoreSource(cwd, fromRollback) in s.files
  }

  /** The service comes up, at the first start or at the retry. */
  predicate Starts(s: State, cwd: Path, o: SwapOracle, found: bool, fromRollback: bool)
  {
    o.startOk || (Restores(s, cwd, o, found, fromRollback) && o.retryOk)
  }

  /** From "Start service" on, the new executable being in place. */
  function StartPhase(s: State, m: MsgId, cwd: Path, o: SwapOracle, found: bool, fromRollback: bool): (r: State)
    ensures var restores := Restores(s, cwd, o, found, fromRollback);
      var starts := Starts(s, cwd, o, found, fromRollback);
      && Reports(r.trace) == Reports(s.trace) + [if starts then Installed else Report(UpdateError, o.reason)]
      && Outcomes(r.trace, m) == Outcomes(s.trace, m) + (if starts then [] else [NakDelay(15)])
      && ServiceCalls(r.trace) == ServiceCalls(s.trace) + [StartAgent(o.startOk)] +
           (if restores then [StartAgent(o.retryOk)] else [])
      && r.files == (if restores then Moved(s.files, RestoreSource(cwd, fromRollback), AgentExe(cwd)) else s.files)
      && r.running == (s.running || starts)
      && r.jobs == s.jobs
      && AgreeOutside(r.files, s.files, {AgentExe(cwd), RollbackExe(cwd)})
  {
    var started := AfterStart(s, o.startOk);
    if o.startOk then Succeed(started, m, o)
    else if !found then Fail(started, m, 15, o, o.reason)
    else
      var from := RestoreSource(cwd, fromRollback);
      if !(o.restoreOk && from in started.files) then Fail(started, m, 15, o, o.reason)
      else
        var restored := AfterRename(started, from, AgentExe(cwd), true);
        var retried := AfterStart(restored, o.retryOk);
        if o.retryOk then Succeed(retried, m, o) else Fail(retried, m, 15, o, o.reason)
  }

  /** The state once the previous agent, if any, has been moved to updater\rollback.exe. */
  function BackedUp(s: State, cwd: Path): (r: State)
    ensures r.trace == s.trace && r.running == s.running && r.jobs == s.jobs
    ensures AgreeOutside(r.files, s.files, {AgentExe(cwd), RollbackExe(cwd)})
    // a present agent is moved to the rollback path; an absent one leaves the files as they are
    ensures AgentExe(cwd) in s.files ==>
      && RollbackExe(cwd) in r.files && r.files[RollbackExe(cwd)] == s.files[AgentExe(cwd)]
      && AgentExe(cwd) !in r.files
    ensures AgentExe(cwd) !in s.files ==> r.files == s.files
  {
    LayoutDistinct(cwd);
    if AgentExe(cwd) in s.files then AfterRename(s, AgentExe(cwd), RollbackExe(cwd), true) else s
  }

  /** The file effect of the two renames, for any three distinct paths. */
  lemma SwapFiles(f: map<Path, Content>, agent: Path, rollback: Path, staged: Path)
    requires agent != rollback && agent != staged && rollback != staged
    ensures var g := if staged in (if agent in f then Moved(f, agent, rollback) else f)
                     then Moved(if agent in f then Moved(f, agent, rollback) else f, staged, agent)
                     else (if agent in f then Moved(f, agent, rollback) else f);
      && AgreeOutside(g, f, {staged, agent, rollback})
      && (staged in f ==>
            && agent in g && g[agent] == f[staged] && staged !in g
            && (agent in f ==> rollback in g && g[rollback] == f[agent]))
  {
  }

  /** The state after the stop and both renames succeeded. */
  function Swapped(s: State, cwd: Path, o: SwapOracle): (r: State)
    ensures forall m :: Outcomes(r.trace, m) == Outcomes(s.trace, m)
    ensures Reports(r.trace) == Reports(s.trace)
    ensures ServiceCalls(r.trace) == ServiceCalls(s.trace) + [StopAgent(o.stopOk)]
    ensures r.running == (s.running && !o.stopOk) && r.jobs == s.jobs
    ensures AgreeOutside(r.files, s.files, {StagedUpdate(cwd), AgentExe(cwd), RollbackExe(cwd)})
    ensures StagedUpdate(cwd) in s.files ==>
      && AgentExe(cwd) in r.files && r.files[AgentExe(cwd)] == s.files[StagedUpdate(cwd)]
      && StagedUpdate(cwd) !in r.files
      && (AgentExe(cwd) in s.files ==>
            RollbackExe(cwd) in r.files && r.files[RollbackExe(cwd)] == s.files[AgentExe(cwd)])
  {
    LayoutDistinct(cwd);
    SwapFiles(s.files, AgentExe(cwd), RollbackExe(cwd), StagedUpdate(cwd));
    AfterRename(BackedUp(AfterStop(s, o.stopOk), cwd), StagedUpdate(cwd), AgentExe(cwd), true)
  }

  /** The previous agent, if any, is backed up and the download moved in its place. */
  predicate Installs(s: State, cwd: Path, o: SwapOracle)
  {
    (AgentExe(cwd) in s.files ==> o.backupOk) && o.installOk && StagedUpdate(cwd) in s.files
  }

  /** A failed backup or install rename after the stop: Nak 60 and the error record. */
  function SwapFailed(s: State, m: MsgId, cwd: Path, o: SwapOracle): (r: State)
    requires !Installs(s, cwd, o)
    ensures Outcomes(r.trace, m) == Outcomes(s.trace, m) + [NakDelay(60)]
    ensures Reports(r.trace) == Reports(s.trace) + [Report(UpdateError, o.reason)]
    ensures ServiceCalls(r.trace) == ServiceCalls(s.trace) + [StopAgent(o.stopOk)]
    ensures AgreeOutside(r.files, s.files, {StagedUpdate(cwd), AgentExe(cwd), RollbackExe(cwd)})
  {
    var stopped := AfterStop(s, o.stopOk);
    if AgentExe(cwd) in stopped.files && !o.backupOk then Fail(stopped, m, 60, o, o.reason)
    else Fail(BackedUp(stopped, cwd), m, 60, o, o.reason)
  }

  /** From "Stop service" on, the download being verified. */
  function SwapPhase(s: State, m: MsgId, cwd: Path, o: SwapOracle, fromRollback: bool): (r: State)
    ensures !Installs(s, cwd, o) ==> r == SwapFailed(s, m, cwd, o)
    ensures Installs(s, cwd, o) ==>
      r == StartPhase(Swapped(s, cwd, o), m, cwd, o, AgentExe(cwd) in s.files, fromRollback)
    ensures AgreeOutside(r.files, s.files, {StagedUpdate(cwd), AgentExe(cwd), RollbackExe(cwd)})
  {
    LayoutDistinct(cwd);
    if !Installs(s, cwd, o) then SwapFailed(s, m, cwd, o)
    else StartPhase(Swapped(s, cwd, o), m, cwd, o, AgentExe(cwd) in s.files, fromRollback)
  }

  function ExecuteUpdateWith(s: State, m: MsgId, o: SwapOracle, fromRollback: bool): (r: State)
  {
    if o.cwd.None? then Fail(s, m, 60, o, "could not get working directory, reason " + o.reason)
    else
      var cwd := o.cwd.value;
      var downloaded := AfterDownload(s, StagedUpdate(cwd), o.fetch);
      if !o.fetch.Fetched? then Fail(downloaded, m, 60, o, "could not download update to directory, reason " + o.reason + "\n")
      else SwapPhase(downloaded, m, cwd, o, fromRollback)
  }

  /** ExecuteUpdate as written, for the update requested by message m. */
  function ExecuteUpdateSpec(s: State, m: MsgId, o: SwapOracle): State
  {
    ExecuteUpdateWith(s, m, o, false)
  }

  /** ExecuteUpdate with the restore taken from updater\rollback.exe. */
  function ExecuteUpdateRestoringSpec(s: State, m: MsgId, o: SwapOracle): State
  {
    ExecuteUpdateWith(s, m, o, true)
  }

  /** The download leaves the agent and the rollback file as they were. */
  lemma DownloadKeepsLayout(s: State, cwd: Path, o: SwapOracle)
    requires o.fetch.Fetched?
    ensures var d := AfterDownload(s, StagedUpdate(cwd), o.fetch);
      && StagedUpdate(cwd) in d.files && d.files[StagedUpdate(cwd)] == o.fetch.content
      && (AgentExe(cwd) in d.files <==> AgentExe(cwd) in s.files)
      && (AgentExe(cwd) in s.files ==> d.files[AgentExe(cwd)] == s.files[AgentExe(cwd)])
      && (RollbackExe(cwd) in d.files <==> RollbackExe(cwd) in s.files)
  {
    LayoutDistinct(cwd);
  }

  /** Without a working directory or a verified download: Nak 60, an error record,
      no service call, and no file touched but the staging file. */
  lemma ExecuteUpdateEarlyFailure(s: State, m: MsgId, o: SwapOracle, fromRollback: bool)
    requires o.cwd.None? || !o.fetch.Fetched?
    ensures var r := ExecuteUpdateWith(s, m, o, fromRollback);
      && Outcomes(r.trace, m) == Outcomes(s.trace, m) + [NakDelay(60)]
      && |Reports(r.trace)| == |Reports(s.trace)| + 1 && Reports(r.trace)[|Reports(s.trace)|].status == UpdateError
      && ServiceCalls(r.trace) == ServiceCalls(s.trace) && r.running == s.running
      && (o.cwd.None? ==> r.files == s.files)
      && (o.cwd.Some? ==> AgreeOutside(r.files, s.files, {StagedUpdate(o.cwd.value)}))
  {
  }

  /** After a verified download: a stop (whatever its outcome), then the backup
      rename if the agent exists; a failure of either rename is Nak 60 with no
      start attempted. */
  lemma ExecuteUpdateRenameFailure(s: State, m: MsgId, o: SwapOracle, fromRollback: bool)
    requires o.cwd.Some? && o.fetch.Fetched?
    requires (AgentExe(o.cwd.value) in s.files && !o.backupOk) || !o.installOk
    ensures var r := ExecuteUpdateWith(s, m, o, fromRollback);
      && Outcomes(r.trace, m) == Outcomes(s.trace, m) + [NakDelay(60)]
      && ServiceCalls(r.trace) == ServiceCalls(s.trace) + [StopAgent(o.stopOk)]
      && Reports(r.trace) == Reports(s.trace) + [Report(UpdateError, o.reason)]
  {
    DownloadKeepsLayout(s, o.cwd.value, o);
  }

  /** A first start that succeeds: only the success record, no Ack or Nak from the
      job; the new build is at the agent path and the old one is kept as the
      rollback file. */
  lemma ExecuteUpdateSuccess(s: State, m: MsgId, o: SwapOracle, fromRollback: bool)
    requires o.cwd.Some? && o.fetch.Fetched? && o.installOk && o.startOk
    requires AgentExe(o.cwd.value) in s.files ==> o.backupOk
    ensures var r := ExecuteUpdateWith(s, m, o, fromRollback);
      var cwd := o.cwd.value;
      && Outcomes(r.trace, m) == Outcomes(s.trace, m)
      && Reports(r.trace) == Reports(s.trace) + [Installed]
      && ServiceCalls(r.trace) == ServiceCalls(s.trace) + [StopAgent(o.stopOk), StartAgent(true)]
      && r.running
      && AgentExe(cwd) in r.files && r.files[AgentExe(cwd)] == o.fetch.content
      && StagedUpdate(cwd) !in r.files
      && (AgentExe(cwd) in s.files ==> RollbackExe(cwd) in r.files && r.files[RollbackExe(cwd)] == s.files[AgentExe(cwd)])
  {
    var cwd := o.cwd.value;
    DownloadKeepsLayout(s, cwd, o);
    var d := AfterDownload(s, StagedUpdate(cwd), o.fetch);
    assert Installs(d, cwd, o);
  }

  /** A failed start without a previous agent is Nak 15; nothing is retried. */
  lemma ExecuteUpdateFirstInstallFailure(s: State, m: MsgId, o: SwapOracle, fromRollback: bool)
    requires o.cwd.Some? && o.fetch.Fetched? && o.installOk && !o.startOk
    requires AgentExe(o.cwd.value) !in s.files
    ensures var r := ExecuteUpdateWith(s, m, o, fromRollback);
      && Outcomes(r.trace, m) == Outcomes(s.trace, m) + [NakDelay(15)]
      && ServiceCalls(r.trace) == ServiceCalls(s.trace) + [StopAgent(o.stopOk), StartAgent(false)]
      && Reports(r.trace) == Reports(s.trace) + [Report(UpdateError, o.reason)]
  {
    var cwd := o.cwd.value;
    DownloadKeepsLayout(s, cwd, o);
    var d := AfterDownload(s, StagedUpdate(cwd), o.fetch);
    assert Installs(d, cwd, o);
  }

  /** With a previous agent, a failed start leads to exactly one retry when the
      restore rename succeeds, and Nak 15 when the restore or the retry fails. */
  lemma ExecuteUpdateRetriesOnce(s: State, m: MsgId, o: SwapOracle, fromRollback: bool)
    requires o.cwd.Some? && o.fetch.Fetched? && o.backupOk && o.installOk && !o.startOk
    requires AgentExe(o.cwd.value) in s.files
    ensures var r := ExecuteUpdateWith(s, m, o, fromRollback);
      && ServiceCalls(r.trace) == ServiceCalls(s.trace) + [StopAgent(o.stopOk)] + [StartAgent(false)] +
           (if o.restoreOk then [StartAgent(o.retryOk)] else [])
      && (o.restoreOk && o.retryOk ==>
            Outcomes(r.trace, m) == Outcomes(s.trace, m) && Reports(r.trace) == Reports(s.trace) + [Installed])
      && (!(o.restoreOk && o.retryOk) ==>
            && Outcomes(r.trace, m) == Outcomes(s.trace, m) + [NakDelay(15)]
            && Reports(r.trace) == Reports(s.trace) + [Report(UpdateError, o.reason)])
  {
    var cwd := o.cwd.value;
    DownloadKeepsLayout(s, cwd, o);
    var d := AfterDownload(s, StagedUpdate(cwd), o.fetch);
    assert Installs(d, cwd, o);
    var t := Swapped(d, cwd, o);
    assert RestoreSource(cwd, fromRollback) in t.files;
    StartPhaseRetriesOnce(t, m, cwd, o, fromRollback);
  }

  /** The start phase after a failed first start, a previous agent having been found. */
  lemma StartPhaseRetriesOnce(t: State, m: MsgId, cwd: Path, o: SwapOracle, fromRollback: bool)
    requires !o.startOk && RestoreSource(cwd, fromRollback) in t.files
    ensures var r := StartPhase(t, m, cwd, o, true, fromRollback);
      && ServiceCalls(r.trace) == ServiceCalls(t.trace) + [StartAgent(false)] +
           (if o.restoreOk then [StartAgent(o.retryOk)] else [])
      && (o.restoreOk && o.retryOk ==>
            Outcomes(r.trace, m) == Outcomes(t.trace, m) && Reports(r.trace) == Reports(t.trace) + [Installed])
      && (!(o.restoreOk && o.retryOk) ==>
            && Outcomes(r.trace, m) == Outcomes(t.trace, m) + [NakDelay(15)]
            && Reports(r.trace) == Reports(t.trace) + [Report(UpdateError, o.reason)])
  {
    assert Restores(t, cwd, o, true, fromRollback) == o.restoreOk;
    if o.restoreOk {
      assert Starts(t, cwd, o, true, fromRollback) == o.retryOk;
    } else {
      assert !Starts(t, cwd, o, true, fromRollback);
    }
  }

  /** As written, the "rollback" after a failed start renames the agent onto itself:
      the retried service runs the new build that just failed, updater\rollback.exe
      still holds the old one, and a successful retry is recorded as an installed update. */
  lemma RestoreKeepsNewBuild(s: State, m: MsgId, o: SwapOracle)
    requires o.cwd.Some? && o.fetch.Fetched? && o.backupOk && o.installOk && !o.startOk && o.restoreOk
    requires AgentExe(o.cwd.value) in s.files
    ensures var r := ExecuteUpdateSpec(s, m, o);
      var cwd := o.cwd.value;
      && AgentExe(cwd) in r.files && r.files[AgentExe(cwd)] == o.fetch.content
      && RollbackExe(cwd) in r.files && r.files[RollbackExe(cwd)] == s.files[AgentExe(cwd)]
      && (o.retryOk ==> Reports(r.trace) == Reports(s.trace) + [Installed])
  {
    var cwd := o.cwd.value;
    DownloadKeepsLayout(s, cwd, o);
    var d := AfterDownload(s, StagedUpdate(cwd), o.fetch);
    assert Installs(d, cwd, o);
    var t := Swapped(d, cwd, o);
    assert Moved(t.files, AgentExe(cwd), AgentExe(cwd)) == t.files;
  }

  /** Restoring from updater\rollback.exe instead puts the previous agent back
      before the retry. */
  lemma RestoreRecoversPreviousAgent(s: State, m: MsgId, o: SwapOracle)
    requires o.cwd.Some? && o.fetch.Fetched? && o.backupOk && o.installOk && !o.startOk && o.restoreOk
    requires AgentExe(o.cwd.value) in s.files
    ensures var r := ExecuteUpdateRestoringSpec(s, m, o);
      var cwd := o.cwd.value;
      && AgentExe(cwd) in r.files && r.files[AgentExe(cwd)] == s.files[AgentExe(cwd)]
      && RollbackExe(cwd) !in r.files
  {
    var cwd := o.cwd.value;
    LayoutDistinct(cwd);
    DownloadKeepsLayout(s, cwd, o);
    var d := AfterDownload(s, StagedUpdate(cwd), o.fetch);
    assert Installs(d, cwd, o);
  }

  /** Every run records exactly once; it sends no outcome exactly when it records
      the success, and otherwise one Nak of 60 or 15 minutes. */
  lemma ExecuteUpdateOutcomeDiscipline(s: State, m: MsgId, o: SwapOracle, fromRollback: bool)
    ensures var r := ExecuteUpdateWith(s, m, o, fromRollback);
      && |Reports(r.trace)| == |Reports(s.trace)| + 1
      && Reports(r.trace)[..|Reports(s.trace)|] == Reports(s.trace)
      && var rep := Reports(r.trace)[|Reports(s.trace)|];
      && (rep == Installed ==> Outcomes(r.trace, m) == Outcomes(s.trace, m))
      && (rep != Installed ==>
            && rep.status == UpdateError
            && (Outcomes(r.trace, m) == Outcomes(s.trace, m) + [NakDelay(60)] ||
                Outcomes(r.trace, m) == Outcomes(s.trace, m) + [NakDelay(15)]))
  {
    if o.cwd.Some? && o.fetch.Fetched? {
      var cwd := o.cwd.value;
      var d := AfterDownload(s, StagedUpdate(cwd), o.fetch);
      if Installs(d, cwd, o) {
        var t := Swapped(d, cwd, o);
        assert Reports(t.trace) == Reports(s.trace);
      }
    }
  }

  /** Only the staging file, the agent and the rollback file are ever touched. */
  lemma ExecuteUpdateFootprint(s: State, m: MsgId, o: SwapOracle, fromRollback: bool)
    requires o.cwd.Some?
    ensures var r := ExecuteUpdateWith(s, m, o, fromRollback);
      var cwd := o.cwd.value;
      AgreeOutside(r.files, s.files, {StagedUpdate(cwd), AgentExe(cwd), RollbackExe(cwd)})
  {
  }

  /** The handler has already Acked when the job it scheduled fails its download:
      the message ends up with an Ack followed by a Nak. */
  lemma AckThenNak(s: State, m: MsgId, req: UpdateRequest, ho: HandlerOracle, hiveOk: bool, o: SwapOracle)
    requires req.updateNow && ho.jobErr.None?
    requires o.cwd.None? || !o.fetch.Fetched?
    ensures var handled := HandleUpdateSpec(s, m, Decoded(req), ho, Registry(hiveOk));
      && handled.jobs == s.jobs + [Job(s.nextJob, Immediately, RunUpdate(req, m))]
      && Outcomes(ExecuteUpdateSpec(handled, m, o).trace, m) == Outcomes(s.trace, m) + [Ack] + [NakDelay(60)]
  {
    var handled := HandleUpdateSpec(s, m, Decoded(req), ho, Registry(hiveOk));
    assert req.(updateNow := true) == req;
    assert Outcomes(handled.trace, m) == Outcomes(s.trace, m) + [Ack];
    ExecuteUpdateEarlyFailure(handled, m, o, false);
    var r := ExecuteUpdateSpec(handled, m, o);
    assert Outcomes(r.trace, m) == Outcomes(handled.trace, m) + [NakDelay(60)];
  }

  method Nak(w: World, m: MsgId, minutes: nat, o: SwapOracle, text: string)
    modifies w
    ensures w.View() == Fail(old(w.View()), m, minutes, o, text)
  {
    w.Send(m, NakDelay(minutes));
    SaveTaskInfoToRegistry(w, Report(UpdateError, text), o.hiveOk, o.clock);
  }

  /** From "Start service" on: one start, and after a failure with a previous
      agent the restore rename and one more start. */
  method StartOrRestore(w: World, m: MsgId, cwd: Path, o: SwapOracle, agentWasFound: bool)
    modifies w
    ensures w.View() == StartPhase(old(w.View()), m, cwd, o, agentWasFound, false)
  {
    var started := w.Start(o.startOk);
    if !started {
      if agentWasFound {
        var rollbackPath := WinJoin(cwd, "openuem-agent.exe");
        assert rollbackPath == RestoreSource(cwd, false);
        var restored := w.Rename(rollbackPath, AgentExe(cwd), o.restoreOk);
        if !restored {
          Nak(w, m, 15, o, o.reason);
          return;
        }
        var restarted := w.Start(o.retryOk);
        if !restarted {
          Nak(w, m, 15, o, o.reason);
          return;
        }
      } else {
        Nak(w, m, 15, o, o.reason);
        return;
      }
    }
    SaveTaskInfoToRegistry(w, Installed, o.hiveOk, o.clock);
  }

  /** ExecuteUpdate(data, msg); data is used only through the download outcome. */
  method ExecuteUpdate(w: World, data: UpdateRequest, m: MsgId, o: SwapOracle)
    modifies w
    ensures w.View() == ExecuteUpdateSpec(old(w.View()), m, o)
  {
    if o.cwd.None? {
      Nak(w, m, 60, o, "could not get working directory, reason " + o.reason);
      return;
    }
    var cwd := o.cwd.value;
    var downloadPath := StagedUpdate(cwd);
    var downloaded := w.Download(downloadPath, o.fetch);
    if !downloaded {
      Nak(w, m, 60, o, "could not download update to directory, reason " + o.reason + "\n");
      return;
    }
    SwapAndStart(w, m, cwd, o);
  }

  /** From "Stop service" on, the download being in place. */
  method SwapAndStart(w: World, m: MsgId, cwd: Path, o: SwapOracle)
    modifies w
    ensures w.View() == SwapPhase(old(w.View()), m, cwd, o, false)
  {
    var downloadPath := StagedUpdate(cwd);
    ghost var d := w.View();
    LayoutDistinct(cwd);
    var _ := w.Stop(o.stopOk);
    ghost var stopped := w.View();
    var agentPath := AgentExe(cwd);
    var agentWasFound := w.Exists(agentPath);
    if agentWasFound {
      var backedUp := w.Rename(agentPath, RollbackExe(cwd), o.backupOk);
      if !backedUp {
        assert !Installs(d, cwd, o);
        Nak(w, m, 60, o, o.reason);
        assert w.View() == SwapFailed(d, m, cwd, o);
        return;
      }
    }
    assert w.View() == BackedUp(stopped, cwd);
    assert (downloadPath in w.files) == (downloadPath in d.files);
    var installed := w.Rename(downloadPath, agentPath, o.installOk);
    if !installed {
      assert !Installs(d, cwd, o);
      Nak(w, m, 60, o, o.reason);
      assert w.View() == SwapFailed(d, m, cwd, o);
      return;
    }
    assert Installs(d, cwd, o);
    assert w.View() == Swapped(d, cwd, o);
    StartOrRestore(w, m, cwd, o, agentWasFound);
  }

  method AgentRollback(w: World, m: MsgId, o: RollbackOracle)
    modifies w
    ensures w.View() == AgentRollbackSpec(old(w.View()), m, o)
  {
    if o.cwd.None? {
      w.Send(m, Ack);
      return;
    }
    var cwd := o.cwd.value;
    var rollbackPath := RollbackExe(cwd);
    var agentPath := AgentExe(cwd);
    if !w.Exists(rollbackPath) {
      w.Send(m, Ack);
      return;
    }
    var _ := w.Stop(o.stopOk);
    var renamed := w.Rename(rollbackPath, agentPath, o.renameOk);
    if !renamed {
      w.Send(m, Ack);
      return;
    }
    var started := w.Start(o.startOk);
    if !started {
      w.Send(m, Ack);
      return;
    }
    w.Send(m, Ack);
  }
}

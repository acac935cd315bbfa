/**
 * The internal/common/ revision of the Windows updater
 * (internal/common/windows.go): the dispatcher and update handler recording to
 * the INI configuration, and an ExecuteUpdate that no longer swaps
 * executables itself but downloads the agent installer, records success,
 * Acks and launches the installer.
 */
module CommonWindows {
  import opened Env
  import opened UpdateTasks
  import opened WindowsAgent
  import opened CommonService

  // ---------------------------------------------------------------------------
  // JetStreamUpdaterHandler, updateHandlerForWindows, SaveTaskInfoToINI

  /** JetStreamUpdaterHandler: only "agent.update.<AgentId>" reaches the handler. */
  method JetStreamUpdaterHandler(us: UpdaterService, w: World, msg: Msg, o: UpdateOracle)
    modifies w
    ensures w.View() == DispatchSpec(old(w.View()), us.agentId, msg, o)
  {
    if msg.subject == "agent.update." + us.agentId {
      UpdateHandlerForWindows(w, msg.id, o.payload, o.handler, o.loadOk, o.saveOk);
    }
  }

  /** SaveTaskInfoToINI of this file, on the configuration GetConfigFile names. */
  method SaveTaskInfoToINI(w: World, report: Report, loadOk: bool, saveOk: bool, clock: Clock)
    modifies w
    ensures w.View() == SaveTaskInfo(old(w.View()), IniFile(loadOk, saveOk), report, clock)
  {
    w.Record(report);
    if !loadOk {
      return;
    }
    var cfg := w.ini;
    cfg := cfg[AgentKey(TimeName) := clock.local];
    cfg := cfg[AgentKey(StatusName) := StatusText(report.status)];
    cfg := cfg[AgentKey(ResultName) := report.result];
    w.SaveIni(cfg, saveOk);
  }

  method NakAndSave(w: World, m: MsgId, minutes: nat, report: Report, loadOk: bool, saveOk: bool, clock: Clock)
    modifies w
    ensures w.View() == NakAndRecord(old(w.View()), m, minutes, IniFile(loadOk, saveOk), report, clock)
  {
    w.Send(m, NakDelay(minutes));
    SaveTaskInfoToINI(w, report, loadOk, saveOk, clock);
  }

  method UpdateHandlerForWindows(w: World, m: MsgId, p: Decoded<UpdateRequest>, o: HandlerOracle, loadOk: bool, saveOk: bool)
    modifies w
    ensures w.View() == HandleUpdateSpec(old(w.View()), m, p, o, IniFile(loadOk, saveOk))
  {
    if p.Undecodable? {
      NakAndSave(w, m, 60, UnmarshalError(p.reason), loadOk, saveOk, o.now);
      return;
    }
    ghost var s := w.View();
    var data := p.value;
    if data.updateAt.Instant? && data.updateAt.unix < o.now.unix {
      data := data.(updateNow := true);
    }
    assert data == EffectiveRequest(p.value, o.now);
    if data.updateNow || data.updateAt.Instant? {
      var schedule := if data.updateNow then Immediately else OnceAt(data.updateAt.unix);
      assert PlannedSchedule(data) == Some(schedule);
      var job := w.NewJob(schedule, RunUpdate(data, m), o.jobErr);
      if job.None? {
        NakAndSave(w, m, 60, ScheduleError(o.jobErr.value), loadOk, saveOk, o.now);
        return;
      }
      assert w.View() == AfterNewJob(s, schedule, RunUpdate(data, m), true);
    }
    ghost var scheduled := w.View();
    assert scheduled == if PlannedSchedule(data).Some? then AfterNewJob(s, PlannedSchedule(data).value, RunUpdate(data, m), true) else s;
    w.Send(m, Ack);
    if o.ackErr.Some? {
      SaveTaskInfoToINI(w, AckError(o.ackErr.value), loadOk, saveOk, o.now);
    }
    assert w.View() == AckOrRecord(scheduled, m, IniFile(loadOk, saveOk), o.ackErr, o.now);
  }

  // ---------------------------------------------------------------------------
  // ExecuteUpdate: the installer variant

  /** filepath.Join(cwd, "certificates", "download.exe"). */
  function InstallerPath(cwd: Path): Path { WinJoin(cwd, "certificates\\download.exe") }

  /** exec.Command(downloadPath, "/VERYSILENT"). */
  function InstallerCommand(cwd: Path): seq<string> { [InstallerPath(cwd), "/VERYSILENT"] }

  /** The answers the outside world gives to one run of ExecuteUpdate. */
  datatype InstallOracle = InstallOracle(
    cwd: Option<Path>,  // openuem_utils.GetWd()
    fetch: Fetch,       // DownloadFile(data.DownloadFrom, downloadPath, data.DownloadHash)
    stopOk: bool,       // WindowsSvcControl(stop)
    loadOk: bool,       // ini.Load in SaveTaskInfoToINI
    saveOk: bool,       // cfg.SaveTo in SaveTaskInfoToINI
    launchOk: bool,     // cmd.Start() of the installer
    clock: Clock,       // time.Now()
    reason: string)     // the text of the error that ends the run, if one does

  const UpdateCalled := Report(UpdateSuccess, "")

  function CwdError(reason: string): Report
  {
    Report(UpdateError, "could not get working directory, reason " + reason)
  }

  function DownloadError(reason: string): Report
  {
    Report(UpdateError, "could not download update to directory, reason " + reason + "\n")
  }

  /** After a verified download: stop (only logged), record success, Ack, launch. */
  function InstallPhase(s: State, m: MsgId, cwd: Path, o: InstallOracle): (r: State)
    ensures r.trace == s.trace + [Service(StopAgent(o.stopOk))] + [Recorded(UpdateCalled)] + [Sent(m, Ack)] +
      [Launched(Launch(InstallerCommand(cwd), o.launchOk))]
    ensures r.files == s.files && r.running == (s.running && !o.stopOk) && r.jobs == s.jobs
    ensures Outcomes(r.trace, m) == Outcomes(s.trace, m) + [Ack]
    ensures Reports(r.trace) == Reports(s.trace) + [UpdateCalled]
    ensures ServiceCalls(r.trace) == ServiceCalls(s.trace) + [StopAgent(o.stopOk)]
    ensures Launches(r.trace) == Launches(s.trace) + [Launch(InstallerCommand(cwd), o.launchOk)]
    ensures r.ini == SaveTaskInfo(s, IniFile(o.loadOk, o.saveOk), UpdateCalled, o.clock).ini
  {
    var stopped := AfterStop(s, o.stopOk);
    var recorded := SaveTaskInfo(stopped, IniFile(o.loadOk, o.saveOk), UpdateCalled, o.clock);
    var acked := Logged(recorded, Sent(m, Ack));
    Logged(acked, Launched(Launch(InstallerCommand(cwd), o.launchOk)))
  }

  /** ExecuteUpdate on message m. */
  function InstallUpdateSpec(s: State, m: MsgId, o: InstallOracle): (r: State)
    ensures r.jobs == s.jobs && r.registry == s.registry
    // no working directory: Nak 60 and an error record, nothing else
    ensures o.cwd.None? ==>
      && r.files == s.files && r.running == s.running
      && Outcomes(r.trace, m) == Outcomes(s.trace, m) + [NakDelay(60)]
      && Reports(r.trace) == Reports(s.trace) + [CwdError(o.reason)]
      && ServiceCalls(r.trace) == ServiceCalls(s.trace) && Launches(r.trace) == Launches(s.trace)
    // a failed download: Nak 60 and an error record; no stop, no launch, only the download path touched
    ensures o.cwd.Some? && !o.fetch.Fetched? ==>
      && AgreeOutside(r.files, s.files, {InstallerPath(o.cwd.value)}) && r.running == s.running
      && Outcomes(r.trace, m) == Outcomes(s.trace, m) + [NakDelay(60)]
      && Reports(r.trace) == Reports(s.trace) + [DownloadError(o.reason)]
      && ServiceCalls(r.trace) == ServiceCalls(s.trace) && Launches(r.trace) == Launches(s.trace)
    // a verified download: the installer is in place and the fixed sequence follows
    ensures o.cwd.Some? && o.fetch.Fetched? ==>
      && r.files == s.files[InstallerPath(o.cwd.value) := o.fetch.content]
      && r == InstallPhase(AfterDownload(s, InstallerPath(o.cwd.value), o.fetch), m, o.cwd.value, o)
  {
    if o.cwd.None? then
      NakAndRecord(s, m, 60, IniFile(o.loadOk, o.saveOk), CwdError(o.reason), o.clock)
    else
      var cwd := o.cwd.value;
      var downloaded := AfterDownload(s, InstallerPath(cwd), o.fetch);
      if !o.fetch.Fetched? then
        NakAndRecord(downloaded, m, 60, IniFile(o.loadOk, o.saveOk), DownloadError(o.reason), o.clock)
      else
        InstallPhase(downloaded, m, cwd, o)
  }

  /** Every run settles its message exactly once: Nak 60 before a verified
      download, Ack after it; and it writes exactly one record. */
  lemma InstallSettlesOnce(s: State, m: MsgId, o: InstallOracle)
    ensures var r := InstallUpdateSpec(s, m, o);
      && Outcomes(r.trace, m) == Outcomes(s.trace, m) + [if o.cwd.Some? && o.fetch.Fetched? then Ack else NakDelay(60)]
      && |Reports(r.trace)| == |Reports(s.trace)| + 1
  {
  }

  /** Whether the installer could be started changes neither the record, nor
      the message outcome, nor the files or the configuration. */
  lemma LaunchFailureIsSilent(s: State, m: MsgId, o: InstallOracle)
    ensures var good := InstallUpdateSpec(s, m, o.(launchOk := true));
      var bad := InstallUpdateSpec(s, m, o.(launchOk := false));
      && Outcomes(good.trace, m) == Outcomes(bad.trace, m)
      && Reports(good.trace) == Reports(bad.trace)
      && good.files == bad.files && good.ini == bad.ini && good.running == bad.running
  {
    if o.cwd.Some? && o.fetch.Fetched? {
      var d := AfterDownload(s, InstallerPath(o.cwd.value), o.fetch);
      var good := InstallPhase(d, m, o.cwd.value, o.(launchOk := true));
      var bad := InstallPhase(d, m, o.cwd.value, o.(launchOk := false));
      assert Outcomes(good.trace, m) == Outcomes(d.trace, m) + [Ack] == Outcomes(bad.trace, m);
    }
  }

  /** The success record and the Ack are both in the trace before the installer
      is launched: the record claims success before anything is installed. */
  lemma SuccessRecordedBeforeLaunch(s: State, m: MsgId, o: InstallOracle)
    requires o.cwd.Some? && o.fetch.Fetched?
    ensures var r := InstallUpdateSpec(s, m, o);
      var n := |s.trace|;
      && |r.trace| == n + 4
      && r.trace[n + 1] == Recorded(Report(UpdateSuccess, ""))
      && r.trace[n + 2] == Sent(m, Ack)
      && r.trace[n + 3].Launched? && r.trace[n + 3].launch.argv == InstallerCommand(o.cwd.value)
  {
    var d := AfterDownload(s, InstallerPath(o.cwd.value), o.fetch);
    assert d.trace == s.trace;
  }

  method ExecuteUpdate(w: World, m: MsgId, o: InstallOracle)
    modifies w
    ensures w.View() == InstallUpdateSpec(old(w.View()), m, o)
  {
    if o.cwd.None? {
      NakAndSave(w, m, 60, CwdError(o.reason), o.loadOk, o.saveOk, o.clock);
      return;
    }
    var cwd := o.cwd.value;
    var downloadPath := InstallerPath(cwd);
    var fetched := w.Download(downloadPath, o.fetch);
    if !fetched {
      NakAndSave(w, m, 60, DownloadError(o.reason), o.loadOk, o.saveOk, o.clock);
      return;
    }
    Install(w, m, cwd, o);
  }

  /** From "Stop service" on. */
  method Install(w: World, m: MsgId, cwd: Path, o: InstallOracle)
    modifies w
    ensures w.View() == InstallPhase(old(w.View()), m, cwd, o)
  {
    var _ := w.Stop(o.stopOk);
    SaveTaskInfoToINI(w, UpdateCalled, o.loadOk, o.saveOk, o.clock);
    w.Send(m, Ack);
    var _ := w.Exec([InstallerPath(cwd), "/VERYSILENT"], o.launchOk);
  }

  // ---------------------------------------------------------------------------
  // AgentRollback: line for line the service/ revision's protocol

  method AgentRollback(w: World, m: MsgId, o: RollbackOracle)
    modifies w
    ensures w.View() == AgentRollbackSpec(old(w.View()), m, o)
  {
    if o.cwd.None? {
      w.Send(m, Ack);
      return;
    }
    var cwd := o.cwd.value;
    var rollbackPath := RollbackExe(cwd);
    var agentPath := AgentExe(cwd);
    if !w.Exists(rollbackPath) {
      w.Send(m, Ack);
      return;
    }
    var _ := w.Stop(o.stopOk);
    var renamed := w.Rename(rollbackPath, agentPath, o.renameOk);
    if !renamed {
      w.Send(m, Ack);
      return;
    }
    var started := w.Start(o.startOk);
    if !started {
      w.Send(m, Ack);
      return;
    }
    w.Send(m, Ack);
  }
}

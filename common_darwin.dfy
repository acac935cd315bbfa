/**
 * The macOS updater of the internal/common/ revision (internal/common/darwin.go):
 * an ExecuteUpdate that downloads the agent package, stops the agent, records
 * success, Acks and hands the package to installer(8), and an UninstallAgent
 * that schedules the agent's uninstall script with at(1).
 */
module CommonDarwin {
  import opened Env
  import opened UpdateTasks
  import opened CommonService
  import CommonLinux

  // ---------------------------------------------------------------------------
  // ExecuteUpdate

  /** filepath.Join(cwd, "updates", "agent.pkg"). */
  function PackagePath(cwd: Path): Path { UnixJoin(cwd, "updates/agent.pkg") }

  const InstallPrefix := "installer -pkg "
  const InstallSuffix := " -target /;launchctl kickstart -k -p system/eu.openuem.openuem-agent;launchctl kickstart -k -p system/eu.openuem.openuem-agent-updater"

  /** The shell line that installs the package and restarts both daemons. */
  function InstallScript(pkg: Path): string { InstallPrefix + pkg + InstallSuffix }

  /** exec.Command("bash", "-c", installCmd). */
  function InstallCommand(pkg: Path): seq<string> { ["bash", "-c", InstallScript(pkg)] }

  /** The package path can be read back out of the install line, so distinct
      packages give distinct commands. */
  lemma InstallScriptCarriesPackage(pkg: Path, other: Path)
    ensures var line := InstallScript(pkg);
      && line[..|InstallPrefix|] == InstallPrefix
      && line[|InstallPrefix|..|InstallPrefix| + |pkg|] == pkg
      && line[|InstallPrefix| + |pkg|..] == InstallSuffix
    ensures InstallCommand(pkg) == InstallCommand(other) ==> pkg == other
  {
    var line := InstallScript(pkg);
    assert line == InstallPrefix + pkg + InstallSuffix;
    assert line[|InstallPrefix|..|InstallPrefix| + |pkg|] == pkg;
    if InstallCommand(pkg) == InstallCommand(other) {
      var line2 := InstallScript(other);
      assert line2 == line;
      assert |other| == |pkg|;
      assert line2[|InstallPrefix|..|InstallPrefix| + |other|] == other;
    }
  }

  /** The answers the outside world gives to one run of ExecuteUpdate. */
  datatype DarwinOracle = DarwinOracle(
    cwd: Option<Path>,  // openuem_utils.GetWd()
    fetch: Fetch,       // DownloadFile(data.DownloadFrom, downloadPath, data.DownloadHash)
    stopOk: bool,       // launchctl unload of the agent daemon
    loadOk: bool,       // ini.Load in SaveTaskInfoToINI
    saveOk: bool,       // cfg.SaveTo in SaveTaskInfoToINI
    launchOk: bool,     // Start() of the install line
    clock: Clock,       // time.Now()
    reason: string)     // the text of the error that ends the run, if one does

  const UpdateCalled := Report(UpdateSuccess, "")

  function CwdError(reason: string): Report
  {
    Report(UpdateError, "could not get working directory, reason " + reason)
  }

  function DownloadError(reason: string): Report
  {
    Report(UpdateError, "could not download update to directory, reason " + reason + "\n")
  }

  /** After a verified download: stop (only logged), record success, Ack, install. */
  function InstallPhase(s: State, m: MsgId, pkg: Path, o: DarwinOracle): (r: State)
    ensures r.trace == s.trace + [Service(StopAgent(o.stopOk))] + [Recorded(UpdateCalled)] + [Sent(m, Ack)] +
      [Launched(Launch(InstallCommand(pkg), o.launchOk))]
    ensures r.files == s.files && r.running == (s.running && !o.stopOk) && r.jobs == s.jobs
    ensures Outcomes(r.trace, m) == Outcomes(s.trace, m) + [Ack]
    ensures Reports(r.trace) == Reports(s.trace) + [UpdateCalled]
    ensures ServiceCalls(r.trace) == ServiceCalls(s.trace) + [StopAgent(o.stopOk)]
    ensures Launches(r.trace) == Launches(s.trace) + [Launch(InstallCommand(pkg), o.launchOk)]
    ensures r.ini == SaveTaskInfo(s, IniFile(o.loadOk, o.saveOk), UpdateCalled, o.clock).ini
  {
    var stopped := AfterStop(s, o.stopOk);
    var recorded := SaveTaskInfo(stopped, IniFile(o.loadOk, o.saveOk), UpdateCalled, o.clock);
    var acked := Logged(recorded, Sent(m, Ack));
    Logged(acked, Launched(Launch(InstallCommand(pkg), o.launchOk)))
  }

  /** ExecuteUpdate on message m. */
  function DarwinUpdateSpec(s: State, m: MsgId, o: DarwinOracle): (r: State)
    ensures r.jobs == s.jobs && r.registry == s.registry
    // no working directory: Nak 60 and an error record, nothing else
    ensures o.cwd.None? ==>
      && r.files == s.files && r.running == s.running
      && Outcomes(r.trace, m) == Outcomes(s.trace, m) + [NakDelay(60)]
      && Reports(r.trace) == Reports(s.trace) + [CwdError(o.reason)]
      && ServiceCalls(r.trace) == ServiceCalls(s.trace) && Launches(r.trace) == Launches(s.trace)
    // a failed download: Nak 60 and an error record; no stop, no install, only the package path touched
    ensures o.cwd.Some? && !o.fetch.Fetched? ==>
      && AgreeOutside(r.files, s.files, {PackagePath(o.cwd.value)}) && r.running == s.running
      && Outcomes(r.trace, m) == Outcomes(s.trace, m) + [NakDelay(60)]
      && Reports(r.trace) == Reports(s.trace) + [DownloadError(o.reason)]
      && ServiceCalls(r.trace) == ServiceCalls(s.trace) && Launches(r.trace) == Launches(s.trace)
    // a verified download: the package is in place and the fixed sequence follows
    ensures o.cwd.Some? && o.fetch.Fetched? ==>
      && r.files == s.files[PackagePath(o.cwd.value) := o.fetch.content]
      && r == InstallPhase(AfterDownload(s, PackagePath(o.cwd.value), o.fetch), m, PackagePath(o.cwd.value), o)
  {
    if o.cwd.None? then
      NakAndRecord(s, m, 60, IniFile(o.loadOk, o.saveOk), CwdError(o.reason), o.clock)
    else
      var pkg := PackagePath(o.cwd.value);
      var downloaded := AfterDownload(s, pkg, o.fetch);
      if !o.fetch.Fetched? then
        NakAndRecord(downloaded, m, 60, IniFile(o.loadOk, o.saveOk), DownloadError(o.reason), o.clock)
      else
        InstallPhase(downloaded, m, pkg, o)
  }

  /** Every run settles its message exactly once: Nak 60 before a verified
      download, Ack after it; and it writes exactly one record. */
  lemma DarwinSettlesOnce(s: State, m: MsgId, o: DarwinOracle)
    ensures var r := DarwinUpdateSpec(s, m, o);
      && Outcomes(r.trace, m) == Outcomes(s.trace, m) + [if o.cwd.Some? && o.fetch.Fetched? then Ack else NakDelay(60)]
      && |Reports(r.trace)| == |Reports(s.trace)| + 1
  {
  }

  /** Neither a failed stop nor a failed install changes the record, the
      message outcome or the configuration: both are only logged. */
  lemma StopAndInstallFailuresAreSilent(s: State, m: MsgId, o: DarwinOracle, stopOk: bool, launchOk: bool)
    ensures var a := DarwinUpdateSpec(s, m, o);
      var b := DarwinUpdateSpec(s, m, o.(stopOk := stopOk, launchOk := launchOk));
      && Outcomes(a.trace, m) == Outcomes(b.trace, m)
      && Reports(a.trace) == Reports(b.trace)
      && a.files == b.files && a.ini == b.ini
  {
    if o.cwd.Some? && o.fetch.Fetched? {
      var o2 := o.(stopOk := stopOk, launchOk := launchOk);
      var pkg := PackagePath(o.cwd.value);
      var d := AfterDownload(s, pkg, o.fetch);
      var a := InstallPhase(d, m, pkg, o);
      var b := InstallPhase(d, m, pkg, o2);
      assert DarwinUpdateSpec(s, m, o) == a && DarwinUpdateSpec(s, m, o2) == b;
      assert Outcomes(a.trace, m) == Outcomes(d.trace, m) + [Ack] == Outcomes(b.trace, m);
    } else {
      assert DarwinUpdateSpec(s, m, o) == DarwinUpdateSpec(s, m, o.(stopOk := stopOk, launchOk := launchOk));
    }
  }

  /** The success record and the Ack both precede the install, and the stop
      precedes the record. */
  lemma SuccessRecordedBeforeInstall(s: State, m: MsgId, o: DarwinOracle)
    requires o.cwd.Some? && o.fetch.Fetched?
    ensures var r := DarwinUpdateSpec(s, m, o);
      var n := |s.trace|;
      && |r.trace| == n + 4
      && r.trace[n] == Service(StopAgent(o.stopOk))
      && r.trace[n + 1] == Recorded(Report(UpdateSuccess, ""))
      && r.trace[n + 2] == Sent(m, Ack)
      && r.trace[n + 3].Launched? && r.trace[n + 3].launch.argv == InstallCommand(PackagePath(o.cwd.value))
  {
    var d := AfterDownload(s, PackagePath(o.cwd.value), o.fetch);
    assert d.trace == s.trace;
  }

  method ExecuteUpdate(w: World, m: MsgId, o: DarwinOracle)
    modifies w
    ensures w.View() == DarwinUpdateSpec(old(w.View()), m, o)
  {
    if o.cwd.None? {
      NakAndSave(w, m, 60, CwdError(o.reason), o.loadOk, o.saveOk, o.clock);
      return;
    }
    var downloadPath := PackagePath(o.cwd.value);
    var fetched := w.Download(downloadPath, o.fetch);
    if !fetched {
      NakAndSave(w, m, 60, DownloadError(o.reason), o.loadOk, o.saveOk, o.clock);
      return;
    }
    Install(w, m, downloadPath, o);
  }

  /** From "Stop service" on. */
  method Install(w: World, m: MsgId, pkg: Path, o: DarwinOracle)
    modifies w
    ensures w.View() == InstallPhase(old(w.View()), m, pkg, o)
  {
    var _ := w.Stop(o.stopOk);
    SaveTaskInfoToINI(w, UpdateCalled, o.loadOk, o.saveOk, o.clock);
    w.Send(m, Ack);
    var _ := w.Exec(["bash", "-c", InstallScript(pkg)], o.launchOk);
  }

  // ---------------------------------------------------------------------------
  // UninstallAgent

  /** launchctl load of the at daemon. */
  const LoadAtDaemon := ["bash", "-c", "launchctl load -F /System/Library/LaunchDaemons/com.apple.atrun.plist"]

  /** The uninstall script, handed to at(1) the way linux.go hands its commands. */
  const UninstallCommand := CommonLinux.AtNow("bash /Library/OpenUEMAgent/uninstall.sh")

  /** UninstallAgent: the new state and the returned error. */
  function UninstallSpec(s: State, atOk: bool, scheduleOk: bool, reason: string): (r: (State, Option<string>))
    ensures r.0.files == s.files && r.0.running == s.running && r.0.ini == s.ini && r.0.jobs == s.jobs
    ensures forall m :: Outcomes(r.0.trace, m) == Outcomes(s.trace, m)
    ensures Reports(r.0.trace) == Reports(s.trace) && ServiceCalls(r.0.trace) == ServiceCalls(s.trace)
    // the at daemon is loaded first, whatever happens, then the script is scheduled
    ensures Launches(r.0.trace) == Launches(s.trace) + [Launch(LoadAtDaemon, atOk)] + [Launch(UninstallCommand, scheduleOk)]
    // only the scheduling is fatal
    ensures r.1.None? <==> scheduleOk
    ensures r.1.Some? ==> r.1.value == reason
  {
    var loaded := Logged(s, Launched(Launch(LoadAtDaemon, atOk)));
    (Logged(loaded, Launched(Launch(UninstallCommand, scheduleOk))), if scheduleOk then None else Some(reason))
  }

  /** A failure to load the at daemon changes neither the commands tried nor the result. */
  lemma AtDaemonFailureIsNonFatal(s: State, scheduleOk: bool, reason: string)
    ensures UninstallSpec(s, false, scheduleOk, reason).1 == UninstallSpec(s, true, scheduleOk, reason).1
    ensures var a := Launches(UninstallSpec(s, false, scheduleOk, reason).0.trace);
      var b := Launches(UninstallSpec(s, true, scheduleOk, reason).0.trace);
      && |a| == |b| && a[|a| - 1] == b[|b| - 1] == Launch(UninstallCommand, scheduleOk)
  {
  }

  method UninstallAgent(w: World, atOk: bool, scheduleOk: bool, reason: string) returns (err: Option<string>)
    modifies w
    ensures (w.View(), err) == UninstallSpec(old(w.View()), atOk, scheduleOk, reason)
  {
    var _ := w.Exec(["bash", "-c", "launchctl load -F /System/Library/LaunchDaemons/com.apple.atrun.plist"], atOk);
    var scheduled := w.Exec(CommonLinux.AtNow("bash /Library/OpenUEMAgent/uninstall.sh"), scheduleOk);
    if !scheduled {
      return Some(reason);
    }
    return None;
  }
}

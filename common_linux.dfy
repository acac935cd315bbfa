/**
 * The Linux updater of the internal/common/ revision (internal/common/linux.go):
 * the package-manager command chosen by the distribution vendor, an
 * ExecuteUpdate that hands the install to at(1) and Acks once the command
 * has started, UninstallAgent and RefreshRepositories.
 */
module CommonLinux {
  import opened Env
  import opened GoStd
  import opened UpdateTasks
  import opened CommonService

  // ---------------------------------------------------------------------------
  // Vendor selection

  /** The two package-manager families the switches know. */
  datatype Family = Debian | RedHat

  /** case "debian", "ubuntu", "linuxmint". */
  predicate DebianVendor(vendor: string)
  {
    vendor == "debian" || vendor == "ubuntu" || vendor == "linuxmint"
  }

  /** case "fedora", "almalinux", "redhat". */
  predicate RedHatVendor(vendor: string)
  {
    vendor == "fedora" || vendor == "almalinux" || vendor == "redhat"
  }

  /** The case of the vendor switches a vendor string falls in. */
  function VendorFamily(vendor: string): (r: Option<Family>)
  {
    if DebianVendor(vendor) then Some(Debian)
    else if RedHatVendor(vendor) then Some(RedHat)
    else None
  }

  /** exec.Command("/bin/sh", "-c", `echo "<command>" | at now +1 minute`). */
  function AtNow(command: string): seq<string>
  {
    ["/bin/sh", "-c", "echo \"" + command + "\" | at now +1 minute"]
  }

  const AptInstall := "sudo apt install -y --allow-downgrades openuem-agent="
  const DnfInstall := "sudo dnf install --refresh -y openuem-agent="

  /** The install command of ExecuteUpdate; None leaves cmd nil. */
  function InstallCommand(vendor: string, version: string): Option<seq<string>>
  {
    match VendorFamily(vendor)
    case Some(Debian) => Some(AtNow(AptInstall + version))
    case Some(RedHat) => Some(AtNow(DnfInstall + version))
    case None => None
  }

  /** The remove command of UninstallAgent; None is the default case. */
  function RemoveCommand(vendor: string): Option<seq<string>>
  {
    match VendorFamily(vendor)
    case Some(Debian) => Some(AtNow("sudo apt remove -y openuem-agent"))
    case Some(RedHat) => Some(AtNow("sudo dnf remove -y openuem-agent"))
    case None => None
  }

  const AptUpdate := ["apt", "update"]

  /** The one vendor family whose repositories are refreshed. */
  function RefreshCommand(vendor: string): Option<seq<string>>
  {
    if VendorFamily(vendor) == Some(Debian) then Some(AptUpdate) else None
  }

  /** Each vendor string belongs to at most one family; install and remove are
      supported for the same vendors, and the refresh only for the Debian family. */
  lemma VendorSelection(vendor: string, version: string)
    ensures !(DebianVendor(vendor) && RedHatVendor(vendor))
    ensures VendorFamily(vendor) == Some(Debian) <==> DebianVendor(vendor)
    ensures VendorFamily(vendor) == Some(RedHat) <==> RedHatVendor(vendor)
    ensures InstallCommand(vendor, version).Some? <==> RemoveCommand(vendor).Some?
    ensures InstallCommand(vendor, version).Some? <==> DebianVendor(vendor) || RedHatVendor(vendor)
    ensures RefreshCommand(vendor).Some? <==> DebianVendor(vendor)
  {
    if DebianVendor(vendor) {
      assert vendor[0] == 'd' || vendor[0] == 'u' || vendor[0] == 'l';
    }
  }

  /** The at(1) script of an install command carries the version verbatim:
      it can be read back out of the command. */
  lemma InstallCommandCarriesVersion(vendor: string, version: string)
    requires InstallCommand(vendor, version).Some?
    ensures var argv := InstallCommand(vendor, version).value;
      var pre := if VendorFamily(vendor) == Some(Debian) then "echo \"" + AptInstall else "echo \"" + DnfInstall;
      var post := "\" | at now +1 minute";
      && |argv| == 3 && argv[0] == "/bin/sh" && argv[1] == "-c"
      && argv[2] == pre + version + post
      && argv[2][|pre|..|argv[2]| - |post|] == version
  {
    var argv := InstallCommand(vendor, version).value;
    var pre := if VendorFamily(vendor) == Some(Debian) then "echo \"" + AptInstall else "echo \"" + DnfInstall;
    var post := "\" | at now +1 minute";
    assert argv[2] == pre + version + post;
    assert (pre + version + post)[|pre|..|pre| + |version|] == version;
  }

  /** Different versions give different install commands. */
  lemma InstallCommandInjective(vendor: string, a: string, b: string)
    requires InstallCommand(vendor, a).Some?
    ensures InstallCommand(vendor, a) == InstallCommand(vendor, b) ==> a == b
  {
    InstallCommandCarriesVersion(vendor, a);
    if InstallCommand(vendor, a) == InstallCommand(vendor, b) {
      InstallCommandCarriesVersion(vendor, b);
    }
  }

  // ---------------------------------------------------------------------------
  // RefreshRepositories

  /** RefreshRepositories: `apt update` run for the Debian family, nothing otherwise. */
  function RefreshSpec(s: State, vendor: string, ok: bool): (r: State)
    ensures r.files == s.files && r.running == s.running && r.ini == s.ini && r.jobs == s.jobs
    ensures forall m :: Outcomes(r.trace, m) == Outcomes(s.trace, m)
    ensures Reports(r.trace) == Reports(s.trace) && ServiceCalls(r.trace) == ServiceCalls(s.trace)
    ensures Launches(r.trace) == Launches(s.trace) + RefreshLaunches(vendor, ok)
    ensures VendorFamily(vendor) != Some(Debian) ==> r == s
  {
    if VendorFamily(vendor) == Some(Debian) then Logged(s, Launched(Launch(AptUpdate, ok))) else s
  }

  function RefreshLaunches(vendor: string, ok: bool): seq<Launch>
  {
    if VendorFamily(vendor) == Some(Debian) then [Launch(AptUpdate, ok)] else []
  }

  method RefreshRepositories(w: World, vendor: string, ok: bool)
    modifies w
    ensures w.View() == RefreshSpec(old(w.View()), vendor, ok)
  {
    if DebianVendor(vendor) {
      var _ := w.Exec(["apt", "update"], ok);
    }
  }

  // ---------------------------------------------------------------------------
  // ExecuteUpdate

  /** The answers the outside world gives to one run of ExecuteUpdate. */
  datatype LinuxOracle = LinuxOracle(
    vendor: string,     // GetOSVendor()
    refreshOk: bool,    // apt update
    startOk: bool,      // cmd.Start()
    ackOk: bool,        // msg.Ack() after the success record
    waitOk: bool,       // cmd.Wait()
    loadOk: bool,       // ini.Load in SaveTaskInfoToINI
    saveOk: bool,       // cfg.SaveTo in SaveTaskInfoToINI
    clock: Clock,       // time.Now()
    reason: string)     // the text of cmd.Start()'s error

  const UpdateCalled := Report(UpdateSuccess, "")

  function UnsupportedError(vendor: string): Report
  {
    Report(UpdateError, "[ERROR]: unsupported OS: " + vendor)
  }

  /** cmd.String(): the program and its arguments separated by spaces. */
  function CommandText(argv: seq<string>): string
    requires |argv| >= 1
  {
    Join(argv, ' ')
  }

  function StartError(argv: seq<string>, reason: string): Report
    requires |argv| >= 1
  {
    Report(UpdateError, "[ERROR]: could not run " + CommandText(argv) + " command, reason: " + reason)
  }

  /** After the command started: the success record, the Ack and, when the Ack
      went through, the wait for the command. */
  function ScheduledPhase(s: State, m: MsgId, argv: seq<string>, o: LinuxOracle): (r: State)
    // the record precedes the Ack, and the wait is reached only through a delivered Ack
    ensures !o.ackOk ==> r.trace == s.trace + [Recorded(UpdateCalled)] + [Sent(m, Ack)]
    ensures o.ackOk ==> r.trace == s.trace + [Recorded(UpdateCalled)] + [Sent(m, Ack)] + [Finished(argv, o.waitOk)]
    ensures r.files == s.files && r.running == s.running && r.jobs == s.jobs
    ensures Outcomes(r.trace, m) == Outcomes(s.trace, m) + [Ack]
    ensures Reports(r.trace) == Reports(s.trace) + [UpdateCalled]
    ensures Launches(r.trace) == Launches(s.trace) && ServiceCalls(r.trace) == ServiceCalls(s.trace)
    ensures r.ini == SaveTaskInfo(s, IniFile(o.loadOk, o.saveOk), UpdateCalled, o.clock).ini
  {
    var recorded := SaveTaskInfo(s, IniFile(o.loadOk, o.saveOk), UpdateCalled, o.clock);
    var acked := Logged(recorded, Sent(m, Ack));
    assert Outcomes(acked.trace, m) == Outcomes(s.trace, m) + [Ack] && Reports(acked.trace) == Reports(s.trace) + [UpdateCalled];
    if !o.ackOk then acked else Logged(acked, Finished(argv, o.waitOk))
  }

  /** An unknown vendor: Ack, then the error record. */
  function UnsupportedPhase(s: State, m: MsgId, o: LinuxOracle): (r: State)
    ensures r.files == s.files && r.running == s.running && r.jobs == s.jobs
    ensures Outcomes(r.trace, m) == Outcomes(s.trace, m) + [Ack]
    ensures Reports(r.trace) == Reports(s.trace) + [UnsupportedError(o.vendor)]
    ensures Launches(r.trace) == Launches(s.trace) && ServiceCalls(r.trace) == ServiceCalls(s.trace)
  {
    SaveTaskInfo(Logged(s, Sent(m, Ack)), IniFile(o.loadOk, o.saveOk), UnsupportedError(o.vendor), o.clock)
  }

  /** cmd.Start() failed: Nak 60 and the error record. */
  function StartFailed(s: State, m: MsgId, argv: seq<string>, o: LinuxOracle): (r: State)
    requires |argv| >= 1
    ensures r.files == s.files && r.running == s.running && r.jobs == s.jobs
    ensures ServiceCalls(r.trace) == ServiceCalls(s.trace)
    ensures Launches(r.trace) == Launches(s.trace) + [Launch(argv, false)]
    ensures Outcomes(r.trace, m) == Outcomes(s.trace, m) + [NakDelay(60)]
    ensures Reports(r.trace) == Reports(s.trace) + [StartError(argv, o.reason)]
  {
    var started := Logged(s, Launched(Launch(argv, false)));
    assert Reports(started.trace) == Reports(s.trace) && Outcomes(started.trace, m) == Outcomes(s.trace, m);
    NakAndRecord(started, m, 60, IniFile(o.loadOk, o.saveOk), StartError(argv, o.reason), o.clock)
  }

  /** cmd.Start() succeeded: the success record, Ack, and the wait. */
  function Started(s: State, m: MsgId, argv: seq<string>, o: LinuxOracle): (r: State)
    ensures !o.ackOk ==> r.trace == s.trace + [Launched(Launch(argv, true))] + [Recorded(UpdateCalled)] + [Sent(m, Ack)]
    ensures o.ackOk ==>
      r.trace == s.trace + [Launched(Launch(argv, true))] + [Recorded(UpdateCalled)] + [Sent(m, Ack)] + [Finished(argv, o.waitOk)]
    ensures r.files == s.files && r.running == s.running && r.jobs == s.jobs
    ensures ServiceCalls(r.trace) == ServiceCalls(s.trace)
    ensures Launches(r.trace) == Launches(s.trace) + [Launch(argv, true)]
    ensures Outcomes(r.trace, m) == Outcomes(s.trace, m) + [Ack]
    ensures Reports(r.trace) == Reports(s.trace) + [UpdateCalled]
  {
    var started := Logged(s, Launched(Launch(argv, true)));
    assert Reports(started.trace) == Reports(s.trace) && Outcomes(started.trace, m) == Outcomes(s.trace, m);
    ScheduledPhase(started, m, argv, o)
  }

  /** ExecuteUpdate on message m for the requested version. */
  function LinuxUpdateSpec(s: State, m: MsgId, version: string, o: LinuxOracle): (r: State)
    ensures r.files == s.files && r.running == s.running && r.jobs == s.jobs
    ensures ServiceCalls(r.trace) == ServiceCalls(s.trace)
  {
    CommandPhase(RefreshSpec(s, o.vendor, o.refreshOk), m, InstallCommand(o.vendor, version), o)
  }

  /** After the refresh: no command for the vendor, a command that does not start, or one that does. */
  function CommandPhase(s: State, m: MsgId, cmd: Option<seq<string>>, o: LinuxOracle): State
    requires cmd.Some? ==> |cmd.value| >= 1
  {
    match cmd
    case None => UnsupportedPhase(s, m, o)
    case Some(argv) => if o.startOk then Started(s, m, argv, o) else StartFailed(s, m, argv, o)
  }

  /** The three ways a run ends, by vendor and by whether the command started. */
  lemma LinuxUpdateOutcomes(s: State, m: MsgId, version: string, o: LinuxOracle)
    // an unknown vendor: Ack, then an error record; nothing is started
    ensures var r := LinuxUpdateSpec(s, m, version, o);
      InstallCommand(o.vendor, version).None? ==>
      && Outcomes(r.trace, m) == Outcomes(s.trace, m) + [Ack]
      && Reports(r.trace) == Reports(s.trace) + [UnsupportedError(o.vendor)]
      && Launches(r.trace) == Launches(s.trace)
    // the command does not start: Nak 60 and an error record, no Ack
    ensures var r := LinuxUpdateSpec(s, m, version, o);
      InstallCommand(o.vendor, version).Some? && !o.startOk ==>
      var argv := InstallCommand(o.vendor, version).value;
      && Outcomes(r.trace, m) == Outcomes(s.trace, m) + [NakDelay(60)]
      && Reports(r.trace) == Reports(s.trace) + [StartError(argv, o.reason)]
      && Launches(r.trace) == Launches(s.trace) + RefreshLaunches(o.vendor, o.refreshOk) + [Launch(argv, false)]
    // the command started: the success record, then Ack
    ensures var r := LinuxUpdateSpec(s, m, version, o);
      InstallCommand(o.vendor, version).Some? && o.startOk ==>
      var argv := InstallCommand(o.vendor, version).value;
      && Outcomes(r.trace, m) == Outcomes(s.trace, m) + [Ack]
      && Reports(r.trace) == Reports(s.trace) + [UpdateCalled]
      && Launches(r.trace) == Launches(s.trace) + RefreshLaunches(o.vendor, o.refreshOk) + [Launch(argv, true)]
      && var t := RefreshSpec(s, o.vendor, o.refreshOk).trace + [Launched(Launch(argv, true))] + [Recorded(UpdateCalled)] + [Sent(m, Ack)];
         r.trace == if o.ackOk then t + [Finished(argv, o.waitOk)] else t
  {
  }

  /** A started install command: UPDATE_SUCCESS is recorded after the launch
      and before the Ack. */
  lemma SuccessRecordedBeforeAck(s: State, m: MsgId, version: string, o: LinuxOracle)
    requires InstallCommand(o.vendor, version).Some? && o.startOk
    ensures var n := |RefreshSpec(s, o.vendor, o.refreshOk).trace|;
      var r := LinuxUpdateSpec(s, m, version, o);
      && |r.trace| >= n + 3
      && r.trace[n] == Launched(Launch(InstallCommand(o.vendor, version).value, true))
      && r.trace[n + 1] == Recorded(UpdateCalled)
      && r.trace[n + 2] == Sent(m, Ack)
  {
    LinuxUpdateOutcomes(s, m, version, o);
  }

  /** The command's exit status, and whether the Ack after the record went
      through, change neither the message outcome, nor the records, nor the
      configuration. */
  lemma WaitIsSilent(s: State, m: MsgId, version: string, o: LinuxOracle, ackOk: bool, waitOk: bool)
    ensures var a := LinuxUpdateSpec(s, m, version, o);
      var b := LinuxUpdateSpec(s, m, version, o.(ackOk := ackOk, waitOk := waitOk));
      && Outcomes(a.trace, m) == Outcomes(b.trace, m)
      && Reports(a.trace) == Reports(b.trace)
      && Launches(a.trace) == Launches(b.trace)
      && a.ini == b.ini
  {
    var o2 := o.(ackOk := ackOk, waitOk := waitOk);
    var refreshed := RefreshSpec(s, o.vendor, o.refreshOk);
    assert RefreshSpec(s, o2.vendor, o2.refreshOk) == refreshed;
    CommandPhaseIgnoresWait(refreshed, m, InstallCommand(o.vendor, version), o, o2);
  }

  /** The same, from the cmd == nil test on. */
  lemma CommandPhaseIgnoresWait(s: State, m: MsgId, cmd: Option<seq<string>>, o: LinuxOracle, o2: LinuxOracle)
    requires cmd.Some? ==> |cmd.value| >= 1
    requires o2 == o.(ackOk := o2.ackOk, waitOk := o2.waitOk)
    ensures var a := CommandPhase(s, m, cmd, o);
      var b := CommandPhase(s, m, cmd, o2);
      && Outcomes(a.trace, m) == Outcomes(b.trace, m)
      && Reports(a.trace) == Reports(b.trace)
      && Launches(a.trace) == Launches(b.trace)
      && a.ini == b.ini
  {
    match cmd
    case None =>
      assert UnsupportedPhase(s, m, o) == UnsupportedPhase(s, m, o2);
    case Some(argv) =>
      if o.startOk {
        ScheduledIgnoresWait(Logged(s, Launched(Launch(argv, true))), m, argv, o, o2);
      } else {
        assert StartFailed(s, m, argv, o) == StartFailed(s, m, argv, o2);
      }
  }

  /** ScheduledPhase's effect on the configuration does not depend on the Ack or the wait. */
  lemma ScheduledIgnoresWait(s: State, m: MsgId, argv: seq<string>, o: LinuxOracle, o2: LinuxOracle)
    requires o2 == o.(ackOk := o2.ackOk, waitOk := o2.waitOk)
    ensures ScheduledPhase(s, m, argv, o).ini == ScheduledPhase(s, m, argv, o2).ini
  {
  }

  /** Each run settles its message exactly once and writes exactly one record;
      it Naks only when the install command could not be started. */
  lemma LinuxSettlesOnce(s: State, m: MsgId, version: string, o: LinuxOracle)
    ensures var r := LinuxUpdateSpec(s, m, version, o);
      && Outcomes(r.trace, m) == Outcomes(s.trace, m) +
           [if InstallCommand(o.vendor, version).Some? && !o.startOk then NakDelay(60) else Ack]
      && |Reports(r.trace)| == |Reports(s.trace)| + 1
  {
    LinuxUpdateOutcomes(s, m, version, o);
  }

  /** After the start, ScheduledPhase's steps. */
  method AckAndWait(w: World, m: MsgId, argv: seq<string>, o: LinuxOracle)
    modifies w
    ensures w.View() == ScheduledPhase(old(w.View()), m, argv, o)
  {
    SaveTaskInfoToINI(w, UpdateCalled, o.loadOk, o.saveOk, o.clock);
    w.Send(m, Ack);
    if !o.ackOk {
      return;
    }
    var _ := w.Wait(argv, o.waitOk);
  }

  method ExecuteUpdate(w: World, m: MsgId, data: UpdateRequest, o: LinuxOracle)
    modifies w
    ensures w.View() == LinuxUpdateSpec(old(w.View()), m, data.version, o)
  {
    var vendor := o.vendor;
    RefreshRepositories(w, vendor, o.refreshOk);
    var version := data.version;
    var cmd: Option<seq<string>> := None;
    if DebianVendor(vendor) {
      cmd := Some(AtNow("sudo apt install -y --allow-downgrades openuem-agent=" + version));
    } else if RedHatVendor(vendor) {
      cmd := Some(AtNow("sudo dnf install --refresh -y openuem-agent=" + version));
    }
    assert cmd == InstallCommand(vendor, version);
    RunCommand(w, m, cmd, o);
  }

  /** From the cmd == nil test on. */
  method RunCommand(w: World, m: MsgId, cmd: Option<seq<string>>, o: LinuxOracle)
    requires cmd.Some? ==> |cmd.value| >= 1
    modifies w
    ensures w.View() == CommandPhase(old(w.View()), m, cmd, o)
  {
    var vendor := o.vendor;
    if cmd.None? {
      w.Send(m, Ack);
      SaveTaskInfoToINI(w, UnsupportedError(vendor), o.loadOk, o.saveOk, o.clock);
      return;
    }
    var argv := cmd.value;
    var started := w.Exec(argv, o.startOk);
    if !started {
      NakAndSave(w, m, 60, StartError(argv, o.reason), o.loadOk, o.saveOk, o.clock);
      return;
    }
    AckAndWait(w, m, argv, o);
  }

  // ---------------------------------------------------------------------------
  // UninstallAgent

  /** UninstallAgent: the new state and the returned error. */
  function UninstallSpec(s: State, vendor: string, startOk: bool, reason: string): (r: (State, Option<string>))
    ensures r.0.files == s.files && r.0.running == s.running && r.0.ini == s.ini && r.0.jobs == s.jobs
    ensures forall m :: Outcomes(r.0.trace, m) == Outcomes(s.trace, m)
    ensures Reports(r.0.trace) == Reports(s.trace)
    // an unknown vendor: the error "unsupported os" and nothing started
    ensures RemoveCommand(vendor).None? ==> r.0 == s && r.1 == Some("unsupported os")
    // otherwise one remove command, and an error exactly when it did not start
    ensures RemoveCommand(vendor).Some? ==>
      && Launches(r.0.trace) == Launches(s.trace) + [Launch(RemoveCommand(vendor).value, startOk)]
      && (r.1.None? <==> startOk)
  {
    match RemoveCommand(vendor)
    case None => (s, Some("unsupported os"))
    case Some(argv) => (Logged(s, Launched(Launch(argv, startOk))), if startOk then None else Some(reason))
  }

  method UninstallAgent(w: World, vendor: string, startOk: bool, reason: string) returns (err: Option<string>)
    modifies w
    ensures (w.View(), err) == UninstallSpec(old(w.View()), vendor, startOk, reason)
  {
    var cmd: seq<string>;
    if DebianVendor(vendor) {
      cmd := AtNow("sudo apt remove -y openuem-agent");
    } else if RedHatVendor(vendor) {
      cmd := AtNow("sudo dnf remove -y openuem-agent");
    } else {
      return Some("unsupported os");
    }
    var started := w.Exec(cmd, startOk);
    if !started {
      return Some(reason);
    }
    return None;
  }
}

/**
 * The Linux watchdog of internal/common/watchdog_linux.go: the INI tick, with
 * service control through systemctl and a timestamped backup of the agent's
 * log before starting a stopped service.
 */
module CommonWatchdogLinux {
  import opened Env
  import opened GoStd
  import opened IniWatchdog

  const AgentLog := "/var/log/openuem-agent/openuem-agent.log"

  /** fmt.Sprintf("/var/log/openuem-agent/openuem-agent.%d.log", time.Now().Unix()). */
  function LogBackup(clock: Clock): Path
  {
    "/var/log/openuem-agent/openuem-agent." + Decimal(clock.unix) + ".log"
  }

  /** A backup never overwrites the live log, and backups taken at different
      seconds have different names. */
  lemma LogBackupFresh(c1: Clock, c2: Clock)
    ensures LogBackup(c1) != AgentLog
    ensures c1.unix != c2.unix ==> LogBackup(c1) != LogBackup(c2)
  {
    var prefix := "/var/log/openuem-agent/openuem-agent.";
    var d1 := Decimal(c1.unix);
    assert LogBackup(c1)[|prefix|] == d1[0];
    assert AgentLog[|prefix|] == 'l';
    if LogBackup(c1) == LogBackup(c2) {
      var d2 := Decimal(c2.unix);
      assert |d1| == |d2|;
      assert d1 == LogBackup(c1)[|prefix|..|prefix| + |d1|];
      assert d2 == LogBackup(c2)[|prefix|..|prefix| + |d2|];
      DecimalInjective(c1.unix, c2.unix);
    }
  }

  /** One tick of this variant. */
  function WatchdogSpec(s: State, o: TickOracle): State
  {
    WatchdogTick(s, o, Some((AgentLog, LogBackup(o.clock))))
  }

  /** With the flag clear and the service not active, the log moves to its backup
      when the rename succeeds, and the start is attempted either way. */
  lemma BackupThenStart(s: State, o: TickOracle)
    requires Flag(s, o) == Some(false) && !AgentRunning(s, o)
    ensures var r := WatchdogSpec(s, o);
      && ServiceCalls(r.trace) == ServiceCalls(s.trace) + [StartAgent(o.liveStartOk)]
      && (o.backupOk && AgentLog in s.files ==>
            LogBackup(o.clock) in r.files && r.files[LogBackup(o.clock)] == s.files[AgentLog] && AgentLog !in r.files)
      && AgreeOutside(r.files, s.files, {AgentLog, LogBackup(o.clock)})
  {
    LogBackupFresh(o.clock, o.clock);
  }

  /** LinuxStartService: systemctl start openuem-agent; an error iff the command fails. */
  method LinuxStartService(w: World, ok: bool) returns (started: bool)
    modifies w
    ensures started == ok
    ensures w.View() == AfterStart(old(w.View()), ok)
  {
    started := w.Start(ok);
  }

  /** LinuxStopService: systemctl stop openuem-agent; an error iff the command fails. */
  method LinuxStopService(w: World, ok: bool) returns (stopped: bool)
    modifies w
    ensures stopped == ok
    ensures w.View() == AfterStop(old(w.View()), ok)
  {
    stopped := w.Stop(ok);
  }

  /** RestartService: the stop error is returned without a start, otherwise the start error. */
  method RestartService(w: World, stopOk: bool, startOk: bool) returns (ok: bool)
    modifies w
    ensures ok == (stopOk && startOk)
    ensures w.View() == RestartServiceSpec(old(w.View()), stopOk, startOk).0
  {
    var stopped := LinuxStopService(w, stopOk);
    if !stopped {
      return false;
    }
    var started := LinuxStartService(w, startOk);
    if !started {
      return false;
    }
    return true;
  }

  /** IsAgentServiceRunning: systemctl is-active --quiet exits successfully, which
      needs the command to run and the unit to be active. */
  method IsAgentServiceRunning(w: World, o: TickOracle) returns (running: bool)
    ensures running == AgentRunning(w.View(), o)
  {
    running := o.probeOk && w.running;
  }

  method Watchdog(w: World, o: TickOracle)
    modifies w
    ensures w.View() == WatchdogSpec(old(w.View()), o)
  {
    if !o.loadOk {
      return;
    }
    var cfg := w.ini;
    if RestartRequiredKey !in cfg {
      return;
    }
    var restartRequired := ParseBool(cfg[RestartRequiredKey]);
    assert restartRequired == Flag(old(w.View()), o);
    if restartRequired.None? {
      return;
    }
    if restartRequired.value {
      var ok := RestartService(w, o.stopOk, o.startOk);
      if !ok {
        return;
      }
      cfg := cfg[RestartRequiredKey := "false"];
      w.SaveIni(cfg, o.saveOk);
    } else {
      var running := IsAgentServiceRunning(w, o);
      if !running {
        var _ := w.Rename(AgentLog, LogBackup(o.clock), o.backupOk);
        var _ := LinuxStartService(w, o.liveStartOk);
      }
    }
  }
}

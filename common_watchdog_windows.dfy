/**
 * The Windows watchdog of internal/common/watchdog_windows.go: the INI tick,
 * backing up the agent's log to a timestamped name before starting a stopped
 * service.
 */
module CommonWatchdogWindows {
  import opened Env
  import opened GoStd
  import opened IniWatchdog

  const AgentLog := "C:\\Program Files\\OpenUEM Agent\\logs\\openuem-log.txt"

  /** fmt.Sprintf("...\\openuem-log-%d.txt", time.Now().Unix()). */
  function LogBackup(clock: Clock): Path
  {
    "C:\\Program Files\\OpenUEM Agent\\logs\\openuem-log-" + Decimal(clock.unix) + ".txt"
  }

  /** A backup never overwrites the live log, and backups taken at different
      seconds have different names. */
  lemma LogBackupFresh(c1: Clock, c2: Clock)
    ensures LogBackup(c1) != AgentLog
    ensures c1.unix != c2.unix ==> LogBackup(c1) != LogBackup(c2)
  {
    var prefix := "C:\\Program Files\\OpenUEM Agent\\logs\\openuem-log-";
    assert LogBackup(c1)[|prefix| - 1] == '-';
    assert AgentLog[|prefix| - 1] == '.';
    if LogBackup(c1) == LogBackup(c2) {
      var d1, d2 := Decimal(c1.unix), Decimal(c2.unix);
      assert |d1| == |d2|;
      assert d1 == LogBackup(c1)[|prefix|..|prefix| + |d1|];
      assert d2 == LogBackup(c2)[|prefix|..|prefix| + |d2|];
      DecimalInjective(c1.unix, c2.unix);
    }
  }

  /** One tick of this variant. */
  function WatchdogSpec(s: State, o: TickOracle): State
  {
    WatchdogTick(s, o, Some((AgentLog, LogBackup(o.clock))))
  }

  /** With the flag clear and the service stopped, the log moves to its backup
      when the rename succeeds, and the start is attempted either way. */
  lemma BackupThenStart(s: State, o: TickOracle)
    requires Flag(s, o) == Some(false) && !AgentRunning(s, o)
    ensures var r := WatchdogSpec(s, o);
      && ServiceCalls(r.trace) == ServiceCalls(s.trace) + [StartAgent(o.liveStartOk)]
      && (o.backupOk && AgentLog in s.files ==>
            LogBackup(o.clock) in r.files && r.files[LogBackup(o.clock)] == s.files[AgentLog] && AgentLog !in r.files)
      && AgreeOutside(r.files, s.files, {AgentLog, LogBackup(o.clock)})
  {
    LogBackupFresh(o.clock, o.clock);
  }

  /** RestartService: WindowsSvcControl(stop), then WindowsStartService. */
  method RestartService(w: World, stopOk: bool, startOk: bool) returns (ok: bool)
    modifies w
    ensures ok == (stopOk && startOk)
    ensures w.View() == RestartServiceSpec(old(w.View()), stopOk, startOk).0
  {
    var stopped := w.Stop(stopOk);
    if !stopped {
      return false;
    }
    var started := w.Start(startOk);
    if !started {
      return false;
    }
    return true;
  }

  /** IsAgentServiceRunning: false when mgr.Connect fails; otherwise whether the
      queried state is Running. */
  method IsAgentServiceRunning(w: World, o: TickOracle) returns (running: bool)
    ensures running == AgentRunning(w.View(), o)
  {
    if !o.probeOk {
      return false;
    }
    return w.running;
  }

  method Watchdog(w: World, o: TickOracle)
    modifies w
    ensures w.View() == WatchdogSpec(old(w.View()), o)
  {
    if !o.loadOk {
      return;
    }
    var cfg := w.ini;
    if RestartRequiredKey !in cfg {
      return;
    }
    var restartRequired := ParseBool(cfg[RestartRequiredKey]);
    assert restartRequired == Flag(old(w.View()), o);
    if restartRequired.None? {
      return;
    }
    if restartRequired.value {
      var ok := RestartService(w, o.stopOk, o.startOk);
      if !ok {
        return;
      }
      cfg := cfg[RestartRequiredKey := "false"];
      w.SaveIni(cfg, o.saveOk);
    } else {
      var running := IsAgentServiceRunning(w, o);
      if !running {
        var _ := w.Rename(AgentLog, LogBackup(o.clock), o.backupOk);
        var _ := w.Start(o.liveStartOk);
      }
    }
  }
}

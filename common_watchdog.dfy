/**
 * The Windows watchdog of internal/common/watchdog.go: the INI tick without a
 * log backup, with service control through the Windows service manager.
 */
module CommonWatchdog {
  import opened Env
  import opened IniWatchdog

  /** One tick of this variant. */
  function WatchdogSpec(s: State, o: TickOracle): State
  {
    WatchdogTick(s, o, None)
  }

  /** With the flag clear, a stopped service is started and no file is touched. */
  lemma StartsStoppedAgentWithoutBackup(s: State, o: TickOracle)
    requires Flag(s, o) == Some(false) && !AgentRunning(s, o)
    ensures var r := WatchdogSpec(s, o);
      && r.files == s.files && r.ini == s.ini
      && ServiceCalls(r.trace) == ServiceCalls(s.trace) + [StartAgent(o.liveStartOk)]
  {
  }

  /** RestartService: WindowsSvcControl(stop), then WindowsStartService. */
  method RestartService(w: World, stopOk: bool, startOk: bool) returns (ok: bool)
    modifies w
    ensures ok == (stopOk && startOk)
    ensures w.View() == RestartServiceSpec(old(w.View()), stopOk, startOk).0
  {
    var stopped := w.Stop(stopOk);
    if !stopped {
      return false;
    }
    var started := w.Start(startOk);
    if !started {
      return false;
    }
    return true;
  }

  /** IsAgentServiceRunning: false when mgr.Connect fails; otherwise whether the
      queried state is Running. */
  method IsAgentServiceRunning(w: World, o: TickOracle) returns (running: bool)
    ensures running == AgentRunning(w.View(), o)
  {
    if !o.probeOk {
      return false;
    }
    return w.running;
  }

  method Watchdog(w: World, o: TickOracle)
    modifies w
    ensures w.View() == WatchdogSpec(old(w.View()), o)
  {
    if !o.loadOk {
      return;
    }
    var cfg := w.ini;
    if RestartRequiredKey !in cfg {
      return;
    }
    var restartRequired := ParseBool(cfg[RestartRequiredKey]);
    assert restartRequired == Flag(old(w.View()), o);
    if restartRequired.None? {
      return;
    }
    if restartRequired.value {
      var ok := RestartService(w, o.stopOk, o.startOk);
      if !ok {
        return;
      }
      cfg := cfg[RestartRequiredKey := "false"];
      w.SaveIni(cfg, o.saveOk);
    } else {
      var running := IsAgentServiceRunning(w, o);
      if !running {
        var _ := w.Start(o.liveStartOk);
      }
    }
  }
}

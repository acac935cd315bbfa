/**
 * The macOS watchdog of internal/common/watchdog_macos.go: the INI tick, with
 * service control through launchctl and no log backup.
 */
module CommonWatchdogMacos {
  import opened Env
  import opened IniWatchdog

  /** One tick of this variant. */
  function WatchdogSpec(s: State, o: TickOracle): State
  {
    WatchdogTick(s, o, None)
  }

  /** With the flag clear, a stopped service is started and no file is touched. */
  lemma StartsStoppedAgentWithoutBackup(s: State, o: TickOracle)
    requires Flag(s, o) == Some(false) && !AgentRunning(s, o)
    ensures var r := WatchdogSpec(s, o);
      && r.files == s.files && r.ini == s.ini
      && ServiceCalls(r.trace) == ServiceCalls(s.trace) + [StartAgent(o.liveStartOk)]
  {
  }

  /** MacStartAgentService: launchctl load -w /Library/LaunchDaemons/openuem-agent.plist; an error iff the command fails. */
  method MacStartAgentService(w: World, ok: bool) returns (started: bool)
    modifies w
    ensures started == ok
    ensures w.View() == AfterStart(old(w.View()), ok)
  {
    started := w.Start(ok);
  }

  /** MacStopAgentService: launchctl unload -w /Library/LaunchDaemons/openuem-agent.plist; an error iff the command fails. */
  method MacStopAgentService(w: World, ok: bool) returns (stopped: bool)
    modifies w
    ensures stopped == ok
    ensures w.View() == AfterStop(old(w.View()), ok)
  {
    stopped := w.Stop(ok);
  }

  /** RestartService: stop, then start, ending at the first failure. */
  method RestartService(w: World, stopOk: bool, startOk: bool) returns (ok: bool)
    modifies w
    ensures ok == (stopOk && startOk)
    ensures w.View() == RestartServiceSpec(old(w.View()), stopOk, startOk).0
  {
    var stopped := MacStopAgentService(w, stopOk);
    if !stopped {
      return false;
    }
    var started := MacStartAgentService(w, startOk);
    if !started {
      return false;
    }
    return true;
  }

  /** IsAgentServiceRunning: launchctl list eu.openuem.openuem-agent succeeds, which
      needs the command to run and the job to be loaded. */
  method IsAgentServiceRunning(w: World, o: TickOracle) returns (running: bool)
    ensures running == AgentRunning(w.View(), o)
  {
    running := o.probeOk && w.running;
  }

  method Watchdog(w: World, o: TickOracle)
    modifies w
    ensures w.View() == WatchdogSpec(old(w.View()), o)
  {
    if !o.loadOk {
      return;
    }
    var cfg := w.ini;
    if RestartRequiredKey !in cfg {
      return;
    }
    var restartRequired := ParseBool(cfg[RestartRequiredKey]);
    assert restartRequired == Flag(old(w.View()), o);
    if restartRequired.None? {
      return;
    }
    if restartRequired.value {
      var ok := RestartService(w, o.stopOk, o.startOk);
      if !ok {
        return;
      }
      cfg := cfg[RestartRequiredKey := "false"];
      w.SaveIni(cfg, o.saveOk);
    } else {
      var running := IsAgentServiceRunning(w, o);
      if !running {
        var _ := MacStartAgentService(w, o.liveStartOk);
      }
    }
  }
}

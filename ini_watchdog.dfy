/**
 * The INI-backed watchdog tick shared by the internal/common/ revision's
 * Watchdog variants (watchdog.go, watchdog_windows.go, watchdog_linux.go,
 * watchdog_macos.go): read Agent.RestartRequired from the agent's
 * configuration, restart the agent service when it is true and then write it
 * back as "false"; otherwise start the service when it is not running, after
 * an optional backup of the agent's log.
 *
 * The variants differ only in the log backup (Windows and Linux rename the
 * log to a timestamped name, macOS and the older watchdog.go do not) and in
 * how service control is carried out, which the model sees only as outcomes.
 */
module IniWatchdog {
  import opened Env

  const RestartRequiredKey := IniKey("Agent", "RestartRequired")

  const TrueWords := {"1", "t", "T", "true", "TRUE", "True", "YES", "yes", "Yes", "y", "ON", "on", "On"}
  const FalseWords := {"0", "f", "F", "false", "FALSE", "False", "NO", "no", "No", "n", "OFF", "off", "Off"}

  /** key.Bool() of the ini library: a fixed set of spellings for each truth value,
      an error for anything else. */
  function ParseBool(v: string): (r: Option<bool>)
  {
    if v in TrueWords then Some(true)
    else if v in FalseWords then Some(false)
    else None
  }

  /** Each spelling has exactly one meaning, and the value the tick writes back
      reads as false. */
  lemma ParseBoolSpellings(v: string)
    ensures ParseBool(v) == Some(true) <==> v in TrueWords
    ensures ParseBool(v) == Some(false) <==> v in FalseWords
    ensures ParseBool(v).None? <==> v !in TrueWords && v !in FalseWords
    ensures ParseBool("false") == Some(false) && ParseBool("true") == Some(true)
  {
    assert "false" !in TrueWords by {
      assert forall w :: w in TrueWords ==> w != "false";
    }
  }

  /** The answers the outside world gives to one tick. */
  datatype TickOracle = TickOracle(
    loadOk: bool,       // ini.Load of the agent configuration
    stopOk: bool,       // the stop of RestartService
    startOk: bool,      // the start of RestartService
    saveOk: bool,       // cfg.SaveTo after clearing the flag
    probeOk: bool,      // IsAgentServiceRunning could ask the service manager
    backupOk: bool,     // os.Rename of the agent log, where there is one
    liveStartOk: bool,  // the start when the service was found not running
    clock: Clock)       // time.Now(), used in the backup name

  /** The flag as the tick reads it: None when the configuration does not load
      or the value does not parse. A missing key is dereferenced as a nil key in
      every variant, so it also ends the tick. */
  function Flag(s: State, o: TickOracle): Option<bool>
  {
    if !o.loadOk || RestartRequiredKey !in s.ini then None else ParseBool(s.ini[RestartRequiredKey])
  }

  /** IsAgentServiceRunning: false when the service manager cannot be asked. */
  function AgentRunning(s: State, o: TickOracle): bool
  {
    o.probeOk && s.running
  }

  /** RestartService: stop, then start only when the stop succeeded; the result
      says whether both succeeded. */
  function RestartServiceSpec(s: State, stopOk: bool, startOk: bool): (r: (State, bool))
    ensures r.1 == (stopOk && startOk)
    ensures r.0.files == s.files && r.0.ini == s.ini && r.0.registry == s.registry
    ensures r.0.jobs == s.jobs && r.0.nextJob == s.nextJob
    ensures forall m :: Outcomes(r.0.trace, m) == Outcomes(s.trace, m)
    ensures Reports(r.0.trace) == Reports(s.trace)
    ensures ServiceCalls(r.0.trace) == ServiceCalls(s.trace) + [StopAgent(stopOk)] +
      (if stopOk then [StartAgent(startOk)] else [])
    ensures r.0.running == (if stopOk then startOk else s.running)
  {
    var stopped := AfterStop(s, stopOk);
    if !stopOk then (stopped, false) else (AfterStart(stopped, startOk), startOk)
  }

  /** The liveness branch: an optional backup rename (its failure is only
      logged), then one start. */
  function StartWhenStopped(s: State, o: TickOracle, backup: Option<(Path, Path)>): (r: State)
    ensures r.ini == s.ini && r.registry == s.registry && r.jobs == s.jobs
    ensures forall m :: Outcomes(r.trace, m) == Outcomes(s.trace, m)
    ensures Reports(r.trace) == Reports(s.trace)
    ensures ServiceCalls(r.trace) == ServiceCalls(s.trace) + [StartAgent(o.liveStartOk)]
    ensures r.running == (s.running || o.liveStartOk)
    ensures backup.None? ==> r.files == s.files
    ensures backup.Some? ==> AgreeOutside(r.files, s.files, {backup.value.0, backup.value.1})
    ensures backup.Some? && o.backupOk && backup.value.0 in s.files ==>
      backup.value.1 in r.files && r.files[backup.value.1] == s.files[backup.value.0]
    ensures backup.Some? && !(o.backupOk && backup.value.0 in s.files) ==> r.files == s.files
  {
    var backed := if backup.Some? then AfterRename(s, backup.value.0, backup.value.1, o.backupOk) else s;
    AfterStart(backed, o.liveStartOk)
  }

  /** One tick of an INI watchdog whose liveness branch backs up the log as given. */
  function WatchdogTick(s: State, o: TickOracle, backup: Option<(Path, Path)>): (r: State)
    ensures r.registry == s.registry && r.jobs == s.jobs && r.nextJob == s.nextJob
    ensures forall m :: Outcomes(r.trace, m) == Outcomes(s.trace, m)
    ensures Reports(r.trace) == Reports(s.trace)
    // no configuration, no key or an unparsable value: nothing happens
    ensures Flag(s, o).None? ==> r == s
    // restart requested: stop, then start, nothing else; the liveness branch is not taken
    ensures Flag(s, o) == Some(true) ==>
      && ServiceCalls(r.trace) == ServiceCalls(s.trace) + [StopAgent(o.stopOk)] +
           (if o.stopOk then [StartAgent(o.startOk)] else [])
      && r.files == s.files
    // the flag is written back as "false" only after both calls and the save succeeded
    ensures Flag(s, o) == Some(true) && o.stopOk && o.startOk && o.saveOk ==>
      r.ini == s.ini[RestartRequiredKey := "false"]
    ensures !(Flag(s, o) == Some(true) && o.stopOk && o.startOk && o.saveOk) ==> r.ini == s.ini
    // no restart requested and running: no effect
    ensures Flag(s, o) == Some(false) && AgentRunning(s, o) ==> r == s
    // no restart requested and not running: exactly one start
    ensures Flag(s, o) == Some(false) && !AgentRunning(s, o) ==>
      r == StartWhenStopped(s, o, backup)
  {
    match Flag(s, o)
    case None => s
    case Some(true) =>
      var (restarted, ok) := RestartServiceSpec(s, o.stopOk, o.startOk);
      if !ok then restarted
      else AfterSave(restarted, s.ini[RestartRequiredKey := "false"], o.saveOk)
    case Some(false) =>
      if AgentRunning(s, o) then s else StartWhenStopped(s, o, backup)
  }

  /** After a tick that cleared the flag, the next tick never stops the service:
      it does nothing or starts a stopped service. */
  lemma ClearedFlagStaysQuiet(s: State, o: TickOracle, next: TickOracle, backup: Option<(Path, Path)>)
    requires Flag(s, o) == Some(true) && o.stopOk && o.startOk && o.saveOk
    ensures var r := WatchdogTick(s, o, backup);
      && r.running
      && Flag(r, next) != Some(true)
      && var calls := ServiceCalls(WatchdogTick(r, next, backup).trace);
         calls == ServiceCalls(r.trace) || calls == ServiceCalls(r.trace) + [StartAgent(next.liveStartOk)]
  {
    var r := WatchdogTick(s, o, backup);
    ParseBoolSpellings("false");
    assert r.ini[RestartRequiredKey] == "false";
  }

  /** A restart that failed leaves the flag set, so the next tick that loads the
      configuration stops the service again. */
  lemma FailedRestartIsRetried(s: State, o: TickOracle, next: TickOracle, backup: Option<(Path, Path)>)
    requires Flag(s, o) == Some(true) && !(o.stopOk && o.startOk) && next.loadOk
    ensures var r := WatchdogTick(s, o, backup);
      && Flag(r, next) == Some(true)
      && ServiceCalls(WatchdogTick(r, next, backup).trace)[..|ServiceCalls(r.trace)| + 1] ==
           ServiceCalls(r.trace) + [StopAgent(next.stopOk)]
  {
    var r := WatchdogTick(s, o, backup);
    assert r.ini == s.ini;
  }

  /** A running service with the flag clear is a fixed point of the tick. */
  lemma IdleTickIsIdempotent(s: State, o: TickOracle, backup: Option<(Path, Path)>)
    requires Flag(s, o) == Some(false) && AgentRunning(s, o)
    ensures WatchdogTick(WatchdogTick(s, o, backup), o, backup) == s
  {
  }
}

/**
 * The registry-backed watchdog tick of the service/ revision
 * (service/watchdog.go): restart the agent service when the agent hive's
 * RestartRequired DWORD is 1, then reset it to 0. This revision has no
 * liveness check.
 */
module ServiceWatchdog {
  import opened Env

  const RestartRequiredName := "RestartRequired"

  /** restartRequired after GetIntegerValue: the value reads as an integer and is 1.
      A hive that cannot be opened makes every read fail. */
  predicate RestartRequested(reg: map<string, RegValue>, hiveOk: bool)
  {
    hiveOk && RestartRequiredName in reg && reg[RestartRequiredName] == RegInteger(1)
  }

  /** The answers the outside world gives to one tick. */
  datatype TickOracle = TickOracle(
    hiveOk: bool,   // registry.OpenKey on SOFTWARE\OpenUEM\Agent
    stopOk: bool,   // WindowsSvcControl(stop)
    startOk: bool,  // WindowsStartService
    setOk: bool)    // SetDWordValue("RestartRequired", 0)

  /** One Watchdog tick. */
  function RegistryWatchdogSpec(s: State, o: TickOracle): (r: State)
    ensures r.files == s.files && r.ini == s.ini && r.jobs == s.jobs && r.nextJob == s.nextJob
    ensures forall m :: Outcomes(r.trace, m) == Outcomes(s.trace, m)
    ensures Reports(r.trace) == Reports(s.trace)
    // no request: no service call and nothing written
    ensures !RestartRequested(s.registry, o.hiveOk) ==> r == s
    // a request: stop, and start only after a successful stop
    ensures RestartRequested(s.registry, o.hiveOk) ==>
      ServiceCalls(r.trace) == ServiceCalls(s.trace) + [StopAgent(o.stopOk)] +
        (if o.stopOk then [StartAgent(o.startOk)] else [])
    // the flag is reset to 0 exactly when both calls succeeded and the write did
    ensures RestartRequested(s.registry, o.hiveOk) && o.stopOk && o.startOk && o.setOk ==>
      r.registry == s.registry[RestartRequiredName := RegInteger(0)]
    ensures !(RestartRequested(s.registry, o.hiveOk) && o.stopOk && o.startOk && o.setOk) ==>
      r.registry == s.registry
    ensures RestartRequested(s.registry, o.hiveOk) ==>
      r.running == (if o.stopOk then o.startOk else s.running)
  {
    if !RestartRequested(s.registry, o.hiveOk) then s
    else
      var stopped := AfterStop(s, o.stopOk);
      if !o.stopOk then stopped
      else
        var started := AfterStart(stopped, o.startOk);
        if !o.startOk then started
        else AfterSetRegistry(started, RestartRequiredName, RegInteger(0), o.setOk)
  }

  /** A flag left set by a failed restart is acted on again by the next tick. */
  lemma FailedRestartIsRetried(s: State, o: TickOracle, next: TickOracle)
    requires RestartRequested(s.registry, o.hiveOk) && !(o.stopOk && o.startOk) && next.hiveOk
    ensures var r := RegistryWatchdogSpec(s, o);
      && RestartRequested(r.registry, next.hiveOk)
      && ServiceCalls(RegistryWatchdogSpec(r, next).trace)[..|ServiceCalls(r.trace)| + 1] ==
           ServiceCalls(r.trace) + [StopAgent(next.stopOk)]
  {
    var r := RegistryWatchdogSpec(s, o);
    var r2 := RegistryWatchdogSpec(r, next);
    var calls := ServiceCalls(r.trace);
    assert ServiceCalls(r2.trace) == calls + [StopAgent(next.stopOk)] +
      (if next.stopOk then [StartAgent(next.startOk)] else []);
  }

  /** After a tick that reset the flag, every later tick is inert. */
  lemma ResetTickIsFinal(s: State, o: TickOracle, next: TickOracle)
    requires RestartRequested(s.registry, o.hiveOk) && o.stopOk && o.startOk && o.setOk
    ensures var r := RegistryWatchdogSpec(s, o);
      && r.running
      && RegistryWatchdogSpec(r, next) == r
  {
    var r := RegistryWatchdogSpec(s, o);
    assert r.registry[RestartRequiredName] == RegInteger(0);
  }

  method Watchdog(w: World, o: TickOracle)
    modifies w
    ensures w.View() == RegistryWatchdogSpec(old(w.View()), o)
  {
    var restartRequired := RestartRequested(w.registry, o.hiveOk);
    if restartRequired {
      var stopped := w.Stop(o.stopOk);
      if !stopped {
        return;
      }
      var started := w.Start(o.startOk);
      if !started {
        return;
      }
      w.SetRegistry(RestartRequiredName, RegInteger(0), o.setOk);
    }
  }
}

/**
 * The recurring jobs the updater registers with its task scheduler: the
 * 5-minute watchdog job, whose StartWatchdogJob is the same code in
 * service/watchdog.go, internal/common/watchdog.go and internal/common/service.go.
 */
module Scheduler {
  import opened Env

  const WatchdogMinutes: nat := 5

  /** The state after TaskScheduler.NewJob(DurationJob(5 minutes), Watchdog);
      err is the scheduler's error, if any. */
  function StartWatchdogJobSpec(s: State, err: Option<string>): (r: State)
    ensures r.files == s.files && r.running == s.running && r.trace == s.trace
    ensures r.ini == s.ini && r.registry == s.registry
    ensures err.Some? ==> r.jobs == s.jobs && r.nextJob == s.nextJob
    ensures err.None? ==>
      && r.jobs == s.jobs + [Job(s.nextJob, Every(WatchdogMinutes), RunWatchdog)]
      && r.nextJob == s.nextJob + 1
  {
    AfterNewJob(s, Every(WatchdogMinutes), RunWatchdog, err.None?)
  }

  /** fmt.Errorf("could not start the Watchdog job: %v", err). */
  function WatchdogJobError(err: string): string
  {
    "could not start the Watchdog job: " + err
  }

  /** A successful registration adds exactly one watchdog job, under a fresh identifier. */
  lemma StartWatchdogJobAddsOne(s: State)
    requires forall j :: j in s.jobs ==> j.id < s.nextJob
    ensures var r := StartWatchdogJobSpec(s, None);
      && |r.jobs| == |s.jobs| + 1
      && !HasJob(s.jobs, s.nextJob) && HasJob(r.jobs, s.nextJob)
      && forall j :: j in r.jobs ==> j.id < r.nextJob
  {
    var r := StartWatchdogJobSpec(s, None);
    assert r.jobs[|s.jobs|] == Job(s.nextJob, Every(WatchdogMinutes), RunWatchdog);
  }
}

/**
 * The abstract world the updater acts on.
 *
 * Everything the updater touches outside its own process is modelled here:
 * the filesystem, whether the agent service runs, the agent's INI
 * configuration file, the Windows registry hive of the agent, the task
 * scheduler's job list, and an ordered trace of every call the updater makes
 * into an external collaborator (message acknowledgements, status records,
 * service control, launched commands, NATS connection attempts).
 *
 * Every external call that can fail takes its outcome as a parameter (an
 * oracle): the model says what the updater does for each answer, never which
 * answer the operating system gives.
 */
module Env {

  type Path = string
  type Content = string
  type MsgId = nat
  type JobId = nat

  datatype Option<T> = None | Some(value: T)

  /** What the updater can tell the message bus about one message. */
  datatype Outcome = Ack | NakDelay(minutes: nat) | Term

  /** Values of the UpdaterLastExecutionStatus record (openuem_nats constants). */
  datatype Status = UpdateSuccess | UpdateError

  /** One call of a SaveTaskInfoTo* helper: the status and its free-text result. */
  datatype Report = Report(status: Status, result: string)

  /** Service-control calls on the managed agent service, with their outcome. */
  datatype ServiceCall = StopAgent(ok: bool) | StartAgent(ok: bool)

  /** An external command (argument vector), and whether it could be started. */
  datatype Launch = Launch(argv: seq<string>, ok: bool)

  /** Calls into the NATS client library. */
  datatype NatsCall = Connect(ok: bool) | Subscribe(ok: bool)

  /** One entry of the trace of external calls, in the order they were made. */
  datatype Event =
    | Sent(msg: MsgId, outcome: Outcome)
    | Recorded(report: Report)
    | Service(call: ServiceCall)
    | Launched(launch: Launch)
    | Finished(argv: seq<string>, ok: bool)
    | Nats(request: NatsCall)

  /** A value stored in the agent's registry hive. */
  datatype RegValue = RegString(text: string) | RegInteger(number: nat)

  /** A key of the INI configuration file: section and key name. */
  datatype IniKey = IniKey(section: string, name: string)

  /** time.Time as the update request carries it: the zero value or an instant (Unix seconds). */
  datatype Timestamp = ZeroTime | Instant(unix: int)

  /** openuem_nats.OpenUEMUpdateRequest, once decoded from a message. */
  datatype UpdateRequest = UpdateRequest(
    version: string,
    downloadFrom: string,
    downloadHash: string,
    updateAt: Timestamp,
    updateNow: bool)

  /** A JetStream message: its identity (for the outcome log) and its subject. */
  datatype Msg = Msg(id: MsgId, subject: string)

  /** gocron job definitions used by the updater. */
  datatype Schedule = Immediately | OnceAt(unix: int) | Every(minutes: nat)

  /** What a scheduled job runs. */
  datatype Task = RunUpdate(request: UpdateRequest, msg: MsgId) | RunWatchdog | RetryConnect

  datatype Job = Job(id: JobId, schedule: Schedule, task: Task)

  /** time.Now(): Unix seconds, and the local rendering "2006-01-02T15:04:05". */
  datatype Clock = Clock(unix: nat, local: string)

  /** Result of openuem_utils.DownloadFile: the verified content, or a failure
      that may have left a partial file at the target path. */
  datatype Fetch = Fetched(content: Content) | FetchFailed(leftover: Option<Content>)

  datatype State = State(
    files: map<Path, Content>,
    running: bool,
    ini: map<IniKey, string>,
    registry: map<string, RegValue>,
    trace: seq<Event>,
    jobs: seq<Job>,
    nextJob: JobId)

  // ---------------------------------------------------------------------------
  // Projections of the trace

  function OutcomeOf(e: Event, m: MsgId): seq<Outcome>
  {
    if e.Sent? && e.msg == m then [e.outcome] else []
  }

  /** The outcomes sent for message m, in order. */
  function Outcomes(t: seq<Event>, m: MsgId): seq<Outcome>
  {
    if t == [] then [] else Outcomes(t[..|t| - 1], m) + OutcomeOf(t[|t| - 1], m)
  }

  function ReportOf(e: Event): seq<Report>
  {
    if e.Recorded? then [e.report] else []
  }

  /** The status records written, in order. */
  function Reports(t: seq<Event>): seq<Report>
  {
    if t == [] then [] else Reports(t[..|t| - 1]) + ReportOf(t[|t| - 1])
  }

  function CallOf(e: Event): seq<ServiceCall>
  {
    if e.Service? then [e.call] else []
  }

  /** The service-control calls made, in order. */
  function ServiceCalls(t: seq<Event>): seq<ServiceCall>
  {
    if t == [] then [] else ServiceCalls(t[..|t| - 1]) + CallOf(t[|t| - 1])
  }

  function LaunchOf(e: Event): seq<Launch>
  {
    if e.Launched? then [e.launch] else []
  }

  /** The external commands started, in order. */
  function Launches(t: seq<Event>): seq<Launch>
  {
    if t == [] then [] else Launches(t[..|t| - 1]) + LaunchOf(t[|t| - 1])
  }

  function NatsOf(e: Event): seq<NatsCall>
  {
    if e.Nats? then [e.request] else []
  }

  /** The NATS connect and subscribe attempts, in order. */
  function NatsCalls(t: seq<Event>): seq<NatsCall>
  {
    if t == [] then [] else NatsCalls(t[..|t| - 1]) + NatsOf(t[|t| - 1])
  }

  lemma {:induction false} OutcomesAppend(a: seq<Event>, b: seq<Event>, m: MsgId)
    ensures Outcomes(a + b, m) == Outcomes(a, m) + Outcomes(b, m)
    decreases |b|
  {
    if b == [] {
      assert a + b == a;
    } else {
      OutcomesAppend(a, b[..|b| - 1], m);
      assert (a + b)[..|a + b| - 1] == a + b[..|b| - 1];
    }
  }

  lemma {:induction false} ReportsAppend(a: seq<Event>, b: seq<Event>)
    ensures Reports(a + b) == Reports(a) + Reports(b)
    decreases |b|
  {
    if b == [] {
      assert a + b == a;
    } else {
      ReportsAppend(a, b[..|b| - 1]);
      assert (a + b)[..|a + b| - 1] == a + b[..|b| - 1];
    }
  }

  lemma {:induction false} ServiceCallsAppend(a: seq<Event>, b: seq<Event>)
    ensures ServiceCalls(a + b) == ServiceCalls(a) + ServiceCalls(b)
    decreases |b|
  {
    if b == [] {
      assert a + b == a;
    } else {
      ServiceCallsAppend(a, b[..|b| - 1]);
      assert (a + b)[..|a + b| - 1] == a + b[..|b| - 1];
    }
  }

  lemma {:induction false} LaunchesAppend(a: seq<Event>, b: seq<Event>)
    ensures Launches(a + b) == Launches(a) + Launches(b)
    decreases |b|
  {
    if b == [] {
      assert a + b == a;
    } else {
      LaunchesAppend(a, b[..|b| - 1]);
      assert (a + b)[..|a + b| - 1] == a + b[..|b| - 1];
    }
  }

  lemma {:induction false} NatsCallsAppend(a: seq<Event>, b: seq<Event>)
    ensures NatsCalls(a + b) == NatsCalls(a) + NatsCalls(b)
    decreases |b|
  {
    if b == [] {
      assert a + b == a;
    } else {
      NatsCallsAppend(a, b[..|b| - 1]);
      assert (a + b)[..|a + b| - 1] == a + b[..|b| - 1];
    }
  }

  // ---------------------------------------------------------------------------
  // Primitive transitions. Each appends at most one event to the trace.

  /** The state after one more external call e. */
  function Logged(s: State, e: Event): (r: State)
    ensures r.files == s.files && r.running == s.running && r.ini == s.ini
    ensures r.registry == s.registry && r.jobs == s.jobs && r.nextJob == s.nextJob
    ensures r.trace == s.trace + [e]
    ensures forall m :: Outcomes(r.trace, m) == Outcomes(s.trace, m) + OutcomeOf(e, m)
    ensures Reports(r.trace) == Reports(s.trace) + ReportOf(e)
    ensures ServiceCalls(r.trace) == ServiceCalls(s.trace) + CallOf(e)
    ensures Launches(r.trace) == Launches(s.trace) + LaunchOf(e)
    ensures NatsCalls(r.trace) == NatsCalls(s.trace) + NatsOf(e)
  {
    var r := s.(trace := s.trace + [e]);
    assert r.trace[..|r.trace| - 1] == s.trace;
    r
  }

  /** A successful stop leaves the agent service stopped. */
  function AfterStop(s: State, ok: bool): (r: State)
    ensures r.files == s.files && r.ini == s.ini && r.registry == s.registry
    ensures r.jobs == s.jobs && r.nextJob == s.nextJob && r.running == (s.running && !ok)
    ensures forall m :: Outcomes(r.trace, m) == Outcomes(s.trace, m)
    ensures Reports(r.trace) == Reports(s.trace) && Launches(r.trace) == Launches(s.trace)
    ensures ServiceCalls(r.trace) == ServiceCalls(s.trace) + [StopAgent(ok)]
    ensures NatsCalls(r.trace) == NatsCalls(s.trace)
  {
    Logged(s, Service(StopAgent(ok))).(running := s.running && !ok)
  }

  /** A successful start leaves the agent service running. */
  function AfterStart(s: State, ok: bool): (r: State)
    ensures r.files == s.files && r.ini == s.ini && r.registry == s.registry
    ensures r.jobs == s.jobs && r.nextJob == s.nextJob && r.running == (s.running || ok)
    ensures forall m :: Outcomes(r.trace, m) == Outcomes(s.trace, m)
    ensures Reports(r.trace) == Reports(s.trace) && Launches(r.trace) == Launches(s.trace)
    ensures ServiceCalls(r.trace) == ServiceCalls(s.trace) + [StartAgent(ok)]
    ensures NatsCalls(r.trace) == NatsCalls(s.trace)
  {
    Logged(s, Service(StartAgent(ok))).(running := s.running || ok)
  }

  /** The effect of a successful os.Rename on the filesystem: the target is
      replaced, the source disappears; renaming a file onto itself changes nothing. */
  function Moved(files: map<Path, Content>, from: Path, to: Path): (r: map<Path, Content>)
    requires from in files
    ensures to in r && r[to] == files[from]
    ensures from != to ==> from !in r
    ensures forall p :: p != from && p != to ==> (p in r <==> p in files) && (p in r ==> r[p] == files[p])
    ensures from == to ==> r == files
  {
    (files - {from})[to := files[from]]
  }

  /** os.Rename fails when the source is missing, or when the OS refuses (ok == false). */
  function AfterRename(s: State, from: Path, to: Path, ok: bool): (r: State)
    ensures r.trace == s.trace && r.running == s.running && r.ini == s.ini && r.registry == s.registry
    ensures r.jobs == s.jobs && r.nextJob == s.nextJob
  {
    if ok && from in s.files then s.(files := Moved(s.files, from, to)) else s
  }

  /** A download writes the target path only. */
  function AfterDownload(s: State, to: Path, fetch: Fetch): (r: State)
    ensures r.trace == s.trace && r.running == s.running && r.ini == s.ini && r.registry == s.registry
    ensures r.jobs == s.jobs && r.nextJob == s.nextJob
    ensures AgreeOutside(r.files, s.files, {to})
    ensures fetch.Fetched? ==> to in r.files && r.files[to] == fetch.content
  {
    match fetch
    case Fetched(c) => s.(files := s.files[to := c])
    case FetchFailed(None) => s
    case FetchFailed(Some(c)) => s.(files := s.files[to := c])
  }

  function AfterSave(s: State, cfg: map<IniKey, string>, ok: bool): (r: State)
  {
    if ok then s.(ini := cfg) else s
  }

  function AfterSetRegistry(s: State, name: string, v: RegValue, ok: bool): (r: State)
  {
    if ok then s.(registry := s.registry[name := v]) else s
  }

  /** gocron NewJob: on success the job is appended under a fresh identifier. */
  function AfterNewJob(s: State, schedule: Schedule, task: Task, ok: bool): (r: State)
  {
    if ok then s.(jobs := s.jobs + [Job(s.nextJob, schedule, task)], nextJob := s.nextJob + 1) else s
  }

  predicate HasJob(jobs: seq<Job>, id: JobId)
  {
    exists j :: j in jobs && j.id == id
  }

  /** The job list without the jobs carrying identifier id. */
  function WithoutJob(jobs: seq<Job>, id: JobId): (r: seq<Job>)
    ensures forall j :: j in r <==> j in jobs && j.id != id
    ensures |r| <= |jobs|
  {
    if jobs == [] then []
    else if jobs[0].id == id then WithoutJob(jobs[1..], id)
    else [jobs[0]] + WithoutJob(jobs[1..], id)
  }

  /** gocron RemoveJob fails when no job has the identifier. */
  function AfterRemoveJob(s: State, id: JobId, ok: bool): (r: State)
  {
    if ok && HasJob(s.jobs, id) then s.(jobs := WithoutJob(s.jobs, id)) else s
  }

  /** The two states agree on every path outside ps. */
  ghost predicate AgreeOutside(f: map<Path, Content>, g: map<Path, Content>, ps: set<Path>)
  {
    forall p :: p !in ps ==> (p in f <==> p in g) && (p in f ==> f[p] == g[p])
  }

  // ---------------------------------------------------------------------------
  // Paths

  /** filepath.Join on Windows, for a clean directory and a relative path. */
  function WinJoin(dir: Path, rel: string): Path
  {
    dir + "\\" + rel
  }

  /** filepath.Join on Linux and macOS, for a clean directory and a relative path. */
  function UnixJoin(dir: Path, rel: string): Path
  {
    dir + "/" + rel
  }

  /** Two names under the same directory are the same path only if the names are equal. */
  lemma JoinInjective(dir: Path, a: string, b: string)
    ensures WinJoin(dir, a) == WinJoin(dir, b) ==> a == b
    ensures UnixJoin(dir, a) == UnixJoin(dir, b) ==> a == b
  {
    if WinJoin(dir, a) == WinJoin(dir, b) {
      assert a == WinJoin(dir, a)[|dir| + 1..];
      assert b == WinJoin(dir, b)[|dir| + 1..];
    }
    if UnixJoin(dir, a) == UnixJoin(dir, b) {
      assert a == UnixJoin(dir, a)[|dir| + 1..];
      assert b == UnixJoin(dir, b)[|dir| + 1..];
    }
  }

  // ---------------------------------------------------------------------------
  // The world object

  class World {
    var files: map<Path, Content>
    var running: bool
    var ini: map<IniKey, string>
    var registry: map<string, RegValue>
    var trace: seq<Event>
    var jobs: seq<Job>
    var nextJob: JobId

    function View(): State
      reads this
    {
      State(files, running, ini, registry, trace, jobs, nextJob)
    }

    constructor (s: State)
      ensures View() == s
    {
      files, running, ini, registry := s.files, s.running, s.ini, s.registry;
      trace, jobs, nextJob := s.trace, s.jobs, s.nextJob;
    }

    /** msg.Ack(), msg.NakWithDelay(d) or msg.Term() on message m. */
    method Send(m: MsgId, o: Outcome)
      modifies this
      ensures View() == Logged(old(View()), Sent(m, o))
    {
      trace := trace + [Sent(m, o)];
    }

    /** A call of one of the SaveTaskInfoTo* helpers, noted in the trace. */
    method Record(report: Report)
      modifies this
      ensures View() == Logged(old(View()), Recorded(report))
    {
      trace := trace + [Recorded(report)];
    }

    /** Stop the agent service; returns whether it stopped. */
    method Stop(ok: bool) returns (stopped: bool)
      modifies this
      ensures stopped == ok
      ensures View() == AfterStop(old(View()), ok)
    {
      trace := trace + [Service(StopAgent(ok))];
      if ok {
        running := false;
      }
      stopped := ok;
    }

    /** Start the agent service; returns whether it started. */
    method Start(ok: bool) returns (started: bool)
      modifies this
      ensures started == ok
      ensures View() == AfterStart(old(View()), ok)
    {
      trace := trace + [Service(StartAgent(ok))];
      if ok {
        running := true;
      }
      started := ok;
    }

    /** os.Stat succeeds. */
    function Exists(p: Path): bool
      reads this
    {
      p in files
    }

    /** os.Rename(from, to). */
    method Rename(from: Path, to: Path, ok: bool) returns (done: bool)
      modifies this
      ensures done == (ok && from in old(files))
      ensures View() == AfterRename(old(View()), from, to, ok)
    {
      done := ok && from in files;
      if done {
        files := Moved(files, from, to);
      }
    }

    /** openuem_utils.DownloadFile(url, to, hash). */
    method Download(to: Path, fetch: Fetch) returns (ok: bool)
      modifies this
      ensures ok == fetch.Fetched?
      ensures View() == AfterDownload(old(View()), to, fetch)
    {
      match fetch {
        case Fetched(c) => files := files[to := c];
        case FetchFailed(None) =>
        case FetchFailed(Some(c)) => files := files[to := c];
      }
      ok := fetch.Fetched?;
    }

    /** exec.Command(argv...).Start(). */
    method Exec(argv: seq<string>, ok: bool) returns (started: bool)
      modifies this
      ensures started == ok
      ensures View() == Logged(old(View()), Launched(Launch(argv, ok)))
    {
      trace := trace + [Launched(Launch(argv, ok))];
      started := ok;
    }

    /** cmd.Wait() on a started command. */
    method Wait(argv: seq<string>, ok: bool) returns (succeeded: bool)
      modifies this
      ensures succeeded == ok
      ensures View() == Logged(old(View()), Finished(argv, ok))
    {
      trace := trace + [Finished(argv, ok)];
      succeeded := ok;
    }

    /** cfg.SaveTo(configFile): the whole in-memory configuration replaces the file. */
    method SaveIni(cfg: map<IniKey, string>, ok: bool)
      modifies this
      ensures View() == AfterSave(old(View()), cfg, ok)
    {
      if ok {
        ini := cfg;
      }
    }

    /** SetStringValue / SetDWordValue on the agent hive. */
    method SetRegistry(name: string, v: RegValue, ok: bool)
      modifies this
      ensures View() == AfterSetRegistry(old(View()), name, v, ok)
    {
      if ok {
        registry := registry[name := v];
      }
    }

    /** TaskScheduler.NewJob: err is the scheduler's error, if any. */
    method NewJob(schedule: Schedule, task: Task, err: Option<string>) returns (id: Option<JobId>)
      modifies this
      ensures id == if err.None? then Some(old(nextJob)) else None
      ensures View() == AfterNewJob(old(View()), schedule, task, err.None?)
    {
      if err.None? {
        id := Some(nextJob);
        jobs := jobs + [Job(nextJob, schedule, task)];
        nextJob := nextJob + 1;
      } else {
        id := None;
      }
    }

    /** TaskScheduler.RemoveJob(id). */
    method RemoveJob(id: JobId, ok: bool) returns (done: bool)
      modifies this
      ensures done == (ok && HasJob(old(jobs), id))
      ensures View() == AfterRemoveJob(old(View()), id, ok)
    {
      done := ok && HasJob(jobs, id);
      if done {
        jobs := WithoutJob(jobs, id);
      }
    }

    /** A NATS connect or subscribe attempt. */
    method CallNats(call: NatsCall) returns (ok: bool)
      modifies this
      ensures ok == call.ok
      ensures View() == Logged(old(View()), Nats(call))
    {
      trace := trace + [Nats(call)];
      ok := call.ok;
    }
  }
}

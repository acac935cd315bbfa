/**
 * The Windows agent's executable layout and the rollback protocol
 * (AgentRollback), which is line for line the same in service/windows.go and
 * in internal/common/windows.go: put updater\rollback.exe back in place of
 * openuem-agent.exe and restart the service, Acking the message on every exit.
 */
module WindowsAgent {
  import opened Env

  /** filepath.Join(cwd, "openuem-agent.exe"). */
  function AgentExe(cwd: Path): Path { WinJoin(cwd, "openuem-agent.exe") }

  /** filepath.Join(cwd, "updater", "rollback.exe"). */
  function RollbackExe(cwd: Path): Path { WinJoin(cwd, "updater\\rollback.exe") }

  /** filepath.Join(cwd, "updater", "download.exe"): where the service/ revision stages a download. */
  function StagedUpdate(cwd: Path): Path { WinJoin(cwd, "updater\\download.exe") }

  /** The three files of the swap protocol are three different paths. */
  lemma LayoutDistinct(cwd: Path)
    ensures AgentExe(cwd) != RollbackExe(cwd)
    ensures AgentExe(cwd) != StagedUpdate(cwd)
    ensures RollbackExe(cwd) != StagedUpdate(cwd)
  {
    JoinInjective(cwd, "openuem-agent.exe", "updater\\rollback.exe");
    JoinInjective(cwd, "openuem-agent.exe", "updater\\download.exe");
    JoinInjective(cwd, "updater\\rollback.exe", "updater\\download.exe");
    assert "updater\\rollback.exe"[8] != "updater\\download.exe"[8];
  }

  /** The answers the outside world gives to one rollback. */
  datatype RollbackOracle = RollbackOracle(
    cwd: Option<Path>,   // openuem_utils.GetWd()
    stopOk: bool,        // WindowsSvcControl(stop)
    renameOk: bool,      // os.Rename(rollback, agent), when the source exists
    startOk: bool)       // WindowsStartService

  /** AgentRollback on message m. */
  function AgentRollbackSpec(s: State, m: MsgId, o: RollbackOracle): (r: State)
  {
    if o.cwd.None? || RollbackExe(o.cwd.value) !in s.files then
      Logged(s, Sent(m, Ack))
    else
      var cwd := o.cwd.value;
      var stopped := AfterStop(s, o.stopOk);
      var renamed := AfterRename(stopped, RollbackExe(cwd), AgentExe(cwd), o.renameOk);
      if !o.renameOk then Logged(renamed, Sent(m, Ack))
      else Logged(AfterStart(renamed, o.startOk), Sent(m, Ack))
  }

  /** Every exit Acks the message exactly once, never Naks, and writes no record or job. */
  lemma RollbackAlwaysAcks(s: State, m: MsgId, o: RollbackOracle)
    ensures var r := AgentRollbackSpec(s, m, o);
      && Outcomes(r.trace, m) == Outcomes(s.trace, m) + [Ack]
      && Reports(r.trace) == Reports(s.trace)
      && r.jobs == s.jobs && r.registry == s.registry && r.ini == s.ini
  {
    if o.cwd.Some? && RollbackExe(o.cwd.value) in s.files {
      var cwd := o.cwd.value;
      var stopped := AfterStop(s, o.stopOk);
      var renamed := AfterRename(stopped, RollbackExe(cwd), AgentExe(cwd), o.renameOk);
      var last := if o.renameOk then AfterStart(renamed, o.startOk) else renamed;
      assert Outcomes(last.trace, m) == Outcomes(s.trace, m) && Reports(last.trace) == Reports(s.trace);
      assert AgentRollbackSpec(s, m, o) == Logged(last, Sent(m, Ack));
    }
  }

  /** Without a working directory or a rollback file, nothing is stopped and no file moves. */
  lemma RollbackWithoutBackupIsInert(s: State, m: MsgId, o: RollbackOracle)
    requires o.cwd.None? || RollbackExe(o.cwd.value) !in s.files
    ensures var r := AgentRollbackSpec(s, m, o);
      r.files == s.files && r.running == s.running && ServiceCalls(r.trace) == ServiceCalls(s.trace)
  {
  }

  /** With a rollback file: stop first, start only after the rename succeeded;
      a successful rename puts the rollback content at the agent path. */
  lemma RollbackOrder(s: State, m: MsgId, o: RollbackOracle)
    requires o.cwd.Some? && RollbackExe(o.cwd.value) in s.files
    ensures var r := AgentRollbackSpec(s, m, o);
      var cwd := o.cwd.value;
      && ServiceCalls(r.trace) == ServiceCalls(s.trace) + [StopAgent(o.stopOk)] +
           (if o.renameOk then [StartAgent(o.startOk)] else [])
      && (o.renameOk ==>
            && AgentExe(cwd) in r.files && r.files[AgentExe(cwd)] == s.files[RollbackExe(cwd)]
            && RollbackExe(cwd) !in r.files)
      && (!o.renameOk ==> r.files == s.files)
      && (r.running <==> (s.running && !o.stopOk) || (o.renameOk && o.startOk))
  {
    LayoutDistinct(o.cwd.value);
  }
}

/**
 * The messenger handlers of the service/ revision (service/windows.go):
 * updateMessengerHandler replaces openuem-messenger.exe with the release's
 * Windows build when the installed MessengerVersion is older, keeping the old
 * executable as updater\messenger-rollback.exe; rollbackMessengerHandler puts
 * that file back. The first never settles its message; the second Acks it on
 * every path.
 */
module ServiceMessenger {
  import opened Env
  import opened UpdateTasks

  /** One entry of openuem_nats.OpenUEMRelease.Files. */
  datatype ReleaseFile = ReleaseFile(arch: string, os: string, fileURL: string, checksum: string)

  /** openuem_nats.OpenUEMRelease, once decoded. */
  datatype Release = Release(version: string, files: seq<ReleaseFile>)

  /** runtime.GOOS of the Windows build. */
  const GoOS := "windows"

  const MessengerVersionName := "MessengerVersion"

  /** filepath.Join(cwd, "updater", "messenger.exe"). */
  function MessengerStage(cwd: Path): Path { WinJoin(cwd, "updater\\messenger.exe") }

  /** filepath.Join(cwd, "openuem-messenger.exe"). */
  function MessengerExe(cwd: Path): Path { WinJoin(cwd, "openuem-messenger.exe") }

  /** filepath.Join(cwd, "updater", "messenger-rollback.exe"). */
  function MessengerRollback(cwd: Path): Path { WinJoin(cwd, "updater\\messenger-rollback.exe") }

  lemma MessengerLayoutDistinct(cwd: Path)
    ensures MessengerStage(cwd) != MessengerExe(cwd)
    ensures MessengerStage(cwd) != MessengerRollback(cwd)
    ensures MessengerExe(cwd) != MessengerRollback(cwd)
  {
    JoinInjective(cwd, "updater\\messenger.exe", "openuem-messenger.exe");
    JoinInjective(cwd, "updater\\messenger.exe", "updater\\messenger-rollback.exe");
    JoinInjective(cwd, "openuem-messenger.exe", "updater\\messenger-rollback.exe");
  }

  predicate Applicable(f: ReleaseFile, arch: string)
  {
    f.arch == arch && f.os == GoOS
  }

  /** The index of the first file built for this architecture and Windows, if any. */
  function FirstApplicable(files: seq<ReleaseFile>, arch: string): (r: Option<nat>)
    ensures r.None? <==> forall i :: 0 <= i < |files| ==> !Applicable(files[i], arch)
    ensures r.Some? ==> r.value < |files| && Applicable(files[r.value], arch) &&
                        forall j :: 0 <= j < r.value ==> !Applicable(files[j], arch)
  {
    if files == [] then None
    else if Applicable(files[0], arch) then Some(0)
    else
      var rest := FirstApplicable(files[1..], arch);
      assert forall i :: 1 <= i < |files| ==> files[i] == files[1..][i - 1];
      if rest.None? then None else Some(rest.value + 1)
  }

  /** The download URL and checksum the handler ends up with: those of the first
      applicable file, or two empty strings. */
  function DownloadInfo(files: seq<ReleaseFile>, arch: string): (string, string)
  {
    var k := FirstApplicable(files, arch);
    if k.None? then ("", "") else (files[k.value].fileURL, files[k.value].checksum)
  }

  /** The loop over r.Files with its break. */
  method FindDownload(files: seq<ReleaseFile>, arch: string) returns (downloadFrom: string, downloadHash: string)
    ensures (downloadFrom, downloadHash) == DownloadInfo(files, arch)
  {
    downloadFrom, downloadHash := "", "";
    var i := 0;
    while i < |files|
      invariant 0 <= i <= |files|
      invariant forall j :: 0 <= j < i ==> !Applicable(files[j], arch)
      invariant downloadFrom == "" && downloadHash == ""
    {
      var f := files[i];
      if f.arch == arch && f.os == GoOS {
        downloadFrom := f.fileURL;
        downloadHash := f.checksum;
        break;
      }
      i := i + 1;
    }
  }

  /** k.GetStringValue("MessengerVersion"), or "" when it cannot be read. */
  function InstalledVersion(reg: map<string, RegValue>): string
  {
    if MessengerVersionName in reg && reg[MessengerVersionName].RegString? then reg[MessengerVersionName].text else ""
  }

  /** The answers the outside world gives to one run of updateMessengerHandler. */
  datatype MessengerOracle = MessengerOracle(
    cwd: Option<Path>,          // openuem_utils.GetWd()
    release: Decoded<Release>,  // json.Unmarshal of the payload
    hiveOk: bool,               // registry.OpenKey
    fetch: Fetch,               // DownloadFile to updater\messenger.exe
    backupOk: bool,             // os.Rename(messenger, messenger-rollback)
    installOk: bool,            // os.Rename(download, messenger)
    setOk: bool)                // SetStringValue("MessengerVersion")

  /** Whether the handler reaches the version comparison, and with which release. */
  predicate ReachesCompare(s: State, o: MessengerOracle, arch: string)
  {
    && o.cwd.Some? && o.release.Decoded? && o.release.value.version != ""
    && DownloadInfo(o.release.value.files, arch).0 != ""
    && DownloadInfo(o.release.value.files, arch).1 != ""
    && o.hiveOk
  }

  /** The swap once the installed version compares lower (downloaded, replaced, recorded). */
  function SwapMessenger(s: State, cwd: Path, version: string, o: MessengerOracle): (r: State)
    ensures r.trace == s.trace && r.running == s.running && r.ini == s.ini && r.jobs == s.jobs
    // only the staged, live and rollback messenger paths change
    ensures AgreeOutside(r.files, s.files, {MessengerStage(cwd), MessengerExe(cwd), MessengerRollback(cwd)})
    // the registry changes at most in MessengerVersion, and only once the new executable is in place
    ensures r.registry == s.registry || r.registry == s.registry[MessengerVersionName := RegString(version)]
    ensures r.registry != s.registry ==>
      o.fetch.Fetched? && MessengerExe(cwd) in r.files && r.files[MessengerExe(cwd)] == o.fetch.content
  {
    MessengerLayoutDistinct(cwd);
    var downloaded := AfterDownload(s, MessengerStage(cwd), o.fetch);
    if !o.fetch.Fetched? then downloaded
    else
      var found := MessengerExe(cwd) in downloaded.files;
      if found && !o.backupOk then downloaded
      else
        var backedUp := if found then AfterRename(downloaded, MessengerExe(cwd), MessengerRollback(cwd), true) else downloaded;
        if !(o.installOk && MessengerStage(cwd) in backedUp.files) then backedUp
        else
          var installed := AfterRename(backedUp, MessengerStage(cwd), MessengerExe(cwd), true);
          AfterSetRegistry(installed, MessengerVersionName, RegString(version), o.setOk)
  }

  /** updateMessengerHandler; compare stands for semver.Compare. */
  function UpdateMessengerSpec(s: State, o: MessengerOracle, arch: string, compare: (string, string) -> int): (r: State)
    // the handler never Acks or Naks, and calls no service
    ensures r.trace == s.trace && r.running == s.running && r.jobs == s.jobs && r.ini == s.ini
  {
    if !ReachesCompare(s, o, arch) then s
    else
      var version := o.release.value.version;
      if compare("v" + InstalledVersion(s.registry), "v" + version) >= 0 then s
      else SwapMessenger(s, o.cwd.value, version, o)
  }

  /** Every early return (no directory, bad payload, empty version, no file for
      this platform, unreadable hive) and an installed version that is not older
      leave everything as it was. */
  lemma MessengerUpdateOnlyWhenOlder(s: State, o: MessengerOracle, arch: string, compare: (string, string) -> int)
    requires !ReachesCompare(s, o, arch) ||
             compare("v" + InstalledVersion(s.registry), "v" + o.release.value.version) >= 0
    ensures UpdateMessengerSpec(s, o, arch, compare) == s
  {
  }

  /** The handler touches only the three messenger paths and the MessengerVersion
      value, and records the new version only once the new executable is in place. */
  lemma MessengerUpdateFootprint(s: State, o: MessengerOracle, arch: string, compare: (string, string) -> int)
    ensures var r := UpdateMessengerSpec(s, o, arch, compare);
      && (o.cwd.None? ==> r.files == s.files)
      && (o.cwd.Some? ==>
            AgreeOutside(r.files, s.files, {MessengerStage(o.cwd.value), MessengerExe(o.cwd.value), MessengerRollback(o.cwd.value)}))
      && (forall n :: n != MessengerVersionName ==>
            (n in r.registry <==> n in s.registry) && (n in r.registry ==> r.registry[n] == s.registry[n]))
      && (r.registry != s.registry ==>
            && o.cwd.Some? && o.fetch.Fetched? && o.release.Decoded?
            && MessengerExe(o.cwd.value) in r.files
            && r.files[MessengerExe(o.cwd.value)] == o.fetch.content
            && r.registry[MessengerVersionName] == RegString(o.release.value.version))
  {
    var r := UpdateMessengerSpec(s, o, arch, compare);
    if ReachesCompare(s, o, arch) &&
       compare("v" + InstalledVersion(s.registry), "v" + o.release.value.version) < 0 {
      var cwd := o.cwd.value;
      MessengerLayoutDistinct(cwd);
      var downloaded := AfterDownload(s, MessengerStage(cwd), o.fetch);
      if o.fetch.Fetched? {
        var found := MessengerExe(cwd) in downloaded.files;
        if !found || o.backupOk {
          var backedUp := if found then AfterRename(downloaded, MessengerExe(cwd), MessengerRollback(cwd), true) else downloaded;
          assert MessengerStage(cwd) in backedUp.files && backedUp.files[MessengerStage(cwd)] == o.fetch.content;
          assert AgreeOutside(backedUp.files, s.files, {MessengerStage(cwd), MessengerExe(cwd), MessengerRollback(cwd)});
        }
      }
    }
  }

  /** A successful swap keeps the previous executable as the rollback file, and
      records the new version exactly when the registry write succeeds. */
  lemma MessengerUpdateKeepsRollback(s: State, o: MessengerOracle, arch: string, compare: (string, string) -> int)
    requires ReachesCompare(s, o, arch)
    requires compare("v" + InstalledVersion(s.registry), "v" + o.release.value.version) < 0
    requires o.fetch.Fetched? && o.backupOk && o.installOk
    requires MessengerExe(o.cwd.value) in s.files
    ensures var r := UpdateMessengerSpec(s, o, arch, compare);
      var cwd := o.cwd.value;
      && MessengerExe(cwd) in r.files && r.files[MessengerExe(cwd)] == o.fetch.content
      && MessengerRollback(cwd) in r.files && r.files[MessengerRollback(cwd)] == s.files[MessengerExe(cwd)]
      && MessengerStage(cwd) !in r.files
      && r.registry == (if o.setOk then s.registry[MessengerVersionName := RegString(o.release.value.version)]
                        else s.registry)
  {
    MessengerLayoutDistinct(o.cwd.value);
  }

  /** The answers the outside world gives to one run of rollbackMessengerHandler. */
  datatype MessengerRollbackOracle = MessengerRollbackOracle(
    cwd: Option<Path>,   // openuem_utils.GetWd()
    renameOk: bool)      // os.Rename(messenger-rollback, messenger), when the source exists

  /** rollbackMessengerHandler on message m. The MessengerVersion value is kept. */
  function RollbackMessengerSpec(s: State, m: MsgId, o: MessengerRollbackOracle): (r: State)
    ensures r.running == s.running && r.registry == s.registry && r.ini == s.ini && r.jobs == s.jobs
    ensures Outcomes(r.trace, m) == Outcomes(s.trace, m) + [Ack]
    ensures Reports(r.trace) == Reports(s.trace) && ServiceCalls(r.trace) == ServiceCalls(s.trace)
  {
    if o.cwd.None? then Logged(s, Sent(m, Ack))
    else
      var from, to := MessengerRollback(o.cwd.value), MessengerExe(o.cwd.value);
      // missing rollback file, failed rename and success all end with the Ack
      Logged(AfterRename(s, from, to, o.renameOk), Sent(m, Ack))
  }

  /** The only file change a messenger rollback makes is moving the rollback file back. */
  lemma RollbackMessengerMoves(s: State, m: MsgId, o: MessengerRollbackOracle)
    ensures var r := RollbackMessengerSpec(s, m, o);
      if o.cwd.Some? && o.renameOk && MessengerRollback(o.cwd.value) in s.files then
        && MessengerExe(o.cwd.value) in r.files
        && r.files[MessengerExe(o.cwd.value)] == s.files[MessengerRollback(o.cwd.value)]
        && MessengerRollback(o.cwd.value) !in r.files
      else r.files == s.files
  {
    if o.cwd.Some? {
      MessengerLayoutDistinct(o.cwd.value);
    }
  }

  // ---------------------------------------------------------------------------
  // The handlers on the world

  method UpdateMessengerHandler(w: World, o: MessengerOracle, arch: string, compare: (string, string) -> int)
    modifies w
    ensures w.View() == UpdateMessengerSpec(old(w.View()), o, arch, compare)
  {
    if o.cwd.None? { return; }
    var cwd := o.cwd.value;
    if o.release.Undecodable? { return; }
    var r := o.release.value;
    if r.version == "" { return; }
    var downloadFrom, downloadHash := FindDownload(r.files, arch);
    if downloadFrom == "" || downloadHash == "" { return; }
    if !o.hiveOk { return; }
    var messengerVersion := InstalledVersion(w.registry);
    if compare("v" + messengerVersion, "v" + r.version) < 0 {
      var downloadPath := MessengerStage(cwd);
      var ok := w.Download(downloadPath, o.fetch);
      if !ok { return; }
      var messengerPath := MessengerExe(cwd);
      var messengerWasFound := w.Exists(messengerPath);
      if messengerWasFound {
        var renamed := w.Rename(messengerPath, MessengerRollback(cwd), o.backupOk);
        if !renamed { return; }
      }
      var replaced := w.Rename(downloadPath, messengerPath, o.installOk);
      if !replaced { return; }
      w.SetRegistry(MessengerVersionName, RegString(r.version), o.setOk);
      return;
    }
  }

  method RollbackMessengerHandler(w: World, m: MsgId, o: MessengerRollbackOracle)
    modifies w
    ensures w.View() == RollbackMessengerSpec(old(w.View()), m, o)
  {
    if o.cwd.None? {
      w.Send(m, Ack);
      return;
    }
    var cwd := o.cwd.value;
    var messengerPath := MessengerExe(cwd);
    var rollbackPath := MessengerRollback(cwd);
    if !w.Exists(rollbackPath) {
      w.Send(m, Ack);
      return;
    }
    var renamed := w.Rename(rollbackPath, messengerPath, o.renameOk);
    if !renamed {
      w.Send(m, Ack);
      return;
    }
    w.Send(m, Ack);
  }
}

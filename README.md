# OpenUEM agent updater — a Dafny model

The OpenUEM agent updater is a small service that runs beside the OpenUEM
agent on every managed endpoint. It subscribes to a JetStream consumer for the
subject of its own agent. An update request (version, download URL, checksum,
and "now" or a time) is turned into a one-time scheduler job. The job
downloads the new build, stops the agent, installs the build, restarts the
agent and writes the outcome ("last execution status, result and time") to
the agent's configuration: the INI file, or on Windows the registry in the
`service/` revision. Two periodic jobs sit beside it:

- a watchdog restarts the agent when its configuration asks for it and
  starts the agent when it is down;
- a NATS connect job retries the connection and the subscription every two
  minutes until they succeed.

The model covers both revisions of the code:

- `internal/common/…`, shared by Linux, macOS and Windows;
- `service/…`, the Windows service with registry records, the swap-and-restore
  install, and the messenger update and rollback.

## How the model is built

- `Env` holds the world the updater acts on, as a `class World`. Its fields
  are the files, whether the agent service runs, the INI configuration, the
  registry hive, the scheduler's jobs and an ordered trace of external calls:
  message outcomes, status records, service control, launched commands and
  NATS calls. Every external call that can fail takes its answer as a
  parameter (an oracle).
- Each operation of the source is a `method` on the `World` that makes the
  same calls in the same order as the Go code. Its `ensures` ties the new
  state to a pure function of the old state and the oracle answers, so the
  method is proved against that function (`w.View() == HandleUpdateSpec(old(w.View()), …)`).
- The properties the source promises are proved about those functions, in
  their own `ensures` and in lemmas. Examples: each message is settled exactly
  once; a failed restart is retried by the next tick; the retry job removes
  itself only after a subscription; only the three files of the swap protocol
  are touched.
- The trace is read through projections: `Outcomes(t, m)` for one message,
  `Reports`, `ServiceCalls`, `Launches` and `NatsCalls`. This lets the
  properties talk about one kind of effect at a time.
- `UpdaterService` (in `CommonService` and `ServiceWindows`) is a class with
  the fields the source updates in place: the agent identifier, the NATS
  server list, the certificate paths, the watchdog job and the NATS
  connection supervisor.
- Module layout:
  - `UpdateTasks`: the shared update handler logic.
  - `Scheduler`: the watchdog job registration.
  - `IniWatchdog`: the INI-flag watchdog tick shared by the three
    `internal/common` variants.
  - `WindowsAgent`: the Windows file layout and agent rollback.
  - Then one module per source file.

## Model

| member | source | states |
|---|---|---|
| UpdateTasks.SaveTaskInfo | internal/common/service.go:189-208 | One record call appends exactly one event to the trace: the record of that report. The INI file gets the three UpdaterLastExecution keys only when it loads and saves; otherwise it is unchanged. The registry variant writes the three values only when the hive opens. Files, service and jobs are untouched. |
| UpdateTasks.RegistryRecord | service/windows.go:335-343 | The three UpdaterLastExecution values hold the local time, the status text and the result. Every other registry value is kept. |
| UpdateTasks.IniRecord | internal/common/service.go:201-203 | The three UpdaterLastExecution keys of the Agent section hold the local time, the status text and the result. Every other key is kept. |
| UpdateTasks.EffectiveRequest | internal/common/service.go:141-144 | The request runs now exactly when it asked to, or when its time is set and already past. All other fields are kept, and a request with no time is unchanged. |
| UpdateTasks.PlannedSchedule | internal/common/service.go:146-178 | "now" gives an immediate job; a time gives a one-time job at that instant. No job is planned exactly when the request is neither "now" nor timed. |
| UpdateTasks.NakAndRecord | internal/common/service.go:134-139 | The message gets one Nak with the given delay and the log gets one report. No other message gets an outcome, and files, service and jobs are unchanged. |
| UpdateTasks.AckOrRecord | internal/common/service.go:180-184 | The message gets one Ack and no other message gets an outcome. An error report is added only when the Ack fails. |
| UpdateTasks.HandleUpdateSpec | internal/common/service.go:131-187 | No other message's outcomes change. Case by case: undecodable is Nak 60 plus an error record and no job; a scheduler refusal is Nak 60 plus an error record and no job; "now" or past is one immediate job with updateNow set, then Ack; future is one job at that time, then Ack; untimed is no job, then Ack. A record is written only on failure, and the handler never touches files or the service. |
| UpdateTasks.HandlerSendsOneOutcome | internal/common/service.go:131-187 | Every run settles its message with exactly one outcome, an Ack or a Nak of 60 minutes, an Ack exactly when the payload decodes and no job is refused, and the outcomes of every other message are unchanged. |
| UpdateTasks.HandlerSchedulesAtMostOne | internal/common/service.go:146-178 | A run adds at most one job, under the next job identifier, and only an update job for its own message. |
| Scheduler.StartWatchdogJobSpec | internal/common/service.go:288-304 | Registration adds one job every 5 minutes running the watchdog, or changes nothing when the scheduler refuses. |
| Scheduler.StartWatchdogJobAddsOne | service/watchdog.go:14-30 | A successful registration adds exactly one job, under a fresh identifier distinct from every existing job. |
| Logging.TrimExtension | internal/common/linux.go:106 | Cutting the extension off "stem.ext" gives back the stem. |
| Logging.LogPrefixOfFileName | internal/common/linux.go:106 | The log prefix of a file name "stem.ext" is its stem. |
| Logging.LogPrefixOfPath | internal/common/darwin.go:114 | A directory in front of the file name does not change the prefix. |
| Logging.LogPrefixWithoutExtension | internal/common/linux.go:106 | A name without a dot or a slash is its own prefix. |
| Logging.UpdaterLogPrefix | internal/common/linux.go:24 | The updater's log file openuem-updater.log logs under the prefix "openuem-updater". |
| WindowsAgent.LayoutDistinct | service/windows.go:356-394 | The agent, the rollback copy and the staged download are three different paths for every working directory. |
| WindowsAgent.RollbackAlwaysAcks | internal/common/windows.go:229-277 | Every exit of the agent rollback Acks the message exactly once, never Naks, and writes no record and no job. |
| WindowsAgent.RollbackWithoutBackupIsInert | internal/common/windows.go:229-277 | Without a working directory or a rollback file, the rollback stops nothing and moves no file. |
| WindowsAgent.RollbackOrder | internal/common/windows.go:237-270 | With a rollback file, the rollback stops the agent first. It starts the agent only when moving the rollback file over the agent succeeded, and the agent then holds the previous build. |
| IniWatchdog.ParseBoolSpellings | internal/common/watchdog.go:47-52 | Each accepted spelling has exactly one truth value (both directions), anything else is a parse error, and "false"/"true" read back as written. |
| IniWatchdog.RestartServiceSpec | internal/common/watchdog.go:79-94 | Restart succeeds iff stop and start succeed. The start is attempted only after a successful stop. |
| IniWatchdog.StartWhenStopped | internal/common/watchdog_linux.go:54-64 | The liveness branch starts the service once. The optional log backup moves the live log to its backup name when possible, and touches no other file. |
| IniWatchdog.WatchdogTick | internal/common/watchdog_linux.go:16-68 | Config unreadable or flag unparsable: the tick does nothing. Flag set: a restart, and the flag becomes false only after a restart and save that succeeded. Flag clear with the service running: nothing. Flag clear with the service down: the liveness start. |
| IniWatchdog.ClearedFlagStaysQuiet | internal/common/watchdog.go:56-66 | After a tick that cleared the flag, the next tick never stops the service. |
| IniWatchdog.FailedRestartIsRetried | internal/common/watchdog.go:56-66 | A failed restart leaves the flag set, so the next tick that loads the configuration restarts again. |
| IniWatchdog.IdleTickIsIdempotent | internal/common/watchdog.go:67-76 | A running service with the flag clear is a fixed point of the tick. |
| CommonWatchdog.StartsStoppedAgentWithoutBackup | internal/common/watchdog.go:67-76 | This variant starts a stopped agent and touches no file. |
| CommonWatchdog.RestartService | internal/common/watchdog.go:79-94 | The result is true iff stop and start succeed, and the world changes as the restart description says. |
| CommonWatchdog.IsAgentServiceRunning | internal/common/watchdog.go:96-114 | The agent counts as running iff the service manager answers and the service runs. This is the probe the tick description uses. |
| CommonWatchdog.Watchdog | internal/common/watchdog.go:33-77 | One tick of this variant changes the world exactly as the tick description says. |
| CommonWatchdogWindows.LogBackupFresh | internal/common/watchdog_windows.go:56-60 | A log backup name never equals the live log, and backups taken at different seconds get different names. |
| CommonWatchdogWindows.BackupThenStart | internal/common/watchdog_windows.go:56-66 | With the flag clear and the service stopped, the log moves to its backup, then the service is started once. |
| CommonWatchdogWindows.RestartService | internal/common/watchdog_windows.go:72-87 | The result is true iff stop and start succeed, and the world changes as the restart description says. |
| CommonWatchdogWindows.IsAgentServiceRunning | internal/common/watchdog_windows.go:89-107 | The agent counts as running iff the service manager answers and the service runs. This is the probe the tick description uses. |
| CommonWatchdogWindows.Watchdog | internal/common/watchdog_windows.go:17-70 | One tick changes the world exactly as the tick description says, with the timestamped log backup. |
| CommonWatchdogLinux.LogBackupFresh | internal/common/watchdog_linux.go:54-58 | A log backup name never equals the live log, and backups at different seconds differ. |
| CommonWatchdogLinux.BackupThenStart | internal/common/watchdog_linux.go:54-64 | With the flag clear and the service inactive, the log moves to its backup, then the service is started once. |
| CommonWatchdogLinux.LinuxStartService | internal/common/watchdog_linux.go:84-90 | An error is returned iff the start command fails; the service runs after a success. |
| CommonWatchdogLinux.LinuxStopService | internal/common/watchdog_linux.go:92-99 | An error is returned iff the stop command fails; the service is down after a success. |
| CommonWatchdogLinux.RestartService | internal/common/watchdog_linux.go:70-82 | The stop error is returned without a start; otherwise the start's result. |
| CommonWatchdogLinux.IsAgentServiceRunning | internal/common/watchdog_linux.go:101-107 | The agent counts as active iff the command succeeds and the service runs. This is the probe the tick description uses. |
| CommonWatchdogLinux.Watchdog | internal/common/watchdog_linux.go:16-68 | One tick changes the world exactly as the tick description says, with the timestamped log backup. |
| CommonWatchdogMacos.StartsStoppedAgentWithoutBackup | internal/common/watchdog_macos.go:50-58 | A stopped agent is started, and no file is touched. |
| CommonWatchdogMacos.MacStartAgentService | internal/common/watchdog_macos.go:76-82 | An error is returned iff launchctl load fails; the service runs after a success. |
| CommonWatchdogMacos.MacStopAgentService | internal/common/watchdog_macos.go:84-91 | An error is returned iff launchctl unload fails; the service is down after a success. |
| CommonWatchdogMacos.RestartService | internal/common/watchdog_macos.go:62-74 | Stop, then start, ending at the first failure; the result is true iff both succeed. |
| CommonWatchdogMacos.IsAgentServiceRunning | internal/common/watchdog_macos.go:93-100 | The agent counts as running iff launchctl list succeeds and the service runs. This is the probe the tick description uses. |
| CommonWatchdogMacos.Watchdog | internal/common/watchdog_macos.go:13-60 | One tick changes the world exactly as the tick description says, without a log backup. |
| ServiceWatchdog.RegistryWatchdogSpec | service/watchdog.go:32-67 | No restart requested (hive unreadable, value missing or not 1): nothing changes. Otherwise one restart, and RestartRequired is reset to 0 only when stop, start and the write all succeed. |
| ServiceWatchdog.FailedRestartIsRetried | service/watchdog.go:42-59 | A failed restart leaves the request in the registry, so the next tick acts on it again. |
| ServiceWatchdog.ResetTickIsFinal | service/watchdog.go:62-64 | After a tick that reset the request, the next tick is inert. |
| ServiceWatchdog.Watchdog | service/watchdog.go:32-67 | One tick changes the world exactly as the registry watchdog description says. |
| CommonNats.StartSpec | internal/common/nats.go:12-53 | A first connection subscribes once and creates no job. Without it, exactly one 2-minute retry job is registered, or the scheduler's error is returned wrapped. |
| CommonNats.Reconnect | internal/common/nats.go:30-36 | An existing connection is reused without a call; otherwise one connection attempt, and the result says whether the updater is connected. |
| CommonNats.Resubscribe | internal/common/nats.go:38-44 | One subscription attempt. Only after a successful subscription is the job removed (when the scheduler agrees), and no job is ever added. |
| CommonNats.TickSpec | internal/common/nats.go:29-45 | One run keeps a connection once made. It removes the job only after a subscription on a live connection, and never adds a job. |
| CommonNats.SubscribedJobStops | internal/common/nats.go:38-44 | The first run whose subscription and removal succeed is the last run. |
| CommonNats.RunTicksOnlyRemoves | internal/common/nats.go:24-47 | Any number of runs never adds a job and keeps the job handle. |
| CommonNats.RunTicksKeepsJobUntilSubscribed | internal/common/nats.go:24-47 | While no run manages to subscribe, the retry job stays scheduled, the jobs are unchanged, and a connection once made is kept. |
| CommonService.ReplicasFollowServerList | internal/common/service.go:86-88 | Replicas are set iff the server list holds a comma, and then equal the number of servers capped at 5. |
| CommonService.UpdateSubjectInjective | internal/common/service.go:81-84 | Different agents have different update subjects. |
| CommonService.ConsumerFeedsHandler | internal/common/service.go:81-84 | Every message the consumer's subject filter lets through reaches the update handler. |
| CommonService.OtherAgentsIgnored | internal/common/service.go:114-118 | An update message for another agent has no effect. |
| CommonService.OtherSubjectsIgnored | internal/common/service.go:114-118 | Every subject other than this agent's update subject has no effect. |
| CommonService.SaveTaskInfoToINI | internal/common/service.go:189-208 | The world changes exactly as the record description says for the INI store. |
| CommonService.NakAndSave | internal/common/service.go:134-139 | A Nak with the delay, then the record. |
| CommonService.ReadConfigWith | internal/common/service.go:210-286 | The configuration is read iff the file loads, has UUID and NATSServers, the working directory is known and the CA, certificate and key are readable. A missing file or key is returned as an error. A missing working directory or an unreadable certificate ends the process. Configured paths are used as given, otherwise the certificates directory. |
| CommonService.CertificateFallbacks | internal/common/service.go:244-269 | Without configured paths, the CA and the agent certificate are ca.cer and agent.cer in the certificates directory under the working directory. |
| CommonService.KeyFallsBackToCertificate | internal/common/service.go:272-278 | As written, without AgentCert and AgentKey entries the private key path equals the certificate path. |
| CommonService.IntendedKeyFallbackIsSeparate | internal/common/service.go:272-278 | With the fallback agent.key, the key and the certificate are different files. |
| CommonService.UpdaterService.constructor | internal/common/darwin.go:20-31 | A fresh service has empty settings, no connection and no jobs. |
| CommonService.UpdaterService.ReadConfig | internal/common/service.go:210-286 | The fields become exactly what ReadConfig assigns before it returns or exits, and nothing else changes. |
| CommonService.UpdaterService.ReadCertificates | internal/common/service.go:244-283 | The certificate paths are assigned in order, each a configured path or the certificates-directory file, and the first unreadable one ends the process; the key falls back to agent.cer as written. |
| CommonService.UpdaterService.StartWatchdogJob | internal/common/service.go:288-304 | The watchdog job handle becomes the new job, or none with the wrapped error. |
| CommonService.UpdaterService.StartNATSConnectJob | internal/common/nats.go:12-53 | World, connection and retry job handle change exactly as the connect description says. |
| CommonService.UpdaterService.NATSConnectTick | internal/common/nats.go:29-45 | One run of the retry job changes world and supervisor exactly as the run description says. |
| CommonService.UpdaterService.JetStreamUpdaterHandler | internal/common/service.go:114-118 | Only "agent.update.<AgentId>" reaches the update handler. |
| CommonService.UpdaterService.UpdateHandler | internal/common/service.go:131-187 | The world changes exactly as the update handler description says, with INI records. |
| CommonWindows.JetStreamUpdaterHandler | internal/common/windows.go:53-57 | Only "agent.update.<AgentId>" reaches the update handler. |
| CommonWindows.SaveTaskInfoToINI | internal/common/windows.go:172-191 | The world changes exactly as the record description says for the INI store. |
| CommonWindows.NakAndSave | internal/common/windows.go:114-170 | A Nak with the delay, then the record. |
| CommonWindows.UpdateHandlerForWindows | internal/common/windows.go:114-170 | The world changes exactly as the update handler description says, with INI records. |
| CommonWindows.InstallPhase | internal/common/windows.go:212-226 | After a verified download, in this order: stop, success record, Ack, installer launch with /VERYSILENT. The service is down after a successful stop. |
| CommonWindows.InstallUpdateSpec | internal/common/windows.go:193-227 | No working directory or a failed download: Nak 60 and an error record, with no stop and no launch. Otherwise the install phase. |
| CommonWindows.InstallSettlesOnce | internal/common/windows.go:193-227 | Every run settles its message exactly once: Nak 60 before a verified download, Ack after. |
| CommonWindows.LaunchFailureIsSilent | internal/common/windows.go:221-226 | Whether the installer starts changes neither the record, nor the outcome, nor the files. |
| CommonWindows.SuccessRecordedBeforeLaunch | internal/common/windows.go:217-226 | The success record and the Ack are in the trace before the installer launch. |
| CommonWindows.ExecuteUpdate | internal/common/windows.go:193-227 | The world changes exactly as the install description says. |
| CommonWindows.Install | internal/common/windows.go:212-226 | From the stop on, the world changes exactly as the install phase says. |
| CommonWindows.AgentRollback | internal/common/windows.go:229-277 | The world changes exactly as the rollback description says. |
| CommonLinux.VendorSelection | internal/common/linux.go:46-51 | Debian and Red Hat vendors never overlap. An install command exists iff a remove command exists iff the vendor is one of them. Only Debian refreshes repositories. |
| CommonLinux.InstallCommandCarriesVersion | internal/common/linux.go:46-51 | The install command is scheduled through at now and names the package at the requested version. |
| CommonLinux.InstallCommandInjective | internal/common/linux.go:46-51 | Different versions give different install commands. |
| CommonLinux.RefreshSpec | internal/common/linux.go:147-160 | Only a Debian vendor launches apt update; any other vendor changes nothing. |
| CommonLinux.RefreshRepositories | internal/common/linux.go:147-160 | The world changes exactly as the refresh description says. |
| CommonLinux.ScheduledPhase | internal/common/linux.go:70-82 | After the install is scheduled, the trace grows in this order: the success record, then the Ack, then the wait, which happens only when the Ack went through. There is no service call and no launch. |
| CommonLinux.UnsupportedPhase | internal/common/linux.go:53-59 | An unsupported vendor: one Ack and the unsupported-OS record, with no launch. |
| CommonLinux.StartFailed | internal/common/linux.go:61-67 | A command that cannot start: one failed launch, Nak 60, and a record naming the command line. |
| CommonLinux.Started | internal/common/linux.go:61-82 | A started command: in this order the launch, the success record, the Ack and, when the Ack went through, the wait. |
| CommonLinux.LinuxUpdateSpec | internal/common/linux.go:34-84 | The update never touches files, jobs or the service, whatever the vendor and the command do. |
| CommonLinux.LinuxUpdateOutcomes | internal/common/linux.go:34-84 | Three endings. An unsupported vendor gives an Ack and the unsupported-OS record. A command that cannot start gives Nak 60 and the start-error record, after the refresh launch and the failed launch. A started command gives the whole trace after the refresh in order: launch, success record, Ack, then the wait only when the Ack went through. |
| CommonLinux.SuccessRecordedBeforeAck | internal/common/linux.go:61-72 | For a started install command, the three events after the refresh are the launch, the UPDATE_SUCCESS record and the Ack, in that order. |
| CommonLinux.CommandPhaseIgnoresWait | internal/common/linux.go:61-82 | Once the install command is known, the Ack and wait outcomes change neither the message outcome, nor the records, nor the launches, nor the configuration. |
| CommonLinux.WaitIsSilent | internal/common/linux.go:72-82 | Whether the Ack or the wait fails changes neither the outcome, nor the records, nor the configuration. |
| CommonLinux.LinuxSettlesOnce | internal/common/linux.go:34-84 | Every run settles its message exactly once: an Ack, or Nak 60 when the command cannot start. |
| CommonLinux.AckAndWait | internal/common/linux.go:70-82 | The world changes exactly as the scheduled phase says. |
| CommonLinux.RunCommand | internal/common/linux.go:53-82 | The world changes exactly as the command phase says: unsupported, failed to start, or started. |
| CommonLinux.ExecuteUpdate | internal/common/linux.go:34-84 | The world changes exactly as the Linux update description says, after the repository refresh. |
| CommonLinux.UninstallSpec | internal/common/linux.go:114-137 | An unsupported vendor returns "unsupported os" and changes nothing. Otherwise the remove command is launched once, and an error is returned iff it cannot start. |
| CommonLinux.UninstallAgent | internal/common/linux.go:114-137 | World and error are exactly as the uninstall description says. |
| CommonDarwin.InstallScriptCarriesPackage | internal/common/darwin.go:66 | The install script reads back the package path between its fixed prefix and suffix, and different packages give different commands. |
| CommonDarwin.InstallPhase | internal/common/darwin.go:53-71 | After a verified download, in this order: stop, success record, Ack, and the installer launch naming the package path. The path is a parameter, which DarwinUpdateSpec binds to updates/agent.pkg. |
| CommonDarwin.DarwinUpdateSpec | internal/common/darwin.go:33-72 | No working directory or a failed download: Nak 60 and an error record, with no stop and no launch. Otherwise the install phase. |
| CommonDarwin.DarwinSettlesOnce | internal/common/darwin.go:33-72 | Every run settles its message exactly once. |
| CommonDarwin.StopAndInstallFailuresAreSilent | internal/common/darwin.go:53-71 | Whether the stop or the installer launch fails changes neither the outcome, nor the records, nor the files, nor the configuration. |
| CommonDarwin.SuccessRecordedBeforeInstall | internal/common/darwin.go:59-71 | The stop, the success record and the Ack are in the trace, in that order, before the installer launch. |
| CommonDarwin.ExecuteUpdate | internal/common/darwin.go:33-72 | The world changes exactly as the macOS update description says. |
| CommonDarwin.Install | internal/common/darwin.go:53-71 | From the stop on, the world changes exactly as the install phase says. |
| CommonDarwin.UninstallSpec | internal/common/darwin.go:74-92 | Two launches: the at daemon load, then the scheduled uninstall script. An error is returned iff the second one fails. |
| CommonDarwin.AtDaemonFailureIsNonFatal | internal/common/darwin.go:76-80 | A failure to load the at daemon changes neither the returned error nor whether the uninstall is scheduled. |
| CommonDarwin.UninstallAgent | internal/common/darwin.go:74-92 | World and error are exactly as the uninstall description says. |
| ServiceMessenger.MessengerLayoutDistinct | service/windows.go:180-201 | The staged messenger, the messenger and its rollback copy are three different paths. |
| ServiceMessenger.FirstApplicable | service/windows.go:144-152 | None iff no file matches the architecture and Windows. Otherwise the index of a matching file with no match before it. |
| ServiceMessenger.FindDownload | service/windows.go:144-152 | The loop with its break yields the URL and checksum of the first matching file, or empty strings. |
| ServiceMessenger.SwapMessenger | service/windows.go:172-207 | The swap sends nothing and changes only the three messenger paths. The registry either stays the same or gains MessengerVersion set to the new version, and it changes only once the downloaded executable is at the messenger path. |
| ServiceMessenger.UpdateMessengerSpec | service/windows.go:125-213 | The messenger update never sends an outcome, never writes a record and never touches the service or the jobs. |
| ServiceMessenger.MessengerUpdateOnlyWhenOlder | service/windows.go:128-171 | Every early return, and an installed version that does not compare lower, leaves the world unchanged. |
| ServiceMessenger.MessengerUpdateFootprint | service/windows.go:125-213 | Only the three messenger paths and MessengerVersion change. When the version is written, it is the release's version and the messenger holds the download. |
| ServiceMessenger.MessengerUpdateKeepsRollback | service/windows.go:180-207 | A successful swap keeps the previous messenger as messenger-rollback.exe and installs the download. The registry gains MessengerVersion set to the new version exactly when the registry write succeeds, and is otherwise unchanged. |
| ServiceMessenger.RollbackMessengerSpec | service/windows.go:215-257 | Every exit Acks once, writes no record, makes no service call, and leaves the registry unchanged. |
| ServiceMessenger.RollbackMessengerMoves | service/windows.go:228-250 | The only file change is moving messenger-rollback.exe back onto the messenger, and only when it exists and the rename succeeds. |
| ServiceMessenger.UpdateMessengerHandler | service/windows.go:125-213 | The world changes exactly as the messenger update description says, including the first-match loop. |
| ServiceMessenger.RollbackMessengerHandler | service/windows.go:215-257 | The world changes exactly as the messenger rollback description says. |
| ServiceWindows.SubjectsDistinct | service/windows.go:54-74 | The four subjects the dispatcher tests are pairwise different. |
| ServiceWindows.UpdateSubjectReachesHandlerOnly | service/windows.go:55-57 | An update message for this agent reaches the update handler and nothing else. |
| ServiceWindows.RollbackMessengerRunsTwice | service/windows.go:59-69 | As written, a rollback-messenger message runs the rollback twice and is Acked twice. |
| ServiceWindows.RollbackMessengerRunsOnce | service/windows.go:59-61 | Dispatching once, the rollback-messenger message is Acked once. |
| ServiceWindows.UpdateMessengerNeverSettles | service/windows.go:63-65 | A messenger update message is never Acked, Naked or terminated. |
| ServiceWindows.OtherSubjectsIgnored | service/windows.go:54-74 | A subject none of the tests matches has no effect. |
| ServiceWindows.RollbackStreamSubjectInjective | service/windows.go:89 | Different agents have different rollback stream subjects. |
| ServiceWindows.StreamRollbackSubjectsIgnored | service/windows.go:71-73 | For an agent identifier other than "messenger", messages on the stream's two rollback subjects, which end in the identifier, match none of the dispatcher's tests and have no effect. |
| ServiceWindows.UpdaterService.constructor | service/windows.go:494 | A fresh service carries the AgentId it is given, the value ReadConfig reads from the registry here, and no watchdog job. |
| ServiceWindows.UpdaterService.StartWatchdogJob | service/watchdog.go:14-30 | The watchdog job handle becomes the new job, or none with the wrapped error. |
| ServiceWindows.UpdaterService.JetStreamUpdaterHandler | service/windows.go:54-74 | The world changes exactly as the five subject tests say, in order. |
| ServiceWindows.SaveTaskInfoToRegistry | service/windows.go:328-344 | The world changes exactly as the record description says for the registry store. |
| ServiceWindows.NakAndSave | service/windows.go:273-278 | A Nak with the delay, then the registry record. |
| ServiceWindows.UpdateHandlerForWindows | service/windows.go:270-326 | The world changes exactly as the update handler description says, with registry records. |
| ServiceWindows.Fail | service/windows.go:348-362 | One Nak with the delay and one error record. |
| ServiceWindows.Succeed | service/windows.go:424 | The success record, and no outcome for the message. |
| ServiceWindows.StartPhase | service/windows.go:396-424 | One start. After a failure with a previous agent and a successful restore rename, exactly one retry. Success recorded iff the service comes up, otherwise Nak 15. Only the agent and rollback paths change. |
| ServiceWindows.BackedUp | service/windows.go:377-386 | A present agent.exe is moved to updater\rollback.exe, leaving no agent.exe. Without one, no file changes. Nothing outside those two paths changes. |
| ServiceWindows.SwapFiles | service/windows.go:377-394 | For three distinct paths, the two renames put the download at the agent path and the old agent at the rollback path. |
| ServiceWindows.Swapped | service/windows.go:364-394 | After the stop and both renames: the download is at the agent path and the old agent is kept as rollback. Only the three paths change. |
| ServiceWindows.SwapPhase | service/windows.go:364-424 | When the renames cannot both succeed, the failure ending; otherwise the start phase on the swapped files. Only the three paths change. |
| ServiceWindows.SwapFailed | service/windows.go:364-393 | A failed backup or install rename after the stop: Nak 60, the error record and the stop call, with no start. Only the three paths change. |
| ServiceWindows.DownloadKeepsLayout | service/windows.go:356-362 | The download leaves the agent and the rollback file as they were. |
| ServiceWindows.ExecuteUpdateEarlyFailure | service/windows.go:348-362 | No working directory or a failed download: Nak 60 and an error record, no service call, and no file touched but the staging file. |
| ServiceWindows.ExecuteUpdateRenameFailure | service/windows.go:377-394 | A failed backup or install rename is Nak 60 and an error record after the stop, with no start. |
| ServiceWindows.ExecuteUpdateSuccess | service/windows.go:396-424 | A first start that succeeds sends no outcome and records success. The new build is at the agent path, and the old build is the rollback file. |
| ServiceWindows.ExecuteUpdateFirstInstallFailure | service/windows.go:396-422 | A failed start without a previous agent is Nak 15 with no retry. |
| ServiceWindows.ExecuteUpdateRetriesOnce | service/windows.go:396-422 | With a previous agent, a failed start gives exactly one retry when the restore rename succeeds. The result is Nak 15 when the restore or the retry fails, and success otherwise. |
| ServiceWindows.StartPhaseRetriesOnce | service/windows.go:396-422 | After a failed first start with a previous agent in place, a second start happens exactly when the restore rename succeeds. Success is recorded, with no Nak, exactly when both the restore and the retry succeed. Otherwise the run ends in Nak 15 and the error record. |
| ServiceWindows.RestoreKeepsNewBuild | service/windows.go:400-402 | As written, the restore renames the agent onto itself. The retry runs the new build that just failed, rollback.exe still holds the old one, and a successful retry is recorded as installed. |
| ServiceWindows.RestoreRecoversPreviousAgent | service/windows.go:400-402 | Restoring from updater\rollback.exe puts the previous agent back and consumes the rollback file. |
| ServiceWindows.ExecuteUpdateOutcomeDiscipline | service/windows.go:346-427 | Every run records exactly once. It sends no outcome exactly when it records success, and otherwise one Nak of 60 or 15 minutes. |
| ServiceWindows.ExecuteUpdateFootprint | service/windows.go:346-427 | Only the staging file, the agent and the rollback file are ever touched. |
| ServiceWindows.AckThenNak | service/windows.go:285-301 | The handler Acks before the job runs, so a job whose download fails leaves the message with an Ack followed by a Nak 60. |
| ServiceWindows.Nak | service/windows.go:348-362 | The world changes exactly as the failure description says. |
| ServiceWindows.StartOrRestore | service/windows.go:396-424 | The world changes exactly as the start phase says, as written. |
| ServiceWindows.ExecuteUpdate | service/windows.go:346-427 | The world changes exactly as the service update description says, as written. |
| ServiceWindows.SwapAndStart | service/windows.go:364-424 | From the stop on, the world changes exactly as the swap phase says. |
| ServiceWindows.AgentRollback | service/windows.go:429-477 | The world changes exactly as the rollback description says. |

## Left out

- The NATS and JetStream transport: connecting, the stream and consumer
  creation calls, ConsumeErrHandler and the context timeout. The consumer
  configuration that `queueSubscribe` builds is modelled as a value, and a
  subscription is one call with a success flag. queueSubscribeForWindows is
  not modelled.
- restartHandler (internal/common/service.go, internal/common/windows.go,
  service/windows.go): not modelled; it only restarts and responds.
- StartService, StopService, StartWindowsService, StopWindowsService,
  NewUpdateService beyond the initial fields, ReadWindowsConfig and the
  program entry points: process bootstrap only.
- NewLogger: only the log prefix is modelled, not the log file creation.
- GetOSVendor: the vendor string is a parameter.
- Service control, command start and wait, the service manager: each is one
  call whose outcome is a parameter. `cmd.Run` of the repository refresh is
  one launch.
- macOS: the `launchctl unload` in ExecuteUpdate is modelled as the agent
  stop, like MacStopAgentService. The CombinedOutput of UninstallAgent is one
  launch, and its error text is a parameter.
- DownloadFile and its checksum: a download oracle. A failed download may
  leave a partial file at the target path, and the model keeps that file.
- semver.Compare: a function parameter.
- PEM parsing of the certificates: one readability answer per file.
- time.Now: a clock parameter. The Nak delays and the 2- and 5-minute
  intervals are kept as minutes.
- UpdateTasks.EffectiveRequest: instants are whole Unix seconds, so "already
  past" compares seconds. time.Time.Before compares nanoseconds, so the two
  can differ when the requested time falls within the current second.
- log.Fatalf: modelled as an exit result of ReadConfig, with the fields
  assigned so far.
- The scheduler: jobs are a sequence with increasing identifiers, and job
  runs are applied one at a time. gocron internals, concurrency between jobs
  and the msg pointer captured by a job are not modelled.
- math.Min over float64 for the replicas: integer minimum.
- GetConfigFile and GetAgentConfigFile: both name the one INI map of the
  model.
- Records: the record log counts every call of SaveTaskInfoToINI, including
  calls whose INI load or save fails. The INI map shows whether it was
  written.
- SaveTaskInfo: the three registry SetStringValue calls succeed or fail
  together with opening the hive.
- IniWatchdog.WatchdogTick: a missing RestartRequired key ends the tick.
  The Go code dereferences a nil key there, which is a panic.
- CommonWatchdog.IsAgentServiceRunning: a failed OpenService followed by the
  Query on a nil handle is not modelled; only the manager connection can fail.
- Build tags: internal/common/service.go carries no tag, while
  internal/common/windows.go defines the Windows handlers again. Each file is
  modelled on its own.
- ServiceWindows.ExecuteUpdate and StartOrRestore follow the restore as
  written (see Findings). The corrected restore is specified beside it by
  ExecuteUpdateRestoringSpec. Most lemmas are stated for both restore
  sources.
- Status texts: UPDATE_SUCCESS and UPDATE_ERROR come from a library that is
  not part of this model, so readable stand-ins are used.
- Integer widths: Unix seconds and counters are unbounded, and no overflow is
  modelled.

## Findings

| source | as written | input that shows it | evidently intended | confidence | as-written member | corrected member |
|---|---|---|---|---|---|---|
| service/windows.go:400-402 | after a failed start, the "rollback" renames cwd\openuem-agent.exe onto the same path | a previous agent is present, the first start fails, the restore rename succeeds | rename updater\rollback.exe back over the agent before the retry | not executed | ServiceWindows.RestoreKeepsNewBuild | ServiceWindows.RestoreRecoversPreviousAgent |
| service/windows.go:59-69 | the subject "agent.rollback.messenger" is tested twice, so the messenger rollback runs twice | a message with subject "agent.rollback.messenger" | one test per subject | not executed | ServiceWindows.RollbackMessengerRunsTwice | ServiceWindows.RollbackMessengerRunsOnce |
| internal/common/service.go:272-278 | without an AgentKey entry, the key path falls back to certificates\agent.cer | a configuration with neither AgentCert nor AgentKey | fall back to certificates\agent.key | not executed | CommonService.KeyFallsBackToCertificate | CommonService.IntendedKeyFallbackIsSeparate |

# spring-launcher: the setup wizard and the pr-downloader monitor

A Dafny model of the two parts of spring-launcher that carry its logic:

- **The setup wizard** (`src/launcher_wizard.js`). From the launcher configuration it
  builds a queue of steps (configuration update, resources, engines, one games step, maps,
  provisioned JSON files, the launcher self-update and the start of the game) and a list
  of asynchronous tasks (the remote configuration fetch and the launcher update check).
  `nextStep(forced)` takes steps from the front of the queue behind an enable gate,
  starts every prefetched task on the first step of a run, and holds the start step back
  (moving it to the end of the queue) unless `auto_start` is set or the user forced it.
  Steps whose work finishes later call `nextStep` again from their continuation.
- **The pr-downloader monitor** (`src/prd_downloader.js`). It spawns the external
  `pr-downloader` for one package, turns each stdout chunk into a progress or info
  event, classifies the process exit (0 finished, 5 disk full, anything else failed),
  keeps a per-invocation `finished` latch so that a spawn error silences the later
  `close`, builds the argument lists for engine, games and map downloads, and kills the
  last process on request.

Layout:

| file | module | contents |
|---|---|---|
| `wrappers.dfy` | `Wrappers` | `Option`, `Outcome` |
| `seqs.dfy` | `Seqs` | `MapSeq`, `Count`, `Flatten`, the `forEach`/`push` loop `AppendMapped` |
| `strings.dfy` | `Strings` | digits, `parseInt` on digit runs, decimal printing, `join` |
| `progress_protocol.dfy` | `ProgressProtocol` | the stdout line classifier and the `[0-9]+/[0-9]+` search |
| `launcher_config.dfy` | `LauncherConfig` | the configuration and environment the core reads |
| `prd_downloader.dfy` | `PrdDownload` | events, exit classification, callback handling, argument lists, class `PrdDownloader` |
| `wizard_tasks.dfy` | `WizardTasks` | settled task values, the resolve-once latch, the step decisions taken on them |
| `wizard_steps.dfy` | `WizardSteps` | steps, the engine path, the planned queue and its properties |
| `wizard_engine.dfy` | `WizardEngine` | the effect log, the pure `Advance` specification, its properties, class `Wizard` |

Both classes keep their state in fields that their methods update, and each method's
postcondition ties the new state to a pure function of the old one (`Wizard.NextStep` to
`Advance`, `PrdDownloader.Deliver` to `HandleSignal`). The queue and run properties are
lemmas about those functions. Everything sent to the outside world becomes an entry of
an appended log: window messages, task starts, download calls, file operations, the
engine launch and the updater hand-over for the wizard, and emitted events for the
monitor. Answers from the outside world are method parameters: whether the binary
exists, the process callbacks, the settled task values, whether the update dialog was
accepted, whether a file operation failed, and the launcher's `finished`/`failed` events.

### Where the code and its documented design differ

The model follows the code in each of these cases:

- A disabled wizard's `nextStep` returns `undefined`, not `false` (`Advance` returns
  `None`, see `WizardEngine.AdvanceQueue`).
- Killing the downloader does not set the `finished` latch. The `close` that follows the
  kill reports code `null` and is still classified, so an aborted invocation emits
  `aborted` and then `failed` with `Download failed: <name>: null`
  (`PrdDownload.AbortThenCloseReportsTwice`). The design promises one terminal event per
  invocation. That holds for every invocation that is not stopped
  (`PrdDownload.OneTerminalEventPerInvocation`).
- `stopDownload` checks only `name`, which is never cleared. After the first spawn it kills
  and reports `aborted` even when no process is running.
- A configuration fetch that failed with code `ERR_CANCELED` makes the configuration-update
  step return without calling `nextStep`, so the wizard stays there until something calls
  `nextStep` again.
  The design treats every fetch failure as "proceed without it".
- The start step registers itself with both the launcher's `finished` and `failed`
  once-listeners. Only one of them fires per launch. The other one stays registered, and a
  later event of its kind puts another copy of the start step back on the queue.

## Model

| member | source | states |
|---|---|---|
| ProgressProtocol.FindProgressSound | src/prd_downloader.js:42-47 | a pattern result is the leftmost match of `[0-9]+/[0-9]+`, maximal on both sides, with both runs parsed as decimal numbers |
| ProgressProtocol.FindProgressComplete | src/prd_downloader.js:42-47 | whenever the leftmost greedy match exists, the search returns exactly its two parsed numbers |
| ProgressProtocol.FindProgressNone | src/prd_downloader.js:42-45 | the search finds nothing exactly when no position starts a match |
| ProgressProtocol.ClassifyLineMeaning | src/prd_downloader.js:41-53 | `[Progress]` lines give progress from the leftmost match or nothing; `[Info]` lines give the whole chunk; all other lines give nothing |
| ProgressProtocol.ProgressLineRoundTrip | src/prd_downloader.js:41-50 | a `[Progress]` line holding `a/b` as its first digit-slash-digit run classifies as progress `a` of `b` |
| PrdDownload.ExitEvent | src/prd_downloader.js:61-72 | the close event is terminal, carries the package name, and is `finished` exactly for code 0; code 5 gives the disk-full message; any other code gives a `Download failed` message that ends with the printed code (`null` for a killed process) |
| PrdDownload.ExitEventDeterminesCode | src/prd_downloader.js:65-71 | different exit codes, `null` included, give different events |
| PrdDownload.StdoutEvent | src/prd_downloader.js:38-54 | a stdout chunk gives an event exactly when the line classifier accepts it, and never a terminal one; a classified progress line gives `progress` with the classifier's two numbers, and a chunk that starts with `[Info]` rather than `[Progress]` gives `info` with the whole chunk |
| PrdDownload.OutputThenRest | src/prd_downloader.js:38-59 | output callbacks never touch the latch and never end the invocation |
| PrdDownload.OneTerminalEventPerInvocation | src/prd_downloader.js:61-77 | an invocation's output is followed by exactly one terminal event: the launch failure after `error` (the later `close` is silenced), otherwise the classified exit |
| PrdDownload.AbortThenCloseReportsTwice | src/prd_downloader.js:61-71 | after a kill, the `null` close still reports a failure, so the invocation has two terminal events |
| PrdDownload.GamesArgs | src/prd_downloader.js:87-91 | the write-path pair, then one `--download-game` pair per game, in input order |
| PrdDownload.ResourceErrorAsWrittenLosesDestination | src/prd_downloader.js:101 | the message as written prints the same text for two different destinations |
| PrdDownload.ResourceErrorNamesDestination | src/prd_downloader.js:101 | the corrected message identifies the destination |
| PrdDownload.PrdDownloader.constructor | src/prd_downloader.js:12-15 | no process, no name, nothing emitted |
| PrdDownload.PrdDownloader.DownloadPackage | src/prd_downloader.js:17-81 | a missing binary emits one `failed` with the platform's message and leaves `prd`, `name` and the spawned processes alone; otherwise it spawns, emits `started` and records `prd` and `name` |
| PrdDownload.PrdDownloader.Deliver | src/prd_downloader.js:38-77 | a callback updates only its own invocation's latch and appends the event `HandleSignal` gives |
| PrdDownload.PrdDownloader.DownloadEngine | src/prd_downloader.js:83-85 | spawns with the four-element engine argument list |
| PrdDownload.PrdDownloader.DownloadGames | src/prd_downloader.js:87-94 | one process for all games, named by the names joined with ", ", with the games argument list |
| PrdDownload.PrdDownloader.DownloadMap | src/prd_downloader.js:96-98 | spawns with the four-element map argument list |
| PrdDownload.PrdDownloader.DownloadResource | src/prd_downloader.js:100-102 | always fails |
| PrdDownload.PrdDownloader.StopDownload | src/prd_downloader.js:104-112 | nothing before the first spawn; afterwards kills the last process and emits `aborted` under the last name, which is never cleared |
| WizardTasks.CaptureConfigFetch | src/launcher_wizard.js:52-63 | the fetch task settles to a value whose error is set exactly when there is no new configuration, and which is clean exactly when both the request and `handleConfigUpdate` succeeded; it carries what `handleConfigUpdate` returned, or the error the request or `handleConfigUpdate` threw |
| WizardTasks.ConfigUpdateChoice | src/launcher_wizard.js:72-82 | the step stays put exactly on an `ERR_CANCELED` error; an error-free result is always reloaded; any other error continues without a reload |
| WizardTasks.SignalResult | src/launcher_wizard.js:199-213 | every updater signal but a non-skipped check result offers a value; `error` events and a rejected check offer their error with null availability; `update-available` offers `true` with its info; `update-not-available` and a skipped check offer `false` without error |
| WizardTasks.FirstResultWins | src/launcher_wizard.js:191-197 | once the check has a result, later signals do not change it |
| WizardTasks.UpdateCheckLatch.constructor | src/launcher_wizard.js:190-191 | the latch starts unresolved |
| WizardTasks.UpdateCheckLatch.ResolveOnce | src/launcher_wizard.js:192-197 | only the first call sets the result |
| WizardTasks.UpdateCheckLatch.Notify | src/launcher_wizard.js:199-213 | the latch's result is always the first result offered by the signals so far |
| WizardTasks.RaceOutcome | src/launcher_wizard.js:245-251 | a timer win gives an error value with null availability; otherwise the check's own value |
| WizardTasks.LauncherUpdateChoice | src/launcher_wizard.js:253-262 | the update is installed exactly when the check found one without error and the dialog is disabled or accepted; otherwise the wizard advances |
| WizardTasks.AnswerMattersOnlyWhenAsked | src/launcher_wizard.js:255-261 | the user's answer changes the choice exactly when the dialog is shown |
| WizardSteps.OnlyStartIsNamedStart | src/launcher_wizard.js:338 | the name test recognises exactly the start step |
| WizardSteps.LaunchEngineName | src/launcher_wizard.js:272 | a non-empty `launch.engine` wins over the download list; otherwise the first download engine; nothing exactly when neither is there |
| WizardSteps.EnginePathOf | src/launcher_wizard.js:268-276 | an explicit engine path wins; otherwise a known engine name is launched as an installed engine; there is no path exactly when neither a path nor an engine name is known |
| WizardSteps.DownloadPhaseOrdered | src/launcher_wizard.js:45-265 | the steps queued unless `no_downloads` is set come in phase order, all before the start step |
| WizardSteps.PlannedStepsInPhaseOrder | src/launcher_wizard.js:38-308 | the queue is ordered: first-run configuration update, resources, engines, games, maps, files, later configuration update, launcher update, start |
| WizardSteps.PlannedStepsByKind | src/launcher_wizard.js:45-302 | the steps of each kind are exactly the configuration's entries of that kind, in order, with one games step only for a non-empty list |
| WizardSteps.StartStepIsLast | src/launcher_wizard.js:268-302 | a start step exists exactly when an engine path is known; it is then the last step and the only start step |
| WizardSteps.NoDownloadsOnlyStarts | src/launcher_wizard.js:45 | with `no_downloads` only the start step can be queued and nothing is prefetched |
| WizardSteps.StartUsesFirstDownloadedEngine | src/launcher_wizard.js:268-279 | without an explicit path or engine name, the start step launches the first download engine, whose engine step comes before it |
| WizardSteps.TasksMatchAwaitingSteps | src/launcher_wizard.js:45-266 | a task is prefetched exactly when a step that awaits it is queued |
| WizardSteps.PlannedTasksDistinct | src/launcher_wizard.js:43-217 | the prefetched task list holds at most the configuration fetch and the update check, each at most once |
| WizardEngine.AdvanceQueue | src/launcher_wizard.js:314-354 | disabled returns `undefined`; empty queue stops and returns false; a gated start step moves to the back and returns false; any other step leaves the queue minus its head and returns true |
| WizardEngine.TakenStepRunsItsAction | src/launcher_wizard.js:345-353 | a taken step appends its announcement (none for start) and its action's effects exactly once |
| WizardEngine.StartGate | src/launcher_wizard.js:338-353 | the start step launches the engine exactly once when auto-start is set or the step is forced, and otherwise launches nothing and goes to the back |
| WizardEngine.DisabledWizardIgnoresAdvance | src/launcher_wizard.js:315-317 | any number of calls on a disabled wizard change nothing |
| WizardEngine.DrainFrontToBack | src/launcher_wizard.js:319-353 | successive ungated steps are taken strictly front to back, each with its effects, after one prefetch |
| WizardEngine.PrefetchCounts | src/launcher_wizard.js:328-334 | the prefetch announces the run once and starts each task once |
| WizardEngine.StartedFlipsOncePerRun | src/launcher_wizard.js:319-334 | `wizard-started` and every task start happen exactly when `started` flips to true; an empty queue resets it |
| WizardEngine.TasksStartOncePerRun | src/launcher_wizard.js:328-334 | over any sequence of calls, each task has been started once per run begun |
| WizardEngine.FreshWizardStartsTasksOncePerRun | src/launcher_wizard.js:303-334 | from the freshly built wizard, over any sequence of calls, every planned task has been started exactly as often as `wizard-started` was sent |
| WizardEngine.Wizard.constructor | src/launcher_wizard.js:32-36 | inactive, nothing logged, and the planned steps and tasks |
| WizardEngine.Wizard.GenerateSteps | src/launcher_wizard.js:38-308 | the queue is the planned steps, the tasks the planned tasks, not started and enabled |
| WizardEngine.Wizard.DownloadSteps | src/launcher_wizard.js:45-266 | the `forEach`/`push` construction yields the planned download phase and tasks |
| WizardEngine.Wizard.SetEnabled | src/launcher_wizard.js:310-312 | only the enable flag changes |
| WizardEngine.Wizard.NextStep | src/launcher_wizard.js:314-354 | the new state and the return value are those of `Advance` |
| WizardEngine.Wizard.InvokeAction | src/launcher_wizard.js:95-300 | download steps mark the wizard active and request their download; a null file is removed and other contents are written; the start step launches and registers with both launcher listeners |
| WizardEngine.Wizard.ConfigFetchSettled | src/launcher_wizard.js:70-83 | a cancelled fetch changes nothing; otherwise the fetched configuration is reloaded and the wizard advances |
| WizardEngine.Wizard.LauncherUpdateSettled | src/launcher_wizard.js:241-263 | the dialog is shown only when an update is available and not disabled; an accepted update hands over to the updater without advancing; anything else advances |
| WizardEngine.Wizard.WriteFileSettled | src/launcher_wizard.js:146-169 | a failed file operation reports its message and disables the wizard without advancing; success advances |
| WizardEngine.Wizard.LaunchFinished | src/launcher_wizard.js:293-295 | every start step waiting on the `finished` listener goes back on the queue |
| WizardEngine.Wizard.LaunchFailed | src/launcher_wizard.js:297-299 | every start step waiting on the `failed` listener goes back on the queue |

## Left out

- Real I/O is not modelled: `got`, `fs.existsSync`, `fs.rm`, `fs.writeFile`, `spawn`, `kill(9)`, Electron windows and `electron-log` output. Their results are method parameters and their requests are log entries.
- Timers are not modelled. The 5000 ms race of the update check is a caller-supplied outcome, and the 1000 ms window-hide timer is a `ScheduleWindowHide` log entry.
- The update flow after the hand-over (`performUpdate`) is the single log entry `PerformUpdate`. Its `download-progress` percent is floating point, and `quitAndInstall` quits the application.
- `handleConfigUpdate` and `handleConfigReload` are outside this model. A fetched configuration is opaque, and reloading it is a `ReloadConfig` log entry: the model's configuration does not change.
- `JSON.stringify` layout of provisioned files is not modelled; contents are opaque.
- `path.join` of the engine path under the write path is the abstract `InstalledEngine` value.
- `Object.entries(config.json_files)` order is taken as the given sequence. JavaScript puts integer-like keys first, and the model does not reorder them.
- `parseInt` is the exact decimal value of the digit run. Runs above 2^53 lose precision in JavaScript, and the model does not round them.
- A stdout chunk is treated as one line, as the code does; how the pipe splits output into chunks is not modelled.
- `log.info`/`log.warn`/`log.error` calls and the `Step: ...` dump of each step are not modelled.
- PrdDownload.PrdDownloader.DownloadResource: throws the corrected message instead of the written one (see Findings).
- `src/exts/discord_integration.js` and `src/updater.js` are not part of this model: the first only forwards activity to the Discord client, and the second only configures the updater library.

## Findings

| source | as written | input that shows it | evidently intended | confidence | as-written member | corrected member |
|---|---|---|---|---|---|---|
| src/prd_downloader.js:101 | the message reads the destination as `resource[']destination']`, a key no resource has, so it always prints `undefined` | resources with url `https://example.org/a.zip` and destinations `maps/a.zip` and `games/a.zip` give the same message | the message names `resource['destination']` | high, not executed | PrdDownload.ResourceErrorAsWrittenLosesDestination | PrdDownload.ResourceErrorNamesDestination |

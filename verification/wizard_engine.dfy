/** The wizard's step engine: a queue of steps advanced one at a time behind an enable
    gate, which prefetches its asynchronous tasks on the first step of a run and holds the
    start step back until it is allowed to launch.

    The pure `Engine` value and `Advance` specify one call of `nextStep`; the class
    `Wizard` keeps the same state in fields and is proved against them. Everything the
    engine does to the outside world (messages to the window, downloads, files, the
    engine launcher, the updater) is appended to an effect log. */
module WizardEngine {
  import opened Wrappers
  import opened Seqs
  import opened LauncherConfig
  import opened WizardSteps
  import opened WizardTasks

  /** Messages sent to the window. */
  datatype GuiMessage =
    | WizardStarted
    | WizardStopped
    | WizardFinished
    | WizardNextStep(name: string, item: StepItem)
    | SetNextEnabled(enabled: bool)
    | ErrorMessage(text: string)
    | LaunchStarted
    | DownloadStarted(subject: string)

  /** The downloader call a download step makes. */
  datatype DownloadRequest =
    | ResourceDownload(resource: Resource)
    | EngineDownload(engine: string)
    | GamesDownload(games: seq<string>)
    | MapDownload(mapName: string)

  datatype Effect =
    | Gui(message: GuiMessage)
    | StartTask(task: AsyncTask)                      // `step.promise = step.action()`
    | AwaitTask(task: AsyncTask)                      // a step waits for a prefetched task
    | Download(request: DownloadRequest)
    | RemoveFile(file: string)
    | WriteJson(file: string, contents: JsonValue)
    | ScheduleWindowHide                              // the 1000 ms timer that hides the window
    | LaunchEngine(path: EnginePath, args: seq<string>)
    | Launched                                        // the wizard's own `launched` event
    | ReloadConfig(reload: ConfigReload)
    | ShowUpdateDialog
    | PerformUpdate

  /** The state `nextStep` reads and writes. `onLaunchFinished` and `onLaunchFailed` are
      the start steps waiting in the engine launcher's `finished` and `failed` once-listeners. */
  datatype Engine = Engine(
    steps: seq<Step>,
    asyncTasks: seq<AsyncTask>,
    started: bool,
    enabled: bool,
    isActive: bool,
    onLaunchFinished: seq<Step>,
    onLaunchFailed: seq<Step>,
    log: seq<Effect>)

  function StartTaskOf(t: AsyncTask): Effect { StartTask(t) }

  /** The effects of a step's action, for a start step launched with `startArgs`. */
  function ActionEffects(step: Step, startArgs: seq<string>): seq<Effect>
  {
    match step
    case ConfigUpdate(url) => [AwaitTask(ConfigFetch(url))]
    case ResourceStep(r) => [Download(ResourceDownload(r))]
    case EngineStep(e) => [Download(EngineDownload(e))]
    case GamesStep(gs) => [Download(GamesDownload(gs))]
    case MapStep(m) => [Download(MapDownload(m))]
    case WriteFileStep(f, contents) =>
      if contents.None? then [RemoveFile(f)] else [WriteJson(f, contents.value)]
    case LauncherUpdate => [AwaitTask(UpdateCheck)]
    case Start(p) => [ScheduleWindowHide, LaunchEngine(p, startArgs), Launched, Gui(LaunchStarted)]
  }

  /** `wizard-next-step` is announced for every step but the start step. */
  function Announcement(step: Step): seq<Effect>
  {
    if step.Name() == "start" then [] else [Gui(WizardNextStep(step.Name(), step.Item()))]
  }

  /** What taking an ungated step appends to the log. */
  function StepLog(step: Step, startArgs: seq<string>): seq<Effect>
  {
    Announcement(step) + ActionEffects(step, startArgs)
  }

  /** `step.action(step)`: download steps mark the wizard active, and the start step
      registers itself with both once-listeners of the engine launcher. */
  function RunAction(e: Engine, step: Step, startArgs: seq<string>): Engine
  {
    e.(isActive := step.IsDownload() || e.isActive,
       onLaunchFinished := if step.Start? then e.onLaunchFinished + [step] else e.onLaunchFinished,
       onLaunchFailed := if step.Start? then e.onLaunchFailed + [step] else e.onLaunchFailed,
       log := e.log + ActionEffects(step, startArgs))
  }

  /** The first step of a run announces the start and launches every prefetched task. */
  function Prefetch(e: Engine): seq<Effect>
  {
    if e.started then [] else [Gui(WizardStarted)] + MapSeq(StartTaskOf, e.asyncTasks)
  }

  const StopMessages: seq<Effect> := [Gui(WizardStopped), Gui(WizardFinished)]

  /** The start step waits unless `auto_start` is set or the user forced the step. */
  predicate Gated(step: Step, c: Config, forced: bool)
  {
    step.Name() == "start" && !(c.autoStart || forced)
  }

  /** One call of `nextStep(forced)`: the new state and the value returned (None is
      `undefined`, returned by a disabled wizard). */
  function Advance(e: Engine, c: Config, forced: bool): (Engine, Option<bool>)
  {
    if !e.enabled then (e, None)
    else if e.steps == [] then
      (e.(started := false, log := e.log + StopMessages + [Gui(SetNextEnabled(false))]), Some(false))
    else
      var step := e.steps[0];
      var popped := e.(steps := e.steps[1..], started := true, log := e.log + Prefetch(e));
      if Gated(step, c, forced) then
        (popped.(steps := popped.steps + [step], log := popped.log + StopMessages), Some(false))
      else
        (RunAction(popped.(log := popped.log + Announcement(step)), step, c.launch.startArgs), Some(true))
  }

  /** Successive calls of `nextStep`, the i-th with `forced[i]`. */
  function AdvanceAll(e: Engine, c: Config, forced: seq<bool>): Engine
    decreases |forced|
  {
    if forced == [] then e else AdvanceAll(Advance(e, c, forced[0]).0, c, forced[1..])
  }

  // ---------------------------------------------------------------------------------
  // Properties of a single step.

  /** What one call returns, and how it changes the queue: a disabled wizard returns
      `undefined`; otherwise true exactly when a step was taken, which removes the head;
      a gated start step moves from the front to the back. */
  lemma AdvanceQueue(e: Engine, c: Config, forced: bool)
    ensures var (e', r) := Advance(e, c, forced);
      && (r.None? <==> !e.enabled)
      && (r == Some(true) <==> e.enabled && e.steps != [] && !Gated(e.steps[0], c, forced))
      && (r == Some(true) ==> e'.steps == e.steps[1..])
      && (r == Some(false) && e.steps != [] ==> e'.steps == e.steps[1..] + [e.steps[0]])
      && (r == Some(false) && e.steps == [] ==>
            e'.steps == [] && !e'.started
            && e'.log == e.log + [Gui(WizardStopped), Gui(WizardFinished), Gui(SetNextEnabled(false))])
      && (r.Some? ==>
            multiset(e'.steps) + (if r == Some(true) then multiset{e.steps[0]} else multiset{}) == multiset(e.steps))
      && e'.enabled == e.enabled && e'.asyncTasks == e.asyncTasks
  {
    var (e', r) := Advance(e, c, forced);
    if e.enabled && e.steps != [] {
      assert e.steps == [e.steps[0]] + e.steps[1..];
    }
  }

  /** The log gains exactly the step's announcement and its action's effects, once, after
      the prefetch of a first step: the action is invoked exactly once. Stated on its own
      so that runs of several steps (`DrainFrontToBack`) can use the taken branch of
      `Advance` without unfolding its other branches. */
  lemma TakenStepRunsItsAction(e: Engine, c: Config, forced: bool)
    requires e.enabled && e.steps != [] && !Gated(e.steps[0], c, forced)
    ensures Advance(e, c, forced).0.log == e.log + Prefetch(e) + StepLog(e.steps[0], c.launch.startArgs)
    ensures Advance(e, c, forced).0.started
  {
  }

  ghost predicate NoLaunch(s: seq<Effect>)
  {
    forall i | 0 <= i < |s| :: !s[i].LaunchEngine?
  }

  lemma {:induction false} CountNoLaunch(s: seq<Effect>, p: EnginePath, args: seq<string>)
    requires NoLaunch(s)
    ensures Count(s, LaunchEngine(p, args)) == 0
  {
    CountAbsent(s, LaunchEngine(p, args));
  }

  /** Popping the start step launches the engine exactly once when `auto_start` is set or
      the step is forced, and otherwise launches nothing and moves the step to the back
      without registering any launcher listener. */
  lemma {:induction false} StartGate(e: Engine, c: Config, forced: bool)
    requires e.enabled && e.steps != [] && e.steps[0].Start?
    ensures var e' := Advance(e, c, forced).0;
      var launch := LaunchEngine(e.steps[0].enginePath, c.launch.startArgs);
      && Count(e'.log, launch) == Count(e.log, launch) + (if c.autoStart || forced then 1 else 0)
      && (c.autoStart || forced ==>
            e'.steps == e.steps[1..]
            && e'.onLaunchFinished == e.onLaunchFinished + [e.steps[0]]
            && e'.onLaunchFailed == e.onLaunchFailed + [e.steps[0]])
      && (!(c.autoStart || forced) ==>
            e'.steps == e.steps[1..] + [e.steps[0]]
            && e'.onLaunchFinished == e.onLaunchFinished && e'.onLaunchFailed == e.onLaunchFailed)
  {
    var step := e.steps[0];
    var args := c.launch.startArgs;
    var launch := LaunchEngine(step.enginePath, args);
    var e' := Advance(e, c, forced).0;
    var prefixed := e.log + Prefetch(e);
    OnlyStartIsNamedStart(step);
    assert Count(prefixed, launch) == Count(e.log, launch) by {
      assert NoLaunch(Prefetch(e));
      CountNoLaunch(Prefetch(e), step.enginePath, args);
      CountConcat(e.log, Prefetch(e), launch);
    }
    if c.autoStart || forced {
      var effects := ActionEffects(step, args);
      assert e'.log == prefixed + effects;
      assert Count(effects, launch) == 1 by {
        assert effects == [ScheduleWindowHide] + [launch] + [Launched, Gui(LaunchStarted)];
        assert Count([Launched, Gui(LaunchStarted)], launch) == 0;
        CountConcat([ScheduleWindowHide], [launch], launch);
        CountConcat([ScheduleWindowHide] + [launch], [Launched, Gui(LaunchStarted)], launch);
      }
      CountConcat(prefixed, effects, launch);
    } else {
      assert e'.log == prefixed + StopMessages;
      CountNoLaunch(StopMessages, step.enginePath, args);
      CountConcat(prefixed, StopMessages, launch);
    }
  }

  // ---------------------------------------------------------------------------------
  // Properties of runs.

  /** While the wizard is disabled, any number of calls change nothing. */
  lemma {:induction false} DisabledWizardIgnoresAdvance(e: Engine, c: Config, forced: seq<bool>)
    requires !e.enabled
    ensures AdvanceAll(e, c, forced) == e
    decreases |forced|
  {
    if forced != [] {
      DisabledWizardIgnoresAdvance(Advance(e, c, forced[0]).0, c, forced[1..]);
    }
  }

  function StepLogOf(c: Config): Step -> seq<Effect>
  {
    step => StepLog(step, c.launch.startArgs)
  }

  lemma FlattenMapFront<A, B>(f: A -> seq<B>, xs: seq<A>, n: nat)
    requires 0 < n <= |xs|
    ensures Flatten(MapSeq(f, xs[..n])) == f(xs[0]) + Flatten(MapSeq(f, xs[1..][..n - 1]))
  {
    var taken := MapSeq(f, xs[..n]);
    assert taken[0] == f(xs[0]);
    assert taken[1..] == MapSeq(f, xs[1..][..n - 1]);
  }

  /** Successive ungated steps are taken strictly front to back: the queue loses exactly
      its first steps, and the log gains the prefetch (on a first step) followed by each
      taken step's announcement and effects, in queue order. */
  lemma {:induction false} DrainFrontToBack(e: Engine, c: Config, forced: seq<bool>)
    requires e.enabled && |forced| <= |e.steps|
    requires forall i | 0 <= i < |forced| :: !Gated(e.steps[i], c, forced[i])
    ensures AdvanceAll(e, c, forced).steps == e.steps[|forced|..]
    ensures AdvanceAll(e, c, forced).log
      == e.log + (if forced == [] then [] else Prefetch(e)) + Flatten(MapSeq(StepLogOf(c), e.steps[..|forced|]))
    decreases |forced|
  {
    var f := StepLogOf(c);
    if forced == [] {
      assert e.steps[..0] == [];
      assert e.steps[0..] == e.steps;
    } else {
      var e1 := Advance(e, c, forced[0]).0;
      var n := |forced|;
      assert e1.steps == e.steps[1..] && e1.enabled && e1.started by {
        AdvanceQueue(e, c, forced[0]);
        TakenStepRunsItsAction(e, c, forced[0]);
      }
      assert e1.log == e.log + Prefetch(e) + f(e.steps[0]) by {
        TakenStepRunsItsAction(e, c, forced[0]);
      }
      assert forall i | 0 <= i < |forced[1..]| :: !Gated(e1.steps[i], c, forced[1..][i]) by {
        forall i | 0 <= i < |forced[1..]| ensures !Gated(e1.steps[i], c, forced[1..][i]) {
          assert e1.steps[i] == e.steps[i + 1] && forced[1..][i] == forced[i + 1];
        }
      }
      DrainFrontToBack(e1, c, forced[1..]);
      assert e1.steps[n - 1..] == e.steps[n..];
      var rest := Flatten(MapSeq(f, e1.steps[..n - 1]));
      assert (if forced[1..] == [] then [] else Prefetch(e1)) == [];
      assert AdvanceAll(e, c, forced) == AdvanceAll(e1, c, forced[1..]);
      assert e1.log + [] == e1.log;
      assert AdvanceAll(e, c, forced).log == e1.log + rest;
      assert Flatten(MapSeq(f, e.steps[..n])) == f(e.steps[0]) + rest by {
        FlattenMapFront(f, e.steps, n);
      }
      ConcatAssoc(e.log + Prefetch(e), f(e.steps[0]), rest);
    }
  }

  /** Entries that only the first step of a run writes. */
  ghost predicate NoPrefetch(s: seq<Effect>)
  {
    forall i | 0 <= i < |s| :: !s[i].StartTask? && s[i] != Gui(WizardStarted)
  }

  lemma {:induction false} CountNoPrefetch(s: seq<Effect>, t: AsyncTask)
    requires NoPrefetch(s)
    ensures Count(s, StartTask(t)) == 0 && Count(s, Gui(WizardStarted)) == 0
  {
    CountAbsent(s, StartTask(t));
    CountAbsent(s, Gui(WizardStarted));
  }

  lemma {:induction false} DistinctStartTasks(tasks: seq<AsyncTask>)
    requires Distinct(tasks)
    ensures Distinct(MapSeq(StartTaskOf, tasks))
  {
    var s := MapSeq(StartTaskOf, tasks);
    forall i, j | 0 <= i < j < |s| ensures s[i] != s[j] {
      assert s[i] == StartTask(tasks[i]) && s[j] == StartTask(tasks[j]);
    }
  }

  /** The prefetch of a first step holds one `wizard-started` and starts each task once. */
  lemma {:induction false} PrefetchCounts(e: Engine, t: AsyncTask)
    requires Distinct(e.asyncTasks) && t in e.asyncTasks
    ensures Count(Prefetch(e), StartTask(t)) == (if e.started then 0 else 1)
    ensures Count(Prefetch(e), Gui(WizardStarted)) == (if e.started then 0 else 1)
  {
    if !e.started {
      var starts := MapSeq(StartTaskOf, e.asyncTasks);
      assert Count(starts, StartTask(t)) == 1 by {
        DistinctStartTasks(e.asyncTasks);
        var k :| 0 <= k < |e.asyncTasks| && e.asyncTasks[k] == t;
        assert starts[k] == StartTask(t);
        CountDistinctMember(starts, StartTask(t));
      }
      assert Count(starts, Gui(WizardStarted)) == 0 by {
        assert forall i | 0 <= i < |starts| :: starts[i].StartTask?;
        CountAbsent(starts, Gui(WizardStarted));
      }
      CountConcat([Gui(WizardStarted)], starts, StartTask(t));
      CountConcat([Gui(WizardStarted)], starts, Gui(WizardStarted));
    }
  }

  /** What an enabled call appends after the prefetch. */
  function AdvanceTail(e: Engine, c: Config, forced: bool): seq<Effect>
  {
    if e.steps == [] then StopMessages + [Gui(SetNextEnabled(false))]
    else if Gated(e.steps[0], c, forced) then StopMessages
    else StepLog(e.steps[0], c.launch.startArgs)
  }

  /** What one enabled call appends to the log: the prefetch when a step is popped,
      followed by entries that are never prefetch entries. */
  lemma AdvanceLogShape(e: Engine, c: Config, forced: bool)
    requires e.enabled
    ensures Advance(e, c, forced).0.log == e.log + (if e.steps == [] then [] else Prefetch(e)) + AdvanceTail(e, c, forced)
    ensures NoPrefetch(AdvanceTail(e, c, forced))
  {
    if e.steps == [] {
      assert e.log + [] == e.log;
    }
    AdvanceTailNoPrefetch(e, c, forced);
  }

  /** No entry appended after the prefetch starts a task or announces the start. */
  lemma AdvanceTailNoPrefetch(e: Engine, c: Config, forced: bool)
    ensures NoPrefetch(AdvanceTail(e, c, forced))
  {
  }

  /** `wizard-started` is written exactly when `started` flips from false to true, and the
      same call starts every prefetched task once; `started` is true afterwards exactly
      when a step was popped, and falls back to false on an empty queue. */
  lemma {:induction false} StartedFlipsOncePerRun(e: Engine, c: Config, forced: bool, t: AsyncTask)
    requires Distinct(e.asyncTasks) && t in e.asyncTasks
    ensures var e' := Advance(e, c, forced).0;
      var flip := if !e.started && e'.started then 1 else 0;
      && (e'.started <==> if e.enabled then e.steps != [] else e.started)
      && Count(e'.log, Gui(WizardStarted)) == Count(e.log, Gui(WizardStarted)) + flip
      && Count(e'.log, StartTask(t)) == Count(e.log, StartTask(t)) + flip
  {
    if e.enabled {
      var e' := Advance(e, c, forced).0;
      AdvanceLogShape(e, c, forced);
      var tail := AdvanceTail(e, c, forced);
      var pre: seq<Effect> := if e.steps == [] then [] else Prefetch(e);
      PrefetchCounts(e, t);
      CountNoPrefetch(tail, t);
      CountConcat(e.log, pre, StartTask(t));
      CountConcat(e.log, pre, Gui(WizardStarted));
      CountConcat(e.log + pre, tail, StartTask(t));
      CountConcat(e.log + pre, tail, Gui(WizardStarted));
    }
  }

  /** Over any sequence of calls, every prefetched task has been started exactly as many
      times as a run has begun. */
  lemma {:induction false} TasksStartOncePerRun(e: Engine, c: Config, forced: seq<bool>)
    requires Distinct(e.asyncTasks)
    requires forall t | t in e.asyncTasks :: Count(e.log, StartTask(t)) == Count(e.log, Gui(WizardStarted))
    ensures var e' := AdvanceAll(e, c, forced);
      forall t | t in e.asyncTasks :: Count(e'.log, StartTask(t)) == Count(e'.log, Gui(WizardStarted))
    decreases |forced|
  {
    if forced != [] {
      var e1 := Advance(e, c, forced[0]).0;
      forall t | t in e.asyncTasks
        ensures Count(e1.log, StartTask(t)) == Count(e1.log, Gui(WizardStarted))
      {
        StartedFlipsOncePerRun(e, c, forced[0], t);
      }
      AdvanceQueue(e, c, forced[0]);
      TasksStartOncePerRun(e1, c, forced[1..]);
    }
  }

  /** The state the wizard is constructed in. */
  function InitialEngine(c: Config, env: Environment): Engine
  {
    Engine(PlannedSteps(c, env), PlannedTasks(c, env), false, true, false, [], [], [])
  }

  /** From a freshly built wizard, whatever calls follow, every planned task has been
      started exactly as often as a run has begun. */
  lemma FreshWizardStartsTasksOncePerRun(c: Config, env: Environment, forced: seq<bool>)
    ensures var e' := AdvanceAll(InitialEngine(c, env), c, forced);
      forall t | t in PlannedTasks(c, env) :: Count(e'.log, StartTask(t)) == Count(e'.log, Gui(WizardStarted))
  {
    PlannedTasksDistinct(c, env);
    TasksStartOncePerRun(InitialEngine(c, env), c, forced);
  }

  // ---------------------------------------------------------------------------------
  // The wizard object.

  /** The message shown when a provisioned file cannot be removed or written. */
  function WriteFileError(file: string, contents: Option<JsonValue>, error: string): string
  {
    if contents.None? then "Failed to remove file " + file + ": " + error
    else "Failed write " + file + ": " + error
  }

  class Wizard {
    const config: Config
    var steps: seq<Step>
    var asyncTasks: seq<AsyncTask>
    var started: bool
    var enabled: bool
    var isActive: bool
    var onLaunchFinished: seq<Step>
    var onLaunchFailed: seq<Step>
    var log: seq<Effect>

    function State(): Engine
      reads this
    {
      Engine(steps, asyncTasks, started, enabled, isActive, onLaunchFinished, onLaunchFailed, log)
    }

    constructor(config: Config, env: Environment)
      ensures this.config == config
      ensures State() == InitialEngine(config, env)
    {
      this.config := config;
      isActive := false;
      onLaunchFinished, onLaunchFailed, log := [], [], [];
      new;
      GenerateSteps(env);
    }

    /** Builds the queue of steps and the list of tasks to prefetch from the configuration. */
    method GenerateSteps(env: Environment)
      modifies this
      ensures steps == PlannedSteps(config, env) && asyncTasks == PlannedTasks(config, env)
      ensures !started && enabled
      ensures isActive == old(isActive) && log == old(log)
      ensures onLaunchFinished == old(onLaunchFinished) && onLaunchFailed == old(onLaunchFailed)
    {
      var planned: seq<Step> := [];
      var tasks: seq<AsyncTask> := [];
      if !config.noDownloads {
        planned, tasks := DownloadSteps(env);
      }
      var enginePath := EnginePathOf(config);
      if enginePath.Some? {
        planned := planned + [Start(enginePath.value)];
      }
      started := false;
      steps := planned;
      asyncTasks := tasks;
      enabled := true;
    }

    /** The part of `GenerateSteps` skipped under `no_downloads`. */
    method DownloadSteps(env: Environment) returns (planned: seq<Step>, tasks: seq<AsyncTask>)
      requires !config.noDownloads
      ensures planned == DownloadPhase(config, env) && tasks == PlannedTasks(config, env)
    {
      var d := config.downloads;
      planned, tasks := [], [];
      var atEnd: Option<Step> := None;
      if config.configUrl.Some? {
        var url := config.configUrl.value;
        tasks := tasks + [ConfigFetch(url)];
        if !env.configJsonExists {
          planned := planned + [ConfigUpdate(url)];
        } else {
          atEnd := Some(ConfigUpdate(url));
        }
      }
      ghost var a := LeadingConfigUpdate(config, env);
      assert planned == a;
      planned := AppendMapped(planned, d.resources, ResourceStepOf);
      a := a + MapSeq(ResourceStepOf, d.resources);
      planned := AppendMapped(planned, d.engines, EngineStepOf);
      a := a + MapSeq(EngineStepOf, d.engines);
      if |d.games| > 0 {
        planned := planned + [GamesStep(d.games)];
      }
      a := a + GamesSteps(d.games);
      assert planned == a;
      planned := AppendMapped(planned, d.maps, MapStepOf);
      a := a + MapSeq(MapStepOf, d.maps);
      planned := AppendMapped(planned, config.jsonFiles, WriteFileStepOf);
      a := a + MapSeq(WriteFileStepOf, config.jsonFiles);
      if atEnd.Some? {
        planned := planned + [atEnd.value];
      }
      a := a + TrailingConfigUpdate(config, env);
      assert planned == a;
      if env.isPackaged && !env.launcherUpdateDisabled {
        tasks := tasks + [UpdateCheck];
        planned := planned + [LauncherUpdate];
      }
      a := a + LauncherUpdateSteps(env);
      assert planned == a;
    }

    method SetEnabled(enabled: bool)
      modifies this`enabled
      ensures State() == old(State()).(enabled := enabled)
    {
      this.enabled := enabled;
    }

    /** `nextStep(forced)`. */
    method NextStep(forced: bool) returns (r: Option<bool>)
      modifies this
      ensures (State(), r) == Advance(old(State()), config, forced)
    {
      if !enabled {
        return None;
      }
      if steps == [] {
        log := log + [Gui(WizardStopped), Gui(WizardFinished)];
        started := false;
        log := log + [Gui(SetNextEnabled(false))];
        return Some(false);
      }
      var step := steps[0];
      ghost var popped := old(State()).(steps := old(steps)[1..], started := true, log := old(log) + Prefetch(old(State())));
      steps := steps[1..];
      if !started {
        log := log + [Gui(WizardStarted)];
        started := true;
        log := AppendMapped(log, asyncTasks, StartTaskOf);
      }
      assert State() == popped;
      if step.Name() == "start" {
        if !(config.autoStart || forced) {
          log := log + [Gui(WizardStopped), Gui(WizardFinished)];
          steps := steps + [step];
          return Some(false);
        }
      } else {
        log := log + [Gui(WizardNextStep(step.Name(), step.Item()))];
      }
      assert State() == popped.(log := popped.log + Announcement(step));
      InvokeAction(step);
      return Some(true);
    }

    /** `step.action(step)`, up to the point where the action waits for something. */
    method InvokeAction(step: Step)
      modifies this
      ensures State() == RunAction(old(State()), step, config.launch.startArgs)
    {
      match step {
        case ConfigUpdate(url) =>
          log := log + [AwaitTask(ConfigFetch(url))];
        case ResourceStep(r) =>
          isActive := true;
          log := log + [Download(ResourceDownload(r))];
        case EngineStep(engine) =>
          isActive := true;
          log := log + [Download(EngineDownload(engine))];
        case GamesStep(games) =>
          isActive := true;
          log := log + [Download(GamesDownload(games))];
        case MapStep(m) =>
          isActive := true;
          log := log + [Download(MapDownload(m))];
        case WriteFileStep(file, contents) =>
          if contents.None? {
            log := log + [RemoveFile(file)];
          } else {
            log := log + [WriteJson(file, contents.value)];
          }
        case LauncherUpdate =>
          log := log + [AwaitTask(UpdateCheck)];
        case Start(path) =>
          log := log + [ScheduleWindowHide, LaunchEngine(path, config.launch.startArgs), Launched];
          log := log + [Gui(LaunchStarted)];
          onLaunchFinished := onLaunchFinished + [step];
          onLaunchFailed := onLaunchFailed + [step];
      }
    }

    /** The configuration-update step once the prefetched fetch has settled: a cancelled
        request leaves the wizard where it is; otherwise a fetched configuration is reloaded
        and the wizard advances. */
    method ConfigFetchSettled(outcome: FetchOutcome)
      modifies this
      ensures ConfigUpdateChoice(outcome).StayPut? ==> State() == old(State())
      ensures ConfigUpdateChoice(outcome).Continue? ==>
        var reload := ConfigUpdateChoice(outcome).reload;
        var reloaded := if reload.Some? then [ReloadConfig(reload.value)] else [];
        State() == Advance(old(State()).(log := old(log) + reloaded), config, false).0
    {
      var choice := ConfigUpdateChoice(outcome);
      if choice.StayPut? {
        return;
      }
      ghost var reloaded: seq<Effect> := [];
      if choice.reload.Some? {
        reloaded := [ReloadConfig(choice.reload.value)];
        log := log + [ReloadConfig(choice.reload.value)];
      }
      assert State() == old(State()).(log := old(log) + reloaded);
      var advanced := NextStep(false);
    }

    /** The launcher-update step once the race between the update check and the 5000 ms
        timer has settled (`settled` is None when the timer won), given the user's answer
        should the dialog be shown: it either hands over to the updater without advancing,
        or advances. */
    method LauncherUpdateSettled(settled: Option<UpdateCheckResult>, userAccepts: bool)
      modifies this
      ensures var result := RaceOutcome(settled);
        var asked := if AsksUser(result, config.disableLauncherUpdateDialog) then [ShowUpdateDialog] else [];
        if LauncherUpdateChoice(result, config.disableLauncherUpdateDialog, userAccepts) == InstallUpdate
        then State() == old(State()).(log := old(log) + asked + [Gui(DownloadStarted("autoupdate")), PerformUpdate])
        else State() == Advance(old(State()).(log := old(log) + asked), config, false).0
    {
      var result := RaceOutcome(settled);
      ghost var asked: seq<Effect> := [];
      if AsksUser(result, config.disableLauncherUpdateDialog) {
        asked := [ShowUpdateDialog];
        log := log + [ShowUpdateDialog];
      }
      assert State() == old(State()).(log := old(log) + asked);
      if LauncherUpdateChoice(result, config.disableLauncherUpdateDialog, userAccepts) == InstallUpdate {
        log := log + [Gui(DownloadStarted("autoupdate")), PerformUpdate];
        return;
      }
      var advanced := NextStep(false);
    }

    /** A write-file step once the file system has answered: on an error the message is
        reported and the wizard is disabled without advancing; otherwise it advances. */
    method WriteFileSettled(file: string, contents: Option<JsonValue>, error: Option<string>)
      modifies this
      ensures error.Some? ==> State() == old(State()).(enabled := false,
        log := old(log) + [Gui(ErrorMessage(WriteFileError(file, contents, error.value)))])
      ensures error.None? ==> State() == Advance(old(State()), config, false).0
    {
      if error.Some? {
        log := log + [Gui(ErrorMessage(WriteFileError(file, contents, error.value)))];
        SetEnabled(false);
      } else {
        var advanced := NextStep(false);
      }
    }

    /** The engine launcher reports that the game ended: every start step waiting on the
        `finished` listener goes back on the queue. */
    method LaunchFinished()
      modifies this
      ensures State() == old(State()).(steps := old(steps) + old(onLaunchFinished), onLaunchFinished := [])
    {
      steps := steps + onLaunchFinished;
      onLaunchFinished := [];
    }

    /** The engine launcher reports a failed launch. */
    method LaunchFailed()
      modifies this
      ensures State() == old(State()).(steps := old(steps) + old(onLaunchFailed), onLaunchFailed := [])
    {
      steps := steps + onLaunchFailed;
      onLaunchFailed := [];
    }
  }
}

/** The plan the wizard builds from the configuration: its ordered queue of steps and the
    asynchronous tasks it prefetches when the first step is taken. */
module WizardSteps {
  import opened Wrappers
  import opened Seqs
  import opened Strings
  import opened LauncherConfig

  /** The executable the start step launches: an explicit `launch.engine_path`, or the
      binary of an installed engine under the write path (the path join is not modelled). */
  datatype EnginePath = GivenPath(path: string) | InstalledEngine(engine: string)

  /** The prefetched tasks: the remote configuration fetch and the launcher update check. */
  datatype AsyncTask = ConfigFetch(url: string) | UpdateCheck

  /** The `item` a step shows next to its name. */
  datatype StepItem = NoItem | TextItem(text: string) | ResourceItem(resource: Resource)

  datatype Step =
    | ConfigUpdate(url: string)
    | ResourceStep(resource: Resource)
    | EngineStep(engine: string)
    | GamesStep(games: seq<string>)
    | MapStep(mapName: string)
    | WriteFileStep(file: string, contents: Option<JsonValue>)
    | LauncherUpdate
    | Start(enginePath: EnginePath)
  {
    function Name(): string
    {
      match this
      case ConfigUpdate(_) => "config update"
      case ResourceStep(_) => "resource"
      case EngineStep(_) => "engine"
      case GamesStep(_) => "games"
      case MapStep(_) => "map"
      case WriteFileStep(_, _) => "write file"
      case LauncherUpdate => "launcher_update"
      case Start(_) => "start"
    }

    function Item(): StepItem
    {
      match this
      case ResourceStep(r) => ResourceItem(r)
      case EngineStep(e) => TextItem(e)
      case GamesStep(gs) => TextItem(Join(gs, ", "))
      case MapStep(m) => TextItem(m)
      case WriteFileStep(f, _) => TextItem(f)
      case _ => NoItem
    }

    /** The steps whose action marks the wizard active and starts a download. */
    predicate IsDownload()
    {
      ResourceStep? || EngineStep? || GamesStep? || MapStep?
    }
  }

  /** Only the start step is named "start", which is how the wizard recognises it. */
  lemma OnlyStartIsNamedStart(s: Step)
    ensures s.Name() == "start" <==> s.Start?
  {
    assert "games"[0] != "start"[0];
  }

  function ResourceStepOf(r: Resource): Step { ResourceStep(r) }
  function EngineStepOf(e: string): Step { EngineStep(e) }
  function MapStepOf(m: string): Step { MapStep(m) }
  function WriteFileStepOf(entry: (string, Option<JsonValue>)): Step { WriteFileStep(entry.0, entry.1) }

  /** `launch.engine || downloads.engines[0]`: an empty engine name counts as absent. */
  function LaunchEngineName(c: Config): (r: Option<string>)
    ensures r.Some? <==> (c.launch.engine.Some? && c.launch.engine.value != "") || |c.downloads.engines| > 0
    ensures r.Some? && r != c.launch.engine ==> |c.downloads.engines| > 0 && r == Some(c.downloads.engines[0])
    ensures c.launch.engine.Some? && c.launch.engine.value != "" ==> r == c.launch.engine
    ensures !(c.launch.engine.Some? && c.launch.engine.value != "") && |c.downloads.engines| > 0 ==>
      r == Some(c.downloads.engines[0])
  {
    if c.launch.engine.Some? && c.launch.engine.value != "" then c.launch.engine
    else if |c.downloads.engines| > 0 then Some(c.downloads.engines[0])
    else None
  }

  /** The engine the start step launches, if any. */
  function EnginePathOf(c: Config): (r: Option<EnginePath>)
    ensures c.launch.enginePath.Some? ==> r == Some(GivenPath(c.launch.enginePath.value))
    ensures r.None? <==> c.launch.enginePath.None? && LaunchEngineName(c).None?
    ensures c.launch.enginePath.None? && LaunchEngineName(c).Some? ==> r == Some(InstalledEngine(LaunchEngineName(c).value))
  {
    if c.launch.enginePath.Some? then Some(GivenPath(c.launch.enginePath.value))
    else if LaunchEngineName(c).Some? then Some(InstalledEngine(LaunchEngineName(c).value))
    else None
  }

  /** The launcher update is checked only in a packaged application whose update was not
      disabled on the command line. */
  predicate ChecksLauncherUpdate(env: Environment)
  {
    env.isPackaged && !env.launcherUpdateDisabled
  }

  /** On a first run (no `config.json` yet) the configuration is updated before anything else. */
  function LeadingConfigUpdate(c: Config, env: Environment): seq<Step>
  {
    if c.configUrl.Some? && !env.configJsonExists then [ConfigUpdate(c.configUrl.value)] else []
  }

  function TrailingConfigUpdate(c: Config, env: Environment): seq<Step>
  {
    if c.configUrl.Some? && env.configJsonExists then [ConfigUpdate(c.configUrl.value)] else []
  }

  function GamesSteps(games: seq<string>): seq<Step>
  {
    if |games| > 0 then [GamesStep(games)] else []
  }

  function LauncherUpdateSteps(env: Environment): seq<Step>
  {
    if ChecksLauncherUpdate(env) then [LauncherUpdate] else []
  }

  /** Everything queued unless `no_downloads` is set. */
  function DownloadPhase(c: Config, env: Environment): seq<Step>
  {
    LeadingConfigUpdate(c, env)
      + MapSeq(ResourceStepOf, c.downloads.resources)
      + MapSeq(EngineStepOf, c.downloads.engines)
      + GamesSteps(c.downloads.games)
      + MapSeq(MapStepOf, c.downloads.maps)
      + MapSeq(WriteFileStepOf, c.jsonFiles)
      + TrailingConfigUpdate(c, env)
      + LauncherUpdateSteps(env)
  }

  function StartSteps(c: Config): seq<Step>
  {
    if EnginePathOf(c).Some? then [Start(EnginePathOf(c).value)] else []
  }

  /** The queue of steps built from the configuration. */
  function PlannedSteps(c: Config, env: Environment): seq<Step>
  {
    (if c.noDownloads then [] else DownloadPhase(c, env)) + StartSteps(c)
  }

  /** The tasks started when the first step is taken, in order. */
  function PlannedTasks(c: Config, env: Environment): seq<AsyncTask>
  {
    if c.noDownloads then []
    else
      (if c.configUrl.Some? then [ConfigFetch(c.configUrl.value)] else [])
        + (if ChecksLauncherUpdate(env) then [UpdateCheck] else [])
  }

  /** At most one fetch and one update check: no task is planned twice. */
  lemma PlannedTasksDistinct(c: Config, env: Environment)
    ensures Distinct(PlannedTasks(c, env))
    ensures |PlannedTasks(c, env)| <= 2
  {
  }

  // ---------------------------------------------------------------------------------
  // Properties of the plan.

  /** The rank of a step kind in the generated order; the configuration update ranks first
      on a first run and after the provisioned files otherwise. */
  function Phase(s: Step, firstRun: bool): nat
  {
    match s
    case ConfigUpdate(_) => if firstRun then 0 else 6
    case ResourceStep(_) => 1
    case EngineStep(_) => 2
    case GamesStep(_) => 3
    case MapStep(_) => 4
    case WriteFileStep(_, _) => 5
    case LauncherUpdate => 7
    case Start(_) => 8
  }

  ghost predicate Ordered(s: seq<Step>, firstRun: bool)
  {
    forall i, j | 0 <= i < j < |s| :: Phase(s[i], firstRun) <= Phase(s[j], firstRun)
  }

  ghost predicate AllInPhase(s: seq<Step>, p: nat, firstRun: bool)
  {
    forall i | 0 <= i < |s| :: Phase(s[i], firstRun) == p
  }

  ghost predicate AllAtMost(s: seq<Step>, p: nat, firstRun: bool)
  {
    forall i | 0 <= i < |s| :: Phase(s[i], firstRun) <= p
  }

  lemma ExtendOrdered(acc: seq<Step>, block: seq<Step>, p: nat, firstRun: bool)
    requires Ordered(acc, firstRun) && AllAtMost(acc, p, firstRun) && AllInPhase(block, p, firstRun)
    ensures Ordered(acc + block, firstRun) && AllAtMost(acc + block, p, firstRun)
  {
    var s := acc + block;
    forall i, j | 0 <= i < j < |s|
      ensures Phase(s[i], firstRun) <= Phase(s[j], firstRun)
    {
      if j < |acc| {
        assert s[i] == acc[i] && s[j] == acc[j];
      } else if i < |acc| {
        assert s[i] == acc[i] && s[j] == block[j - |acc|];
      } else {
        assert s[i] == block[i - |acc|] && s[j] == block[j - |acc|];
      }
    }
  }

  lemma ResourcePhase(rs: seq<Resource>, f: bool)
    ensures AllInPhase(MapSeq(ResourceStepOf, rs), 1, f)
  {
  }

  lemma EnginePhase(es: seq<string>, f: bool)
    ensures AllInPhase(MapSeq(EngineStepOf, es), 2, f)
  {
  }

  lemma MapPhase(ms: seq<string>, f: bool)
    ensures AllInPhase(MapSeq(MapStepOf, ms), 4, f)
  {
  }

  lemma WriteFilePhase(files: seq<(string, Option<JsonValue>)>, f: bool)
    ensures AllInPhase(MapSeq(WriteFileStepOf, files), 5, f)
  {
  }

  /** The steps queued unless `no_downloads` is set come in phase order, below the start step. */
  lemma {:induction false} DownloadPhaseOrdered(c: Config, env: Environment)
    ensures Ordered(DownloadPhase(c, env), !env.configJsonExists)
    ensures AllAtMost(DownloadPhase(c, env), 7, !env.configJsonExists)
  {
    var f := !env.configJsonExists;
    var d := c.downloads;
    var a0 := LeadingConfigUpdate(c, env);
    var b1 := MapSeq(ResourceStepOf, d.resources);
    var b2 := MapSeq(EngineStepOf, d.engines);
    var b3 := GamesSteps(d.games);
    var b4 := MapSeq(MapStepOf, d.maps);
    var b5 := MapSeq(WriteFileStepOf, c.jsonFiles);
    var b6 := TrailingConfigUpdate(c, env);
    var b7 := LauncherUpdateSteps(env);
    assert Ordered(a0, f) && AllAtMost(a0, 0, f);
    ResourcePhase(d.resources, f);
    ExtendOrdered(a0, b1, 1, f);
    EnginePhase(d.engines, f);
    ExtendOrdered(a0 + b1, b2, 2, f);
    assert AllInPhase(b3, 3, f);
    ExtendOrdered(a0 + b1 + b2, b3, 3, f);
    MapPhase(d.maps, f);
    ExtendOrdered(a0 + b1 + b2 + b3, b4, 4, f);
    WriteFilePhase(c.jsonFiles, f);
    ExtendOrdered(a0 + b1 + b2 + b3 + b4, b5, 5, f);
    assert AllInPhase(b6, 6, f);
    ExtendOrdered(a0 + b1 + b2 + b3 + b4 + b5, b6, 6, f);
    assert AllInPhase(b7, 7, f);
    ExtendOrdered(a0 + b1 + b2 + b3 + b4 + b5 + b6, b7, 7, f);
  }

  /** The queue lists the configuration update first on a first run, then resources,
      engines, games, maps and provisioned files, then the configuration update when
      `config.json` exists, then the launcher update, and the start step last. */
  lemma PlannedStepsInPhaseOrder(c: Config, env: Environment)
    ensures Ordered(PlannedSteps(c, env), !env.configJsonExists)
  {
    var f := !env.configJsonExists;
    if c.noDownloads {
      assert PlannedSteps(c, env) == StartSteps(c);
    } else {
      DownloadPhaseOrdered(c, env);
      assert AllInPhase(StartSteps(c), 8, f);
      ExtendOrdered(DownloadPhase(c, env), StartSteps(c), 8, f);
    }
  }

  ghost predicate NoStart(s: seq<Step>)
  {
    forall i | 0 <= i < |s| :: !s[i].Start?
  }

  lemma DownloadPhaseHasNoStart(c: Config, env: Environment)
    ensures NoStart(DownloadPhase(c, env))
  {
    DownloadPhaseOrdered(c, env);
  }

  /** The start step is queued exactly when an engine to launch is known, and it is then
      the last step and the only start step. */
  lemma StartStepIsLast(c: Config, env: Environment)
    ensures var steps := PlannedSteps(c, env);
      && ((exists i :: 0 <= i < |steps| && steps[i].Start?) <==> EnginePathOf(c).Some?)
      && (forall i | 0 <= i < |steps| && steps[i].Start? ::
            i == |steps| - 1 && steps[i] == Start(EnginePathOf(c).value))
  {
    var steps := PlannedSteps(c, env);
    var pre := if c.noDownloads then [] else DownloadPhase(c, env);
    DownloadPhaseHasNoStart(c, env);
    assert NoStart(pre);
    assert steps == pre + StartSteps(c);
    if EnginePathOf(c).Some? {
      assert steps[|steps| - 1].Start?;
    }
    forall i | 0 <= i < |pre| ensures !steps[i].Start? {
      assert steps[i] == pre[i];
    }
  }

  /** With `no_downloads` nothing but the start step is queued and no task is prefetched. */
  lemma NoDownloadsOnlyStarts(c: Config, env: Environment)
    requires c.noDownloads
    ensures PlannedTasks(c, env) == []
    ensures |PlannedSteps(c, env)| <= 1
    ensures forall s | s in PlannedSteps(c, env) :: s.Start?
  {
  }

  /** Without an explicit engine path or engine name, the start step launches the first
      engine of the download list, which a preceding engine step installs. */
  lemma StartUsesFirstDownloadedEngine(c: Config, env: Environment)
    requires !c.noDownloads && c.launch.enginePath.None?
    requires c.launch.engine.None? || c.launch.engine == Some("")
    requires |c.downloads.engines| > 0
    ensures var steps := PlannedSteps(c, env);
      && steps[|steps| - 1] == Start(InstalledEngine(c.downloads.engines[0]))
      && EngineStep(c.downloads.engines[0]) in steps[..|steps| - 1]
  {
    var steps := PlannedSteps(c, env);
    var engines := MapSeq(EngineStepOf, c.downloads.engines);
    assert engines[0] == EngineStep(c.downloads.engines[0]);
    var pre := LeadingConfigUpdate(c, env) + MapSeq(ResourceStepOf, c.downloads.resources);
    var whole := DownloadPhase(c, env);
    assert whole[|pre|] == engines[0];
    assert steps == whole + [Start(InstalledEngine(c.downloads.engines[0]))];
    assert steps[..|steps| - 1] == whole;
  }

  lemma NotInBlock(block: seq<Step>, x: Step, p: nat, f: bool)
    requires AllInPhase(block, p, f) && Phase(x, f) != p
    ensures x !in block
  {
  }

  /** A configuration-update or launcher-update step can only come from its own block. */
  lemma {:induction false} AwaitingStepOrigin(c: Config, env: Environment, x: Step)
    requires !c.noDownloads && (x.ConfigUpdate? || x.LauncherUpdate?)
    ensures x in PlannedSteps(c, env) <==>
      x in LeadingConfigUpdate(c, env) || x in TrailingConfigUpdate(c, env) || x in LauncherUpdateSteps(env)
  {
    var f := !env.configJsonExists;
    var d := c.downloads;
    var b1 := MapSeq(ResourceStepOf, d.resources);
    var b2 := MapSeq(EngineStepOf, d.engines);
    var b3 := GamesSteps(d.games);
    var b4 := MapSeq(MapStepOf, d.maps);
    var b5 := MapSeq(WriteFileStepOf, c.jsonFiles);
    var b8 := StartSteps(c);
    assert PlannedSteps(c, env) == LeadingConfigUpdate(c, env) + b1 + b2 + b3 + b4 + b5
      + TrailingConfigUpdate(c, env) + LauncherUpdateSteps(env) + b8;
    ResourcePhase(d.resources, f);
    NotInBlock(b1, x, 1, f);
    EnginePhase(d.engines, f);
    NotInBlock(b2, x, 2, f);
    assert AllInPhase(b3, 3, f);
    NotInBlock(b3, x, 3, f);
    MapPhase(d.maps, f);
    NotInBlock(b4, x, 4, f);
    WriteFilePhase(c.jsonFiles, f);
    NotInBlock(b5, x, 5, f);
    assert AllInPhase(b8, 8, f);
    NotInBlock(b8, x, 8, f);
  }

  /** A task is prefetched exactly when a step that awaits it is queued. */
  lemma TasksMatchAwaitingSteps(c: Config, env: Environment)
    ensures var steps := PlannedSteps(c, env);
      var tasks := PlannedTasks(c, env);
      && (forall url :: ConfigFetch(url) in tasks <==> ConfigUpdate(url) in steps)
      && (UpdateCheck in tasks <==> LauncherUpdate in steps)
  {
    var steps := PlannedSteps(c, env);
    var tasks := PlannedTasks(c, env);
    if c.noDownloads {
      assert forall s | s in steps :: s.Start?;
    } else {
      forall url ensures ConfigFetch(url) in tasks <==> ConfigUpdate(url) in steps {
        AwaitingStepOrigin(c, env, ConfigUpdate(url));
      }
      AwaitingStepOrigin(c, env, LauncherUpdate);
    }
  }

  /** The steps of `s` of rank `p`, in order. */
  function OfPhase(s: seq<Step>, p: nat, f: bool): (r: seq<Step>)
    ensures |r| <= |s|
  {
    if s == [] then [] else (if Phase(s[0], f) == p then [s[0]] else []) + OfPhase(s[1..], p, f)
  }

  lemma {:induction false} OfPhaseConcat(a: seq<Step>, b: seq<Step>, p: nat, f: bool)
    ensures OfPhase(a + b, p, f) == OfPhase(a, p, f) + OfPhase(b, p, f)
  {
    if a == [] {
      assert a + b == b;
    } else {
      var head := if Phase(a[0], f) == p then [a[0]] else [];
      assert (a + b)[0] == a[0];
      assert (a + b)[1..] == a[1..] + b;
      assert OfPhase(a + b, p, f) == head + OfPhase(a[1..] + b, p, f);
      OfPhaseConcat(a[1..], b, p, f);
      assert OfPhase(a, p, f) == head + OfPhase(a[1..], p, f);
      ConcatAssoc(head, OfPhase(a[1..], p, f), OfPhase(b, p, f));
    }
  }

  lemma {:induction false} OfPhaseUniform(s: seq<Step>, q: nat, p: nat, f: bool)
    requires AllInPhase(s, q, f)
    ensures OfPhase(s, p, f) == if p == q then s else []
  {
    if s != [] {
      OfPhaseUniform(s[1..], q, p, f);
      assert s == [s[0]] + s[1..];
    }
  }

  /** Every block of `blocks` has uniform rank, the first `base`, the next `base + 1`, ... */
  ghost predicate RankedBlocks(blocks: seq<seq<Step>>, base: nat, f: bool)
    decreases |blocks|
  {
    blocks == [] || (AllInPhase(blocks[0], base, f) && RankedBlocks(blocks[1..], base + 1, f))
  }

  /** Selecting one rank from ranked blocks laid end to end gives back its block. */
  lemma {:induction false} OfPhaseBlocks(blocks: seq<seq<Step>>, base: nat, p: nat, f: bool)
    requires RankedBlocks(blocks, base, f)
    ensures OfPhase(Flatten(blocks), p, f) == if base <= p < base + |blocks| then blocks[p - base] else []
    decreases |blocks|
  {
    if blocks != [] {
      var rest := blocks[1..];
      assert Flatten(blocks) == blocks[0] + Flatten(rest);
      OfPhaseConcat(blocks[0], Flatten(rest), p, f);
      OfPhaseUniform(blocks[0], base, p, f);
      OfPhaseBlocks(rest, base + 1, p, f);
      if base < p < base + |blocks| {
        assert rest[p - (base + 1)] == blocks[p - base];
      }
    }
  }

  /** The steps of each kind are exactly the configuration's entries of that kind, in the
      configuration's order: the leading and trailing configuration updates, one step per
      resource, per engine and per map, a single games step for a non-empty games list, one
      write-file step per provisioned file, the launcher update and the start step. */
  lemma PlannedStepsByKind(c: Config, env: Environment)
    requires !c.noDownloads
    ensures var steps := PlannedSteps(c, env);
      var f := !env.configJsonExists;
      && OfPhase(steps, 0, f) == LeadingConfigUpdate(c, env)
      && OfPhase(steps, 1, f) == MapSeq(ResourceStepOf, c.downloads.resources)
      && OfPhase(steps, 2, f) == MapSeq(EngineStepOf, c.downloads.engines)
      && OfPhase(steps, 3, f) == GamesSteps(c.downloads.games)
      && OfPhase(steps, 4, f) == MapSeq(MapStepOf, c.downloads.maps)
      && OfPhase(steps, 5, f) == MapSeq(WriteFileStepOf, c.jsonFiles)
      && OfPhase(steps, 6, f) == TrailingConfigUpdate(c, env)
      && OfPhase(steps, 7, f) == LauncherUpdateSteps(env)
      && OfPhase(steps, 8, f) == StartSteps(c)
  {
    var f := !env.configJsonExists;
    var blocks := PhaseBlocks(c, env);
    PhaseBlocksShape(c, env);
    forall p | 0 <= p <= 8 ensures OfPhase(PlannedSteps(c, env), p, f) == blocks[p] {
      OfPhaseBlocks(blocks, 0, p, f);
    }
  }

  /** The nine blocks of the queue of a downloading configuration, one per phase. */
  function PhaseBlocks(c: Config, env: Environment): seq<seq<Step>>
  {
    var d := c.downloads;
    [LeadingConfigUpdate(c, env), MapSeq(ResourceStepOf, d.resources),
     MapSeq(EngineStepOf, d.engines), GamesSteps(d.games), MapSeq(MapStepOf, d.maps),
     MapSeq(WriteFileStepOf, c.jsonFiles), TrailingConfigUpdate(c, env),
     LauncherUpdateSteps(env), StartSteps(c)]
  }

  lemma PhaseBlocksShape(c: Config, env: Environment)
    requires !c.noDownloads
    ensures Flatten(PhaseBlocks(c, env)) == PlannedSteps(c, env)
    ensures RankedBlocks(PhaseBlocks(c, env), 0, !env.configJsonExists)
  {
    var f := !env.configJsonExists;
    var d := c.downloads;
    var blocks := PhaseBlocks(c, env);
    assert RankedBlocks(blocks, 0, f) by {
      ResourcePhase(d.resources, f);
      EnginePhase(d.engines, f);
      MapPhase(d.maps, f);
      WriteFilePhase(c.jsonFiles, f);
      assert AllInPhase(blocks[3], 3, f) && AllInPhase(blocks[8], 8, f);
      RankedNine(blocks, f);
    }
    FlattenNine(blocks);
  }

  lemma RankedNine(b: seq<seq<Step>>, f: bool)
    requires |b| == 9 && forall q | 0 <= q < 9 :: AllInPhase(b[q], q, f)
    ensures RankedBlocks(b, 0, f)
  {
    assert b[9..] == [];
    RankedFrom(b, 8, f);
    RankedFrom(b, 7, f);
    RankedFrom(b, 6, f);
    RankedFrom(b, 5, f);
    RankedFrom(b, 4, f);
    RankedFrom(b, 3, f);
    RankedFrom(b, 2, f);
    RankedFrom(b, 1, f);
    RankedFrom(b, 0, f);
    assert b[0..] == b;
  }

  lemma RankedFrom(b: seq<seq<Step>>, k: nat, f: bool)
    requires k < |b| && AllInPhase(b[k], k, f) && RankedBlocks(b[k + 1..], k + 1, f)
    ensures RankedBlocks(b[k..], k, f)
  {
    assert b[k..][0] == b[k];
    assert b[k..][1..] == b[k + 1..];
  }

  lemma {:induction false} FlattenSnoc<T>(b: seq<seq<T>>, k: nat)
    requires k < |b|
    ensures Flatten(b[..k + 1]) == Flatten(b[..k]) + b[k]
    decreases k
  {
    if k == 0 {
      assert b[..1] == [b[0]] && b[..1][1..] == [] && b[..0] == [];
    } else {
      assert b[..k + 1][0] == b[0] && b[..k + 1][1..] == b[1..][..k];
      assert b[..k][0] == b[0] && b[..k][1..] == b[1..][..k - 1];
      FlattenSnoc(b[1..], k - 1);
      ConcatAssoc(b[0], Flatten(b[1..][..k - 1]), b[k]);
    }
  }

  lemma FlattenNine<T>(b: seq<seq<T>>)
    requires |b| == 9
    ensures Flatten(b) == b[0] + b[1] + b[2] + b[3] + b[4] + b[5] + b[6] + b[7] + b[8]
  {
    assert Flatten(b[..1]) == b[0] by {
      FlattenSnoc(b, 0);
      assert b[..0] == [];
    }
    assert Flatten(b[..2]) == b[0] + b[1] by { FlattenSnoc(b, 1); }
    assert Flatten(b[..3]) == b[0] + b[1] + b[2] by { FlattenSnoc(b, 2); }
    assert Flatten(b[..4]) == b[0] + b[1] + b[2] + b[3] by { FlattenSnoc(b, 3); }
    assert Flatten(b[..5]) == b[0] + b[1] + b[2] + b[3] + b[4] by { FlattenSnoc(b, 4); }
    assert Flatten(b[..6]) == b[0] + b[1] + b[2] + b[3] + b[4] + b[5] by { FlattenSnoc(b, 5); }
    assert Flatten(b[..7]) == b[0] + b[1] + b[2] + b[3] + b[4] + b[5] + b[6] by { FlattenSnoc(b, 6); }
    assert Flatten(b[..8]) == b[0] + b[1] + b[2] + b[3] + b[4] + b[5] + b[6] + b[7] by { FlattenSnoc(b, 7); }
    FlattenSnoc(b, 8);
    assert b[..9] == b;
  }
}

/** The pr-downloader monitor: it spawns the external downloader for one package, turns
    its standard output into progress and info events, classifies its exit, and can kill
    it on request. Spawning and killing are recorded in the monitor's state; the
    callbacks the process delivers (output chunks, `close`, `error`) are `Deliver` calls. */
module PrdDownload {
  import opened Wrappers
  import opened Strings
  import opened Seqs
  import opened ProgressProtocol
  import opened LauncherConfig

  datatype DownloadEvent =
    | Started(name: string)
    | Progress(name: string, current: nat, total: nat)
    | Info(name: string, line: string)
    | Finished(name: string)
    | Failed(name: string, message: string)
    | Aborted(name: string, message: string)
  {
    /** The events that end an invocation. */
    predicate IsTerminal()
    {
      Finished? || Failed? || Aborted?
    }
  }

  const MissingBinaryOnWindows: string :=
    "'pr-downloader.exe' file is missing. This issue may be caused by an "
    + "antivirus program, such as Avast, accidentally deleting the file. "
    + "Please ensure your antivirus is up-to-date (or e.g., "
    + "<a target=\"_blank\" href=\"https://www.google.com/search?q=How+to+add+a+folder+to+%3Cyour+antivirus%3E+antivirus+exclusion+list\">"
    + "add install folder to exceptions list</a>), and reinstall the game."
  const MissingBinaryElsewhere: string := "pr-downloader binary not found in the installation directory."
  const DiskFullMessage: string := "Failed to download: " + "disk too full. Need a least 1 GiB free."
  const AbortMessage: string := "Download interrupted via user action."

  /** The diagnostic for a missing downloader binary; Windows gets the antivirus hint. */
  function MissingBinaryMessage(onWindows: bool): string
  {
    if onWindows then MissingBinaryOnWindows else MissingBinaryElsewhere
  }

  /** How an exit code prints in a template string; a process killed by a signal closes
      with code `null`. */
  function ExitCodeText(code: Option<int>): string
  {
    match code
    case None => "null"
    case Some(c) => IntToString(c)
  }

  /** The event for a `close` of a process whose invocation is not yet finished. */
  function ExitEvent(name: string, code: Option<int>): (e: DownloadEvent)
    ensures e.IsTerminal() && e.name == name
    ensures e.Finished? <==> code == Some(0)
    ensures code == Some(5) ==> e == Failed(name, DiskFullMessage)
    ensures code != Some(0) && code != Some(5) ==>
      && e.Failed?
      && "Download failed: " <= e.message
      && |ExitCodeText(code)| <= |e.message|
      && e.message[|e.message| - |ExitCodeText(code)|..] == ExitCodeText(code)
  {
    if code == Some(0) then Finished(name)
    else if code == Some(5) then Failed(name, DiskFullMessage)
    else Failed(name, "Download failed: " + name + ": " + ExitCodeText(code))
  }

  /** The event for an `error` of the process (it could not be launched). */
  function LaunchFailure(name: string, error: string): DownloadEvent
  {
    Failed(name, "Failed to launch pr-downloader: " + error)
  }

  /** The event, if any, for one chunk of standard output. */
  function StdoutEvent(name: string, chunk: string): (r: Option<DownloadEvent>)
    ensures r.Some? ==> r.value.name == name && !r.value.IsTerminal()
    ensures r.Some? <==> ClassifyLine(chunk).Some?
    ensures forall a: nat, b: nat :: ClassifyLine(chunk) == Some(ProgressLine(a, b)) ==> r == Some(Progress(name, a, b))
    ensures !(ProgressTag <= chunk) && InfoTag <= chunk ==> r == Some(Info(name, chunk))
  {
    match ClassifyLine(chunk)
    case None => None
    case Some(ProgressLine(current, total)) => Some(Progress(name, current, total))
    case Some(InfoLine(text)) => Some(Info(name, text))
  }

  /** The exit event determines the exit code: no two codes are reported alike. */
  lemma ExitEventDeterminesCode(name: string, c1: Option<int>, c2: Option<int>)
    requires ExitEvent(name, c1) == ExitEvent(name, c2)
    ensures c1 == c2
  {
    var generic := "Download failed: " + name + ": ";
    // the disk-full message and the generic message differ in their first character
    assert DiskFullMessage[0] == 'F';
    assert c1 != Some(0) && c1 != Some(5) ==> ExitEvent(name, c1).message[0] == 'D';
    assert c2 != Some(0) && c2 != Some(5) ==> ExitEvent(name, c2).message[0] == 'D';
    // a printed code never reads "null"
    assert c1.Some? && c1.value >= 0 ==> IsDigit(ExitCodeText(c1)[0]);
    assert c2.Some? && c2.value >= 0 ==> IsDigit(ExitCodeText(c2)[0]);
    if c1 != Some(0) && c1 != Some(5) && c2 != Some(0) && c2 != Some(5) {
      PrefixCancel(generic, ExitCodeText(c1), ExitCodeText(c2));
      if c1.Some? && c2.Some? {
        IntToStringInjective(c1.value, c2.value);
      }
    }
  }

  // ---------------------------------------------------------------------------------
  // One invocation, seen through the callbacks its process delivers.

  datatype ProcessSignal =
    | StdoutData(chunk: string)
    | StderrData(chunk: string)
    | Close(code: Option<int>)
    | SpawnError(error: string)
  {
    predicate IsOutput()
    {
      StdoutData? || StderrData?
    }
  }

  function OptionToSeq<T>(o: Option<T>): seq<T>
  {
    match o
    case None => []
    case Some(x) => [x]
  }

  /** What one callback does, given the invocation's `finished` latch: the new latch and
      the event it emits. Standard error is only logged; `close` is silent once `error`
      has set the latch. */
  function HandleSignal(name: string, finished: bool, sig: ProcessSignal): (bool, Option<DownloadEvent>)
  {
    match sig
    case StdoutData(chunk) => (finished, StdoutEvent(name, chunk))
    case StderrData(_) => (finished, None)
    case Close(code) => if finished then (finished, None) else (finished, Some(ExitEvent(name, code)))
    case SpawnError(error) => (true, Some(LaunchFailure(name, error)))
  }

  /** The latch and the events after a sequence of callbacks. */
  function RunSignals(name: string, finished: bool, sigs: seq<ProcessSignal>): (bool, seq<DownloadEvent>)
    decreases |sigs|
  {
    if sigs == [] then (finished, [])
    else
      var step := HandleSignal(name, finished, sigs[0]);
      var rest := RunSignals(name, step.0, sigs[1..]);
      (rest.0, OptionToSeq(step.1) + rest.1)
  }

  /** Running two sequences of callbacks one after the other. */
  lemma {:induction false} RunSignalsConcat(name: string, finished: bool, a: seq<ProcessSignal>, b: seq<ProcessSignal>)
    ensures var first := RunSignals(name, finished, a);
      var second := RunSignals(name, first.0, b);
      RunSignals(name, finished, a + b) == (second.0, first.1 + second.1)
    decreases |a|
  {
    if a == [] {
      assert a + b == b;
      assert RunSignals(name, finished, a) == (finished, []);
      assert [] + RunSignals(name, finished, b).1 == RunSignals(name, finished, b).1;
    } else {
      var step := HandleSignal(name, finished, a[0]);
      assert (a + b)[0] == a[0];
      assert (a + b)[1..] == a[1..] + b;
      RunSignalsConcat(name, step.0, a[1..], b);
      var tail := RunSignals(name, step.0, a[1..]);
      var second := RunSignals(name, tail.0, b);
      ConcatAssoc(OptionToSeq(step.1), tail.1, second.1);
    }
  }

  /** Output callbacks alone leave the latch alone and emit no terminal event. */
  lemma {:induction false} OutputIsQuiet(name: string, finished: bool, out: seq<ProcessSignal>)
    requires forall i | 0 <= i < |out| :: out[i].IsOutput()
    ensures RunSignals(name, finished, out).0 == finished
    ensures Terminals(RunSignals(name, finished, out).1) == 0
    decreases |out|
  {
    if out != [] {
      var step := HandleSignal(name, finished, out[0]);
      assert step.0 == finished;
      assert step.1.Some? ==> !step.1.value.IsTerminal();
      assert Terminals(OptionToSeq(step.1)) == 0;
      OutputIsQuiet(name, finished, out[1..]);
      TerminalsConcat(OptionToSeq(step.1), RunSignals(name, finished, out[1..]).1);
    }
  }

  function Terminals(events: seq<DownloadEvent>): nat
  {
    if events == [] then 0 else (if events[0].IsTerminal() then 1 else 0) + Terminals(events[1..])
  }

  lemma {:induction false} TerminalsConcat(a: seq<DownloadEvent>, b: seq<DownloadEvent>)
    ensures Terminals(a + b) == Terminals(a) + Terminals(b)
  {
    if a == [] {
      assert a + b == b;
    } else {
      assert (a + b)[0] == a[0];
      assert (a + b)[1..] == a[1..] + b;
      TerminalsConcat(a[1..], b);
    }
  }

  /** Output callbacks leave the latch alone and never end the invocation; whatever
      follows them runs as if they had not happened. */
  lemma OutputThenRest(name: string, finished: bool, out: seq<ProcessSignal>, rest: seq<ProcessSignal>)
    requires forall i | 0 <= i < |out| :: out[i].IsOutput()
    ensures RunSignals(name, finished, out).0 == finished
    ensures Terminals(RunSignals(name, finished, out).1) == 0
    ensures RunSignals(name, finished, out + rest) ==
            (RunSignals(name, finished, rest).0, RunSignals(name, finished, out).1 + RunSignals(name, finished, rest).1)
  {
    OutputIsQuiet(name, finished, out);
    RunSignalsConcat(name, finished, out, rest);
  }

  /** The ways the process can end an invocation: it closes, or it cannot be launched
      (and may close afterwards). */
  predicate IsEnding(ending: seq<ProcessSignal>)
  {
    || (|ending| == 1 && (ending[0].Close? || ending[0].SpawnError?))
    || (|ending| == 2 && ending[0].SpawnError? && ending[1].Close?)
  }

  /** Every invocation reports exactly one terminal event, after all its output events:
      a launch failure if the process could not be launched (the later `close` is
      suppressed by the latch), otherwise the classification of its exit code. */
  lemma OneTerminalEventPerInvocation(name: string, out: seq<ProcessSignal>, ending: seq<ProcessSignal>)
    requires forall i | 0 <= i < |out| :: out[i].IsOutput()
    requires IsEnding(ending)
    ensures var events := RunSignals(name, false, out + ending).1;
            && Terminals(events) == 1
            && events == RunSignals(name, false, out).1 +
                 [if ending[0].SpawnError? then LaunchFailure(name, ending[0].error)
                  else ExitEvent(name, ending[0].code)]
  {
    OutputThenRest(name, false, out, ending);
    var terminal := EndingEvent(name, ending);
    EndingEmitsOneEvent(name, ending);
    TerminalsConcat(RunSignals(name, false, out).1, [terminal]);
  }

  function EndingEvent(name: string, ending: seq<ProcessSignal>): DownloadEvent
    requires IsEnding(ending)
  {
    if ending[0].SpawnError? then LaunchFailure(name, ending[0].error) else ExitEvent(name, ending[0].code)
  }

  lemma EndingEmitsOneEvent(name: string, ending: seq<ProcessSignal>)
    requires IsEnding(ending)
    ensures RunSignals(name, false, ending).1 == [EndingEvent(name, ending)]
    ensures Terminals([EndingEvent(name, ending)]) == 1
  {
    var first := HandleSignal(name, false, ending[0]);
    assert first.1 == Some(EndingEvent(name, ending));
    if |ending| == 2 {
      assert first.0;
      var tail := ending[1..];
      assert tail[1..] == [];
      var second := HandleSignal(name, true, tail[0]);
      assert second == (true, None);
      assert RunSignals(name, true, tail[1..]) == (true, []);
      assert OptionToSeq(second.1) == [];
      assert RunSignals(name, true, tail) == (true, OptionToSeq(second.1) + RunSignals(name, true, tail[1..]).1);
      var none: seq<DownloadEvent> := [];
      assert RunSignals(name, true, tail).1 == none + none;
      assert none + none == none;
      assert RunSignals(name, first.0, ending[1..]) == (true, none);
    } else {
      assert ending[1..] == [];
    }
  }

  /** Killing a process does not set its latch, so the `close` that follows the kill (with
      code `null`) is still classified: an aborted invocation reports two terminal events. */
  lemma AbortThenCloseReportsTwice(name: string)
    ensures var events := [Aborted(name, AbortMessage)] + RunSignals(name, false, [Close(None)]).1;
      && events == [Aborted(name, AbortMessage), Failed(name, "Download failed: " + name + ": null")]
      && Terminals(events) == 2
  {
    var failure := Failed(name, "Download failed: " + name + ": null");
    assert ExitEvent(name, None) == failure;
    assert [Close(None)][1..] == [];
    assert RunSignals(name, false, [Close(None)]).1 == [failure];
    var events := [Aborted(name, AbortMessage), failure];
    assert events[1..] == [failure] && events[1..][1..] == [];
    assert Terminals(events[1..][1..]) == 0;
  }

  // ---------------------------------------------------------------------------------
  // Argument lists.

  function EngineArgs(writePath: string, engine: string): seq<string>
  {
    ["--filesystem-writepath", writePath, "--download-engine", engine]
  }

  function MapArgs(writePath: string, mapName: string): seq<string>
  {
    ["--filesystem-writepath", writePath, "--download-map", mapName]
  }

  /** The write path first, then one `--download-game` pair per game, in order. */
  ghost predicate IsGamesArgs(writePath: string, games: seq<string>, args: seq<string>)
  {
    && |args| == 2 + 2 * |games|
    && args[..2] == ["--filesystem-writepath", writePath]
    && forall i | 0 <= i < |games| :: args[2 + 2 * i] == "--download-game" && args[3 + 2 * i] == games[i]
  }

  method GamesArgs(writePath: string, games: seq<string>) returns (args: seq<string>)
    ensures |args| == 2 + 2 * |games|
    ensures args[..2] == ["--filesystem-writepath", writePath]
    ensures forall i | 0 <= i < |games| :: args[2 + 2 * i] == "--download-game" && args[3 + 2 * i] == games[i]
  {
    args := ["--filesystem-writepath", writePath];
    for n := 0 to |games|
      invariant |args| == 2 + 2 * n
      invariant args[..2] == ["--filesystem-writepath", writePath]
      invariant forall i | 0 <= i < n :: args[2 + 2 * i] == "--download-game" && args[3 + 2 * i] == games[i]
    {
      args := args + ["--download-game", games[n]];
    }
  }

  // ---------------------------------------------------------------------------------
  // The message `downloadResource` throws.

  /** As written, the message reads the destination under the key `']destination'`,
      which no resource has, so the destination always prints as `undefined`. */
  function ResourceErrorAsWritten(resource: Resource): string
  {
    "downloadResource(" + resource.url + ", undefined): pr_downloader cannot be used to download resources"
  }

  /** As written, two resources that differ only in their destination get one message. */
  lemma ResourceErrorAsWrittenLosesDestination()
    ensures ResourceErrorAsWritten(Resource("https://example.org/a.zip", "maps/a.zip"))
         == ResourceErrorAsWritten(Resource("https://example.org/a.zip", "games/a.zip"))
  {
  }

  /** The intended message, naming the resource's URL and destination. */
  function ResourceError(resource: Resource): string
  {
    "downloadResource(" + resource.url + ", " + resource.destination
      + "): pr_downloader cannot be used to download resources"
  }

  /** The intended message identifies the destination: for one URL, different
      destinations give different messages. */
  lemma ResourceErrorNamesDestination(r1: Resource, r2: Resource)
    requires r1.url == r2.url && ResourceError(r1) == ResourceError(r2)
    ensures r1.destination == r2.destination
  {
    MiddleCancel("downloadResource(" + r1.url + ", ", r1.destination, r2.destination,
      "): pr_downloader cannot be used to download resources");
  }

  // ---------------------------------------------------------------------------------
  // The monitor object.

  /** One spawned process: the package name it reports under, its arguments, and the
      `finished` latch of its callbacks. */
  datatype Invocation = Invocation(name: string, args: seq<string>, finished: bool)

  class PrdDownloader {
    const writePath: string
    const onWindows: bool
    var prd: Option<nat>            // the last spawned process, an index into `invocations`
    var name: Option<string>        // the package of the last spawned process
    var invocations: seq<Invocation>
    var killed: seq<nat>            // processes killed with signal 9, in order
    var events: seq<DownloadEvent>  // everything emitted, in order

    /** `prd` and `name` always describe the latest spawn and are never cleared. */
    ghost predicate Valid()
      reads this
    {
      && prd == (if invocations == [] then None else Some(|invocations| - 1))
      && name == (if invocations == [] then None else Some(invocations[|invocations| - 1].name))
      && forall i | 0 <= i < |killed| :: killed[i] < |invocations|
    }

    constructor(writePath: string, onWindows: bool)
      ensures Valid()
      ensures this.writePath == writePath && this.onWindows == onWindows
      ensures invocations == [] && killed == [] && events == []
    {
      this.writePath := writePath;
      this.onWindows := onWindows;
      prd, name := None, None;
      invocations, killed, events := [], [], [];
    }

    /** Spawns the downloader for `pkg`, or reports the missing binary and spawns
        nothing. `binaryExists` is what the file system says about the binary's path. */
    method DownloadPackage(pkg: string, args: seq<string>, binaryExists: bool)
      requires Valid()
      modifies this
      ensures Valid()
      ensures killed == old(killed)
      ensures !binaryExists ==>
                && invocations == old(invocations) && prd == old(prd) && name == old(name)
                && events == old(events) + [Failed(pkg, MissingBinaryMessage(onWindows))]
      ensures binaryExists ==>
                && invocations == old(invocations) + [Invocation(pkg, args, false)]
                && prd == Some(|old(invocations)|) && name == Some(pkg)
                && events == old(events) + [Started(pkg)]
    {
      if !binaryExists {
        events := events + [Failed(pkg, MissingBinaryMessage(onWindows))];
        return;
      }
      invocations := invocations + [Invocation(pkg, args, false)];
      events := events + [Started(pkg)];
      prd := Some(|invocations| - 1);
      name := Some(pkg);
    }

    /** One callback of process `id`: an output chunk, `close` or `error`. */
    method Deliver(id: nat, sig: ProcessSignal)
      requires Valid() && id < |invocations|
      modifies this
      ensures Valid()
      ensures prd == old(prd) && name == old(name) && killed == old(killed)
      ensures var (finished, event) := HandleSignal(old(invocations[id].name), old(invocations[id].finished), sig);
              && invocations == old(invocations)[id := old(invocations[id]).(finished := finished)]
              && events == old(events) + OptionToSeq(event)
    {
      var inv := invocations[id];
      match sig {
        case StdoutData(chunk) =>
          var event := StdoutEvent(inv.name, chunk);
          if event.Some? {
            events := events + [event.value];
          }
        case StderrData(_) =>
        case Close(code) =>
          if !inv.finished {
            events := events + [ExitEvent(inv.name, code)];
          }
        case SpawnError(error) =>
          invocations := invocations[id := inv.(finished := true)];
          events := events + [LaunchFailure(inv.name, error)];
      }
    }

    method DownloadEngine(engine: string, binaryExists: bool)
      requires Valid()
      modifies this
      ensures Valid()
      ensures killed == old(killed)
      ensures !binaryExists ==>
                && invocations == old(invocations)
                && events == old(events) + [Failed(engine, MissingBinaryMessage(onWindows))]
      ensures binaryExists ==>
                && invocations == old(invocations) + [Invocation(engine, EngineArgs(writePath, engine), false)]
                && events == old(events) + [Started(engine)]
    {
      DownloadPackage(engine, EngineArgs(writePath, engine), binaryExists);
    }

    /** Downloads all games with one process, reported under the names joined by ", ". */
    method DownloadGames(games: seq<string>, binaryExists: bool)
      requires Valid()
      modifies this
      ensures Valid()
      ensures killed == old(killed)
      ensures !binaryExists ==>
                && invocations == old(invocations)
                && events == old(events) + [Failed(Join(games, ", "), MissingBinaryMessage(onWindows))]
      ensures binaryExists ==>
                && |invocations| == |old(invocations)| + 1
                && invocations[..|old(invocations)|] == old(invocations)
                && invocations[|old(invocations)|].name == Join(games, ", ")
                && IsGamesArgs(writePath, games, invocations[|old(invocations)|].args)
                && !invocations[|old(invocations)|].finished
                && events == old(events) + [Started(Join(games, ", "))]
    {
      var args := GamesArgs(writePath, games);
      DownloadPackage(Join(games, ", "), args, binaryExists);
    }

    method DownloadMap(mapName: string, binaryExists: bool)
      requires Valid()
      modifies this
      ensures Valid()
      ensures killed == old(killed)
      ensures !binaryExists ==>
                && invocations == old(invocations)
                && events == old(events) + [Failed(mapName, MissingBinaryMessage(onWindows))]
      ensures binaryExists ==>
                && invocations == old(invocations) + [Invocation(mapName, MapArgs(writePath, mapName), false)]
                && events == old(events) + [Started(mapName)]
    {
      DownloadPackage(mapName, MapArgs(writePath, mapName), binaryExists);
    }

    /** pr-downloader cannot fetch plain resources: the call always throws. */
    function DownloadResource(resource: Resource): (r: Outcome<string>)
      ensures r.Fail?
    {
      Fail(ResourceError(resource))
    }

    /** Kills the last spawned process and reports the abort; nothing happens before the
        first spawn. The name is never cleared, so this also fires after that download
        has ended. */
    method StopDownload()
      requires Valid()
      modifies this
      ensures Valid()
      ensures invocations == old(invocations) && prd == old(prd) && name == old(name)
      ensures old(name).None? ==> killed == old(killed) && events == old(events)
      ensures old(name).Some? ==>
                && killed == old(killed) + [old(prd).value]
                && events == old(events) + [Aborted(old(name).value, AbortMessage)]
    {
      if name.None? {
        return;
      }
      killed := killed + [prd.value];
      events := events + [Aborted(name.value, AbortMessage)];
    }
  }
}

/** The wizard's prefetched asynchronous tasks and the decisions taken when their
    results arrive. Every task settles to a value that carries its error, so a task never
    rejects; the launcher-update check settles through a resolve-once latch. */
module WizardTasks {
  import opened Wrappers
  import opened LauncherConfig

  /** An error as the wizard sees it: errors from the HTTP client carry a `code`. */
  datatype ErrorValue = ErrorValue(code: Option<string>, text: string)

  datatype UpdateInfo = UpdateInfo(version: string)

  // ---------------------------------------------------------------------------------
  // The remote configuration fetch.

  /** What `handleConfigUpdate` returns: the new configuration and how to reload it. */
  datatype ConfigReload = ConfigReload(newConfig: JsonValue, reloadType: string)

  /** `{newConfig, reloadType, error}`: the value the fetch task settles to. */
  datatype FetchOutcome = FetchOutcome(reload: Option<ConfigReload>, error: Option<ErrorValue>)

  /** A call that returns or throws. */
  datatype Attempt<T> = Succeeded(value: T) | Threw(error: ErrorValue)

  /** The fetch task's wrapper: the HTTP request (5 s timeout) and `handleConfigUpdate`
      on its JSON both have their failures captured as the settled value's `error`. */
  function CaptureConfigFetch(fetched: Attempt<JsonValue>, handled: JsonValue -> Attempt<ConfigReload>): (r: FetchOutcome)
    ensures r.error.Some? <==> r.reload.None?
    ensures r.error.None? <==> fetched.Succeeded? && handled(fetched.value).Succeeded?
    ensures fetched.Threw? ==> r.error == Some(fetched.error)
    ensures fetched.Succeeded? && handled(fetched.value).Succeeded? ==> r.reload == Some(handled(fetched.value).value)
    ensures fetched.Succeeded? && handled(fetched.value).Threw? ==> r.error == Some(handled(fetched.value).error)
  {
    match fetched
    case Threw(error) => FetchOutcome(None, Some(error))
    case Succeeded(raw) =>
      match handled(raw)
      case Threw(error) => FetchOutcome(None, Some(error))
      case Succeeded(reload) => FetchOutcome(Some(reload), None)
  }

  const CanceledCode: string := "ERR_CANCELED"

  /** What the config-update step does with the settled fetch: a cancelled request ends
      the step without advancing; any other error is ignored; a success is reloaded. */
  datatype ConfigChoice = StayPut | Continue(reload: Option<ConfigReload>)

  function ConfigUpdateChoice(o: FetchOutcome): (c: ConfigChoice)
    ensures c.StayPut? <==> o.error.Some? && o.error.value.code == Some(CanceledCode)
    ensures c.Continue? && c.reload.Some? ==> o.error.None? && c.reload == o.reload
    ensures o.error.None? ==> c == Continue(o.reload)
    ensures o.error.Some? && o.error.value.code != Some(CanceledCode) ==> c == Continue(None)
  {
    if o.error.Some? then
      if o.error.value.code == Some(CanceledCode) then StayPut else Continue(None)
    else Continue(o.reload)
  }

  // ---------------------------------------------------------------------------------
  // The launcher update check.

  /** `{updateAvailable, error, updateInfo}`; `updateAvailable` is true, false or null. */
  datatype UpdateCheckResult = UpdateCheckResult(
    updateAvailable: Option<bool>,
    error: Option<ErrorValue>,
    updateInfo: Option<UpdateInfo>)

  /** What the updater reports while a check runs: its three events, and the settling
      of the `checkForUpdates()` promise (a null result means the check was skipped). */
  datatype UpdaterSignal =
    | UpdateAvailable(info: UpdateInfo)
    | UpdateNotAvailable
    | UpdaterError(error: ErrorValue)
    | CheckReturned(skipped: bool)
    | CheckRejected(error: ErrorValue)

  /** The result a signal offers to the latch, if any. A failure is a value whose error is
      set and whose availability is null. */
  function SignalResult(sig: UpdaterSignal): (r: Option<UpdateCheckResult>)
    ensures r.None? <==> sig == CheckReturned(false)
    ensures r.Some? ==> (r.value.error.Some? <==> r.value.updateAvailable.None?)
    ensures r.Some? && r.value.updateInfo.Some? ==> r.value.updateAvailable == Some(true)
    ensures sig.UpdaterError? || sig.CheckRejected? ==> r == Some(UpdateCheckResult(None, Some(sig.error), None))
    ensures sig.UpdateAvailable? ==> r == Some(UpdateCheckResult(Some(true), None, Some(sig.info)))
    ensures sig == UpdateNotAvailable || sig == CheckReturned(true) ==> r == Some(UpdateCheckResult(Some(false), None, None))
  {
    match sig
    case UpdateAvailable(info) => Some(UpdateCheckResult(Some(true), None, Some(info)))
    case UpdateNotAvailable => Some(UpdateCheckResult(Some(false), None, None))
    case UpdaterError(error) => Some(UpdateCheckResult(None, Some(error), None))
    case CheckReturned(skipped) =>
      if skipped then Some(UpdateCheckResult(Some(false), None, None)) else None
    case CheckRejected(error) => Some(UpdateCheckResult(None, Some(error), None))
  }

  /** The result the check settles to after a sequence of signals: the first offered. */
  function FirstResult(sigs: seq<UpdaterSignal>): Option<UpdateCheckResult>
  {
    if sigs == [] then None
    else if SignalResult(sigs[0]).Some? then SignalResult(sigs[0])
    else FirstResult(sigs[1..])
  }

  /** Once settled, later signals change nothing: the first outcome wins. */
  lemma {:induction false} FirstResultWins(a: seq<UpdaterSignal>, b: seq<UpdaterSignal>)
    ensures FirstResult(a + b) == if FirstResult(a).Some? then FirstResult(a) else FirstResult(b)
  {
    if a == [] {
      assert a + b == b;
    } else {
      assert (a + b)[0] == a[0];
      assert (a + b)[1..] == a[1..] + b;
      FirstResultWins(a[1..], b);
    }
  }

  /** The promise of the update check, with its `resolved` latch. */
  class UpdateCheckLatch {
    var resolved: bool
    var result: Option<UpdateCheckResult>
    ghost var signals: seq<UpdaterSignal>   // every signal delivered so far

    ghost predicate Valid()
      reads this
    {
      resolved == result.Some? && result == FirstResult(signals)
    }

    constructor()
      ensures Valid() && signals == []
    {
      resolved, result := false, None;
      signals := [];
    }

    /** `resolveOnce`: only the first call resolves. */
    method ResolveOnce(r: UpdateCheckResult)
      modifies this`resolved, this`result
      ensures resolved
      ensures result == if old(resolved) then old(result) else Some(r)
    {
      if !resolved {
        resolved := true;
        result := Some(r);
      }
    }

    /** One signal of the updater reaches the listeners. */
    method Notify(sig: UpdaterSignal)
      requires Valid()
      modifies this
      ensures Valid() && signals == old(signals) + [sig]
      ensures old(resolved) ==> result == old(result)
    {
      var offered := SignalResult(sig);
      if offered.Some? {
        ResolveOnce(offered.value);
      }
      FirstResultWins(signals, [sig]);
      signals := signals + [sig];
    }
  }

  /** The value the 5000 ms timer settles to. */
  const TimeoutResult: UpdateCheckResult := UpdateCheckResult(None, Some(ErrorValue(None, "timeout")), None)

  /** `Promise.race` of the check and the timer: `settled` is the check's result when it
      settled first, None when the timer fired first. */
  function RaceOutcome(settled: Option<UpdateCheckResult>): (r: UpdateCheckResult)
    ensures settled.None? ==> r.error.Some? && r.updateAvailable.None?
    ensures settled.Some? ==> r == settled.value
  {
    if settled.Some? then settled.value else TimeoutResult
  }

  datatype UpdateChoice = Proceed | InstallUpdate

  /** The launcher-update step asks the user only when an update is available and the
      dialog is not disabled. */
  predicate AsksUser(r: UpdateCheckResult, dialogDisabled: bool)
  {
    r.error.None? && r.updateAvailable == Some(true) && !dialogDisabled
  }

  /** The launcher-update step installs only an available update that the user did not
      decline; on an error (including the timeout) or no update it proceeds. */
  function LauncherUpdateChoice(r: UpdateCheckResult, dialogDisabled: bool, userAccepts: bool): (c: UpdateChoice)
    ensures c == InstallUpdate <==> r.error.None? && r.updateAvailable == Some(true) && (dialogDisabled || userAccepts)
  {
    if r.error.Some? then Proceed
    else if r.updateAvailable == Some(true) then
      if dialogDisabled || userAccepts then InstallUpdate else Proceed
    else Proceed
  }

  /** The user's answer matters only when the dialog was shown. */
  lemma AnswerMattersOnlyWhenAsked(r: UpdateCheckResult, dialogDisabled: bool)
    ensures !AsksUser(r, dialogDisabled) ==>
      LauncherUpdateChoice(r, dialogDisabled, true) == LauncherUpdateChoice(r, dialogDisabled, false)
    ensures AsksUser(r, dialogDisabled) ==>
      LauncherUpdateChoice(r, dialogDisabled, true) != LauncherUpdateChoice(r, dialogDisabled, false)
  {
  }
}

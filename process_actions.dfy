/**
 * The actions on the process rows of the tree (`ProcessActions`): find what
 * the cursor stands on, bring a process's window forward, start a tracked
 * application that is not running, and close or kill a process. The
 * window's history of activated processes lives in the class's fields.
 *
 * What the operating system answers (whether a window came forward, the
 * answers the process manager's `activate_window` and `close_process` get,
 * whether a launch path is absolute and exists, whether the machine is
 * Windows, the text of a launch failure) arrives as parameters; what the
 * launcher does in reply is recorded in the host log, and the calls a close
 * makes on the process and its window are returned.
 */
module ProcessActions {
  import opened Wrappers
  import opened Strings
  import opened ProcessManager
  import opened TreeModel
  import opened ProcessTrees
  import Host

  /** How long the ordinary status messages stay. */
  const ShortMs: nat := 3000
  /** How long the messages about a missing launch file or a failed launch stay. */
  const LongMs: nat := 4000
  /** The delay before the main group is refreshed after a launch. */
  const LaunchRefreshMs: nat := 1000
  /** The delay before a group is refreshed after a close; the same for both kinds of close. */
  const CloseRefreshMs: nat := 10

  /** A row the actions work on: a 1C process, or a tracked application (which has `is_running`). */
  datatype Target = ProcessTarget(process: Process1C) | AppTarget(app: TrackedApp)

  function ActivatedMessage(name: string): string { "✅ Активирован: " + name }
  function ActivateFailedMessage(name: string): string { "❌ Не удалось активировать: " + name }
  const NoLaunchPathMessage: string := "❌ Путь запуска не настроен"
  function MissingFileMessage(path: string): string { "❌ Не найден файл: " + path }
  function StartedMessage(displayName: string): string { "🚀 Запущено: " + displayName }
  function LaunchErrorMessage(error: string): string { "❌ Ошибка запуска: " + error }

  /** The word for a close: killing the process, or closing it. */
  function ActionName(force: bool): string {
    if force then "Снята задача" else "Закрыто"
  }

  function ClosedMessage(force: bool, name: string): string { "✅ " + ActionName(force) + ": " + name }
  function CloseFailedMessage(name: string): string { "❌ Не удалось закрыть: " + name }

  /**
   * `get_selected_process`: `item` is the item at the current index, `None`
   * when the index is invalid or has no item. Only a process or a tracked
   * application is returned; a base, and a row with no data, give `None`.
   */
  function SelectedTarget(item: Option<Row>): (r: Option<Target>)
    ensures r.Some? <==> item.Some? && (item.value.data.ProcessData? || item.value.data.AppData?)
    ensures r.Some? && r.value.ProcessTarget? ==> item.value.data == ProcessData(r.value.process)
    ensures r.Some? && r.value.AppTarget? ==> item.value.data == AppData(r.value.app)
  {
    match item
    case None => None
    case Some(row) =>
      match row.data
      case ProcessData(p) => Some(ProcessTarget(p))
      case AppData(a) => Some(AppTarget(a))
      case _ => None
  }

  /** A tracked application that is activated rather than started: it runs and carries its process. */
  predicate Activatable(app: TrackedApp) {
    app.isRunning && app.process.Some?
  }

  /** The activation history: a previous process is kept only beside a last one with another pid. */
  predicate Consistent(last: Option<Process1C>, previous: Option<Process1C>) {
    previous.Some? ==> last.Some? && previous.value.pid != last.value.pid
  }

  /** The previous process after `p` is activated: the old last one when its pid differs, else unchanged. */
  function PreviousAfter(last: Option<Process1C>, previous: Option<Process1C>, p: Process1C): Option<Process1C> {
    if last.Some? && last.value.pid != p.pid then last else previous
  }

  /** What `launch_application` does, in order. */
  function LaunchEffects(app: TrackedApp, absolute: bool, exists_: bool, windows: bool, error: Option<string>): seq<Host.Effect> {
    if app.launchPath == "" then [Host.TimedStatus(NoLaunchPathMessage, ShortMs)]
    else if absolute && !exists_ then [Host.TimedStatus(MissingFileMessage(app.launchPath), LongMs)]
    else if error.Some? then [Host.TimedStatus(LaunchErrorMessage(error.value), LongMs)]
    else
      [if windows then Host.ShellStarted(app.launchPath) else Host.ProcessSpawned([app.launchPath])]
      + [Host.TimedStatus(StartedMessage(app.displayName), ShortMs),
         Host.TimerScheduled(LaunchRefreshMs, Host.RefreshMainProcesses),
         Host.MinimizedToTray]
  }

  /** The group refreshed after a successful close: the main one when the cursor's parent row names it, else the opened bases. */
  function RefreshAfterClose(parentText: Option<string>): Host.Task {
    if parentText.Some? && Contains(parentText.value, MainNode) then Host.RefreshMainProcesses else Host.RefreshOpenedBases
  }

  /**
   * What `close_process` does once it has a process. `result` is how the
   * process manager's `close_process` ended (still inside its wait loop when
   * the observed rounds ran out), `cursorValid` whether the view still has a
   * current index, `parentText` the text of that index's parent item.
   */
  function CloseEffects(p: Process1C, force: bool, result: CloseResult, cursorValid: bool, parentText: Option<string>): seq<Host.Effect> {
    match result
    case StillWaiting => []
    case Returned(closed) =>
      if closed then
        [Host.TimedStatus(ClosedMessage(force, p.name), ShortMs)]
        + (if cursorValid then [Host.TimerScheduled(CloseRefreshMs, RefreshAfterClose(parentText))] else [])
      else [Host.TimedStatus(CloseFailedMessage(p.name), ShortMs)]
  }

  /** The process a close works on: a 1C process itself, or the process of a running tracked application. */
  function CloseTarget(t: Target): Option<Process1C> {
    match t
    case ProcessTarget(p) => Some(p)
    case AppTarget(a) => if Activatable(a) then a.process else None
  }

  class ProcessActions {
    const host: Host.Host
    /** `window.last_activated_process`. */
    var lastActivated: Option<Process1C>
    /** `window.previous_activated_process`. */
    var previousActivated: Option<Process1C>
    /** `window.last_activated_main_process`. */
    var lastActivatedMain: Option<Process1C>

    predicate Valid()
      reads this
    {
      Consistent(lastActivated, previousActivated)
    }

    constructor (host: Host.Host)
      ensures this.host == host && lastActivated.None? && previousActivated.None? && lastActivatedMain.None?
      ensures Valid()
    {
      this.host := host;
      lastActivated := None;
      previousActivated := None;
      lastActivatedMain := None;
    }

    /** The `Process1C` branch of `activate_process`. */
    method ActivateProcess1C(p: Process1C, activated: bool)
      modifies this, host
      ensures activated ==> (lastActivated == Some(p)
        && previousActivated == PreviousAfter(old(lastActivated), old(previousActivated), p)
        && host.log == old(host.log) + [Host.TimedStatus(ActivatedMessage(p.name), ShortMs), Host.MinimizedToTray])
      ensures !activated ==> (lastActivated == old(lastActivated) && previousActivated == old(previousActivated)
        && host.log == old(host.log) + [Host.TimedStatus(ActivateFailedMessage(p.name), ShortMs)])
      ensures lastActivatedMain == old(lastActivatedMain) && host.files == old(host.files)
      ensures old(Valid()) ==> Valid()
    {
      if activated {
        host.Record(Host.TimedStatus(ActivatedMessage(p.name), ShortMs));
        if lastActivated.Some? && lastActivated.value.pid != p.pid {
          previousActivated := lastActivated;
        }
        lastActivated := Some(p);
        host.Record(Host.MinimizedToTray);
        if old(Valid()) {
          ActivationKeepsConsistent(old(lastActivated), old(previousActivated), p);
        }
      } else {
        host.Record(Host.TimedStatus(ActivateFailedMessage(p.name), ShortMs));
      }
    }

    /** `launch_application`. `absolute` and `exists_` answer `os.path.isabs` and `os.path.exists` for the launch path; `error` is the text of an exception `Popen` raised. */
    method LaunchApplication(app: TrackedApp, absolute: bool, exists_: bool, windows: bool, error: Option<string>)
      modifies host
      ensures host.log == old(host.log) + LaunchEffects(app, absolute, exists_, windows, error)
      ensures host.files == old(host.files)
    {
      if app.launchPath == "" {
        host.Record(Host.TimedStatus(NoLaunchPathMessage, ShortMs));
        return;
      }
      if absolute && !exists_ {
        host.Record(Host.TimedStatus(MissingFileMessage(app.launchPath), LongMs));
        return;
      }
      if error.Some? {
        host.Record(Host.TimedStatus(LaunchErrorMessage(error.value), LongMs));
        return;
      }
      if windows {
        host.Record(Host.ShellStarted(app.launchPath));
      } else {
        host.Record(Host.ProcessSpawned([app.launchPath]));
      }
      host.Record(Host.TimedStatus(StartedMessage(app.displayName), ShortMs));
      host.Record(Host.TimerScheduled(LaunchRefreshMs, Host.RefreshMainProcesses));
      host.Record(Host.MinimizedToTray);
    }

    /** `activate_process` on a target: a 1C process is brought forward; a tracked application is brought forward when it runs, else started. */
    method Activate(t: Target, activated: bool, absolute: bool, exists_: bool, windows: bool, error: Option<string>)
      modifies this, host
      ensures t.ProcessTarget? && activated ==> (lastActivated == Some(t.process)
        && previousActivated == PreviousAfter(old(lastActivated), old(previousActivated), t.process)
        && host.log == old(host.log) + [Host.TimedStatus(ActivatedMessage(t.process.name), ShortMs), Host.MinimizedToTray])
      ensures t.ProcessTarget? && !activated ==> (lastActivated == old(lastActivated) && previousActivated == old(previousActivated)
        && host.log == old(host.log) + [Host.TimedStatus(ActivateFailedMessage(t.process.name), ShortMs)])
      ensures t.AppTarget? ==> lastActivated == old(lastActivated) && previousActivated == old(previousActivated)
      ensures t.AppTarget? && Activatable(t.app) ==>
        lastActivatedMain == (if activated then t.app.process else old(lastActivatedMain))
        && host.log == old(host.log) + (if activated then [Host.TimedStatus(ActivatedMessage(t.app.process.value.name), ShortMs), Host.MinimizedToTray]
                                        else [Host.TimedStatus(ActivateFailedMessage(t.app.process.value.name), ShortMs)])
      ensures t.AppTarget? && !Activatable(t.app) ==>
        lastActivatedMain == old(lastActivatedMain) && host.log == old(host.log) + LaunchEffects(t.app, absolute, exists_, windows, error)
      ensures t.ProcessTarget? ==> lastActivatedMain == old(lastActivatedMain)
      ensures host.files == old(host.files)
      ensures old(Valid()) ==> Valid()
    {
      match t
      case ProcessTarget(p) =>
        ActivateProcess1C(p, activated);
      case AppTarget(app) =>
        if Activatable(app) {
          var p := app.process.value;
          if activated {
            host.Record(Host.TimedStatus(ActivatedMessage(p.name), ShortMs));
            lastActivatedMain := Some(p);
            host.Record(Host.MinimizedToTray);
          } else {
            host.Record(Host.TimedStatus(ActivateFailedMessage(p.name), ShortMs));
          }
        } else {
          LaunchApplication(app, absolute, exists_, windows, error);
        }
    }

    /** `activate_process()` with no argument: the selected row, if it is a process or a tracked application. */
    method ActivateSelected(item: Option<Row>, activated: bool, absolute: bool, exists_: bool, windows: bool, error: Option<string>)
      modifies this, host
      ensures SelectedTarget(item).None? ==> (lastActivated == old(lastActivated) && previousActivated == old(previousActivated)
        && lastActivatedMain == old(lastActivatedMain) && host.log == old(host.log))
      ensures item.Some? && item.value.data.ProcessData? && activated ==> lastActivated == Some(item.value.data.process)
      ensures SelectedTarget(item).Some? ==> var t := SelectedTarget(item).value;
        t.ProcessTarget? && activated ==> (lastActivated == Some(t.process)
          && previousActivated == PreviousAfter(old(lastActivated), old(previousActivated), t.process)
          && host.log == old(host.log) + [Host.TimedStatus(ActivatedMessage(t.process.name), ShortMs), Host.MinimizedToTray])
      ensures SelectedTarget(item).Some? ==> var t := SelectedTarget(item).value;
        t.ProcessTarget? && !activated ==> (lastActivated == old(lastActivated) && previousActivated == old(previousActivated)
          && host.log == old(host.log) + [Host.TimedStatus(ActivateFailedMessage(t.process.name), ShortMs)])
      ensures SelectedTarget(item).Some? ==> var t := SelectedTarget(item).value;
        t.ProcessTarget? ==> lastActivatedMain == old(lastActivatedMain)
      ensures SelectedTarget(item).Some? ==> var t := SelectedTarget(item).value;
        t.AppTarget? ==> lastActivated == old(lastActivated) && previousActivated == old(previousActivated)
      ensures SelectedTarget(item).Some? ==> var t := SelectedTarget(item).value;
        t.AppTarget? && Activatable(t.app) ==>
          lastActivatedMain == (if activated then t.app.process else old(lastActivatedMain))
          && host.log == old(host.log) + (if activated then [Host.TimedStatus(ActivatedMessage(t.app.process.value.name), ShortMs), Host.MinimizedToTray]
                                          else [Host.TimedStatus(ActivateFailedMessage(t.app.process.value.name), ShortMs)])
      ensures SelectedTarget(item).Some? ==> var t := SelectedTarget(item).value;
        t.AppTarget? && !Activatable(t.app) ==>
          lastActivatedMain == old(lastActivatedMain) && host.log == old(host.log) + LaunchEffects(t.app, absolute, exists_, windows, error)
      ensures host.files == old(host.files)
      ensures old(Valid()) ==> Valid()
    {
      var t := SelectedTarget(item);
      if t.Some? {
        Activate(t.value, activated, absolute, exists_, windows, error);
      }
    }

    /**
     * `close_process`: nothing for a tracked application that is not
     * running; otherwise `activate_window` (whose result is discarded), then
     * the process manager's `close_process` with the same `force`, and the
     * reply to its result. `iconic` and `fault` are the answers for the
     * activation, `opening`, `windowValid`, `action` and `polls` those for
     * the close; `calls` are the calls made on the process and its window.
     */
    method Close(t: Target, force: bool, iconic: bool, fault: ActivateFault,
                 opening: OsResult, windowValid: bool, action: OsResult, polls: seq<Poll>,
                 cursorValid: bool, parentText: Option<string>)
      returns (calls: seq<OsCall>)
      modifies host
      ensures CloseTarget(t).None? ==> calls == [] && host.log == old(host.log)
      ensures CloseTarget(t).Some? ==>
        calls == ActivateWindow(iconic, fault).1 + CloseOutcome(force, opening, windowValid, action, polls).1
        && host.log == old(host.log)
           + CloseEffects(CloseTarget(t).value, force, CloseOutcome(force, opening, windowValid, action, polls).0, cursorValid, parentText)
      ensures host.files == old(host.files)
    {
      calls := [];
      var p: Process1C;
      match t {
        case ProcessTarget(q) =>
          p := q;
        case AppTarget(app) =>
          if !app.isRunning || app.process.None? {
            return;
          }
          p := app.process.value;
      }
      var activation := ActivateWindow(iconic, fault);
      var result, closeCalls := CloseProcess(force, opening, windowValid, action, polls);
      calls := activation.1 + closeCalls;
      match result {
        case StillWaiting =>
        case Returned(closed) =>
          if closed {
            host.Record(Host.TimedStatus(ClosedMessage(force, p.name), ShortMs));
            if cursorValid {
              host.Record(Host.TimerScheduled(CloseRefreshMs, RefreshAfterClose(parentText)));
            }
          } else {
            host.Record(Host.TimedStatus(CloseFailedMessage(p.name), ShortMs));
          }
      }
    }
  }

  // The activation history.

  /** Activating a process keeps the history consistent: the previous process never has the last one's pid. */
  lemma ActivationKeepsConsistent(last: Option<Process1C>, previous: Option<Process1C>, p: Process1C)
    requires Consistent(last, previous)
    ensures Consistent(Some(p), PreviousAfter(last, previous, p))
  {
  }

  /**
   * Switching back and forth: when `b` was active before `a`, activating
   * `b` again makes `b` the last and `a` the previous one.
   */
  lemma ActivationSwaps(a: Process1C, b: Process1C)
    requires a.pid != b.pid
    ensures PreviousAfter(Some(a), Some(b), b) == Some(a)
    ensures PreviousAfter(Some(b), PreviousAfter(Some(a), Some(b), b), a) == Some(b)
  {
  }

  /** Activating the same process again changes nothing in the history. */
  lemma ReactivationKeepsHistory(last: Option<Process1C>, previous: Option<Process1C>, p: Process1C)
    requires last.Some? && last.value.pid == p.pid
    ensures PreviousAfter(last, previous, p) == previous
  {
  }

  // Launching.

  /** A program is started exactly when a launch path is set, it is not a missing absolute file, and `Popen` does not raise; only then is the main group refreshed and the window hidden. */
  lemma LaunchStartsOnlyWhenAllowed(app: TrackedApp, absolute: bool, exists_: bool, windows: bool, error: Option<string>)
    ensures var e := LaunchEffects(app, absolute, exists_, windows, error);
      var ok := app.launchPath != "" && !(absolute && !exists_) && error.None?;
      (ok <==> |e| == 4)
      && (ok ==> e[0] == (if windows then Host.ShellStarted(app.launchPath) else Host.ProcessSpawned([app.launchPath]))
                 && e[2] == Host.TimerScheduled(LaunchRefreshMs, Host.RefreshMainProcesses) && e[3] == Host.MinimizedToTray)
      && (!ok ==> |e| == 1 && e[0].TimedStatus? && e[0].timeoutMs == (if app.launchPath == "" then ShortMs else LongMs))
  {
  }

  /** A relative launch path (a command such as `wt.exe` found on the search path) is never checked for existence. */
  lemma RelativePathIsNotChecked(app: TrackedApp, windows: bool, error: Option<string>)
    ensures LaunchEffects(app, false, false, windows, error) == LaunchEffects(app, false, true, windows, error)
  {
  }

  // Closing.

  /** Closing does nothing for a tracked application that is not running, and works on the process of one that is. */
  lemma CloseTargetOfApp(app: TrackedApp)
    ensures CloseTarget(AppTarget(app)).Some? <==> Activatable(app)
    ensures Activatable(app) ==> CloseTarget(AppTarget(app)) == app.process
  {
  }

  /** A close of a process under `Основное` refreshes the main group; one under `Открытые базы` refreshes the opened bases. */
  lemma CloseRefreshesItsGroup()
    ensures RefreshAfterClose(Some(MainNode)) == Host.RefreshMainProcesses
    ensures RefreshAfterClose(Some(OpenedNode)) == Host.RefreshOpenedBases
    ensures RefreshAfterClose(None) == Host.RefreshOpenedBases
  {
    assert OccursAt(MainNode, MainNode, 0);
    assert OpenedNode[0..8][1] != MainNode[1];
    assert OpenedNode[1..9][0] != MainNode[0];
    assert OpenedNode[2..10][0] != MainNode[0];
    assert OpenedNode[3..11][0] != MainNode[0];
    assert OpenedNode[4..12][0] != MainNode[0];
    assert OpenedNode[5..13][0] != MainNode[0];
  }

  /**
   * What `force` changes, for the same answers of the operating system: an
   * opened process is killed instead of being sent `WM_CLOSE` (or being
   * terminated when its window is gone), the activation before it is the
   * same, and when both kinds of close succeed only the message word
   * differs; the delay and the refreshed group are the same.
   */
  lemma ForceChangesCallAndMessage(p: Process1C, iconic: bool, fault: ActivateFault,
                                   opening: OsResult, windowValid: bool, action: OsResult, polls: seq<Poll>,
                                   cursorValid: bool, parentText: Option<string>)
    ensures opening == Done ==> CloseOutcome(true, opening, windowValid, action, polls).1 == [Kill]
    ensures opening == Done ==> CloseOutcome(false, opening, windowValid, action, polls).1 == (if windowValid then [PostClose] else [Terminate])
    ensures opening != Done ==>
      CloseOutcome(true, opening, windowValid, action, polls).1 == [] && CloseOutcome(false, opening, windowValid, action, polls).1 == []
    ensures (CloseOutcome(true, opening, windowValid, action, polls).0 == Returned(true)
             && CloseOutcome(false, opening, windowValid, action, polls).0 == Returned(true)) ==>
      var killed := CloseEffects(p, true, Returned(true), cursorValid, parentText);
      var closed := CloseEffects(p, false, Returned(true), cursorValid, parentText);
      killed[1..] == closed[1..]
      && killed[0] == Host.TimedStatus("✅ Снята задача: " + p.name, ShortMs)
      && closed[0] == Host.TimedStatus("✅ Закрыто: " + p.name, ShortMs)
  {
  }

  // The main group of the newer tree and the activation history.

  /**
   * In the newer tree a running tracked application is shown as a row of
   * its `Process1C`, and a tracked application row is always a placeholder
   * that is not running. So activating a row of the main group either takes
   * the `Process1C` branch or starts the application: the branch that would
   * set `last_activated_main_process` is never reached from that tree.
   */
  lemma MainRowsNeverActivateApps(apps: seq<TrackedConfig>, running: seq<Process1C>, nameOf: int -> Option<string>, r: Row)
    requires AllConfigured(apps) && r in MainChildren(apps, running, nameOf)
    ensures SelectedTarget(Some(r)).Some?
    ensures SelectedTarget(Some(r)).value.AppTarget? ==> !Activatable(SelectedTarget(Some(r)).value.app)
  {
    MainChildrenSound(apps, running, nameOf, r);
  }
}

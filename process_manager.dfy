/**
 * `ProcessManager` of both service generations: finding the running 1C
 * processes and their main windows, naming them for the tree, activating a
 * window and closing a process.
 *
 * Everything the operating system answers is an input: the process table
 * (`psutil.process_iter`), the top-level windows in `EnumWindows` order,
 * the pids whose window enumeration raises, and the outcome of each call
 * that can raise. The calls that act on a process are returned as a list
 * instead of being performed.
 */
module ProcessManager {
  import opened Wrappers
  import opened Strings

  /** A running process with its main window; `name` is the text shown in the tree. */
  datatype Process1C = Process1C(pid: int, name: string, hwnd: int)

  /** `Process1C.__eq__` (and `__hash__`): two entries are the same process exactly when their pids agree. */
  predicate SameProcess(a: Process1C, b: Process1C) {
    a.pid == b.pid
  }

  /** Entries are the same process exactly when they differ at most in the shown name and the window handle. */
  lemma SameProcessIgnoresWindow(a: Process1C, b: Process1C)
    ensures SameProcess(a, b) <==> a.(name := b.name, hwnd := b.hwnd) == b
  {
  }

  /** One row of the process table; `name` is `None` when reading it raised `NoSuchProcess` or `AccessDenied`. */
  datatype ProcEntry = ProcEntry(pid: int, name: Option<string>)

  /** One top-level window, as `EnumWindows` reports it. */
  datatype Window = Window(hwnd: int, visible: bool, ownerPid: int, parent: int, title: string)

  /**
   * The callback's test in `_find_main_window`: visible, owned by `pid` and
   * without a parent; the older generation also wants a non-empty title.
   */
  predicate Accepts(w: Window, pid: int, titled: bool) {
    w.visible && w.ownerPid == pid && w.parent == 0 && (titled ==> w.title != "")
  }

  /** The position of the first window the callback accepts. */
  function MainIndex(windows: seq<Window>, pid: int, titled: bool): (r: Option<nat>)
    ensures r.Some? ==> (r.value < |windows| && Accepts(windows[r.value], pid, titled)
      && forall j :: 0 <= j < r.value ==> !Accepts(windows[j], pid, titled))
    ensures r.None? ==> forall j :: 0 <= j < |windows| ==> !Accepts(windows[j], pid, titled)
    decreases |windows|
  {
    if windows == [] then None
    else if Accepts(windows[0], pid, titled) then Some(0)
    else match MainIndex(windows[1..], pid, titled)
      case None => None
      case Some(k) => Some(k + 1)
  }

  /** What `_find_main_window` returns: nothing when enumeration raises, else the first accepted window's handle and title. */
  function MainWindow(windows: seq<Window>, pid: int, titled: bool, enumFails: bool): Option<(int, string)> {
    if enumFails then None
    else match MainIndex(windows, pid, titled)
      case None => None
      case Some(k) => Some((windows[k].hwnd, windows[k].title))
  }

  /**
   * `_find_main_window`: the callback collects every accepted window in
   * enumeration order, and the first one collected is returned.
   */
  method FindMainWindow(windows: seq<Window>, pid: int, titled: bool, enumFails: bool) returns (r: Option<(int, string)>)
    ensures r == MainWindow(windows, pid, titled, enumFails)
  {
    if enumFails {
      return None;
    }
    var result: seq<(int, string)> := [];
    ghost var first: nat := 0;
    var i := 0;
    while i < |windows|
      invariant 0 <= i <= |windows|
      invariant result == [] <==> forall j :: 0 <= j < i ==> !Accepts(windows[j], pid, titled)
      invariant result != [] ==> (first < i && Accepts(windows[first], pid, titled)
        && (forall j :: 0 <= j < first ==> !Accepts(windows[j], pid, titled))
        && result[0] == (windows[first].hwnd, windows[first].title))
    {
      var w := windows[i];
      if w.visible && w.ownerPid == pid {
        if w.parent == 0 && (titled ==> w.title != "") {
          if result == [] {
            first := i;
          }
          result := result + [(w.hwnd, w.title)];
        }
      }
      i := i + 1;
    }
    if result == [] {
      return None;
    }
    r := Some(result[0]);
  }

  const GreenSquare: string := "🟩"
  const RedSquare: string := "🟥"
  const GreenCircle: string := "🟢"
  const RedCircle: string := "🔴"
  const Untitled: string := "Без имени"

  /** A square marks a configurator window. */
  predicate IsSquare(icon: string) {
    icon == GreenSquare || icon == RedSquare
  }

  /** Green marks a test base. */
  predicate IsGreen(icon: string) {
    icon == GreenSquare || icon == GreenCircle
  }

  /**
   * The icon of a 1C window: its shape says whether the title contains
   * `Конфигуратор`, its colour whether the lower-cased title contains `тест`.
   */
  function Icon(title: string): (r: string)
    ensures r in {GreenSquare, RedSquare, GreenCircle, RedCircle} && |r| == 1
    ensures IsSquare(r) <==> Contains(title, "Конфигуратор")
    ensures IsGreen(r) <==> Contains(Lower(title), "тест")
  {
    var isTest := title != "" && Contains(Lower(title), "тест");
    var isCfg := title != "" && Contains(title, "Конфигуратор");
    assert title == "" ==> !Contains(Lower(title), "тест") && !Contains(title, "Конфигуратор");
    if isCfg then (if isTest then GreenSquare else RedSquare)
    else (if isTest then GreenCircle else RedCircle)
  }

  /** The base part of the shown name: the title, or `Без имени` for an untitled window. */
  function BaseName(title: string): string {
    if title != "" then title else Untitled
  }

  /** The shown name of a 1C window: the icon, one space, then the base part, which can be read back after them. */
  function DisplayName(title: string): (r: string)
    ensures |r| >= 2 && r[..1] == Icon(title) && r[1] == ' '
    ensures r[2..] == BaseName(title)
    ensures title == "" ==> r == RedCircle + " " + Untitled
  {
    Icon(title) + " " + BaseName(title)
  }

  /** The newer generation's process names, compared lower-cased; both configured names are already lower case. */
  predicate Is1CName(name: string) {
    Lower(name) == "1cv8.exe" || Lower(name) == "1cv8c.exe"
  }

  /** The older generation's test: only `1cv8.exe`, lower-cased. */
  predicate IsLegacy1CName(name: string) {
    Lower(name) == "1cv8.exe"
  }

  /** The names a generation collects. */
  predicate Wanted(name: string, legacy: bool) {
    if legacy then IsLegacy1CName(name) else Is1CName(name)
  }

  /** The pids the first loop of `get_running_processes` collects, in table order; unreadable entries are skipped. */
  function WantedPids(procs: seq<ProcEntry>, legacy: bool): seq<int>
    decreases |procs|
  {
    if procs == [] then []
    else
      var last := procs[|procs| - 1];
      WantedPids(procs[..|procs| - 1], legacy)
        + (if last.name.Some? && Wanted(last.name.value, legacy) then [last.pid] else [])
  }

  /**
   * The entry for one pid. The newer generation shows every main window
   * with an icon; the older one requires a title and shows it as it is.
   */
  function EntryFor(pid: int, windows: seq<Window>, failing: set<int>, legacy: bool): Option<Process1C> {
    match MainWindow(windows, pid, legacy, pid in failing)
    case None => None
    case Some((hwnd, title)) =>
      if legacy then (if title != "" then Some(Process1C(pid, title, hwnd)) else None)
      else Some(Process1C(pid, DisplayName(title), hwnd))
  }

  /** The second loop of `get_running_processes`: one entry per pid that has a main window, in pid order. */
  function Collected(pids: seq<int>, windows: seq<Window>, failing: set<int>, legacy: bool): seq<Process1C>
    decreases |pids|
  {
    if pids == [] then []
    else
      var pid := pids[|pids| - 1];
      Collected(pids[..|pids| - 1], windows, failing, legacy)
        + (match EntryFor(pid, windows, failing, legacy) case None => [] case Some(p) => [p])
  }

  /** The first loop: the pids whose process name the generation wants. */
  method CollectPids(procs: seq<ProcEntry>, legacy: bool) returns (pids: seq<int>)
    ensures pids == WantedPids(procs, legacy)
  {
    pids := [];
    var i := 0;
    while i < |procs|
      invariant 0 <= i <= |procs|
      invariant pids == WantedPids(procs[..i], legacy)
    {
      PrefixFront(procs, i);
      var p := procs[i];
      if p.name.Some? {
        var lowered := Lower(p.name.value);
        if (legacy && lowered == "1cv8.exe") || (!legacy && (lowered == "1cv8.exe" || lowered == "1cv8c.exe")) {
          pids := pids + [p.pid];
        }
      }
      i := i + 1;
    }
    assert procs[..|procs|] == procs;
  }

  /** The second loop: each pid's main window is looked up, and the pids with one become entries. */
  method CollectProcesses(pids: seq<int>, windows: seq<Window>, failing: set<int>, legacy: bool) returns (processes: seq<Process1C>)
    ensures processes == Collected(pids, windows, failing, legacy)
  {
    processes := [];
    var i := 0;
    while i < |pids|
      invariant 0 <= i <= |pids|
      invariant processes == Collected(pids[..i], windows, failing, legacy)
    {
      PrefixFront(pids, i);
      var pid := pids[i];
      var info := FindMainWindow(windows, pid, legacy, pid in failing);
      if info.Some? {
        var (hwnd, title) := info.value;
        if legacy {
          if title != "" {
            processes := processes + [Process1C(pid, title, hwnd)];
          }
        } else {
          processes := processes + [Process1C(pid, DisplayName(title), hwnd)];
        }
      }
      i := i + 1;
    }
    assert pids[..|pids|] == pids;
  }

  /** `get_running_processes` of the newer generation. */
  method GetRunningProcesses(procs: seq<ProcEntry>, windows: seq<Window>, failing: set<int>) returns (r: seq<Process1C>)
    ensures r == Collected(WantedPids(procs, false), windows, failing, false)
  {
    var pids := CollectPids(procs, false);
    r := CollectProcesses(pids, windows, failing, false);
  }

  /** `get_running_processes` of the older generation. */
  method LegacyGetRunningProcesses(procs: seq<ProcEntry>, windows: seq<Window>, failing: set<int>) returns (r: seq<Process1C>)
    ensures r == Collected(WantedPids(procs, true), windows, failing, true)
  {
    var pids := CollectPids(procs, true);
    r := CollectProcesses(pids, windows, failing, true);
  }

  /** A pid is collected exactly when its table entry is readable and carries a wanted name. */
  lemma {:induction false} WantedPidsMembers(procs: seq<ProcEntry>, legacy: bool, pid: int)
    ensures pid in WantedPids(procs, legacy) <==>
      exists i :: 0 <= i < |procs| && procs[i].pid == pid && procs[i].name.Some? && Wanted(procs[i].name.value, legacy)
    decreases |procs|
  {
    if procs != [] {
      var init := procs[..|procs| - 1];
      WantedPidsMembers(init, legacy, pid);
      assert forall i :: 0 <= i < |init| ==> init[i] == procs[i];
    }
  }

  /** Each collected entry belongs to one of the given pids and carries that pid's main window. */
  lemma {:induction false} CollectedSound(pids: seq<int>, windows: seq<Window>, failing: set<int>, legacy: bool, k: nat)
    requires k < |Collected(pids, windows, failing, legacy)|
    ensures var p := Collected(pids, windows, failing, legacy)[k];
      p.pid in pids && p.pid !in failing && EntryFor(p.pid, windows, failing, legacy) == Some(p)
    decreases |pids|
  {
    var init := pids[..|pids| - 1];
    if k < |Collected(init, windows, failing, legacy)| {
      CollectedSound(init, windows, failing, legacy, k);
    }
  }

  /** A pid has an entry exactly when it is one of the given pids and its window lookup yields one. */
  lemma {:induction false} CollectedComplete(pids: seq<int>, windows: seq<Window>, failing: set<int>, legacy: bool, pid: int)
    ensures (exists k :: 0 <= k < |Collected(pids, windows, failing, legacy)| && Collected(pids, windows, failing, legacy)[k].pid == pid)
      <==> pid in pids && EntryFor(pid, windows, failing, legacy).Some?
    decreases |pids|
  {
    var r := Collected(pids, windows, failing, legacy);
    if pids != [] {
      var init := pids[..|pids| - 1];
      var last := pids[|pids| - 1];
      CollectedComplete(init, windows, failing, legacy, pid);
      var front := Collected(init, windows, failing, legacy);
      assert forall k :: 0 <= k < |front| ==> r[k] == front[k];
      assert pid in pids <==> pid in init || pid == last;
      if pid == last && EntryFor(pid, windows, failing, legacy).Some? {
        assert r[|r| - 1].pid == pid;
      }
      if exists k :: 0 <= k < |r| && r[k].pid == pid {
        var k :| 0 <= k < |r| && r[k].pid == pid;
        CollectedSound(pids, windows, failing, legacy, k);
      }
    }
  }

  predicate DistinctInts(s: seq<int>) {
    forall i, j :: 0 <= i < j < |s| ==> s[i] != s[j]
  }

  /** Distinct pids give entries with distinct pids: no process is listed twice. */
  lemma {:induction false} CollectedDistinct(pids: seq<int>, windows: seq<Window>, failing: set<int>, legacy: bool)
    requires DistinctInts(pids)
    ensures var r := Collected(pids, windows, failing, legacy);
      forall i, j :: 0 <= i < j < |r| ==> r[i].pid != r[j].pid
    decreases |pids|
  {
    if pids != [] {
      var init := pids[..|pids| - 1];
      var last := pids[|pids| - 1];
      CollectedDistinct(init, windows, failing, legacy);
      var front := Collected(init, windows, failing, legacy);
      forall k | 0 <= k < |front|
        ensures front[k].pid != last
      {
        CollectedSound(init, windows, failing, legacy, k);
      }
    }
  }

  /** Pids taken from a table without repeated pids are distinct. */
  lemma {:induction false} WantedPidsDistinct(procs: seq<ProcEntry>, legacy: bool)
    requires forall i, j :: 0 <= i < j < |procs| ==> procs[i].pid != procs[j].pid
    ensures DistinctInts(WantedPids(procs, legacy))
    decreases |procs|
  {
    if procs != [] {
      var init := procs[..|procs| - 1];
      WantedPidsDistinct(init, legacy);
      var last := procs[|procs| - 1];
      if last.pid in WantedPids(init, legacy) {
        WantedPidsMembers(init, legacy, last.pid);
      }
    }
  }

  /** A collected entry of the older generation always has a title, and shows it unchanged. */
  lemma LegacyEntryTitled(pid: int, windows: seq<Window>, failing: set<int>)
    ensures match EntryFor(pid, windows, failing, true)
      case None => pid in failing || MainIndex(windows, pid, true).None?
      case Some(p) =>
        p.name != "" && exists k :: 0 <= k < |windows| && windows[k] == Window(p.hwnd, true, pid, 0, p.name)
  {
  }

  /** One entry of `TRACKED_APPLICATIONS`; an absent key is `None`. */
  datatype TrackedConfig = TrackedConfig(processName: string, displayName: Option<string>, icon: Option<string>, launchPath: string)

  /** `app_configs[name]`: the dictionary keeps the last configuration with that process name. */
  function ConfigFor(apps: seq<TrackedConfig>, name: string): (r: Option<TrackedConfig>)
    ensures r.Some? ==> r.value in apps && r.value.processName == name
    ensures r.None? <==> forall a :: a in apps ==> a.processName != name
    decreases |apps|
  {
    if apps == [] then None
    else if apps[|apps| - 1].processName == name then Some(apps[|apps| - 1])
    else
      var init := apps[..|apps| - 1];
      assert forall a :: a in apps ==> a in init || a == apps[|apps| - 1];
      ConfigFor(init, name)
  }

  const DefaultIcon: string := "💻"

  /** The shown name of a tracked application window: its icon, then the title, or the display name when untitled. */
  function MainDisplayName(cfg: TrackedConfig, title: string): (r: string)
    ensures var icon := cfg.icon.GetOr(DefaultIcon);
      StartsWith(r, icon + " ")
      && r[|icon| + 1..] == (if title != "" then title else cfg.displayName.GetOr(cfg.processName))
  {
    var icon := cfg.icon.GetOr(DefaultIcon);
    var name := cfg.displayName.GetOr(cfg.processName);
    if title != "" then icon + " " + title else icon + " " + name
  }

  /** The (pid, name) pairs the first loop of `get_running_main_processes` collects: names matched exactly. */
  function TrackedPids(procs: seq<ProcEntry>, apps: seq<TrackedConfig>): (r: seq<(int, string)>)
    ensures forall k :: 0 <= k < |r| ==> ConfigFor(apps, r[k].1).Some?
    decreases |procs|
  {
    if procs == [] then []
    else
      var last := procs[|procs| - 1];
      TrackedPids(procs[..|procs| - 1], apps)
        + (if last.name.Some? && ConfigFor(apps, last.name.value).Some? then [(last.pid, last.name.value)] else [])
  }

  /** The entries `get_running_main_processes` returns for the collected pairs. */
  function CollectedMain(pairs: seq<(int, string)>, windows: seq<Window>, failing: set<int>, apps: seq<TrackedConfig>): seq<Process1C>
    decreases |pairs|
  {
    if pairs == [] then []
    else
      var (pid, name) := pairs[|pairs| - 1];
      CollectedMain(pairs[..|pairs| - 1], windows, failing, apps)
        + (match (MainWindow(windows, pid, false, pid in failing), ConfigFor(apps, name))
           case (Some((hwnd, title)), Some(cfg)) => [Process1C(pid, MainDisplayName(cfg, title), hwnd)]
           case _ => [])
  }

  /** `get_running_main_processes`. */
  method GetRunningMainProcesses(procs: seq<ProcEntry>, windows: seq<Window>, failing: set<int>, apps: seq<TrackedConfig>)
    returns (processes: seq<Process1C>)
    ensures processes == CollectedMain(TrackedPids(procs, apps), windows, failing, apps)
  {
    var pairs := CollectTracked(procs, apps);
    processes := CollectMainEntries(pairs, windows, failing, apps);
  }

  /** The first loop of `get_running_main_processes`: the tracked processes' pids and names. */
  method CollectTracked(procs: seq<ProcEntry>, apps: seq<TrackedConfig>) returns (pairs: seq<(int, string)>)
    ensures pairs == TrackedPids(procs, apps)
  {
    pairs := [];
    var i := 0;
    while i < |procs|
      invariant 0 <= i <= |procs|
      invariant pairs == TrackedPids(procs[..i], apps)
    {
      PrefixFront(procs, i);
      var p := procs[i];
      if p.name.Some? && ConfigFor(apps, p.name.value).Some? {
        pairs := pairs + [(p.pid, p.name.value)];
      }
      i := i + 1;
    }
    assert procs[..|procs|] == procs;
  }

  /** The second loop of `get_running_main_processes`: an entry for each pair whose process has a main window. */
  method CollectMainEntries(pairs: seq<(int, string)>, windows: seq<Window>, failing: set<int>, apps: seq<TrackedConfig>)
    returns (processes: seq<Process1C>)
    ensures processes == CollectedMain(pairs, windows, failing, apps)
  {
    processes := [];
    var j := 0;
    while j < |pairs|
      invariant 0 <= j <= |pairs|
      invariant processes == CollectedMain(pairs[..j], windows, failing, apps)
    {
      PrefixFront(pairs, j);
      var (pid, name) := pairs[j];
      var info := FindMainWindow(windows, pid, false, pid in failing);
      if info.Some? {
        var (hwnd, title) := info.value;
        var cfg := ConfigFor(apps, name);
        if cfg.Some? {
          processes := processes + [Process1C(pid, MainDisplayName(cfg.value, title), hwnd)];
        }
      }
      j := j + 1;
    }
    assert pairs[..|pairs|] == pairs;
  }

  /** Every tracked pair with a main window gives an entry: the configuration lookup after a match never fails. */
  lemma {:induction false} CollectedMainLength(procs: seq<ProcEntry>, windows: seq<Window>, failing: set<int>, apps: seq<TrackedConfig>)
    ensures var pairs := TrackedPids(procs, apps);
      |CollectedMain(pairs, windows, failing, apps)| == |Windowed(pairs, windows, failing)|
  {
    CollectedMainWindowed(TrackedPids(procs, apps), windows, failing, apps);
  }

  /** The pairs whose pid has a main window. */
  function Windowed(pairs: seq<(int, string)>, windows: seq<Window>, failing: set<int>): seq<(int, string)>
    decreases |pairs|
  {
    if pairs == [] then []
    else
      var last := pairs[|pairs| - 1];
      Windowed(pairs[..|pairs| - 1], windows, failing)
        + (if MainWindow(windows, last.0, false, last.0 in failing).Some? then [last] else [])
  }

  lemma {:induction false} CollectedMainWindowed(pairs: seq<(int, string)>, windows: seq<Window>, failing: set<int>, apps: seq<TrackedConfig>)
    requires forall k :: 0 <= k < |pairs| ==> ConfigFor(apps, pairs[k].1).Some?
    ensures |CollectedMain(pairs, windows, failing, apps)| == |Windowed(pairs, windows, failing)|
    decreases |pairs|
  {
    if pairs != [] {
      var init := pairs[..|pairs| - 1];
      assert forall k :: 0 <= k < |init| ==> init[k] == pairs[k];
      CollectedMainWindowed(init, windows, failing, apps);
    }
  }

  /** The outcome of an operating-system call: success, or the exception it raised. */
  datatype OsResult = Done | NoSuchProcess | AccessDenied | OtherError

  /** The calls that act on the process or its window. */
  datatype OsCall = Kill | PostClose | Terminate | Restore | SetForeground

  /** One round of the wait loop: `IsWindow(hwnd)`, then (after the pause) `pid_exists(pid)`. */
  datatype Poll = Poll(windowValid: bool, pidExists: bool)

  /** How `close_process` of the newer generation ends; `StillWaiting` when the observed rounds run out inside the wait loop. */
  datatype CloseResult = Returned(ok: bool) | StillWaiting

  /** The wait loop is left in some observed round: the window is gone or, after the pause, the pid is. */
  predicate WaitEnds(polls: seq<Poll>) {
    exists k :: 0 <= k < |polls| && !(polls[k].windowValid && polls[k].pidExists)
  }

  /** The value of the `except` chain of the newer generation: a vanished or protected process counts as closed. */
  function ErrorResult(e: OsResult): bool {
    e == NoSuchProcess || e == AccessDenied
  }

  /**
   * `close_process` of the newer generation. `opening` is the outcome of
   * `psutil.Process(pid)`, `windowValid` the first `IsWindow`, `action` the
   * outcome of the one call made (kill, `PostMessage` or terminate), and
   * `polls` the rounds of the wait after `WM_CLOSE`.
   */
  function CloseOutcome(force: bool, opening: OsResult, windowValid: bool, action: OsResult, polls: seq<Poll>): (r: (CloseResult, seq<OsCall>))
    ensures Kill in r.1 <==> opening == Done && force
    ensures r.1 == [] || r.1 == [Kill] || r.1 == [PostClose] || r.1 == [Terminate]
    ensures r.0 == Returned(false) <==> opening == OtherError || (opening == Done && action == OtherError)
    ensures r.0 == StillWaiting <==> opening == Done && !force && windowValid && action == Done && !WaitEnds(polls)
    ensures opening == NoSuchProcess || opening == AccessDenied ==> r == (Returned(true), [])
  {
    if opening != Done then (Returned(ErrorResult(opening)), [])
    else if force then (if action == Done then Returned(true) else Returned(ErrorResult(action)), [Kill])
    else if windowValid then
      (if action != Done then Returned(ErrorResult(action))
       else if WaitEnds(polls) then Returned(true) else StillWaiting, [PostClose])
    else (if action == Done then Returned(true) else Returned(ErrorResult(action)), [Terminate])
  }

  /** `close_process` of the newer generation, with the wait loop over the observed rounds. */
  method CloseProcess(force: bool, opening: OsResult, windowValid: bool, action: OsResult, polls: seq<Poll>)
    returns (r: CloseResult, calls: seq<OsCall>)
    ensures (r, calls) == CloseOutcome(force, opening, windowValid, action, polls)
  {
    calls := [];
    if opening != Done {
      return Returned(ErrorResult(opening)), calls;
    }
    if force {
      calls := [Kill];
      if action != Done {
        return Returned(ErrorResult(action)), calls;
      }
      return Returned(true), calls;
    }
    if windowValid {
      calls := [PostClose];
      if action != Done {
        return Returned(ErrorResult(action)), calls;
      }
      var i := 0;
      while i < |polls| && polls[i].windowValid
        invariant 0 <= i <= |polls|
        invariant forall j :: 0 <= j < i ==> polls[j].windowValid && polls[j].pidExists
      {
        if !polls[i].pidExists {
          break;
        }
        i := i + 1;
      }
      if i == |polls| {
        return StillWaiting, calls;
      }
      return Returned(true), calls;
    }
    calls := [Terminate];
    if action != Done {
      return Returned(ErrorResult(action)), calls;
    }
    return Returned(true), calls;
  }

  /** How `close_process` of the older generation ends: a value, or an exception it does not catch. */
  datatype LegacyCloseResult = LegacyReturned(ok: bool) | Raised

  /**
   * `close_process` of the older generation. `first` is the outcome of kill
   * (with `force`) or of `PostMessage`, `terminate` that of the fallback
   * terminate after a failed post. A vanished or protected process gives
   * `False`; other errors escape, except from `PostMessage`.
   */
  function LegacyCloseProcess(force: bool, opening: OsResult, first: OsResult, terminate: OsResult): (r: (LegacyCloseResult, seq<OsCall>))
    ensures Kill in r.1 <==> opening == Done && force
    ensures Terminate in r.1 <==> opening == Done && !force && first != Done
    ensures r.0 == LegacyReturned(true) <==> opening == Done && (first == Done || (!force && terminate == Done))
    ensures opening == NoSuchProcess || opening == AccessDenied ==> r == (LegacyReturned(false), [])
  {
    if opening != Done then (if opening == OtherError then Raised else LegacyReturned(false), [])
    else if force then (LegacyOutcome(first), [Kill])
    else if first == Done then (LegacyReturned(true), [PostClose])
    else (LegacyOutcome(terminate), [PostClose, Terminate])
  }

  /** The older generation's handlers around a call: success is `True`, a vanished or protected process `False`, anything else escapes. */
  function LegacyOutcome(e: OsResult): LegacyCloseResult {
    if e == Done then LegacyReturned(true)
    else if e == OtherError then Raised
    else LegacyReturned(false)
  }

  /** The two generations disagree on a process that vanished before it was opening: the newer reports success, the older failure. */
  lemma VanishedProcessDisagrees(force: bool, windowValid: bool, action: OsResult, polls: seq<Poll>, first: OsResult, terminate: OsResult)
    ensures CloseOutcome(force, NoSuchProcess, windowValid, action, polls).0 == Returned(true)
    ensures LegacyCloseProcess(force, NoSuchProcess, first, terminate).0 == LegacyReturned(false)
  {
  }

  /** A graceful close never kills, in either generation; a forced one only kills. */
  lemma NoImplicitKill(opening: OsResult, windowValid: bool, action: OsResult, polls: seq<Poll>, first: OsResult, terminate: OsResult)
    ensures Kill !in CloseOutcome(false, opening, windowValid, action, polls).1
    ensures Kill !in LegacyCloseProcess(false, opening, first, terminate).1
    ensures forall c :: c in CloseOutcome(true, opening, windowValid, action, polls).1 ==> c == Kill
    ensures forall c :: c in LegacyCloseProcess(true, opening, first, terminate).1 ==> c == Kill
  {
  }

  /**
   * Which call of `activate_window`'s `try` block raises when it is reached:
   * none, `IsIconic`, `ShowWindow` (reached only for a minimised window) or
   * `SetForegroundWindow`.
   */
  datatype ActivateFault = NoFault | IconicRaises | RestoreRaises | ForegroundRaises

  /** The calls `activate_window` means to make: restore a minimised window, then bring it forward. */
  function PlannedActivation(iconic: bool): seq<OsCall> {
    (if iconic then [Restore] else []) + [SetForeground]
  }

  /** Some call that is reached raises, so the `except` branch runs. */
  predicate ActivationRaises(iconic: bool, fault: ActivateFault) {
    fault == IconicRaises || (iconic && fault == RestoreRaises) || fault == ForegroundRaises
  }

  /**
   * `activate_window`: the result and the calls made, in order. The `try`
   * block stops at the call that raises, which is the last call made; the
   * result is `True` exactly when no call raised.
   */
  function ActivateWindow(iconic: bool, fault: ActivateFault): (r: (bool, seq<OsCall>))
    ensures r.0 <==> !ActivationRaises(iconic, fault)
    ensures r.1 <= PlannedActivation(iconic)
    ensures r.0 ==> r.1 == PlannedActivation(iconic)
    ensures SetForeground in r.1 <==> fault != IconicRaises && !(iconic && fault == RestoreRaises)
    ensures Restore in r.1 <==> iconic && fault != IconicRaises
  {
    if fault == IconicRaises then (false, [])
    else if iconic && fault == RestoreRaises then (false, [Restore])
    else (fault != ForegroundRaises, PlannedActivation(iconic))
  }

  /**
   * A raising call ends the attempt: `SetForegroundWindow` is called exactly
   * when no earlier call raised, and when a call raised after `IsIconic` it
   * is the last one in the list.
   */
  lemma ActivationStopsAtFault(iconic: bool, fault: ActivateFault)
    ensures SetForeground in ActivateWindow(iconic, fault).1
      <==> !ActivationRaises(iconic, fault) || fault == ForegroundRaises
    ensures iconic && fault == RestoreRaises ==> ActivateWindow(iconic, fault).1 == [Restore]
    ensures fault == IconicRaises ==> ActivateWindow(iconic, fault).1 == []
    ensures !ActivationRaises(iconic, fault) <==> ActivateWindow(iconic, fault) == (true, PlannedActivation(iconic))
  {
  }

  /**
   * `get_foreground_process`: the foreground window's process when its
   * name is wanted. `name` is `None` when a lookup raised. The newer
   * generation names an untitled window `Без имени` (without an icon); the
   * older one keeps the title as it is.
   */
  function ForegroundProcess(hwnd: int, pid: int, name: Option<string>, title: string, legacy: bool): (r: Option<Process1C>)
    ensures r.Some? <==> name.Some? && Wanted(name.value, legacy)
    ensures r.Some? ==> (r.value.pid == pid && r.value.hwnd == hwnd
      && r.value.name == (if legacy then title else BaseName(title)))
  {
    if name.Some? && Wanted(name.value, legacy) then
      Some(Process1C(pid, if legacy then title else BaseName(title), hwnd))
    else None
  }
}

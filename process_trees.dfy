/**
 * The two process groups of the tree: `Открытые базы` (the running 1C
 * processes, under a header row) and `Основное` (the tracked applications).
 * Each builder removes the first old node of its label, builds the group
 * from a fresh discovery pass and inserts it at its place: the opened
 * bases first, the main group after them. The newer main builder shows a
 * launch placeholder for every tracked application that is not running;
 * the older one shows the running processes only.
 *
 * The discovery pass is the `ProcessManager` model applied to the process
 * table, the window list and the failing pids; the per-pid process-name
 * lookup the newer main builder makes (`psutil.Process(pid).name()`) is the
 * parameter `nameOf`, `None` standing for a lookup that raised.
 */
module ProcessTrees {
  import opened Wrappers
  import opened Strings
  import opened ProcessManager
  import opened TreeModel

  const LaunchLabel: string := " [Запустить]"

  /** The configuration keys the newer main builder reads with `[]`: it raises without them. */
  predicate Configured(app: TrackedConfig) {
    app.displayName.Some? && app.icon.Some?
  }

  predicate AllConfigured(apps: seq<TrackedConfig>) {
    forall i :: 0 <= i < |apps| ==> Configured(apps[i])
  }

  /** The processes whose name lookup answered `name`, in discovery order: `process_map[name]`. */
  function Instances(running: seq<Process1C>, nameOf: int -> Option<string>, name: string): seq<Process1C>
    decreases |running|
  {
    if running == [] then []
    else
      var last := running[|running| - 1];
      Instances(running[..|running| - 1], nameOf, name) + (if nameOf(last.pid) == Some(name) then [last] else [])
  }

  /** A process row: the process's shown name, with the process stored on it. */
  function ProcessRow(p: Process1C): Row {
    Row([p.name], ProcessData(p), true, [])
  }

  function ProcessRows(ps: seq<Process1C>): (r: seq<Row>)
    ensures |r| == |ps| && forall i :: 0 <= i < |ps| ==> r[i] == ProcessRow(ps[i])
    decreases |ps|
  {
    if ps == [] then [] else ProcessRows(ps[..|ps| - 1]) + [ProcessRow(ps[|ps| - 1])]
  }

  /** The application a placeholder row offers for launch. */
  function NotRunning(app: TrackedConfig): TrackedApp
    requires Configured(app)
  {
    TrackedApp(app.processName, app.displayName.value, app.icon.value, app.launchPath, None, false)
  }

  /** `<icon> <display_name> [Запустить]`, carrying the application that is not running. */
  function Placeholder(app: TrackedConfig): Row
    requires Configured(app)
  {
    Row([app.icon.value + " " + app.displayName.value + LaunchLabel], AppData(NotRunning(app)), true, [])
  }

  /** The rows of one tracked application: one per running instance, or one placeholder. */
  function AppRows(app: TrackedConfig, running: seq<Process1C>, nameOf: int -> Option<string>): seq<Row>
    requires Configured(app)
  {
    var inst := Instances(running, nameOf, app.processName);
    if inst != [] then ProcessRows(inst) else [Placeholder(app)]
  }

  /** The children of the newer `Основное` node, in `TRACKED_APPLICATIONS` order. */
  function MainChildren(apps: seq<TrackedConfig>, running: seq<Process1C>, nameOf: int -> Option<string>): seq<Row>
    requires AllConfigured(apps)
    decreases |apps|
  {
    if apps == [] then []
    else MainChildren(apps[..|apps| - 1], running, nameOf) + AppRows(apps[|apps| - 1], running, nameOf)
  }

  /** A group node: its label, no data, and its rows. */
  function GroupRow(text: string, selectable: bool, children: seq<Row>): Row {
    Row([text], NoData, selectable, children)
  }

  /** The top level after the main group is rebuilt: the first old node removed, the new one at its insert position. */
  function WithMain(rows: seq<Row>, node: Row): seq<Row> {
    var kept := RemovedFirst(rows, MainNode);
    InsertAt(kept, InsertPosition(kept), node)
  }

  /** The top level after the opened-bases group is rebuilt: the first old node removed, the new one first. */
  function WithOpened(rows: seq<Row>, node: Row): seq<Row> {
    [node] + RemovedFirst(rows, OpenedNode)
  }

  /** The processes the newer main builder shows: the tracked ones discovered. */
  function MainRunning(procs: seq<ProcEntry>, windows: seq<Window>, failing: set<int>, apps: seq<TrackedConfig>): seq<Process1C> {
    CollectedMain(TrackedPids(procs, apps), windows, failing, apps)
  }

  /** The loop that fills `process_map`: each process under the name its lookup gives; failed lookups are skipped. */
  method ProcessMap(running: seq<Process1C>, nameOf: int -> Option<string>) returns (m: map<string, seq<Process1C>>)
    ensures forall n :: n in m ==> m[n] == Instances(running, nameOf, n) && m[n] != []
    ensures forall n :: n !in m ==> Instances(running, nameOf, n) == []
  {
    m := map[];
    var i := 0;
    while i < |running|
      invariant 0 <= i <= |running|
      invariant forall n :: n in m ==> m[n] == Instances(running[..i], nameOf, n) && m[n] != []
      invariant forall n :: n !in m ==> Instances(running[..i], nameOf, n) == []
    {
      var p := running[i];
      PrefixFront(running, i);
      var name := nameOf(p.pid);
      if name.Some? {
        var n := name.value;
        if n !in m {
          m := m[n := []];
        }
        m := m[n := m[n] + [p]];
      }
      i := i + 1;
    }
    assert running[..|running|] == running;
  }

  /** Appending one process row per process, in order. */
  method AppendProcessRows(rows: seq<Row>, ps: seq<Process1C>) returns (r: seq<Row>)
    ensures r == rows + ProcessRows(ps)
  {
    r := rows;
    var k := 0;
    while k < |ps|
      invariant 0 <= k <= |ps|
      invariant r == rows + ProcessRows(ps[..k])
    {
      PrefixFront(ps, k);
      AppendAssoc(rows, ProcessRows(ps[..k]), [ProcessRow(ps[k])]);
      r := r + [ProcessRow(ps[k])];
      k := k + 1;
    }
    assert ps[..|ps|] == ps;
  }

  /** The loop over `TRACKED_APPLICATIONS`: the rows of each application, in order. */
  method AppendAppRows(apps: seq<TrackedConfig>, running: seq<Process1C>, nameOf: int -> Option<string>,
    m: map<string, seq<Process1C>>) returns (rows: seq<Row>)
    requires AllConfigured(apps)
    requires forall n :: n in m ==> m[n] == Instances(running, nameOf, n) && m[n] != []
    requires forall n :: n !in m ==> Instances(running, nameOf, n) == []
    ensures rows == MainChildren(apps, running, nameOf)
  {
    rows := [];
    var j := 0;
    while j < |apps|
      invariant 0 <= j <= |apps|
      invariant rows == MainChildren(apps[..j], running, nameOf)
    {
      var app := apps[j];
      PrefixFront(apps, j);
      var before := rows;
      if app.processName in m && |m[app.processName]| > 0 {
        rows := AppendProcessRows(rows, m[app.processName]);
      } else {
        rows := rows + [Placeholder(app)];
      }
      assert rows == before + AppRows(app, running, nameOf);
      j := j + 1;
    }
    assert apps[..|apps|] == apps;
  }

  /** `MainProcessesTreeBuilder` of the newer generation. */
  class MainProcessesTreeBuilder {
    const model: Model
    var folder: Option<Row>

    constructor (model: Model)
      ensures this.model == model && folder.None?
    {
      this.model := model;
      folder := None;
    }

    /**
     * `build_tree`: the old `Основное` node is removed, the new one holds
     * the rows of every tracked application and goes second when the
     * first row is the opened-bases group, first otherwise. The count is
     * the number of rows appended.
     */
    method BuildTree(procs: seq<ProcEntry>, windows: seq<Window>, failing: set<int>, apps: seq<TrackedConfig>,
      nameOf: int -> Option<string>) returns (node: Row, count: nat)
      requires AllConfigured(apps)
      modifies this, model
      ensures node == GroupRow(MainNode, true, MainChildren(apps, MainRunning(procs, windows, failing, apps), nameOf))
      ensures count == |node.children| && folder == Some(node)
      ensures model.rows == WithMain(old(model.rows), node)
    {
      RemoveFirstWithText(model, MainNode);
      var running := GetRunningMainProcesses(procs, windows, failing, apps);
      var m := ProcessMap(running, nameOf);
      var children := AppendAppRows(apps, running, nameOf, m);
      node := GroupRow(MainNode, true, children);
      folder := Some(node);
      count := |children|;
      var at := if |model.rows| > 0 && Contains(Text(model.rows[0]), OpenedNode) then 1 else 0;
      model.rows := model.rows[..at] + [node] + model.rows[at..];
    }

    /** `get_process_items`: the group's rows that carry data, from the first on. */
    method GetItems() returns (items: seq<Row>)
      ensures items == if folder.None? then [] else DataRows(folder.value.children, 0)
    {
      items := GetProcessItems(folder, 0);
    }
  }

  /** `MainProcessesTreeBuilder` of the older generation: the running processes only. */
  class LegacyMainProcessesTreeBuilder {
    const model: Model
    var folder: Option<Row>

    constructor (model: Model)
      ensures this.model == model && folder.None?
    {
      this.model := model;
      folder := None;
    }

    /** `build_tree`: one row per discovered process, in discovery order; the count is the number of processes. */
    method BuildTree(procs: seq<ProcEntry>, windows: seq<Window>, failing: set<int>, apps: seq<TrackedConfig>)
      returns (node: Row, count: nat)
      modifies this, model
      ensures node == GroupRow(MainNode, true, ProcessRows(MainRunning(procs, windows, failing, apps)))
      ensures count == |MainRunning(procs, windows, failing, apps)| && folder == Some(node)
      ensures model.rows == WithMain(old(model.rows), node)
    {
      RemoveFirstWithText(model, MainNode);
      var processes := GetRunningMainProcesses(procs, windows, failing, apps);
      var children := AppendProcessRows([], processes);
      AppendEmpty(ProcessRows(processes));
      node := GroupRow(MainNode, true, children);
      folder := Some(node);
      count := |processes|;
      var at := if |model.rows| > 0 && Contains(Text(model.rows[0]), OpenedNode) then 1 else 0;
      model.rows := model.rows[..at] + [node] + model.rows[at..];
    }

    /** `get_process_items`: the group's rows that carry data, from the first on. */
    method GetItems() returns (items: seq<Row>)
      ensures items == if folder.None? then [] else DataRows(folder.value.children, 0)
    {
      items := GetProcessItems(folder, 0);
    }
  }

  /** The header row of the opened-bases group; it stores nothing. */
  const Header: Row := Row(["Открытая база (процесс)", "Окно", "PID"], NoData, true, [])

  /** An opened-base row: the shown name, the window handle and the pid, with the process stored on the first cell. */
  function OpenedRow(p: Process1C): Row {
    Row([p.name, IntToString(p.hwnd), IntToString(p.pid)], ProcessData(p), true, [])
  }

  function OpenedRows(ps: seq<Process1C>): (r: seq<Row>)
    ensures |r| == |ps|
    decreases |ps|
  {
    if ps == [] then [] else OpenedRows(ps[..|ps| - 1]) + [OpenedRow(ps[|ps| - 1])]
  }

  /** The opened-bases rows are the processes' rows, position by position. */
  lemma {:induction false} OpenedRowsAt(ps: seq<Process1C>)
    ensures forall i :: 0 <= i < |ps| ==> OpenedRows(ps)[i] == OpenedRow(ps[i])
    decreases |ps|
  {
    if ps != [] {
      var init := ps[..|ps| - 1];
      var front := OpenedRows(init);
      var last := OpenedRow(ps[|ps| - 1]);
      OpenedRowsAt(init);
      assert OpenedRows(ps) == front + [last];
      forall i | 0 <= i < |ps| ensures OpenedRows(ps)[i] == OpenedRow(ps[i]) {
        if i < |init| {
          assert (front + [last])[i] == front[i] && init[i] == ps[i];
        } else {
          assert i == |front| && (front + [last])[i] == last;
        }
      }
    }
  }

  /** One process more gives its row at the end. */
  lemma OpenedRowsNext(ps: seq<Process1C>, k: nat)
    requires k < |ps|
    ensures OpenedRows(ps[..k + 1]) == OpenedRows(ps[..k]) + [OpenedRow(ps[k])]
  {
    PrefixFront(ps, k);
  }

  /** The running 1C processes the opened-bases group shows. */
  function Opened(procs: seq<ProcEntry>, windows: seq<Window>, failing: set<int>): seq<Process1C> {
    Collected(WantedPids(procs, false), windows, failing, false)
  }

  /** The loop of the opened-bases builder: one row per process, in order. */
  method AppendOpenedRows(rows: seq<Row>, ps: seq<Process1C>) returns (r: seq<Row>)
    ensures r == rows + OpenedRows(ps)
  {
    r := rows;
    var k := 0;
    while k < |ps|
      invariant 0 <= k <= |ps|
      invariant r == rows + OpenedRows(ps[..k])
    {
      OpenedRowsNext(ps, k);
      AppendAssoc(rows, OpenedRows(ps[..k]), [OpenedRow(ps[k])]);
      r := r + [OpenedRow(ps[k])];
      k := k + 1;
    }
    assert ps[..|ps|] == ps;
  }

  /** `OpenedBasesTreeBuilder`. */
  class OpenedBasesTreeBuilder {
    const model: Model
    var folder: Option<Row>

    constructor (model: Model)
      ensures this.model == model && folder.None?
    {
      this.model := model;
      folder := None;
    }

    /** `build_tree`: a non-selectable node holding the header row and one row per process, inserted first. */
    method BuildTree(procs: seq<ProcEntry>, windows: seq<Window>, failing: set<int>) returns (node: Row)
      modifies this, model
      ensures node == GroupRow(OpenedNode, false, [Header] + OpenedRows(Opened(procs, windows, failing)))
      ensures folder == Some(node)
      ensures model.rows == WithOpened(old(model.rows), node)
    {
      RemoveFirstWithText(model, OpenedNode);
      var processes := GetRunningProcesses(procs, windows, failing);
      var children := AppendOpenedRows([Header], processes);
      node := GroupRow(OpenedNode, false, children);
      folder := Some(node);
      model.rows := [node] + model.rows;
    }

    /** `get_process_items`: the rows after the header that carry data. */
    method GetItems() returns (items: seq<Row>)
      ensures items == if folder.None? then [] else DataRows(folder.value.children, 1)
    {
      items := GetProcessItems(folder, 1);
    }
  }

  // What the groups show.

  lemma {:induction false} InstancesMembers(running: seq<Process1C>, nameOf: int -> Option<string>, n: string, p: Process1C)
    ensures p in Instances(running, nameOf, n) <==> p in running && nameOf(p.pid) == Some(n)
    decreases |running|
  {
    if running != [] {
      var init := running[..|running| - 1];
      InstancesMembers(init, nameOf, n, p);
      DropLast(running);
    }
  }

  lemma {:induction false} MainChildrenSnoc(apps: seq<TrackedConfig>, running: seq<Process1C>, nameOf: int -> Option<string>, i: nat)
    requires AllConfigured(apps) && i < |apps|
    ensures forall r :: r in AppRows(apps[i], running, nameOf) ==> r in MainChildren(apps, running, nameOf)
    decreases |apps|
  {
    var init := apps[..|apps| - 1];
    if i < |apps| - 1 {
      MainChildrenSnoc(init, running, nameOf, i);
      assert init[i] == apps[i];
    }
  }

  /** Every tracked application contributes at least one row, so the group has at least as many rows as applications. */
  lemma {:induction false} MainChildrenCount(apps: seq<TrackedConfig>, running: seq<Process1C>, nameOf: int -> Option<string>)
    requires AllConfigured(apps)
    ensures |MainChildren(apps, running, nameOf)| >= |apps|
    decreases |apps|
  {
    if apps != [] {
      MainChildrenCount(apps[..|apps| - 1], running, nameOf);
    }
  }

  /**
   * The rows of the newer `Основное` group: every instance of a tracked
   * application whose name lookup succeeded has its row, and every tracked
   * application without such an instance has its launch placeholder.
   */
  lemma MainChildrenComplete(apps: seq<TrackedConfig>, running: seq<Process1C>, nameOf: int -> Option<string>, i: nat)
    requires AllConfigured(apps) && i < |apps|
    ensures forall p :: p in running && nameOf(p.pid) == Some(apps[i].processName) ==> ProcessRow(p) in MainChildren(apps, running, nameOf)
    ensures Instances(running, nameOf, apps[i].processName) == [] ==> Placeholder(apps[i]) in MainChildren(apps, running, nameOf)
  {
    var inst := Instances(running, nameOf, apps[i].processName);
    MainChildrenSnoc(apps, running, nameOf, i);
    forall p | p in running && nameOf(p.pid) == Some(apps[i].processName)
      ensures ProcessRow(p) in MainChildren(apps, running, nameOf)
    {
      InstancesMembers(running, nameOf, apps[i].processName, p);
      var k :| 0 <= k < |inst| && inst[k] == p;
      assert ProcessRows(inst)[k] == ProcessRow(p);
    }
  }

  /**
   * And nothing else: each row is the row of a running instance whose name
   * lookup gave a tracked name, or the placeholder of a tracked application
   * with no such instance. A process whose lookup raised is shown nowhere.
   */
  lemma {:induction false} MainChildrenSound(apps: seq<TrackedConfig>, running: seq<Process1C>, nameOf: int -> Option<string>, r: Row)
    requires AllConfigured(apps) && r in MainChildren(apps, running, nameOf)
    ensures (exists p, i :: p in running && 0 <= i < |apps| && nameOf(p.pid) == Some(apps[i].processName) && r == ProcessRow(p))
      || (exists i :: 0 <= i < |apps| && Instances(running, nameOf, apps[i].processName) == [] && r == Placeholder(apps[i]))
    decreases |apps|
  {
    var init := apps[..|apps| - 1];
    if r in MainChildren(init, running, nameOf) {
      MainChildrenSound(init, running, nameOf, r);
      SoundInPrefix(init, apps, running, nameOf, r);
    } else {
      assert r in AppRows(apps[|apps| - 1], running, nameOf);
      SoundInLast(apps, running, nameOf, r);
    }
  }

  /** What holds of a row for the first applications holds for all of them. */
  lemma {:induction false} SoundInPrefix(init: seq<TrackedConfig>, apps: seq<TrackedConfig>, running: seq<Process1C>,
                                         nameOf: int -> Option<string>, r: Row)
    requires AllConfigured(apps) && |init| <= |apps| && init == apps[..|init|]
    requires AllConfigured(init)
    requires (exists p, i :: p in running && 0 <= i < |init| && nameOf(p.pid) == Some(init[i].processName) && r == ProcessRow(p))
      || (exists i :: 0 <= i < |init| && Instances(running, nameOf, init[i].processName) == [] && r == Placeholder(init[i]))
    ensures (exists p, i :: p in running && 0 <= i < |apps| && nameOf(p.pid) == Some(apps[i].processName) && r == ProcessRow(p))
      || (exists i :: 0 <= i < |apps| && Instances(running, nameOf, apps[i].processName) == [] && r == Placeholder(apps[i]))
  {
    if exists p, k :: p in running && 0 <= k < |init| && nameOf(p.pid) == Some(init[k].processName) && r == ProcessRow(p) {
      var p, k :| p in running && 0 <= k < |init| && nameOf(p.pid) == Some(init[k].processName) && r == ProcessRow(p);
      assert apps[k] == init[k];
    } else {
      var k :| 0 <= k < |init| && Instances(running, nameOf, init[k].processName) == [] && r == Placeholder(init[k]);
      assert apps[k] == init[k];
    }
  }

  /** A row of the last application is one of its instances or its placeholder. */
  lemma {:induction false} SoundInLast(apps: seq<TrackedConfig>, running: seq<Process1C>, nameOf: int -> Option<string>, r: Row)
    requires AllConfigured(apps) && apps != [] && r in AppRows(apps[|apps| - 1], running, nameOf)
    ensures (exists p, i :: p in running && 0 <= i < |apps| && nameOf(p.pid) == Some(apps[i].processName) && r == ProcessRow(p))
      || (exists i :: 0 <= i < |apps| && Instances(running, nameOf, apps[i].processName) == [] && r == Placeholder(apps[i]))
  {
    var i := |apps| - 1;
    var inst := Instances(running, nameOf, apps[i].processName);
    if inst != [] {
      var k :| 0 <= k < |inst| && ProcessRows(inst)[k] == r;
      InstancesMembers(running, nameOf, apps[i].processName, inst[k]);
      assert nameOf(inst[k].pid) == Some(apps[i].processName) && r == ProcessRow(inst[k]);
    } else {
      assert r == Placeholder(apps[i]);
    }
  }

  /** The rows from `from` on when all of them carry data. */
  lemma {:induction false} DataRowsAll(children: seq<Row>, from: nat)
    requires from <= |children| && forall i :: from <= i < |children| ==> children[i].data != NoData
    ensures DataRows(children, from) == children[from..]
    decreases |children|
  {
    if |children| > from {
      var init := children[..|children| - 1];
      DataRowsAll(init, from);
      assert children[from..] == init[from..] + [children[|children| - 1]];
    }
  }

  /** Every row of the newer `Основное` group carries data, so `get_process_items` lists all of them. */
  lemma MainItemsAll(apps: seq<TrackedConfig>, running: seq<Process1C>, nameOf: int -> Option<string>)
    requires AllConfigured(apps)
    ensures DataRows(MainChildren(apps, running, nameOf), 0) == MainChildren(apps, running, nameOf)
  {
    var c := MainChildren(apps, running, nameOf);
    forall j | 0 <= j < |c|
      ensures c[j].data != NoData
    {
      MainChildrenSound(apps, running, nameOf, c[j]);
    }
    DataRowsAll(c, 0);
  }

  /** The older group has no placeholders: its items are its process rows, one per process. */
  lemma LegacyItemsAll(ps: seq<Process1C>)
    ensures DataRows(ProcessRows(ps), 0) == ProcessRows(ps)
    ensures forall i :: 0 <= i < |ps| ==> ProcessRows(ps)[i].data == ProcessData(ps[i])
  {
    var rows := ProcessRows(ps);
    forall i | 0 <= i < |rows| ensures rows[i].data != NoData {
      assert rows[i] == ProcessRow(ps[i]);
    }
    DataRowsAll(rows, 0);
    assert rows[0..] == rows;
  }

  /** The opened-bases items skip the header: they are the process rows, in discovery order. */
  lemma OpenedItems(ps: seq<Process1C>)
    ensures DataRows([Header] + OpenedRows(ps), 1) == OpenedRows(ps)
  {
    var c := [Header] + OpenedRows(ps);
    OpenedRowsAt(ps);
    DataRowsAll(c, 1);
    assert c[1..] == OpenedRows(ps);
  }

  /**
   * Rebuilding the opened bases and then the main group (the order of a
   * reload) leaves the opened-bases node first and the main node second,
   * whatever the top level held before.
   */
  lemma OpenedThenMain(rows: seq<Row>, node: Row, mainNode: Row)
    requires Text(node) == OpenedNode
    ensures var r := WithMain(WithOpened(rows, node), mainNode);
      |r| >= 2 && r[0] == node && r[1] == mainNode
  {
    var r1 := WithOpened(rows, node);
    var kept := RemovedFirst(r1, MainNode);
    assert Text(r1[0]) != MainNode;
    var found := FirstWithText(r1, MainNode);
    if found.Some? {
      assert found.value > 0;
      assert kept[0] == node;
    } else {
      assert kept == r1;
    }
    assert OccursAt(Text(kept[0]), OpenedNode, 0);
    assert InsertPosition(kept) == 1;
  }
}

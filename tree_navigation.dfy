/**
 * `expand_and_select_initial` (and the older `expand_recent_and_select_last`):
 * after the tree is rebuilt, which group nodes are expanded and where the
 * cursor goes. The remembered entries are found again by pid or by base id,
 * never by row position, so a group whose rows come back in another order
 * still gets the same entry selected.
 *
 * The tree view's state is the result here: the top-level rows expanded,
 * in the order they are expanded, and the cursor set (`None` when the
 * cursor is left where it was).
 */
module TreeNavigation {
  import opened Wrappers
  import opened Strings
  import opened Models
  import opened ProcessManager
  import opened TreeModel
  import opened ProcessTrees

  /** A child row of a top-level row. */
  datatype Cursor = Cursor(folder: nat, row: nat)

  /** The group rows the scan found; each is the last top-level row whose text matched. */
  datatype Groups = Groups(openedAt: Option<nat>, mainAt: Option<nat>, recentAt: Option<nat>)

  /** Which group a row's text names: the tests run in the order opened, main, recent (`if`/`elif`). */
  function Kind(t: string): nat {
    if Contains(t, OpenedNode) then 0
    else if Contains(t, MainNode) then 1
    else if Contains(t, RecentNode) then 2
    else 3
  }

  /** The last row of kind `k` before position `n`. */
  function LastOfKind(rows: seq<Row>, k: nat, n: nat): (r: Option<nat>)
    requires n <= |rows|
    ensures r.Some? ==> (r.value < n && Kind(Text(rows[r.value])) == k
      && forall j :: r.value < j < n ==> Kind(Text(rows[j])) != k)
    ensures r.None? ==> forall j :: 0 <= j < n ==> Kind(Text(rows[j])) != k
    decreases n
  {
    if n == 0 then None
    else if Kind(Text(rows[n - 1])) == k then Some(n - 1)
    else LastOfKind(rows, k, n - 1)
  }

  function GroupsOf(rows: seq<Row>): Groups {
    Groups(LastOfKind(rows, 0, |rows|), LastOfKind(rows, 1, |rows|), LastOfKind(rows, 2, |rows|))
  }

  /** The first child that stores a process with this pid (`isinstance`/`hasattr(…, 'pid')` and pid equality). */
  function PidRow(children: seq<Row>, pid: int): (r: Option<nat>)
    ensures r.Some? ==> (r.value < |children| && children[r.value].data.ProcessData?
      && children[r.value].data.process.pid == pid
      && forall j :: 0 <= j < r.value ==> !(children[j].data.ProcessData? && children[j].data.process.pid == pid))
    ensures r.None? ==> forall j :: 0 <= j < |children| ==> !(children[j].data.ProcessData? && children[j].data.process.pid == pid)
    decreases |children|
  {
    if children == [] then None
    else if children[0].data.ProcessData? && children[0].data.process.pid == pid then Some(0)
    else match PidRow(children[1..], pid)
      case None => None
      case Some(k) => Some(k + 1)
  }

  /** The first child that stores a base with this id. */
  function IdRow(children: seq<Row>, id: string): (r: Option<nat>)
    ensures r.Some? ==> (r.value < |children| && children[r.value].data.BaseData? && children[r.value].data.db.id == id
      && forall j :: 0 <= j < r.value ==> !(children[j].data.BaseData? && children[j].data.db.id == id))
    ensures r.None? ==> forall j :: 0 <= j < |children| ==> !(children[j].data.BaseData? && children[j].data.db.id == id)
    decreases |children|
  {
    if children == [] then None
    else if children[0].data.BaseData? && children[0].data.db.id == id then Some(0)
    else match IdRow(children[1..], id)
      case None => None
      case Some(k) => Some(k + 1)
  }

  /** The row chosen in a process group: the remembered process's row if present, else the first row. */
  function ProcessChoice(children: seq<Row>, last: Option<Process1C>): nat {
    if last.Some? && PidRow(children, last.value.pid).Some? then PidRow(children, last.value.pid).value else 0
  }

  /** The row chosen among the recent bases, if any. */
  function RecentChoice(children: seq<Row>, last: Option<Database1C>): Option<nat> {
    if last.Some? && IdRow(children, last.value.id).Some? then IdRow(children, last.value.id)
    else if |children| > 0 then Some(0)
    else None
  }

  /** A group row that exists and has at least one child row. */
  predicate Filled(rows: seq<Row>, g: Option<nat>) {
    g.Some? && g.value < |rows| && |rows[g.value].children| > 0
  }

  /** Where `expand_and_select_initial` puts the cursor. */
  function Selection(rows: seq<Row>, lastProcess: Option<Process1C>, lastMain: Option<Process1C>, lastDb: Option<Database1C>)
    : Option<Cursor>
  {
    var g := GroupsOf(rows);
    if Filled(rows, g.openedAt) then Some(Cursor(g.openedAt.value, ProcessChoice(rows[g.openedAt.value].children, lastProcess)))
    else if Filled(rows, g.mainAt) then Some(Cursor(g.mainAt.value, ProcessChoice(rows[g.mainAt.value].children, lastMain)))
    else if g.recentAt.Some? then
      match RecentChoice(rows[g.recentAt.value].children, lastDb)
      case Some(k) => Some(Cursor(g.recentAt.value, k))
      case None => None
    else None
  }

  /** The rows it expands: the opened and main groups when filled, then the recent group when the priority reaches it. */
  function Expanded(rows: seq<Row>): seq<nat> {
    var g := GroupsOf(rows);
    (if Filled(rows, g.openedAt) then [g.openedAt.value] else [])
      + (if Filled(rows, g.mainAt) then [g.mainAt.value] else [])
      + (if !Filled(rows, g.openedAt) && !Filled(rows, g.mainAt) && g.recentAt.Some? then [g.recentAt.value] else [])
  }

  /** The scan over the top-level rows: every row overwrites the index of the group its text names. */
  method ScanGroups(rows: seq<Row>) returns (g: Groups)
    ensures g == GroupsOf(rows)
  {
    g := Groups(None, None, None);
    var i := 0;
    while i < |rows|
      invariant 0 <= i <= |rows|
      invariant g.openedAt == LastOfKind(rows, 0, i)
      invariant g.mainAt == LastOfKind(rows, 1, i)
      invariant g.recentAt == LastOfKind(rows, 2, i)
    {
      var kind := Kind(Text(rows[i]));
      LastOfKindNext(rows, 0, i);
      LastOfKindNext(rows, 1, i);
      LastOfKindNext(rows, 2, i);
      if kind == 0 {
        g := g.(openedAt := Some(i));
      } else if kind == 1 {
        g := g.(mainAt := Some(i));
      } else if kind == 2 {
        g := g.(recentAt := Some(i));
      }
      i := i + 1;
    }
  }

  lemma LastOfKindNext(rows: seq<Row>, k: nat, i: nat)
    requires i < |rows|
    ensures LastOfKind(rows, k, i + 1) == if Kind(Text(rows[i])) == k then Some(i) else LastOfKind(rows, k, i)
  {
  }

  /** The search of one process group for the remembered process; the first row when it is not there. */
  method FindProcessRow(children: seq<Row>, last: Option<Process1C>) returns (k: nat)
    ensures k == ProcessChoice(children, last)
  {
    if last.Some? {
      var j := 0;
      while j < |children|
        invariant 0 <= j <= |children|
        invariant forall i :: 0 <= i < j ==> !(children[i].data.ProcessData? && children[i].data.process.pid == last.value.pid)
      {
        var d := children[j].data;
        if d.ProcessData? && d.process.pid == last.value.pid {
          return j;
        }
        j := j + 1;
      }
    }
    return 0;
  }

  /** The search of the recent group for the last launched base; the first row when it is not there. */
  method FindRecentRow(children: seq<Row>, last: Option<Database1C>) returns (k: Option<nat>)
    ensures k == RecentChoice(children, last)
  {
    if last.Some? {
      var j := 0;
      while j < |children|
        invariant 0 <= j <= |children|
        invariant forall i :: 0 <= i < j ==> !(children[i].data.BaseData? && children[i].data.db.id == last.value.id)
      {
        var d := children[j].data;
        if d.BaseData? && d.db.id == last.value.id {
          return Some(j);
        }
        j := j + 1;
      }
    }
    if |children| > 0 {
      return Some(0);
    }
    return None;
  }

  /** `expand_and_select_initial`. */
  method ExpandAndSelectInitial(rows: seq<Row>, lastProcess: Option<Process1C>, lastMain: Option<Process1C>,
    lastDb: Option<Database1C>) returns (expanded: seq<nat>, current: Option<Cursor>)
    ensures expanded == Expanded(rows)
    ensures current == Selection(rows, lastProcess, lastMain, lastDb)
  {
    var g := ScanGroups(rows);
    expanded := [];
    if Filled(rows, g.openedAt) {
      expanded := expanded + [g.openedAt.value];
    }
    if Filled(rows, g.mainAt) {
      expanded := expanded + [g.mainAt.value];
    }
    current := None;
    if Filled(rows, g.openedAt) {
      var k := FindProcessRow(rows[g.openedAt.value].children, lastProcess);
      current := Some(Cursor(g.openedAt.value, k));
      return;
    }
    if Filled(rows, g.mainAt) {
      var k := FindProcessRow(rows[g.mainAt.value].children, lastMain);
      current := Some(Cursor(g.mainAt.value, k));
      return;
    }
    if g.recentAt.Some? {
      expanded := expanded + [g.recentAt.value];
      var k := FindRecentRow(rows[g.recentAt.value].children, lastDb);
      if k.Some? {
        current := Some(Cursor(g.recentAt.value, k.value));
      }
    }
  }

  // What the selection rule promises.

  /** The chosen row of a process group is the remembered process's row exactly when it is there; otherwise the first row. */
  lemma ProcessChoiceFinds(children: seq<Row>, p: Process1C)
    requires |children| > 0
    ensures var k := ProcessChoice(children, Some(p));
      k < |children|
      && ((exists j :: 0 <= j < |children| && children[j].data.ProcessData? && children[j].data.process.pid == p.pid)
          <==> (children[k].data.ProcessData? && children[k].data.process.pid == p.pid))
  {
  }

  /**
   * Selection is by pid, not by position: when the pids in a group are
   * distinct, two groups holding the same rows in any order select the same
   * row for a remembered process that is present.
   */
  lemma SelectionIgnoresOrder(c1: seq<Row>, c2: seq<Row>, p: Process1C)
    requires multiset(c1) == multiset(c2)
    requires forall i, j :: (0 <= i < j < |c1| && c1[i].data.ProcessData? && c1[j].data.ProcessData?
      ==> c1[i].data.process.pid != c1[j].data.process.pid)
    requires exists j :: 0 <= j < |c1| && c1[j].data.ProcessData? && c1[j].data.process.pid == p.pid
    ensures c1[ProcessChoice(c1, Some(p))] == c2[ProcessChoice(c2, Some(p))]
  {
    var k1 := PidRow(c1, p.pid).value;
    var x := c1[k1];
    assert x in multiset(c2);
    var k2 := PidRow(c2, p.pid).value;
    var y := c2[k2];
    assert y in multiset(c1);
    var j :| 0 <= j < |c1| && c1[j] == y;
  }

  /** The recent group selects the last launched base when present, the first row otherwise, nothing when empty. */
  lemma RecentChoiceFinds(children: seq<Row>, db: Database1C)
    ensures var k := RecentChoice(children, Some(db));
      (k.None? <==> children == [])
      && (k.Some? ==> k.value < |children|)
      && ((exists j :: 0 <= j < |children| && children[j].data.BaseData? && children[j].data.db.id == db.id)
          ==> k.Some? && children[k.value].data.BaseData? && children[k.value].data.db.id == db.id)
  {
  }

  /**
   * The priority: a filled opened-bases group decides; else a filled main
   * group; else the recent group. A remembered process is matched only
   * inside its own group.
   */
  lemma SelectionPriority(rows: seq<Row>, lastProcess: Option<Process1C>, lastMain: Option<Process1C>, lastDb: Option<Database1C>)
    ensures var c := Selection(rows, lastProcess, lastMain, lastDb); var g := GroupsOf(rows);
      (Filled(rows, g.openedAt) ==> c.Some? && c.value.folder == g.openedAt.value)
      && (!Filled(rows, g.openedAt) && Filled(rows, g.mainAt) ==> c.Some? && c.value.folder == g.mainAt.value)
      && (!Filled(rows, g.openedAt) && !Filled(rows, g.mainAt) ==> (c.Some? ==> g.recentAt.Some? && c.value.folder == g.recentAt.value))
      && (c.Some? ==> c.value.folder < |rows| && c.value.row < |rows[c.value.folder].children|)
  {
  }

  // The header row of the opened-bases group counts as a child.

  /**
   * After a refresh the opened-bases group always holds its header row, so
   * it is always filled: with no 1C process running the cursor still goes
   * there, onto the header, and the main group and the recent bases are
   * never reached.
   */
  lemma HeaderAlwaysWins(rows: seq<Row>, node: Row, lastProcess: Option<Process1C>, lastMain: Option<Process1C>,
    lastDb: Option<Database1C>)
    requires |rows| > 0 && rows[0] == node && node == GroupRow(OpenedNode, false, [Header] + OpenedRows([]))
    requires forall j :: 1 <= j < |rows| ==> Kind(Text(rows[j])) != 0
    ensures Selection(rows, lastProcess, lastMain, lastDb) == Some(Cursor(0, 0))
    ensures rows[0].children[0] == Header && Header.data == NoData
  {
    assert OccursAt(Text(node), OpenedNode, 0);
    assert Kind(Text(rows[0])) == 0;
    assert GroupsOf(rows).openedAt == Some(0);
    assert PidRow(rows[0].children, if lastProcess.Some? then lastProcess.value.pid else 0).None? by {
      assert rows[0].children == [Header];
    }
  }

  /** The rows of a group that stand for something: the ones that carry data. */
  predicate HasItems(rows: seq<Row>, g: Option<nat>) {
    g.Some? && g.value < |rows| && exists j :: 0 <= j < |rows[g.value].children| && rows[g.value].children[j].data != NoData
  }

  /** The first child that carries data. */
  function FirstItem(children: seq<Row>): (r: Option<nat>)
    ensures r.Some? ==> (r.value < |children| && children[r.value].data != NoData
      && forall j :: 0 <= j < r.value ==> children[j].data == NoData)
    ensures r.None? ==> forall j :: 0 <= j < |children| ==> children[j].data == NoData
    decreases |children|
  {
    if children == [] then None
    else if children[0].data != NoData then Some(0)
    else match FirstItem(children[1..])
      case None => None
      case Some(k) => Some(k + 1)
  }

  /** The intended process choice: the remembered process's row, else the first row that carries data. */
  function IntendedProcessChoice(children: seq<Row>, last: Option<Process1C>): nat {
    if last.Some? && PidRow(children, last.value.pid).Some? then PidRow(children, last.value.pid).value
    else if FirstItem(children).Some? then FirstItem(children).value
    else 0
  }

  /** The evidently intended rule: a process group takes priority only when it holds a process. */
  function IntendedSelection(rows: seq<Row>, lastProcess: Option<Process1C>, lastMain: Option<Process1C>, lastDb: Option<Database1C>)
    : Option<Cursor>
  {
    var g := GroupsOf(rows);
    if HasItems(rows, g.openedAt) then Some(Cursor(g.openedAt.value, IntendedProcessChoice(rows[g.openedAt.value].children, lastProcess)))
    else if HasItems(rows, g.mainAt) then Some(Cursor(g.mainAt.value, IntendedProcessChoice(rows[g.mainAt.value].children, lastMain)))
    else if g.recentAt.Some? then
      match RecentChoice(rows[g.recentAt.value].children, lastDb)
      case Some(k) => Some(Cursor(g.recentAt.value, k))
      case None => None
    else None
  }

  /** Under the intended rule the cursor lands on an entry in a process group, never on the header row. */
  lemma IntendedSelectsEntries(rows: seq<Row>, lastProcess: Option<Process1C>, lastMain: Option<Process1C>, lastDb: Option<Database1C>)
    ensures var c := IntendedSelection(rows, lastProcess, lastMain, lastDb); var g := GroupsOf(rows);
      (c.Some? ==> c.value.folder < |rows| && c.value.row < |rows[c.value.folder].children|)
      && (c.Some? && (HasItems(rows, g.openedAt) || HasItems(rows, g.mainAt)) ==> rows[c.value.folder].children[c.value.row].data != NoData)
  {
  }

  /**
   * And with no 1C process running, the intended rule passes on to the main
   * group and selects the remembered tracked process there.
   */
  lemma IntendedReachesMain(rows: seq<Row>, lastProcess: Option<Process1C>, p: Process1C, lastDb: Option<Database1C>, m: nat)
    requires |rows| > 0 && rows[0] == GroupRow(OpenedNode, false, [Header] + OpenedRows([]))
    requires GroupsOf(rows).openedAt == Some(0) && GroupsOf(rows).mainAt == Some(m)
    requires PidRow(rows[m].children, p.pid).Some?
    ensures var c := IntendedSelection(rows, lastProcess, Some(p), lastDb);
      c.Some? && c.value.folder == m && rows[m].children[c.value.row].data.process.pid == p.pid
  {
    assert rows[0].children == [Header];
    assert !HasItems(rows, Some(0));
    var k := PidRow(rows[m].children, p.pid).value;
    assert HasItems(rows, Some(m)) by {
      assert rows[m].children[k].data != NoData;
    }
  }

  // The older window.

  /** The first top-level row whose text contains `Недавние`. */
  function FirstRecent(rows: seq<Row>): (r: Option<nat>)
    ensures r.Some? ==> (r.value < |rows| && Contains(Text(rows[r.value]), RecentNode)
      && forall j :: 0 <= j < r.value ==> !Contains(Text(rows[j]), RecentNode))
    ensures r.None? ==> forall j :: 0 <= j < |rows| ==> !Contains(Text(rows[j]), RecentNode)
    decreases |rows|
  {
    if rows == [] then None
    else if Contains(Text(rows[0]), RecentNode) then Some(0)
    else match FirstRecent(rows[1..])
      case None => None
      case Some(k) => Some(k + 1)
  }

  /** `expand_recent_and_select_last`: a remembered base is selected only if it is in the group; the first row only when nothing is remembered. */
  function LegacySelection(rows: seq<Row>, lastDb: Option<Database1C>): Option<Cursor> {
    match FirstRecent(rows)
    case None => None
    case Some(f) =>
      if lastDb.Some? then
        (match IdRow(rows[f].children, lastDb.value.id)
         case Some(k) => Some(Cursor(f, k))
         case None => None)
      else if |rows[f].children| > 0 then Some(Cursor(f, 0))
      else None
  }

  /** The older window's search of the recent group: the first row holding the base, if any. */
  method FindIdRow(children: seq<Row>, id: string) returns (k: Option<nat>)
    ensures k == IdRow(children, id)
  {
    var j := 0;
    while j < |children|
      invariant 0 <= j <= |children|
      invariant forall i :: 0 <= i < j ==> !(children[i].data.BaseData? && children[i].data.db.id == id)
    {
      if children[j].data.BaseData? && children[j].data.db.id == id {
        return Some(j);
      }
      j := j + 1;
    }
    return None;
  }

  /** The older window expands the first recent group and then searches it. */
  method ExpandRecentAndSelectLast(rows: seq<Row>, lastDb: Option<Database1C>) returns (expanded: seq<nat>, current: Option<Cursor>)
    ensures expanded == (if FirstRecent(rows).Some? then [FirstRecent(rows).value] else [])
    ensures current == LegacySelection(rows, lastDb)
  {
    expanded := [];
    current := None;
    var i := 0;
    while i < |rows|
      invariant 0 <= i <= |rows|
      invariant forall j :: 0 <= j < i ==> !Contains(Text(rows[j]), RecentNode)
    {
      if Contains(Text(rows[i]), RecentNode) {
        expanded := [i];
        var children := rows[i].children;
        if lastDb.Some? {
          var k := FindIdRow(children, lastDb.value.id);
          if k.Some? {
            current := Some(Cursor(i, k.value));
          }
        } else if |children| > 0 {
          current := Some(Cursor(i, 0));
        }
        return;
      }
      i := i + 1;
    }
  }

  /** The two generations differ: the older one selects nothing when the remembered base is no longer among the recent ones. */
  lemma LegacyKeepsCursorForMissingBase(rows: seq<Row>, db: Database1C)
    requires FirstRecent(rows).Some?
    requires var f := FirstRecent(rows).value; |rows[f].children| > 0 && IdRow(rows[f].children, db.id).None?
    ensures LegacySelection(rows, Some(db)).None?
    ensures RecentChoice(rows[FirstRecent(rows).value].children, Some(db)) == Some(0)
  {
  }
}

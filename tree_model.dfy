/**
 * The item model under the window's tree view, reduced to values: a row is
 * the texts of its cells, the data its first cell stores under
 * `Qt.UserRole`, whether it can be selected, and the rows under its first
 * cell. A `Model` holds the top-level rows and is shared by the builders
 * that fill it. Helpers here are the ones the three group builders share:
 * removing the first group node of a given label, the group's insert
 * position, and listing the rows that carry data.
 */
module TreeModel {
  import opened Wrappers
  import opened Strings
  import opened Models
  import opened ProcessManager

  /** A tracked application that is either running (with its process) or offered for launch. */
  datatype TrackedApp = TrackedApp(processName: string, displayName: string, icon: string, launchPath: string,
    process: Option<Process1C>, isRunning: bool)

  /** What the first cell of a row stores under `Qt.UserRole`. Every stored object is truthy; only `NoData` is not. */
  datatype ItemData = NoData | BaseData(db: Database1C) | ProcessData(process: Process1C) | AppData(app: TrackedApp)

  datatype Row = Row(cells: seq<string>, data: ItemData, selectable: bool, children: seq<Row>)

  /** `item(i, 0).text()`. */
  function Text(r: Row): string {
    if r.cells == [] then "" else r.cells[0]
  }

  const OpenedNode: string := "Открытые базы"
  const MainNode: string := "Основное"
  const RecentNode: string := "Недавние"

  /** The model's top-level rows. */
  class Model {
    var rows: seq<Row>

    constructor ()
      ensures rows == []
    {
      rows := [];
    }
  }

  /** The first top-level row whose text is `text`. */
  function FirstWithText(rows: seq<Row>, text: string): (r: Option<nat>)
    ensures r.Some? ==> (r.value < |rows| && Text(rows[r.value]) == text
      && forall j :: 0 <= j < r.value ==> Text(rows[j]) != text)
    ensures r.None? ==> forall j :: 0 <= j < |rows| ==> Text(rows[j]) != text
    decreases |rows|
  {
    if rows == [] then None
    else if Text(rows[0]) == text then Some(0)
    else match FirstWithText(rows[1..], text)
      case None => None
      case Some(k) => Some(k + 1)
  }

  /** The rows after `removeRow` of the first row with that text; unchanged when there is none. */
  function RemovedFirst(rows: seq<Row>, text: string): seq<Row> {
    match FirstWithText(rows, text)
    case None => rows
    case Some(k) => rows[..k] + rows[k + 1..]
  }

  /** The rows whose text is `text` (when `same`) or is not (otherwise), in order. */
  function Picked(rows: seq<Row>, text: string, same: bool): seq<Row>
    decreases |rows|
  {
    if rows == [] then []
    else
      var last := rows[|rows| - 1];
      Picked(rows[..|rows| - 1], text, same) + (if (Text(last) == text) == same then [last] else [])
  }

  lemma {:induction false} PickedConcat(a: seq<Row>, b: seq<Row>, text: string, same: bool)
    ensures Picked(a + b, text, same) == Picked(a, text, same) + Picked(b, text, same)
    decreases |b|
  {
    if b == [] {
      AppendEmpty(a);
      AppendEmpty(Picked(a, text, same));
    } else {
      var b0 := b[..|b| - 1];
      var last := b[|b| - 1];
      var ab := a + b;
      var t := if (Text(last) == text) == same then [last] else [];
      PickedConcat(a, b0, text, same);
      assert ab[..|ab| - 1] == a + b0 && ab[|ab| - 1] == last;
      assert Picked(b, text, same) == Picked(b0, text, same) + t;
      assert Picked(ab, text, same) == Picked(a + b0, text, same) + t;
      AppendAssoc(Picked(a, text, same), Picked(b0, text, same), t);
    }
  }

  lemma {:induction false} NonePicked(rows: seq<Row>, text: string)
    requires forall j :: 0 <= j < |rows| ==> Text(rows[j]) != text
    ensures Picked(rows, text, true) == [] && Picked(rows, text, false) == rows
    decreases |rows|
  {
    if rows != [] {
      NonePicked(rows[..|rows| - 1], text);
    }
  }

  /** Cutting one row out splits the picked rows the same way. */
  lemma PickedAround(rows: seq<Row>, k: nat, text: string, same: bool)
    requires k < |rows|
    ensures Picked(rows, text, same)
      == Picked(rows[..k], text, same) + Picked([rows[k]], text, same) + Picked(rows[k + 1..], text, same)
    ensures Picked(rows[..k] + rows[k + 1..], text, same) == Picked(rows[..k], text, same) + Picked(rows[k + 1..], text, same)
  {
    var pre, post := rows[..k], rows[k + 1..];
    assert rows == pre + ([rows[k]] + post);
    PickedConcat(pre, [rows[k]] + post, text, same);
    PickedConcat([rows[k]], post, text, same);
    PickedConcat(pre, post, text, same);
  }

  /**
   * Removing the first row with a text takes out exactly one row with that
   * text when there is one, and keeps every row with another text in order.
   */
  lemma RemovedFirstKeepsOthers(rows: seq<Row>, text: string)
    ensures Picked(RemovedFirst(rows, text), text, false) == Picked(rows, text, false)
    ensures |Picked(RemovedFirst(rows, text), text, true)|
      == if |Picked(rows, text, true)| == 0 then 0 else |Picked(rows, text, true)| - 1
  {
    var found := FirstWithText(rows, text);
    if found.None? {
      NonePicked(rows, text);
    } else {
      CutFirstPicked(rows, text, found.value);
    }
  }

  /** Cutting out the first row with the text leaves the other rows and one row fewer with the text. */
  lemma CutFirstPicked(rows: seq<Row>, text: string, k: nat)
    requires k < |rows| && Text(rows[k]) == text
    requires forall j :: 0 <= j < k ==> Text(rows[j]) != text
    ensures Picked(rows[..k] + rows[k + 1..], text, false) == Picked(rows, text, false)
    ensures |Picked(rows[..k] + rows[k + 1..], text, true)| + 1 == |Picked(rows, text, true)|
  {
    PickedAround(rows, k, text, true);
    PickedAround(rows, k, text, false);
    var front := rows[..k];
    assert forall j :: 0 <= j < |front| ==> Text(front[j]) != text by {
      forall j | 0 <= j < |front| ensures Text(front[j]) != text {
        assert front[j] == rows[j];
      }
    }
    NonePicked(front, text);
    SinglePicked(rows[k], text);
    AppendEmpty(front);
    AppendEmpty(Picked(rows[k + 1..], text, true));
  }

  lemma SinglePicked(r: Row, text: string)
    requires Text(r) == text
    ensures Picked([r], text, true) == [r] && Picked([r], text, false) == []
  {
    assert [r][..0] == [];
  }

  /**
   * The loop at the start of each group builder: scan the top-level rows
   * and remove the first one with the group's label, then stop.
   */
  method RemoveFirstWithText(model: Model, text: string)
    modifies model
    ensures model.rows == RemovedFirst(old(model.rows), text)
  {
    var i := 0;
    while i < |model.rows|
      invariant 0 <= i <= |model.rows| && model.rows == old(model.rows)
      invariant forall j :: 0 <= j < i ==> Text(model.rows[j]) != text
    {
      if Text(model.rows[i]) == text {
        model.rows := model.rows[..i] + model.rows[i + 1..];
        return;
      }
      i := i + 1;
    }
  }

  /** Where the main group goes: second when the first row is the opened-bases group, otherwise first. */
  function InsertPosition(rows: seq<Row>): (r: nat)
    ensures r <= |rows|
    ensures r == 1 <==> |rows| > 0 && Contains(Text(rows[0]), OpenedNode)
    ensures r == 0 <==> !(|rows| > 0 && Contains(Text(rows[0]), OpenedNode))
  {
    if |rows| > 0 && Contains(Text(rows[0]), OpenedNode) then 1 else 0
  }

  /** The children from position `from` on whose data is present, in order. */
  function DataRows(children: seq<Row>, from: nat): seq<Row>
    decreases |children|
  {
    if |children| <= from then []
    else
      var last := children[|children| - 1];
      DataRows(children[..|children| - 1], from) + (if last.data != NoData then [last] else [])
  }

  /** A row is listed exactly when it is a child at or after `from` and has data. */
  lemma {:induction false} DataRowsMembers(children: seq<Row>, from: nat, x: Row)
    ensures x in DataRows(children, from) <==>
      exists i :: from <= i < |children| && children[i] == x && x.data != NoData
  {
    if x in DataRows(children, from) {
      DataRowsFrom(children, from, x);
    }
    if exists i :: from <= i < |children| && children[i] == x && x.data != NoData {
      var i :| from <= i < |children| && children[i] == x && x.data != NoData;
      DataRowsHas(children, from, i);
    }
  }

  /** Every listed row is a child at or after `from` with data. */
  lemma {:induction false} DataRowsFrom(children: seq<Row>, from: nat, x: Row)
    requires x in DataRows(children, from)
    ensures exists i :: from <= i < |children| && children[i] == x && x.data != NoData
    decreases |children|
  {
    var n := |children|;
    var init, last := children[..n - 1], children[n - 1];
    var lastPart := if last.data != NoData then [last] else [];
    assert DataRows(children, from) == DataRows(init, from) + lastPart;
    if x in DataRows(init, from) {
      DataRowsFrom(init, from, x);
      var i :| from <= i < |init| && init[i] == x && x.data != NoData;
      assert children[i] == x;
    } else {
      assert x in lastPart;
      assert children[n - 1] == x;
    }
  }

  /** Every child at or after `from` with data is listed. */
  lemma {:induction false} DataRowsHas(children: seq<Row>, from: nat, i: nat)
    requires from <= i < |children| && children[i].data != NoData
    ensures children[i] in DataRows(children, from)
    decreases |children|
  {
    var n := |children|;
    var init, last := children[..n - 1], children[n - 1];
    var lastPart := if last.data != NoData then [last] else [];
    assert DataRows(children, from) == DataRows(init, from) + lastPart;
    if i < n - 1 {
      DataRowsHas(init, from, i);
      assert init[i] == children[i];
    }
  }

  /**
   * `get_process_items`: nothing before the first build; afterwards the
   * group's children from `from` on whose data is present.
   */
  method GetProcessItems(folder: Option<Row>, from: nat) returns (items: seq<Row>)
    ensures items == if folder.None? then [] else DataRows(folder.value.children, from)
  {
    items := [];
    if folder.None? {
      return;
    }
    var children := folder.value.children;
    var i := from;
    while i < |children|
      invariant from <= i && (i <= |children| || i == from)
      invariant items == DataRows(children[..if i <= |children| then i else |children|], from)
    {
      PrefixFront(children, i);
      if children[i].data != NoData {
        items := items + [children[i]];
      }
      i := i + 1;
    }
    if i <= |children| {
      assert children[..i] == children;
    } else {
      assert children[..|children|] == children;
    }
  }
}

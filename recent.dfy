/**
 * `_move_to_recent`: a launched base is marked recent, stamped with the
 * launch time and moved to the front of the shared base list.
 */
module Recent {
  import opened Wrappers
  import opened Timestamps
  import opened Models
  import opened Actions
  import Host

  /** The record after launch: `original_folder` captured once, then `is_recent` set and the time stamped. */
  function MarkedRecent(db: Database1C, now: Timestamp): (r: Database1C)
    ensures r.isRecent && r.lastRunTime == Some(now)
    ensures r.originalFolder == (if !db.isRecent && !Truthy(db.originalFolder) then Some(db.folder) else db.originalFolder)
    ensures r.(isRecent := db.isRecent, lastRunTime := db.lastRunTime, originalFolder := db.originalFolder) == db
  {
    var captured := if !db.isRecent && !Truthy(db.originalFolder) then db.(originalFolder := Some(db.folder)) else db;
    captured.(isRecent := true, lastRunTime := Some(now))
  }

  /** The list after the move: `moved` first, then the other bases with the first occurrence of `db` removed. */
  function MovedToFront(items: seq<Database1C>, db: Database1C, moved: Database1C): seq<Database1C> {
    [moved] + (if db in items then RemoveFirst(items, db) else items)
  }

  /**
   * The moved base is at index 0; the length is unchanged when the base was
   * in the list and grows by one when it was not; every other base keeps
   * its relative order.
   */
  lemma MovedToFrontShape(items: seq<Database1C>, db: Database1C, moved: Database1C)
    ensures var r := MovedToFront(items, db, moved);
      r[0] == moved
      && |r| == (if db in items then |items| else |items| + 1)
      && (db in items ==> var k := IndexOf(items, db).value; r[1..] == items[..k] + items[k + 1..])
      && (db !in items ==> r[1..] == items)
  {
  }

  /** The list holds the same bases as before, with `db` replaced by `moved`; nothing is lost or duplicated. */
  lemma MovedToFrontElements(items: seq<Database1C>, db: Database1C, moved: Database1C)
    ensures db in items ==> multiset(MovedToFront(items, db, moved)) == multiset(items) - multiset{db} + multiset{moved}
    ensures db !in items ==> multiset(MovedToFront(items, db, moved)) == multiset(items) + multiset{moved}
  {
    if db in items {
      var k := IndexOf(items, db).value;
      assert items == items[..k] + [db] + items[k + 1..];
      assert multiset(items) == multiset(items[..k]) + multiset{db} + multiset(items[k + 1..]);
    }
  }

  /** A base that is already at the front stays the only copy there: moving it again changes only its record. */
  lemma MoveFrontIdempotent(items: seq<Database1C>, db: Database1C, moved: Database1C)
    requires items != [] && items[0] == db
    ensures MovedToFront(items, db, moved) == [moved] + items[1..]
  {
  }

  /** `_move_to_recent`: marks the base, moves it to the front, saves, and remembers it as the last launched base. */
  method MoveToRecent(self: DatabaseActions, db: Database1C, now: Timestamp) returns (moved: Database1C)
    modifies self, self.bases, self.host
    ensures moved == MarkedRecent(db, now)
    ensures self.bases.items == MovedToFront(old(self.bases.items), db, moved)
    ensures self.host.log == old(self.host.log) + [Host.BasesSaved] && self.host.files == old(self.host.files)
    ensures self.lastLaunchedDb == Some(moved) && self.tempConsolePs1 == old(self.tempConsolePs1)
  {
    moved := db;
    if !moved.isRecent && !Truthy(moved.originalFolder) {
      moved := moved.(originalFolder := Some(moved.folder));
    }
    moved := moved.(isRecent := true, lastRunTime := Some(now));
    var items := self.bases.items;
    if db in items {
      items := RemoveFirst(items, db);
    }
    self.bases.items := [moved] + items;
    self.host.Record(Host.BasesSaved);
    self.lastLaunchedDb := Some(moved);
  }

  /** `_delayed_reload_after_launch`: runs the reload callback. */
  method DelayedReloadAfterLaunch(self: DatabaseActions)
    modifies self.host
    ensures self.host.log == old(self.host.log) + [Host.UiReloaded] && self.host.files == old(self.host.files)
  {
    self.host.Record(Host.UiReloaded);
  }
}

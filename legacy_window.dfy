/**
 * The parts of the older single-class window (`TreeWindow`) that differ
 * from the newer mixins: its `save_bases` writes the record layout without
 * `ClientType`, its `duplicate_database` does not copy the client type,
 * and its `load_bases` binds a new list instead of refilling the shared
 * one. Its launch command, executable lookup, move to the recent group and
 * hotkey are the ones modelled in `LaunchCommand`, `Executable`, `Recent`
 * and `Hotkeys`.
 */
module LegacyWindow {
  import opened Wrappers
  import opened Strings
  import opened Timestamps
  import opened Models
  import opened BaseReader
  import opened BasesData
  import opened DatabaseOperations
  import Host

  /** The window's state: `all_bases` (rebound by each load) and the outside world. */
  class TreeWindow {
    var bases: BaseList
    const host: Host.Host

    constructor (bases: BaseList, host: Host.Host)
      ensures this.bases == bases && this.host == host
    {
      this.bases := bases;
      this.host := host;
    }
  }

  // ---------------------------------------------------------------------
  // save_bases

  /** The fields written after `Version`: those of the newer layout without `ClientType`. */
  function LegacyTailFields(b: Database1C): (r: seq<(string, Option<string>)>)
    ensures r == TailFields(b)[..1] + TailFields(b)[2..]
  {
    [("AppArch", b.appArch),
     ("OrderInTree", if b.orderInTree.Some? then Some(IntToString(b.orderInTree.value)) else None),
     ("Usr", b.usr), ("Pwd", b.pwd), ("StoragePath", b.storagePath),
     ("UsrEnterprise", b.usrEnterprise), ("PwdEnterprise", b.pwdEnterprise),
     ("UsrConfigurator", b.usrConfigurator), ("PwdConfigurator", b.pwdConfigurator),
     ("UsrStorage", b.usrStorage), ("PwdStorage", b.pwdStorage)]
  }

  function LegacyEntries(b: Database1C): seq<Entry>
    requires TimesValid(b)
  {
    FixedEntries(b) + LeadEntries(b) + Opts(CoreFields(b)) + Opts(LegacyTailFields(b))
  }

  /** The lines the older window writes for one base. */
  function LegacyRecordLines(b: Database1C): seq<string>
    requires TimesValid(b)
  {
    [Header(b)] + EntryLines(LegacyEntries(b)) + [""]
  }

  function LegacyFileLines(items: seq<Database1C>): seq<string>
    requires AllTimesValid(items)
    decreases |items|
  {
    if items == [] then [] else LegacyRecordLines(items[0]) + LegacyFileLines(items[1..])
  }

  function LegacyFileText(items: seq<Database1C>): string
    requires AllTimesValid(items)
  {
    Terminated(LegacyFileLines(items))
  }

  /** Every base with its client type cleared. */
  function WithoutClientType(items: seq<Database1C>): (r: seq<Database1C>)
    ensures |r| == |items| && forall i :: 0 <= i < |items| ==> r[i] == items[i].(clientType := None)
  {
    seq(|items|, i requires 0 <= i < |items| => items[i].(clientType := None))
  }

  /** The older layout of a base is the newer layout of the same base with no client type. */
  lemma LegacyRecordAgrees(b: Database1C)
    requires TimesValid(b)
    ensures LegacyRecordLines(b) == RecordLines(b.(clientType := None))
  {
    var c := b.(clientType := None);
    var tf := TailFields(c);
    assert tf[1] == ("ClientType", None);
    assert Opts(tf) == OptEntry(tf[0].0, tf[0].1) + Opts(tf[1..]);
    assert Opts(tf[1..]) == Opts(tf[2..]) by {
      assert tf[1..][1..] == tf[2..];
    }
    var lt := LegacyTailFields(b);
    assert lt[0] == tf[0] && lt[1..] == tf[2..];
    assert Opts(lt) == OptEntry(lt[0].0, lt[0].1) + Opts(lt[1..]);
    assert LeadEntries(c) == LeadEntries(b);
    assert Opts(CoreFields(c)) == Opts(CoreFields(b)) by {
      assert CoreFields(c) == CoreFields(b);
    }
    assert Header(c) == Header(b) && FixedEntries(c) == FixedEntries(b);
  }

  lemma {:induction false} LegacyFileAgrees(items: seq<Database1C>)
    requires AllTimesValid(items)
    ensures AllTimesValid(WithoutClientType(items))
    ensures LegacyFileLines(items) == FileLines(WithoutClientType(items))
    decreases |items|
  {
    var w := WithoutClientType(items);
    assert AllTimesValid(w) by {
      forall i | 0 <= i < |w| ensures TimesValid(w[i]) {
        assert TimesValid(items[i]);
      }
    }
    if items != [] {
      AllTimesValidTail(items);
      assert w[1..] == WithoutClientType(items[1..]);
      LegacyFileAgrees(items[1..]);
      LegacyRecordAgrees(items[0]);
    }
  }

  lemma {:induction false} LegacyFileLinesSnoc(items: seq<Database1C>, b: Database1C)
    requires AllTimesValid(items) && TimesValid(b)
    ensures AllTimesValid(items + [b])
    ensures LegacyFileLines(items + [b]) == LegacyFileLines(items) + LegacyRecordLines(b)
    decreases |items|
  {
    AllTimesValidSnoc(items, b);
    if items == [] {
      var s := items + [b];
      assert s == [b] && s[1..] == [];
      assert LegacyFileLines(s) == LegacyRecordLines(b) + LegacyFileLines([]);
      AppendEmpty(LegacyRecordLines(b));
    } else {
      var rest := items[1..];
      AllTimesValidTail(items);
      var s := items + [b];
      assert s[0] == items[0] && s[1..] == rest + [b];
      LegacyFileLinesSnoc(rest, b);
      assert LegacyFileLines(s) == LegacyRecordLines(items[0]) + LegacyFileLines(rest + [b]);
      AppendAssoc(LegacyRecordLines(items[0]), LegacyFileLines(rest), LegacyRecordLines(b));
    }
  }

  /** The loop of the older `save_bases`, one record after another. */
  method LegacySaveText(items: seq<Database1C>) returns (text: string)
    requires AllTimesValid(items)
    ensures text == LegacyFileText(items)
  {
    text := "";
    var i := 0;
    while i < |items|
      invariant 0 <= i <= |items|
      invariant AllTimesValid(items[..i])
      invariant text == LegacyFileText(items[..i])
    {
      TakeNext(items, i);
      LegacyFileLinesSnoc(items[..i], items[i]);
      TerminatedConcat(LegacyFileLines(items[..i]), LegacyRecordLines(items[i]));
      text := text + Terminated(LegacyRecordLines(items[i]));
      i := i + 1;
    }
    assert items[..i] == items;
  }

  /** The older `save_bases`: the same file and failure report as the newer one, with the older layout. */
  method SaveBases(self: TreeWindow, path: string, writeOk: bool, error: string)
    requires AllTimesValid(self.bases.items)
    modifies self.host
    ensures writeOk ==> self.host.files == old(self.host.files)[path := LegacyFileText(self.bases.items)]
                        && self.host.log == old(self.host.log) + [Host.FileWritten(path, LegacyFileText(self.bases.items), Encoding)]
    ensures !writeOk ==> self.host.files == old(self.host.files)
                         && self.host.log == old(self.host.log) + [Host.StatusMessage(SaveFailedMessage(error))]
  {
    var text := LegacySaveText(self.bases.items);
    if writeOk {
      self.host.WriteFile(path, text, Encoding);
    } else {
      self.host.Record(Host.StatusMessage(SaveFailedMessage(error)));
    }
  }

  /**
   * What the older window saves is read back like what the newer one
   * saves: the reader does not take `ClientType`, so dropping it loses
   * nothing the reader would return.
   */
  lemma LegacySaveLoadRoundTrip(items: seq<Database1C>)
    requires AllStorable(items)
    ensures AllTimesValid(items)
    ensures ReadResult(Some(TextLines(LegacyFileText(items)))) == LoadedAll(items)
  {
    var w := WithoutClientType(items);
    StorableWithoutClientType(items);
    LegacyFileAgrees(items);
    SaveLoadRoundTrip(w);
    LoadedWithoutClientType(items);
  }

  /** Clearing the client type keeps a base storable. */
  lemma StorableWithoutClientType(items: seq<Database1C>)
    requires AllStorable(items)
    ensures AllTimesValid(items) && AllStorable(WithoutClientType(items))
  {
    forall i | 0 <= i < |items| ensures TimesValid(items[i]) && Storable(items[i].(clientType := None)) {
      StorableCleared(items[i]);
    }
  }

  lemma StorableCleared(b: Database1C)
    requires Storable(b)
    ensures TimesValid(b) && Storable(b.(clientType := None))
  {
    var c := b.(clientType := None);
    var tc, tb := TailFields(c), TailFields(b);
    forall k | 0 <= k < |tc| && Truthy(tc[k].1) ensures Plain(tc[k].1.value) {
      assert k != 1;
      assert tc[k] == tb[k];
    }
    assert CoreFields(c) == CoreFields(b);
  }

  /** The reader's view of a base does not include its client type. */
  lemma LoadedWithoutClientType(items: seq<Database1C>)
    ensures LoadedAll(WithoutClientType(items)) == LoadedAll(items)
  {
    var w := WithoutClientType(items);
    forall i | 0 <= i < |items| ensures Loaded(w[i]) == Loaded(items[i]) {
    }
  }

  // ---------------------------------------------------------------------
  // load_bases

  /** The older `load_bases`: `all_bases` is bound to the new list the reader returns; the old list object is left as it was. */
  method LoadBases(self: TreeWindow, file: Option<seq<string>>)
    modifies self, self.host
    ensures fresh(self.bases) && self.bases.items == ReadResult(file)
    ensures self.host.log == old(self.host.log) + [Host.TreeRebuilt] && self.host.files == old(self.host.files)
  {
    var loaded := ReadBases(file);
    self.bases := new BaseList(loaded);
    self.host.Record(Host.TreeRebuilt);
  }

  // ---------------------------------------------------------------------
  // duplicate_database

  /** The older copy: a new id, no launch time, and the client type not carried over. */
  function LegacyCopy(db: Database1C, newId: string): (r: Database1C)
    ensures r.id == newId && r.lastRunTime.None? && r.clientType.None?
    ensures r.(id := db.id, lastRunTime := db.lastRunTime, clientType := db.clientType) == db
  {
    db.(id := newId, lastRunTime := None, clientType := None)
  }

  /**
   * The older `duplicate_database`: the same list change as the newer one
   * with the older copy, made on the list object the window holds; then the
   * window's own `save_bases` (answers `writeOk`, `saveError`) and
   * `load_bases` (which reads `file`), and the report.
   */
  method DuplicateDatabase(self: TreeWindow, db: Database1C, at: Option<nat>, newId: string, now: Timestamp,
                           path: string, writeOk: bool, saveError: string, file: Option<seq<string>>, error: string)
    requires Valid(now) && AllTimesValid(self.bases.items)
    requires at.Some? ==> at.value < |self.bases.items| && self.bases.items[at.value] == db
    modifies self, self.bases, self.host
    ensures match DuplicatedWith(old(self.bases.items), db, at, LegacyCopy(db, newId), DateStamp(now))
      case Some(list) =>
        AllTimesValid(list)
        && old(self.bases).items == list
        && fresh(self.bases) && self.bases.items == ReadResult(file)
        && (writeOk ==> self.host.files == old(self.host.files)[path := LegacyFileText(list)])
        && (!writeOk ==> self.host.files == old(self.host.files))
        && self.host.log == old(self.host.log)
           + [if writeOk then Host.FileWritten(path, LegacyFileText(list), Encoding) else Host.StatusMessage(SaveFailedMessage(saveError))]
           + [Host.TreeRebuilt, Host.StatusMessage(CopiedMessage(Renamed(db, DateStamp(now)).name))]
      case None =>
        self.bases == old(self.bases) && self.bases.items == old(self.bases.items)
        && self.host.files == old(self.host.files)
        && self.host.log == old(self.host.log) + [Host.StatusMessage(CopyFailedMessage(error))]
  {
    var copy := LegacyCopy(db, newId);
    var date := DateStamp(now);
    var duplicated := DuplicateList(self.bases.items, db, at, copy, date);
    if duplicated.None? {
      self.host.Record(Host.StatusMessage(CopyFailedMessage(error)));
      return;
    }
    DuplicatedTimesValid(self.bases.items, db, at, copy, date);
    StoreAndReload(self, duplicated.value, path, writeOk, saveError, file,
                   Host.StatusMessage(CopiedMessage(Renamed(db, date).name)));
  }

  /** The end of a successful duplication: the list object holds `list`, then `save_bases`, `load_bases` and the report `done`. */
  method StoreAndReload(self: TreeWindow, list: seq<Database1C>, path: string, writeOk: bool, saveError: string,
                        file: Option<seq<string>>, done: Host.Effect)
    requires AllTimesValid(list)
    modifies self, self.bases, self.host
    ensures old(self.bases).items == list
    ensures fresh(self.bases) && self.bases.items == ReadResult(file)
    ensures writeOk ==> self.host.files == old(self.host.files)[path := LegacyFileText(list)]
    ensures !writeOk ==> self.host.files == old(self.host.files)
    ensures self.host.log == old(self.host.log)
      + [if writeOk then Host.FileWritten(path, LegacyFileText(list), Encoding) else Host.StatusMessage(SaveFailedMessage(saveError))]
      + [Host.TreeRebuilt, done]
  {
    self.bases.items := list;
    SaveBases(self, path, writeOk, saveError);
    ghost var saved := self.host.log;
    LoadBases(self, file);
    self.host.Record(done);
    Host.AppendTwice(saved, [Host.TreeRebuilt], [done]);
  }

  /** Duplication keeps every launch time valid: the renamed record keeps its own and the copy has none. */
  lemma DuplicatedTimesValid(items: seq<Database1C>, db: Database1C, at: Option<nat>, copy: Database1C, date: string)
    requires at.Some? ==> at.value < |items| && items[at.value] == db
    requires AllTimesValid(items) && TimesValid(copy)
    ensures DuplicatedWith(items, db, at, copy, date).Some? ==> AllTimesValid(DuplicatedWith(items, db, at, copy, date).value)
  {
    var renamed := Renamed(db, date);
    var listed := if at.Some? then items[at.value := renamed] else items;
    assert AllTimesValid(listed) by {
      forall i | 0 <= i < |listed| ensures TimesValid(listed[i]) {
        if at.Some? && i == at.value {
          assert TimesValid(items[i]);
        }
      }
    }
    match IndexOf(listed, renamed)
    case None =>
    case Some(j) =>
      var r := InsertAt(listed, j + 1, copy);
      forall i | 0 <= i < |r| ensures TimesValid(r[i]) {
        if i < j + 1 {
          assert r[i] == r[..j + 1][i] == listed[i];
        } else if i > j + 1 {
          assert r[i] == r[j + 2..][i - j - 2] == listed[j + 1..][i - j - 2];
        }
      }
  }

  /** With unique ids the older duplicate also puts the copy right after the renamed original and moves nothing else. */
  lemma LegacyDuplicateShape(items: seq<Database1C>, pos: nat, newId: string, date: string)
    requires pos < |items| && UniqueIds(items)
    ensures var db := items[pos];
      DuplicatedWith(items, db, Some(pos), LegacyCopy(db, newId), date)
        == Some(items[..pos] + [Renamed(db, date), LegacyCopy(db, newId)] + items[pos + 1..])
  {
    UniqueIdsNoTwin(items, pos, date);
    DuplicateShape(items, pos, LegacyCopy(items[pos], newId), date);
  }

  /** The two copies differ in the client type alone. */
  lemma CopiesDifferInClientType(db: Database1C, newId: string)
    ensures LegacyCopy(db, newId) == Copy(db, newId).(clientType := None)
    ensures Copy(db, newId).clientType == db.clientType
  {
  }
}

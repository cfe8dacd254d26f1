/**
 * `DatabaseOperations`: the list operations behind the context menu. It
 * holds the shared base list by reference; the save and reload callbacks
 * it is given are recorded as the `BasesSaved` and `UiReloaded` effects.
 *
 * The tree selection arrives as the chain of rows from the selected row up
 * to its top-level ancestor. A row that carries a base record is a
 * `BaseItem`, one that carries a process or a tracked application a
 * `ProcessItem`; any other row is a folder with its label. User answers, the
 * new `uuid4` and `datetime.now()` are parameters.
 */
module DatabaseOperations {
  import opened Wrappers
  import opened Strings
  import opened Timestamps
  import opened Models
  import Host

  const RecentLabel: string := "Недавние"
  const NewBaseName: string := "Новая база"

  /** One row of the tree: a base, a process or tracked application (whose data has no `is_recent`), or a folder. */
  datatype Item = BaseItem(db: Database1C) | ProcessItem | FolderItem(text: string)

  class DatabaseOperations {
    const bases: BaseList
    const host: Host.Host

    constructor (bases: BaseList, host: Host.Host)
      ensures this.bases == bases && this.host == host
    {
      this.bases := bases;
      this.host := host;
    }
  }

  // ---------------------------------------------------------------------
  // get_current_folder

  /** A row that decides the folder: a base outside the recent group. */
  predicate OwnsFolder(it: Item) {
    it.BaseItem? && !it.db.isRecent
  }

  /** A row where the walk up ends: a base that decides the folder, or a process row, whose `is_recent` raises `AttributeError`. */
  predicate Stops(it: Item) {
    OwnsFolder(it) || it.ProcessItem?
  }

  /** A folder row whose label is part of the path: one that is not the recent group. */
  predicate KeptLabel(it: Item) {
    it.FolderItem? && !Contains(it.text, RecentLabel)
  }

  /** Index of the first row, going up, where the walk ends. */
  function Owner(chain: seq<Item>): (r: Option<nat>)
    ensures r.Some? ==> r.value < |chain| && Stops(chain[r.value])
    ensures r.Some? ==> forall k :: 0 <= k < r.value ==> !Stops(chain[k])
    ensures r.None? ==> forall k :: 0 <= k < |chain| ==> !Stops(chain[k])
    decreases |chain|
  {
    if chain == [] then None
    else if Stops(chain[0]) then Some(0)
    else match Owner(chain[1..])
      case None => None
      case Some(k) => Some(k + 1)
  }

  /** The path labels of a chain, the top-level folder first. */
  function RootFirst(chain: seq<Item>): (r: seq<string>)
    decreases |chain|
  {
    if chain == [] then []
    else
      var last := chain[|chain| - 1];
      (if KeptLabel(last) then [last.text] else []) + RootFirst(chain[..|chain| - 1])
  }

  /** `"/" + "/".join(parts)`, or `"/"` for no parts. */
  function FolderPath(parts: seq<string>): (r: string)
    ensures r != [] && r[0] == '/'
    ensures parts == [] ==> r == "/"
  {
    if parts == [] then "/" else "/" + Join(parts, "/")
  }

  /**
   * The folder a new base is put in: the folder of the nearest owning base,
   * else the path of the folder rows; `None` when the walk meets a process
   * row first and `get_current_folder` raises.
   */
  function CurrentFolderOf(selection: Option<seq<Item>>): Option<string> {
    match selection
    case None => Some("/")
    case Some(chain) =>
      match Owner(chain)
      case Some(k) => if chain[k].ProcessItem? then None else Some(chain[k].db.folder)
      case None => Some(FolderPath(RootFirst(chain)))
  }

  /** The labels of a chain that runs on past `a` into `b`: the outer part's labels come first. */
  lemma {:induction false} RootFirstConcat(a: seq<Item>, b: seq<Item>)
    ensures RootFirst(a + b) == RootFirst(b) + RootFirst(a)
    decreases |b|
  {
    if b == [] {
      assert a + b == a;
    } else {
      var ab := a + b;
      var last := b[|b| - 1];
      assert ab[|ab| - 1] == last;
      assert ab[..|ab| - 1] == a + b[..|b| - 1];
      RootFirstConcat(a, b[..|b| - 1]);
      var own := if KeptLabel(last) then [last.text] else [];
      calc {
        RootFirst(ab);
        own + RootFirst(a + b[..|b| - 1]);
        own + (RootFirst(b[..|b| - 1]) + RootFirst(a));
        { AppendAssoc(own, RootFirst(b[..|b| - 1]), RootFirst(a)); }
        RootFirst(b) + RootFirst(a);
      }
    }
  }

  /** A single row contributes its label exactly when it is a kept folder. */
  lemma RootFirstOne(it: Item)
    ensures RootFirst([it]) == if KeptLabel(it) then [it.text] else []
  {
    assert [it][..0] == [];
  }

  /** A base outside the recent group decides the folder when no nearer row ends the walk. */
  lemma OwnerWins(chain: seq<Item>, k: nat)
    requires k < |chain| && OwnsFolder(chain[k])
    requires forall j :: 0 <= j < k ==> !Stops(chain[j])
    ensures CurrentFolderOf(Some(chain)) == Some(chain[k].db.folder)
  {
  }

  /** A process row met before any owning base makes `get_current_folder` raise. */
  lemma ProcessRowRaises(chain: seq<Item>, k: nat)
    requires k < |chain| && chain[k].ProcessItem?
    requires forall j :: 0 <= j < k ==> !Stops(chain[j])
    ensures CurrentFolderOf(Some(chain)).None?
  {
  }

  /** Without a selection, and when the walk reaches the top, the result is an absolute path. */
  lemma CurrentFolderAbsolute(selection: Option<seq<Item>>)
    requires selection.None? || Owner(selection.value).None?
    ensures var r := CurrentFolderOf(selection); r.Some? && r.value != [] && r.value[0] == '/'
    ensures selection.None? ==> CurrentFolderOf(selection) == Some("/")
  {
  }

  /** `get_current_folder` as the loop that walks up the parents and prepends labels; `None` when it raises. */
  method CurrentFolder(selection: Option<seq<Item>>) returns (folder: Option<string>)
    ensures folder == CurrentFolderOf(selection)
  {
    if selection.None? {
      return Some("/");
    }
    var chain := selection.value;
    var parts: seq<string> := [];
    var i := 0;
    while i < |chain|
      invariant 0 <= i <= |chain|
      invariant forall k :: 0 <= k < i ==> !Stops(chain[k])
      invariant parts == RootFirst(chain[..i])
    {
      var it := chain[i];
      TakeNext(chain, i);
      RootFirstConcat(chain[..i], [it]);
      RootFirstOne(it);
      if it.BaseItem? {
        if !it.db.isRecent {
          OwnerWins(chain, i);
          return Some(it.db.folder);
        }
      } else if it.ProcessItem? {
        ProcessRowRaises(chain, i);
        return None;
      } else if !Contains(it.text, RecentLabel) {
        parts := [it.text] + parts;
      }
      i := i + 1;
    }
    assert chain[..i] == chain;
    if parts != [] {
      return Some("/" + Join(parts, "/"));
    }
    return Some("/");
  }

  // ---------------------------------------------------------------------
  // duplicate_database

  /** The original after duplication: `date` (the day as `%Y-%m-%d`) is appended to its name. */
  function Renamed(db: Database1C, date: string): (r: Database1C)
    ensures r.name == db.name + " " + date
    ensures r.(name := db.name) == db
  {
    db.(name := db.name + " " + date)
  }

  /** The copy: a new id and no launch time; every other field, the name included, as the original had it. */
  function Copy(db: Database1C, newId: string): (r: Database1C)
    ensures r.id == newId && r.lastRunTime.None?
    ensures r.(id := db.id, lastRunTime := db.lastRunTime) == db
  {
    db.(id := newId, lastRunTime := None)
  }

  /**
   * The list after duplication with a given copy, or `None` when
   * `list.index` raises. The record is renamed in place when it is the
   * list's element at `at`; the copy goes after the first element equal to
   * the renamed record.
   */
  function DuplicatedWith(items: seq<Database1C>, db: Database1C, at: Option<nat>, copy: Database1C, date: string): Option<seq<Database1C>>
    requires at.Some? ==> at.value < |items|
  {
    var renamed := Renamed(db, date);
    var listed := if at.Some? then items[at.value := renamed] else items;
    match IndexOf(listed, renamed)
    case None => None
    case Some(j) => Some(InsertAt(listed, j + 1, copy))
  }

  function Duplicated(items: seq<Database1C>, db: Database1C, at: Option<nat>, newId: string, date: string): Option<seq<Database1C>>
    requires at.Some? ==> at.value < |items|
  {
    DuplicatedWith(items, db, at, Copy(db, newId), date)
  }

  function CopiedMessage(name: string): string {
    "✅ База скопирована. Исходная база переименована в '" + name + "'"
  }

  function CopyFailedMessage(error: string): string {
    "❌ Ошибка копирования базы: " + error
  }

  /**
   * The list work of a duplication, step by step: the record renamed in
   * place when it is the list's element at `at`, then `list.index` of the
   * renamed record, then the copy inserted after it. When the search fails
   * the list has not changed, since a record renamed in place is always
   * found.
   */
  method DuplicateList(items: seq<Database1C>, db: Database1C, at: Option<nat>, copy: Database1C, date: string)
      returns (r: Option<seq<Database1C>>)
    requires at.Some? ==> at.value < |items| && items[at.value] == db
    ensures r == DuplicatedWith(items, db, at, copy, date)
  {
    var renamed := db.(name := db.name + " " + date);
    var listed := items;
    if at.Some? {
      listed := listed[at.value := renamed];
    }
    var index := IndexOf(listed, renamed);
    if index.None? {
      return None;
    }
    r := Some(InsertAt(listed, index.value + 1, copy));
  }

  /**
   * `duplicate_database`. `at` is the position of the record in the list
   * when the record is one of its elements; `error` is the text of the
   * exception `list.index` raises otherwise.
   */
  method DuplicateDatabase(self: DatabaseOperations, db: Database1C, at: Option<nat>, newId: string, now: Timestamp, error: string)
    requires Valid(now)
    requires at.Some? ==> at.value < |self.bases.items| && self.bases.items[at.value] == db
    modifies self.bases, self.host
    ensures match Duplicated(old(self.bases.items), db, at, newId, DateStamp(now))
      case Some(list) =>
        self.bases.items == list
        && self.host.log == old(self.host.log)
           + [Host.BasesSaved, Host.UiReloaded, Host.StatusMessage(CopiedMessage(Renamed(db, DateStamp(now)).name))]
      case None =>
        self.bases.items == old(self.bases.items)
        && self.host.log == old(self.host.log) + [Host.StatusMessage(CopyFailedMessage(error))]
    ensures self.host.files == old(self.host.files)
  {
    var copy := Copy(db, newId);
    var date := DateStamp(now);
    var duplicated := DuplicateList(self.bases.items, db, at, copy, date);
    if duplicated.None? {
      self.host.Record(Host.StatusMessage(CopyFailedMessage(error)));
      return;
    }
    self.bases.items := duplicated.value;
    self.host.RecordAll([Host.BasesSaved, Host.UiReloaded, Host.StatusMessage(CopiedMessage(Renamed(db, date).name))]);
  }

  /** Ids differ between any two positions of the list. */
  predicate UniqueIds(items: seq<Database1C>) {
    forall i, j :: 0 <= i < j < |items| ==> items[i].id != items[j].id
  }

  /**
   * For a record of the list, with no earlier element equal to the renamed
   * record (as holds when ids are unique), the original is renamed in place,
   * the copy follows it at once, and every other base keeps its position.
   */
  lemma {:induction false} DuplicateShape(items: seq<Database1C>, pos: nat, copy: Database1C, date: string)
    requires pos < |items|
    requires forall k :: 0 <= k < pos ==> items[k] != Renamed(items[pos], date)
    ensures var db := items[pos];
      DuplicatedWith(items, db, Some(pos), copy, date)
        == Some(items[..pos] + [Renamed(db, date), copy] + items[pos + 1..])
  {
    var db := items[pos];
    var renamed := Renamed(db, date);
    var listed := items[pos := renamed];
    assert listed[pos] == renamed;
    assert renamed !in listed[..pos] by {
      forall k | 0 <= k < pos ensures listed[..pos][k] != renamed {
        assert listed[..pos][k] == items[k];
      }
    }
    var j := IndexOf(listed, renamed).value;
    assert j == pos;
    var r := InsertAt(listed, pos + 1, copy);
    assert r == items[..pos] + [renamed, copy] + items[pos + 1..] by {
      assert listed[..pos + 1] == items[..pos] + [renamed];
      assert listed[pos + 1..] == items[pos + 1..];
    }
  }

  /** With unique ids no earlier element equals the renamed record, so `DuplicateShape` applies. */
  lemma UniqueIdsNoTwin(items: seq<Database1C>, pos: nat, date: string)
    requires pos < |items| && UniqueIds(items)
    ensures forall k :: 0 <= k < pos ==> items[k] != Renamed(items[pos], date)
  {
    forall k | 0 <= k < pos ensures items[k] != Renamed(items[pos], date) {
      assert items[k].id != items[pos].id;
    }
  }

  /** Duplication grows the list by one and trades the original for the renamed record and the copy. */
  lemma DuplicateElements(items: seq<Database1C>, pos: nat, newId: string, date: string)
    requires pos < |items| && UniqueIds(items)
    ensures var db := items[pos];
      var r := Duplicated(items, db, Some(pos), newId, date);
      r.Some? && |r.value| == |items| + 1
      && multiset(r.value) == multiset(items) - multiset{db} + multiset{Renamed(db, date), Copy(db, newId)}
  {
    var db := items[pos];
    UniqueIdsNoTwin(items, pos, date);
    DuplicateShape(items, pos, Copy(db, newId), date);
    SpliceMultiset(items, pos, [Renamed(db, date), Copy(db, newId)]);
  }

  /** Replacing one element by a run of elements trades that element for the run in the multiset. */
  lemma SpliceMultiset<T>(items: seq<T>, pos: nat, run: seq<T>)
    requires pos < |items|
    ensures multiset(items[..pos] + run + items[pos + 1..]) == multiset(items) - multiset{items[pos]} + multiset(run)
  {
    assert items == items[..pos] + [items[pos]] + items[pos + 1..];
    assert multiset(items) == multiset(items[..pos]) + multiset{items[pos]} + multiset(items[pos + 1..]);
  }

  // ---------------------------------------------------------------------
  // delete_database

  /** A recent base taken out of the recent group: flag and time cleared, the remembered folder restored. */
  function ResetRecent(db: Database1C): (r: Database1C)
    ensures !r.isRecent && r.lastRunTime.None?
    ensures r.folder == (if Truthy(db.originalFolder) then db.originalFolder.value else db.folder)
    ensures r.originalFolder == (if Truthy(db.originalFolder) then None else db.originalFolder)
    ensures r.(isRecent := db.isRecent, lastRunTime := db.lastRunTime, folder := db.folder, originalFolder := db.originalFolder) == db
  {
    var restored := if Truthy(db.originalFolder) then db.(folder := db.originalFolder.value, originalFolder := None) else db;
    restored.(isRecent := false, lastRunTime := None)
  }

  function UnrecentMessage(name: string): string {
    "✅ База '" + name + "' убрана из недавних"
  }

  const DeletedTitle: string := "База удалена"

  function DeletedReport(name: string, cacheReport: seq<string>): string {
    "✅ База '" + name + "' удалена из списка\n\nРезультат очистки кэша:\n" + Join(cacheReport, "\n")
  }

  function DeletedMessage(name: string): string {
    "✅ База '" + name + "' удалена"
  }

  /**
   * `delete_database`. `confirmed` is the answer to the question box;
   * `cacheReport` the lines `_clear_database_cache` returns. A recent base
   * stays in the list and is reset; any other base is removed. When the
   * record is not in the list `list.remove` raises and nothing after it runs.
   */
  method DeleteDatabase(self: DatabaseOperations, db: Database1C, at: Option<nat>, confirmed: bool, cacheReport: seq<string>)
    requires at.Some? ==> at.value < |self.bases.items| && self.bases.items[at.value] == db
    modifies self.bases, self.host
    ensures !confirmed ==> self.bases.items == old(self.bases.items) && self.host.log == old(self.host.log)
    ensures confirmed && db.isRecent ==>
      self.bases.items == (if at.Some? then old(self.bases.items)[at.value := ResetRecent(db)] else old(self.bases.items))
      && self.host.log == old(self.host.log) + [Host.BasesSaved, Host.UiReloaded, Host.StatusMessage(UnrecentMessage(db.name))]
    ensures confirmed && !db.isRecent && db in old(self.bases.items) ==>
      self.bases.items == RemoveFirst(old(self.bases.items), db)
      && self.host.log == old(self.host.log)
         + [Host.BasesSaved, Host.UiReloaded, Host.InfoShown(DeletedTitle, DeletedReport(db.name, cacheReport)),
            Host.StatusMessage(DeletedMessage(db.name))]
    ensures confirmed && !db.isRecent && db !in old(self.bases.items) ==>
      self.bases.items == old(self.bases.items) && self.host.log == old(self.host.log)
    ensures self.host.files == old(self.host.files)
  {
    if !confirmed {
      return;
    }
    if db.isRecent {
      var reset := ResetRecent(db);
      if at.Some? {
        self.bases.items := self.bases.items[at.value := reset];
      }
      self.host.Record(Host.BasesSaved);
      self.host.Record(Host.UiReloaded);
      self.host.Record(Host.StatusMessage(UnrecentMessage(reset.name)));
    } else {
      if db !in self.bases.items {
        return;
      }
      self.bases.items := RemoveFirst(self.bases.items, db);
      self.host.Record(Host.BasesSaved);
      self.host.Record(Host.UiReloaded);
      self.host.Record(Host.InfoShown(DeletedTitle, DeletedReport(db.name, cacheReport)));
      self.host.Record(Host.StatusMessage(DeletedMessage(db.name)));
    }
  }

  /** Removing a base drops exactly one copy of it and keeps every other base. */
  lemma RemoveFirstElements(items: seq<Database1C>, db: Database1C)
    requires db in items
    ensures multiset(RemoveFirst(items, db)) == multiset(items) - multiset{db}
  {
    var k := IndexOf(items, db).value;
    assert items == items[..k] + [db] + items[k + 1..];
    assert multiset(items) == multiset(items[..k]) + multiset{db} + multiset(items[k + 1..]);
  }

  /**
   * Taking a base out of the recent group undoes what launching it did to a
   * base that was not recent: its folder, flag and launch time are back.
   */
  lemma ResetUndoesLaunch(db: Database1C, now: Timestamp)
    requires !db.isRecent && db.originalFolder.None? && db.folder != ""
    ensures ResetRecent(db.(originalFolder := Some(db.folder), isRecent := true, lastRunTime := Some(now)))
      == db.(lastRunTime := None)
  {
  }

  // ---------------------------------------------------------------------
  // add_database

  /** What the settings dialog returns on acceptance: one value per key `add_database` reads. */
  datatype Settings = Settings(
    name: string,
    folder: string,
    connect: string,
    usr: Option<string>,
    pwd: Option<string>,
    version: Option<string>,
    appArch: Option<string>,
    app: Option<string>,
    storagePath: Option<string>,
    usrEnterprise: Option<string>,
    pwdEnterprise: Option<string>,
    usrConfigurator: Option<string>,
    pwdConfigurator: Option<string>,
    usrStorage: Option<string>,
    pwdStorage: Option<string>,
    clientType: Option<string>)

  /** The record the dialog is opened with. */
  function NewRecord(folder: string, newId: string): (r: Database1C)
    ensures r.id == newId && r.name == NewBaseName && r.folder == folder && r.connect == ""
    ensures r.appArch == Some("x86") && r.clientType == Some("thick")
    ensures r.app.None? && r.version.None? && r.usr.None? && r.pwd.None? && r.storagePath.None?
    ensures !r.isRecent && r.lastRunTime.None? && r.originalFolder.None? && r.orderInTree.None?
  {
    Database1C(newId, NewBaseName, folder, "", None, None, Some("x86"), Some("thick"), None, None, None, None,
      false, None, None, None, None, None, None, None, None)
  }

  /** The record with every field the dialog edits taken from its settings. */
  function Applied(db: Database1C, s: Settings): (r: Database1C)
    ensures r.name == s.name && r.folder == s.folder && r.connect == s.connect
    ensures r.usr == s.usr && r.pwd == s.pwd && r.version == s.version && r.appArch == s.appArch && r.app == s.app
    ensures r.storagePath == s.storagePath && r.clientType == s.clientType
    ensures r.usrEnterprise == s.usrEnterprise && r.pwdEnterprise == s.pwdEnterprise
    ensures r.usrConfigurator == s.usrConfigurator && r.pwdConfigurator == s.pwdConfigurator
    ensures r.usrStorage == s.usrStorage && r.pwdStorage == s.pwdStorage
    ensures r.id == db.id && r.orderInTree == db.orderInTree && r.originalFolder == db.originalFolder
    ensures r.isRecent == db.isRecent && r.lastRunTime == db.lastRunTime
  {
    db.(name := s.name, folder := s.folder, connect := s.connect, usr := s.usr, pwd := s.pwd,
        version := s.version, appArch := s.appArch, app := s.app, storagePath := s.storagePath,
        usrEnterprise := s.usrEnterprise, pwdEnterprise := s.pwdEnterprise,
        usrConfigurator := s.usrConfigurator, pwdConfigurator := s.pwdConfigurator,
        usrStorage := s.usrStorage, pwdStorage := s.pwdStorage, clientType := s.clientType)
  }

  function AddedMessage(name: string): string {
    "✅ База '" + name + "' добавлена"
  }

  /**
   * `add_database`: the dialog is opened on a fresh record in the current
   * folder; only when it is accepted is the edited record appended, saved
   * and shown. The returned record is the one the dialog was opened with;
   * `None` when `get_current_folder` raises, and then nothing happens.
   */
  method AddDatabase(self: DatabaseOperations, selection: Option<seq<Item>>, newId: string, accepted: bool, settings: Settings)
    returns (initial: Option<Database1C>)
    modifies self.bases, self.host
    ensures CurrentFolderOf(selection).None? ==>
      initial.None? && self.bases.items == old(self.bases.items) && self.host.log == old(self.host.log)
    ensures CurrentFolderOf(selection).Some? ==> initial == Some(NewRecord(CurrentFolderOf(selection).value, newId))
    ensures initial.Some? && accepted ==>
      self.bases.items == old(self.bases.items) + [Applied(initial.value, settings)]
      && self.host.log == old(self.host.log) + [Host.BasesSaved, Host.UiReloaded, Host.StatusMessage(AddedMessage(settings.name))]
    ensures initial.Some? && !accepted ==> self.bases.items == old(self.bases.items) && self.host.log == old(self.host.log)
    ensures self.host.files == old(self.host.files)
  {
    var folder := CurrentFolder(selection);
    if folder.None? {
      return None;
    }
    var record := NewRecord(folder.value, newId);
    initial := Some(record);
    if accepted {
      var edited := Applied(record, settings);
      self.bases.items := self.bases.items + [edited];
      self.host.Record(Host.BasesSaved);
      self.host.Record(Host.UiReloaded);
      self.host.Record(Host.StatusMessage(AddedMessage(edited.name)));
    }
  }

  // ---------------------------------------------------------------------
  // _generate_ir_folder_name

  /** The characters replaced by `_` one after the other, in this order. */
  const UnsafeChars: seq<char> := [':', '-', '.', ',', '\\', '/', ' ']

  /** `name.replace(c, '_')` for each character in turn. */
  function ReplaceEach(s: string, cs: seq<char>): string
    decreases |cs|
  {
    if cs == [] then s else ReplaceEach(ReplaceAll(s, [cs[0]], "_"), cs[1..])
  }

  /** `name.replace('="', '__').replace('";', '__')`: the separators and quotes of a connection string. */
  function Separated(connect: string): string {
    ReplaceAll(ReplaceAll(connect, "=\"", "__"), "\";", "__")
  }

  /** The folder name the portable tools give a base's cache: separators and quotes, then unsafe characters, become `_`. */
  function IrFolderName(connect: string): (r: string)
    ensures connect == "" ==> r == ""
  {
    if connect == "" then "" else ReplaceEach(Separated(connect), UnsafeChars)
  }

  /** Replacing one character by `_` works character by character. */
  lemma {:induction false} ReplaceCharPointwise(s: string, c: char)
    ensures var r := ReplaceAll(s, [c], "_");
      |r| == |s| && forall i :: 0 <= i < |s| ==> r[i] == if s[i] == c then '_' else s[i]
    decreases |s|
  {
    if s != [] {
      ReplaceCharPointwise(s[1..], c);
      assert s[..1] == [s[0]];
    }
  }

  /** The replacements together work character by character: a listed character becomes `_`, any other stays. */
  lemma {:induction false} ReplaceEachPointwise(s: string, cs: seq<char>)
    requires '_' !in cs
    ensures var r := ReplaceEach(s, cs);
      |r| == |s| && forall i :: 0 <= i < |s| ==> r[i] == if s[i] in cs then '_' else s[i]
    decreases |cs|
  {
    if cs != [] {
      var t := ReplaceAll(s, [cs[0]], "_");
      ReplaceCharPointwise(s, cs[0]);
      ReplaceEachPointwise(t, cs[1..]);
      assert forall x :: x in cs <==> x == cs[0] || x in cs[1..];
    }
  }

  /** A non-empty connection string: after the separators, each unsafe character becomes `_` and nothing else changes. */
  lemma IrFolderNamePointwise(connect: string)
    requires connect != ""
    ensures var t, r := Separated(connect), IrFolderName(connect);
      |r| == |t| && forall i :: 0 <= i < |t| ==> r[i] == if t[i] in UnsafeChars then '_' else t[i]
  {
    ReplaceEachPointwise(Separated(connect), UnsafeChars);
  }

  /** The folder name holds no `:`, `-`, `.`, `,`, `\`, `/` or space. */
  lemma IrFolderNameSafe(connect: string)
    ensures forall c :: c in UnsafeChars ==> !HasChar(IrFolderName(connect), c)
  {
    if connect != "" {
      IrFolderNamePointwise(connect);
    }
  }

  /** A stretch without the pattern's first character is copied as it is. */
  lemma {:induction false} ReplaceSkip(x: string, b: string, pat: string, rep: string)
    requires |pat| > 0 && !HasChar(x, pat[0])
    ensures ReplaceAll(x + b, pat, rep) == x + ReplaceAll(b, pat, rep)
    decreases |x|
  {
    if x == [] {
      assert x + b == b;
    } else {
      var s := x + b;
      assert s[0] == x[0];
      assert s[1..] == x[1..] + b;
      assert !HasChar(x[1..], pat[0]) by {
        forall i | 0 <= i < |x[1..]| ensures x[1..][i] != pat[0] {
          assert x[1..][i] == x[i + 1];
        }
      }
      ReplaceSkip(x[1..], b, pat, rep);
      if |s| < |pat| {
        assert |b| < |pat|;
        assert ReplaceAll(b, pat, rep) == b;
      } else {
        assert s[..|pat|][0] != pat[0];
        assert ReplaceAll(s, pat, rep) == [s[0]] + ReplaceAll(s[1..], pat, rep);
        AppendAssoc([x[0]], x[1..], ReplaceAll(b, pat, rep));
        assert [x[0]] + x[1..] == x;
      }
    }
  }

  /** An occurrence of the pattern at the front is replaced. */
  lemma ReplaceHit(b: string, pat: string, rep: string)
    requires |pat| > 0
    ensures ReplaceAll(pat + b, pat, rep) == rep + ReplaceAll(b, pat, rep)
  {
    assert (pat + b)[..|pat|] == pat;
    assert (pat + b)[|pat|..] == b;
  }

  /** One character of the folder name: an unsafe character becomes `_`. */
  function SafeChar(c: char): (r: char) {
    if c == ':' || c == '-' || c == '.' || c == ',' || c == '\\' || c == '/' || c == ' ' then '_' else c
  }

  lemma SafeCharUnsafe(c: char)
    ensures SafeChar(c) == if c in UnsafeChars then '_' else c
  {
  }

  /** The character replacements, character by character. */
  function SafeChars(s: string): (r: string) {
    seq(|s|, i requires 0 <= i < |s| => SafeChar(s[i]))
  }

  lemma SafeCharsConcat(a: string, b: string)
    ensures SafeChars(a + b) == SafeChars(a) + SafeChars(b)
  {
    assert SafeChars(a + b) == SafeChars(a) + SafeChars(b) by {
      forall i | 0 <= i < |a + b| ensures SafeChars(a + b)[i] == (SafeChars(a) + SafeChars(b))[i] {
        if i < |a| { assert (a + b)[i] == a[i]; } else { assert (a + b)[i] == b[i - |a|]; }
      }
    }
  }

  /** The server and base name of a server connection string, without `=` or `"`. */
  predicate PlainPart(s: string) {
    !HasChar(s, '=') && !HasChar(s, '"')
  }

  /** A character in neither part is not in their concatenation. */
  lemma NoCharConcat(a: string, b: string, d: char)
    requires !HasChar(a, d) && !HasChar(b, d)
    ensures !HasChar(a + b, d)
  {
    forall i | 0 <= i < |a + b| ensures (a + b)[i] != d {
      if i < |a| { assert (a + b)[i] == a[i]; } else { assert (a + b)[i] == b[i - |a|]; }
    }
  }

  /** Two occurrences of a pattern between stretches without its first character are both replaced. */
  lemma ReplaceTwoHits(a: string, b: string, c: string, pat: string, rep: string)
    requires |pat| > 0 && !HasChar(a, pat[0]) && !HasChar(b, pat[0]) && !HasChar(c, pat[0])
    ensures ReplaceAll(a + (pat + (b + (pat + c))), pat, rep) == a + (rep + (b + (rep + c)))
  {
    ReplaceSkip(c, [], pat, rep);
    AppendEmpty(c);
    ReplaceHit(c, pat, rep);
    ReplaceSkip(b, pat + c, pat, rep);
    ReplaceHit(b + (pat + c), pat, rep);
    ReplaceSkip(a, pat + (b + (pat + c)), pat, rep);
  }

  /** `Srvr="S";Ref="R";`. */
  function ServerConnect(server: string, ref: string): string {
    "Srvr" + ("=\"" + ((server + "\";Ref") + ("=\"" + (ref + "\";"))))
  }

  /** `Srvr__S__Ref__R__`. */
  function ServerFolder(server: string, ref: string): string {
    "Srvr__" + (server + ("__Ref__" + (ref + "__")))
  }

  /** The text between the two replacements, regrouped around its two `";`. */
  lemma {:induction false} QuotedRegroup(server: string, ref: string)
    ensures "Srvr" + ("__" + ((server + "\";Ref") + ("__" + (ref + "\";"))))
      == ("Srvr__" + server) + ("\";" + (("Ref__" + ref) + ("\";" + [])))
  {
    var sc := "\";";
    var y := "__" + (ref + sc);
    calc {
      (server + "\";Ref") + y;
      { AppendAssoc(server, "\";Ref", y); }
      server + ("\";Ref" + y);
      { assert "\";Ref" == sc + "Ref"; AppendAssoc(sc, "Ref", y); }
      server + (sc + ("Ref" + y));
      { AppendAssoc("Ref", "__", ref + sc); assert "Ref" + "__" == "Ref__"; }
      server + (sc + ("Ref__" + (ref + sc)));
      { AppendAssoc("Ref__", ref, sc); AppendEmpty(sc); AppendAssoc("Ref__" + ref, sc, []); }
      server + (sc + (("Ref__" + ref) + (sc + [])));
    }
    var z := sc + (("Ref__" + ref) + (sc + []));
    calc {
      "Srvr" + ("__" + (server + z));
      { AppendAssoc("Srvr", "__", server + z); assert "Srvr" + "__" == "Srvr__"; }
      "Srvr__" + (server + z);
      { AppendAssoc("Srvr__", server, z); }
      ("Srvr__" + server) + z;
    }
  }

  /** The result of the second replacement, regrouped as the folder name. */
  lemma {:induction false} SeparatedRegroup(server: string, ref: string)
    ensures ("Srvr__" + server) + ("__" + (("Ref__" + ref) + ("__" + []))) == ServerFolder(server, ref)
  {
    AppendEmpty("__");
    calc {
      ("Srvr__" + server) + ("__" + (("Ref__" + ref) + "__"));
      { AppendAssoc("Srvr__", server, "__" + (("Ref__" + ref) + "__")); }
      "Srvr__" + (server + ("__" + (("Ref__" + ref) + "__")));
      { AppendAssoc("Ref__", ref, "__"); }
      "Srvr__" + (server + ("__" + ("Ref__" + (ref + "__"))));
      { AppendAssoc("__", "Ref__", ref + "__"); assert "__" + "Ref__" == "__Ref__"; }
      "Srvr__" + (server + ("__Ref__" + (ref + "__")));
    }
  }

  /** The separator replacements on a server connection string: both `="` and both `";` become `__`. */
  lemma {:induction false} ServerSeparated(server: string, ref: string)
    requires PlainPart(server) && PlainPart(ref)
    ensures Separated(ServerConnect(server, ref)) == ServerFolder(server, ref)
  {
    var eq, sc := "=\"", "\";";
    assert !HasChar("\";Ref", '=') && !HasChar(sc, '=') && !HasChar("Srvr", '=');
    NoCharConcat(server, "\";Ref", '=');
    NoCharConcat(ref, sc, '=');
    ReplaceTwoHits("Srvr", server + "\";Ref", ref + sc, eq, "__");
    QuotedRegroup(server, ref);
    assert !HasChar("Srvr__", '"') && !HasChar("Ref__", '"') && !HasChar([], '"');
    NoCharConcat("Srvr__", server, '"');
    NoCharConcat("Ref__", ref, '"');
    ReplaceTwoHits("Srvr__" + server, "Ref__" + ref, [], sc, "__");
    SeparatedRegroup(server, ref);
  }

  /**
   * The documented shape: for `Srvr="S";Ref="R";` the folder name is
   * `Srvr__S__Ref__R__` with the unsafe characters of `S` and `R` turned into `_`.
   */
  lemma IrFolderNameOfServer(server: string, ref: string)
    requires PlainPart(server) && PlainPart(ref)
    ensures IrFolderName(ServerConnect(server, ref)) == ServerFolder(SafeChars(server), SafeChars(ref))
  {
    var connect := ServerConnect(server, ref);
    ServerSeparated(server, ref);
    IrFolderNamePointwise(connect);
    forall c ensures SafeChar(c) == if c in UnsafeChars then '_' else c {
      SafeCharUnsafe(c);
    }
    assert IrFolderName(connect) == SafeChars(ServerFolder(server, ref));
    SafeServerFolder(server, ref);
  }

  /** The fixed parts of the folder name have no unsafe character. */
  lemma SafeFixedParts()
    ensures SafeChars("Srvr__") == "Srvr__" && SafeChars("__Ref__") == "__Ref__" && SafeChars("__") == "__"
  {
  }

  lemma SafeServerFolder(server: string, ref: string)
    ensures SafeChars(ServerFolder(server, ref)) == ServerFolder(SafeChars(server), SafeChars(ref))
  {
    SafeFixedParts();
    calc {
      SafeChars(ServerFolder(server, ref));
      { SafeCharsConcat("Srvr__", server + ("__Ref__" + (ref + "__"))); }
      "Srvr__" + SafeChars(server + ("__Ref__" + (ref + "__")));
      { SafeCharsConcat(server, "__Ref__" + (ref + "__")); }
      "Srvr__" + (SafeChars(server) + SafeChars("__Ref__" + (ref + "__")));
      { SafeCharsConcat("__Ref__", ref + "__"); }
      "Srvr__" + (SafeChars(server) + ("__Ref__" + SafeChars(ref + "__")));
      { SafeCharsConcat(ref, "__"); }
      "Srvr__" + (SafeChars(server) + ("__Ref__" + (SafeChars(ref) + "__")));
    }
  }

  /** The parts of the documented example: no `=` or `"`, and the safe form of each. */
  lemma ExampleParts(server: string, ref: string)
    requires server == "srv-1c-8325:1541" && ref == "ZUP_0202_Pechericadv_1"
    ensures PlainPart(server) && PlainPart(ref)
    ensures SafeChars(server) == "srv_1c_8325_1541" && SafeChars(ref) == ref
  {
  }

  /**
   * The example the function documents:
   * `Srvr="srv-1c-8325:1541";Ref="ZUP_0202_Pechericadv_1";` gives
   * `Srvr__srv_1c_8325_1541__Ref__ZUP_0202_Pechericadv_1__`.
   */
  lemma IrFolderNameExample(server: string, ref: string)
    requires server == "srv-1c-8325:1541" && ref == "ZUP_0202_Pechericadv_1"
    ensures IrFolderName(ServerConnect(server, ref)) == ServerFolder("srv_1c_8325_1541", "ZUP_0202_Pechericadv_1")
  {
    ExampleParts(server, ref);
    IrFolderNameOfServer(server, ref);
  }
}

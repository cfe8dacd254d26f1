/**
 * `BasesDataMixin`: the base list saved as `ibases.v8i` sections and
 * loaded back into the shared list in place, and the order of the steps
 * `reload_and_navigate` takes.
 *
 * The file's text is what `save_bases` writes; reading it back goes
 * through `BaseReader`, which sees the text's lines.
 */
module BasesData {
  import opened Wrappers
  import opened Strings
  import opened Timestamps
  import opened Models
  import opened BaseReader
  import opened Actions
  import Host

  const Encoding: string := "utf-8-sig"

  function SaveFailedMessage(error: string): string {
    "❌ Ошибка сохранения: " + error
  }

  // ---------------------------------------------------------------------
  // The record layout.

  /** A `key=value` pair of a section. */
  type Entry = (string, string)

  function EntryLine(e: Entry): string {
    e.0 + "=" + e.1
  }

  function EntryLines(es: seq<Entry>): (r: seq<string>)
    ensures |r| == |es| && forall i :: 0 <= i < |es| ==> r[i] == EntryLine(es[i])
  {
    seq(|es|, i requires 0 <= i < |es| => EntryLine(es[i]))
  }

  /** An optional field, written only when it is truthy. */
  function OptEntry(key: string, v: Option<string>): (r: seq<Entry>)
    ensures |r| <= 1 && (r != [] <==> Truthy(v))
    ensures r != [] ==> r[0] == (key, v.value)
  {
    if Truthy(v) then [(key, v.value)] else []
  }

  /** The times a record holds are real `datetime` values. */
  predicate TimesValid(b: Database1C) {
    b.lastRunTime.Some? ==> Valid(b.lastRunTime.value)
  }

  /** `IsRecent` and `LastRunTime`, the entries between `Folder` and `App`. */
  function LeadEntries(b: Database1C): seq<Entry>
    requires TimesValid(b)
  {
    (if b.isRecent then [("IsRecent", "1")] else [])
    + (if b.lastRunTime.Some? then [("LastRunTime", IsoFormat(b.lastRunTime.value))] else [])
  }

  /** `App` and `Version`, the optional fields the reader takes back. */
  function CoreFields(b: Database1C): seq<(string, Option<string>)> {
    [("App", b.app), ("Version", b.version)]
  }

  /** The keys written after `Version`, in order. */
  const TailKeys: seq<string> := ["AppArch", "ClientType", "OrderInTree", "Usr", "Pwd", "StoragePath",
    "UsrEnterprise", "PwdEnterprise", "UsrConfigurator", "PwdConfigurator", "UsrStorage", "PwdStorage"]

  /** The fields after `Version`; `OrderInTree` is written as `str(n)` whenever it is set, 0 included. */
  function TailFields(b: Database1C): (r: seq<(string, Option<string>)>)
    ensures |r| == |TailKeys| && forall i :: 0 <= i < |r| ==> r[i].0 == TailKeys[i]
  {
    [("AppArch", b.appArch), ("ClientType", b.clientType),
     ("OrderInTree", if b.orderInTree.Some? then Some(IntToString(b.orderInTree.value)) else None),
     ("Usr", b.usr), ("Pwd", b.pwd), ("StoragePath", b.storagePath),
     ("UsrEnterprise", b.usrEnterprise), ("PwdEnterprise", b.pwdEnterprise),
     ("UsrConfigurator", b.usrConfigurator), ("PwdConfigurator", b.pwdConfigurator),
     ("UsrStorage", b.usrStorage), ("PwdStorage", b.pwdStorage)]
  }

  /** The entries of the optional fields that are truthy, in field order. */
  function Opts(fs: seq<(string, Option<string>)>): (r: seq<Entry>)
    ensures |r| <= |fs|
    decreases |fs|
  {
    if fs == [] then [] else OptEntry(fs[0].0, fs[0].1) + Opts(fs[1..])
  }

  function FixedEntries(b: Database1C): seq<Entry> {
    [("ID", b.id), ("Connect", b.connect), ("Folder", b.folder)]
  }

  /** The three entries always written, then the optional ones in their fixed order. */
  function Entries(b: Database1C): seq<Entry>
    requires TimesValid(b)
  {
    FixedEntries(b) + LeadEntries(b) + Opts(CoreFields(b)) + Opts(TailFields(b))
  }

  function Header(b: Database1C): string {
    "[" + b.name + "]"
  }

  /** The lines `save_bases` writes for one base: the header, the entries and a blank line. */
  function RecordLines(b: Database1C): seq<string>
    requires TimesValid(b)
  {
    [Header(b)] + EntryLines(Entries(b)) + [""]
  }

  predicate AllTimesValid(items: seq<Database1C>) {
    forall i :: 0 <= i < |items| ==> TimesValid(items[i])
  }

  /** The lines for all bases, in list order. */
  function FileLines(items: seq<Database1C>): seq<string>
    requires AllTimesValid(items)
    decreases |items|
  {
    if items == [] then [] else RecordLines(items[0]) + FileLines(items[1..])
  }

  /** Each line followed by a line break, as the `f.write` calls produce them. */
  function Terminated(lines: seq<string>): (r: string)
    decreases |lines|
  {
    if lines == [] then "" else lines[0] + "\n" + Terminated(lines[1..])
  }

  /** The text of the saved file. */
  function FileText(items: seq<Database1C>): string
    requires AllTimesValid(items)
  {
    Terminated(FileLines(items))
  }

  function RecordText(b: Database1C): string
    requires TimesValid(b)
  {
    Terminated(RecordLines(b))
  }

  lemma {:induction false} TerminatedConcat(a: seq<string>, b: seq<string>)
    ensures Terminated(a + b) == Terminated(a) + Terminated(b)
    decreases |a|
  {
    if a != [] {
      assert (a + b)[0] == a[0];
      assert (a + b)[1..] == a[1..] + b;
      TerminatedConcat(a[1..], b);
    } else {
      assert a + b == b;
    }
  }

  lemma {:induction false} AllTimesValidSnoc(items: seq<Database1C>, b: Database1C)
    requires AllTimesValid(items) && TimesValid(b)
    ensures AllTimesValid(items + [b])
  {
    assert forall i :: 0 <= i < |items + [b]| ==> (items + [b])[i] == if i < |items| then items[i] else b;
  }

  lemma {:induction false} AllTimesValidTail(items: seq<Database1C>)
    requires AllTimesValid(items) && items != []
    ensures TimesValid(items[0]) && AllTimesValid(items[1..])
  {
    assert forall i :: 0 <= i < |items[1..]| ==> items[1..][i] == items[i + 1];
  }

  lemma {:induction false} FileLinesSnoc(items: seq<Database1C>, b: Database1C)
    requires AllTimesValid(items) && TimesValid(b)
    ensures AllTimesValid(items + [b])
    ensures FileLines(items + [b]) == FileLines(items) + RecordLines(b)
    decreases |items|
  {
    AllTimesValidSnoc(items, b);
    if items == [] {
      var s := items + [b];
      assert s == [b] && s[1..] == [];
      assert FileLines(s) == RecordLines(b) + FileLines([]);
      AppendEmpty(RecordLines(b));
      assert FileLines(items) == [];
    } else {
      var rest := items[1..];
      AllTimesValidTail(items);
      var s := items + [b];
      assert s[0] == items[0] && s[1..] == rest + [b];
      FileLinesSnoc(rest, b);
      assert FileLines(s) == RecordLines(items[0]) + FileLines(rest + [b]);
      AppendAssoc(RecordLines(items[0]), FileLines(rest), RecordLines(b));
    }
  }

  /** `save_bases` text: the loop over `all_bases` writing each record in turn. */
  method SaveText(items: seq<Database1C>) returns (text: string)
    requires AllTimesValid(items)
    ensures text == FileText(items)
  {
    text := "";
    var i := 0;
    while i < |items|
      invariant 0 <= i <= |items|
      invariant AllTimesValid(items[..i])
      invariant text == FileText(items[..i])
    {
      TakeNext(items, i);
      FileLinesSnoc(items[..i], items[i]);
      TerminatedConcat(FileLines(items[..i]), RecordLines(items[i]));
      text := text + RecordText(items[i]);
      i := i + 1;
    }
    assert items[..i] == items;
  }

  /**
   * `save_bases`: the text is written to the base list file; a failure is
   * reported on the status bar and the file is left as it was.
   */
  method SaveBases(self: DatabaseActions, path: string, writeOk: bool, error: string)
    requires AllTimesValid(self.bases.items)
    modifies self.host
    ensures writeOk ==> self.host.files == old(self.host.files)[path := FileText(self.bases.items)]
                        && self.host.log == old(self.host.log) + [Host.FileWritten(path, FileText(self.bases.items), Encoding)]
    ensures !writeOk ==> self.host.files == old(self.host.files)
                         && self.host.log == old(self.host.log) + [Host.StatusMessage(SaveFailedMessage(error))]
  {
    var text := SaveText(self.bases.items);
    if writeOk {
      self.host.WriteFile(path, text, Encoding);
    } else {
      self.host.Record(Host.StatusMessage(SaveFailedMessage(error)));
    }
  }

  // ---------------------------------------------------------------------
  // Loading.

  /**
   * `load_bases`: the shared list object keeps its identity and receives
   * what the reader returns (`clear` then `extend`), and the tree is rebuilt
   * from it.
   */
  method LoadBases(self: DatabaseActions, file: Option<seq<string>>)
    modifies self.bases, self.host
    ensures self.bases.items == ReadResult(file)
    ensures self.host.log == old(self.host.log) + [Host.TreeRebuilt] && self.host.files == old(self.host.files)
  {
    var loaded := ReadBases(file);
    self.bases.items := [];
    self.bases.items := self.bases.items + loaded;
    self.host.Record(Host.TreeRebuilt);
  }

  /** `reload_and_navigate`: load, refresh the opened bases, refresh the main processes, then select. */
  method ReloadAndNavigate(self: DatabaseActions, file: Option<seq<string>>)
    modifies self.bases, self.host
    ensures self.bases.items == ReadResult(file)
    ensures self.host.log == old(self.host.log)
      + [Host.TreeRebuilt, Host.OpenedBasesRefreshed, Host.MainProcessesRefreshed, Host.InitialSelectionMade]
    ensures self.host.files == old(self.host.files)
  {
    LoadBases(self, file);
    self.host.RecordAll([Host.OpenedBasesRefreshed, Host.MainProcessesRefreshed, Host.InitialSelectionMade]);
  }

  // ---------------------------------------------------------------------
  // Saving and loading again.

  /** The keys `_create_database` reads. */
  const ReadKeys: set<string> := {"ID", "Connect", "Folder", "App", "Version"}

  /** A key the reader can take back: the line neither looks blank nor like a header, and it splits at the key's end. */
  predicate PlainKey(k: string) {
    k != [] && k[0] != '[' && !IsSpace(k[0]) && !HasChar(k, '=') && OneLine(k)
  }

  /** A value the reader takes back unchanged: one line, no whitespace at its end. */
  predicate Plain(v: string) {
    OneLine(v) && (v == [] || !IsSpace(v[|v| - 1]))
  }

  predicate PlainEntries(es: seq<Entry>) {
    forall i :: 0 <= i < |es| ==> PlainKey(es[i].0) && Plain(es[i].1)
  }

  /** The entries do not touch the keys the reader uses. */
  predicate Foreign(es: seq<Entry>) {
    forall i :: 0 <= i < |es| ==> es[i].0 !in ReadKeys
  }

  /** Every optional field that will be written has a plain value. */
  predicate PlainValues(fs: seq<(string, Option<string>)>) {
    forall i :: 0 <= i < |fs| ==> Truthy(fs[i].1) ==> Plain(fs[i].1.value)
  }

  /**
   * A base whose text survives the file: no `\n` or `\r` anywhere, no
   * trailing whitespace in a value (`OrderInTree` always qualifies, see
   * `OrderInTreePlain`).
   */
  predicate Storable(b: Database1C) {
    TimesValid(b) && OneLine(b.name) && Plain(b.id) && Plain(b.connect) && Plain(b.folder)
    && PlainValues(CoreFields(b)) && PlainValues(TailFields(b))
  }

  /** The base the reader makes of a saved base: its ID, connection, folder (also as the name), app and version when set. */
  function Loaded(b: Database1C): Database1C {
    NewDatabase(b.id, b.folder, b.folder, b.connect,
                if Truthy(b.app) then b.app else None, if Truthy(b.version) then b.version else None)
  }

  function LoadedAll(items: seq<Database1C>): (r: seq<Database1C>)
    ensures |r| == |items| && forall i :: 0 <= i < |items| ==> r[i] == Loaded(items[i])
  {
    seq(|items|, i requires 0 <= i < |items| => Loaded(items[i]))
  }

  /** The section the entries build, one update per line. */
  function Apply(m: map<string, string>, es: seq<Entry>): map<string, string>
    decreases |es|
  {
    if es == [] then m else Apply(m[es[0].0 := es[0].1], es[1..])
  }

  lemma {:induction false} ApplyConcat(m: map<string, string>, a: seq<Entry>, b: seq<Entry>)
    ensures Apply(m, a + b) == Apply(Apply(m, a), b)
    decreases |a|
  {
    if a == [] {
      assert a + b == b;
    } else {
      assert (a + b)[0] == a[0];
      assert (a + b)[1..] == a[1..] + b;
      ApplyConcat(m[a[0].0 := a[0].1], a[1..], b);
    }
  }

  /** Two sections that agree on the keys the reader uses. */
  predicate SameRead(m: map<string, string>, n: map<string, string>) {
    forall k :: k in ReadKeys ==> (k in m <==> k in n) && (k in m ==> m[k] == n[k])
  }

  lemma SameReadCreates(m: map<string, string>, n: map<string, string>)
    requires SameRead(m, n)
    ensures CreateDatabase(m) == CreateDatabase(n)
    ensures "ID" in m <==> "ID" in n
  {
    assert "ID" in ReadKeys && "Connect" in ReadKeys && "Folder" in ReadKeys && "App" in ReadKeys && "Version" in ReadKeys;
  }

  /** Entries with foreign keys leave what the reader uses alone. */
  lemma {:induction false} ApplyForeign(m: map<string, string>, es: seq<Entry>)
    requires Foreign(es)
    ensures SameRead(Apply(m, es), m)
    decreases |es|
  {
    if es != [] {
      assert es[0].0 !in ReadKeys;
      assert Foreign(es[1..]) by {
        assert forall i :: 0 <= i < |es[1..]| ==> es[1..][i] == es[i + 1];
      }
      ApplyForeign(m[es[0].0 := es[0].1], es[1..]);
    }
  }

  /** Applying the same entries to two sections that agree keeps them agreeing. */
  lemma {:induction false} ApplySame(m: map<string, string>, n: map<string, string>, es: seq<Entry>)
    requires SameRead(m, n)
    ensures SameRead(Apply(m, es), Apply(n, es))
    decreases |es|
  {
    if es != [] {
      ApplySame(m[es[0].0 := es[0].1], n[es[0].0 := es[0].1], es[1..]);
    }
  }

  lemma {:induction false} RunConcat(r: Reader, a: seq<string>, b: seq<string>)
    ensures Run(r, a + b) == Run(Run(r, a), b)
    decreases |a|
  {
    if a == [] {
      assert a + b == b;
    } else {
      assert (a + b)[0] == a[0];
      assert (a + b)[1..] == a[1..] + b;
      RunConcat(Step(r, a[0]), a[1..], b);
    }
  }

  /** Reading entry lines applies the entries to the current section. */
  lemma {:induction false} RunEntries(r: Reader, es: seq<Entry>)
    requires PlainEntries(es)
    ensures Run(r, EntryLines(es)) == Reader(r.bases, Apply(r.current, es))
    decreases |es|
  {
    if es != [] {
      var lines := EntryLines(es);
      var e := es[0];
      assert lines[0] == e.0 + "=" + e.1;
      assert lines[1..] == EntryLines(es[1..]);
      EntrySplitsAtFirstEquals(r, e.0, e.1);
      assert forall i :: 0 <= i < |es[1..]| ==> es[1..][i] == es[i + 1];
      RunEntries(Reader(r.bases, r.current[e.0 := e.1]), es[1..]);
    }
  }

  /** A record's lines, read: the previous section ends, and the header's section receives the entries. */
  lemma {:induction false} RecordRead(r: Reader, h: string, es: seq<Entry>)
    requires IsHeader(h) && Strip(h) == h && PlainEntries(es)
    ensures Run(r, [h] + EntryLines(es) + [""]) == Reader(Flush(r.bases, r.current), Apply(HeaderSection(h), es))
  {
    HeaderStartsSection(r, h);
    var r1 := Reader(Flush(r.bases, r.current), HeaderSection(h));
    var lines := [h] + EntryLines(es) + [""];
    assert lines[0] == h;
    assert lines[1..] == EntryLines(es) + [""];
    assert Run(r, lines) == Run(r1, EntryLines(es) + [""]);
    RunTrailingBlank(r1, EntryLines(es));
    RunEntries(r1, es);
  }

  /** A key of letters, as every key the writer uses is. */
  lemma {:induction false} LetterKey(k: string)
    requires k != [] && forall j :: 0 <= j < |k| ==> 'A' <= k[j] <= 'Z' || 'a' <= k[j] <= 'z'
    ensures PlainKey(k)
  {
  }

  lemma {:induction false} FixedKeysPlain()
    ensures PlainKey("ID") && PlainKey("Connect") && PlainKey("Folder")
    ensures PlainKey("IsRecent") && PlainKey("LastRunTime") && PlainKey("App") && PlainKey("Version")
  {
    LetterKey("ID"); LetterKey("Connect"); LetterKey("Folder");
    LetterKey("IsRecent"); LetterKey("LastRunTime"); LetterKey("App"); LetterKey("Version");
  }

  lemma {:induction false} TailKeysPlain()
    ensures forall i :: 0 <= i < |TailKeys| ==> PlainKey(TailKeys[i]) && TailKeys[i] !in ReadKeys
  {
    forall i | 0 <= i < |TailKeys| ensures PlainKey(TailKeys[i]) && TailKeys[i] !in ReadKeys {
      LetterKey(TailKeys[i]);
    }
  }

  /** A number written as `str(n)` is a plain value. */
  lemma {:induction false} OrderInTreePlain(n: int)
    ensures Plain(IntToString(n))
  {
    var r := IntToString(n);
    assert forall i :: 0 <= i < |r| ==> r[i] != '\n' by {
      forall i | 0 <= i < |r| ensures r[i] != '\n' {
        if i == 0 { assert r[0] == '-' || '0' <= r[0] <= '9'; }
      }
    }
  }

  lemma {:induction false} OptsPlain(fs: seq<(string, Option<string>)>)
    requires forall i :: 0 <= i < |fs| ==> PlainKey(fs[i].0)
    requires PlainValues(fs)
    ensures PlainEntries(Opts(fs))
    decreases |fs|
  {
    if fs != [] {
      var tail := fs[1..];
      forall i | 0 <= i < |tail| ensures PlainKey(tail[i].0) {
        assert tail[i] == fs[i + 1];
      }
      forall i | 0 <= i < |tail| ensures Truthy(tail[i].1) ==> Plain(tail[i].1.value) {
        assert tail[i] == fs[i + 1];
      }
      OptsPlain(tail);
      var e := OptEntry(fs[0].0, fs[0].1);
      PlainConcat(e, Opts(tail));
    }
  }

  lemma {:induction false} OptsForeign(fs: seq<(string, Option<string>)>)
    requires forall i :: 0 <= i < |fs| ==> fs[i].0 !in ReadKeys
    ensures Foreign(Opts(fs))
    decreases |fs|
  {
    if fs != [] {
      var tail := fs[1..];
      forall i | 0 <= i < |tail| ensures tail[i].0 !in ReadKeys {
        assert tail[i] == fs[i + 1];
      }
      OptsForeign(tail);
      ForeignConcat(OptEntry(fs[0].0, fs[0].1), Opts(tail));
    }
  }

  lemma {:induction false} PlainConcat(a: seq<Entry>, b: seq<Entry>)
    requires PlainEntries(a) && PlainEntries(b)
    ensures PlainEntries(a + b)
  {
    assert forall i :: 0 <= i < |a + b| ==> (a + b)[i] == if i < |a| then a[i] else b[i - |a|];
  }

  lemma {:induction false} ForeignConcat(a: seq<Entry>, b: seq<Entry>)
    requires Foreign(a) && Foreign(b)
    ensures Foreign(a + b)
  {
    forall i | 0 <= i < |a + b| ensures (a + b)[i].0 !in ReadKeys {
      if i >= |a| { assert (a + b)[i] == b[i - |a|]; }
    }
  }

  /** `isoformat()` gives a plain value. */
  lemma {:induction false} IsoFormatPlain(t: Timestamp)
    requires Valid(t)
    ensures Plain(IsoFormat(t))
  {
    var r := IsoFormat(t);
    IsoFormatChars(t);
    assert forall i :: 0 <= i < |r| ==> StampChar(r[i]);
  }

  /** Every key the reader uses is shorter than eight characters. */
  lemma ReadKeysShort(k: string)
    requires |k| >= 8
    ensures k !in ReadKeys
  {
    assert forall r :: r in ReadKeys ==> |r| < 8;
  }

  lemma {:induction false} LeadPlain(b: Database1C)
    requires TimesValid(b)
    ensures PlainEntries(LeadEntries(b)) && Foreign(LeadEntries(b))
  {
    var recent: seq<Entry> := if b.isRecent then [("IsRecent", "1")] else [];
    var run: seq<Entry> := if b.lastRunTime.Some? then [("LastRunTime", IsoFormat(b.lastRunTime.value))] else [];
    if b.isRecent {
      RecentEntryPlain();
    }
    if b.lastRunTime.Some? {
      RunEntryPlain(b.lastRunTime.value);
    }
    PlainConcat(recent, run);
    ForeignConcat(recent, run);
    assert LeadEntries(b) == recent + run;
  }

  lemma {:induction false} RecentEntryPlain()
    ensures PlainEntries([("IsRecent", "1")]) && Foreign([("IsRecent", "1")])
  {
    LetterKey("IsRecent");
    ReadKeysShort("IsRecent");
    assert "1"[0] == '1';
  }

  lemma {:induction false} RunEntryPlain(t: Timestamp)
    requires Valid(t)
    ensures PlainEntries([("LastRunTime", IsoFormat(t))]) && Foreign([("LastRunTime", IsoFormat(t))])
  {
    LetterKey("LastRunTime");
    ReadKeysShort("LastRunTime");
    IsoFormatPlain(t);
  }

  lemma {:induction false} CorePlain(b: Database1C)
    requires PlainValues(CoreFields(b))
    ensures PlainEntries(Opts(CoreFields(b)))
  {
    FixedKeysPlain();
    OptsPlain(CoreFields(b));
  }

  lemma {:induction false} TailPlain(b: Database1C)
    requires PlainValues(TailFields(b))
    ensures PlainEntries(Opts(TailFields(b))) && Foreign(Opts(TailFields(b)))
  {
    TailKeysPlain();
    OptsPlain(TailFields(b));
    OptsForeign(TailFields(b));
  }

  /** Every entry of a storable base reads back, and those between `Folder` and `App` and after `Version` are foreign to the reader. */
  lemma {:induction false} EntriesPlain(b: Database1C)
    requires Storable(b)
    ensures PlainEntries(Entries(b))
    ensures Foreign(LeadEntries(b)) && Foreign(Opts(TailFields(b)))
  {
    FixedKeysPlain();
    var fixed, lead, core, tail := FixedEntries(b), LeadEntries(b), Opts(CoreFields(b)), Opts(TailFields(b));
    assert PlainEntries(fixed);
    LeadPlain(b);
    CorePlain(b);
    TailPlain(b);
    PlainConcat(fixed, lead);
    PlainConcat(fixed + lead, core);
    PlainConcat(fixed + lead + core, tail);
  }

  /** The section a saved base's lines build. */
  function Section(b: Database1C): map<string, string>
    requires TimesValid(b)
  {
    Apply(HeaderSection(Header(b)), Entries(b))
  }

  /** `App` and `Version` entries, applied to a section holding `ID`, `Connect` and `Folder`, describe the loaded base. */
  lemma {:induction false} CoreLoads(m: map<string, string>, b: Database1C)
    requires "ID" in m && "Connect" in m && "Folder" in m && "App" !in m && "Version" !in m
    requires m["ID"] == b.id && m["Connect"] == b.connect && m["Folder"] == b.folder
    ensures "ID" in Apply(m, Opts(CoreFields(b))) && CreateDatabase(Apply(m, Opts(CoreFields(b)))) == Loaded(b)
  {
    var cf := CoreFields(b);
    var a, v := OptEntry("App", b.app), OptEntry("Version", b.version);
    assert cf[1..][1..] == [];
    assert Opts(cf) == a + Opts(cf[1..]);
    assert Opts(cf[1..]) == v + [];
    ApplyConcat(m, a, v + []);
    var m1 := Apply(m, a);
    assert m1 == if Truthy(b.app) then m["App" := b.app.value] else m;
    assert Apply(m1, v + []) == if Truthy(b.version) then m1["Version" := b.version.value] else m1;
  }

  lemma {:induction false} FixedApplied(h: map<string, string>, b: Database1C)
    ensures Apply(h, FixedEntries(b)) == h["ID" := b.id]["Connect" := b.connect]["Folder" := b.folder]
  {
    var fixed := FixedEntries(b);
    var m1 := h["ID" := b.id];
    var m2 := m1["Connect" := b.connect];
    var m3 := m2["Folder" := b.folder];
    assert fixed[1..] == [("Connect", b.connect), ("Folder", b.folder)];
    assert fixed[1..][1..] == [("Folder", b.folder)];
    assert fixed[1..][1..][1..] == [];
    assert Apply(m3, []) == m3;
    assert Apply(m2, fixed[1..][1..]) == m3;
    assert Apply(m1, fixed[1..]) == m3;
  }

  /** Whatever foreign entries surround `App` and `Version`, a record's section loads as `Loaded(b)`. */
  lemma {:induction false} SectionLoadsOf(h: map<string, string>, b: Database1C, lead: seq<Entry>, tail: seq<Entry>)
    requires h.Keys <= {"ID"} && Foreign(lead) && Foreign(tail)
    ensures var m := Apply(h, FixedEntries(b) + lead + Opts(CoreFields(b)) + tail);
      "ID" in m && CreateDatabase(m) == Loaded(b)
  {
    var fixed, core := FixedEntries(b), Opts(CoreFields(b));
    ApplyConcat(h, fixed + lead + core, tail);
    ApplyConcat(h, fixed + lead, core);
    ApplyConcat(h, fixed, lead);
    FixedApplied(h, b);
    var m1 := h["ID" := b.id]["Connect" := b.connect]["Folder" := b.folder];
    var m2 := Apply(m1, lead);
    ApplyForeign(m1, lead);
    ApplySame(m2, m1, core);
    CoreLoads(m1, b);
    var m3 := Apply(m2, core);
    ApplyForeign(m3, tail);
    SameReadCreates(Apply(m3, tail), Apply(m1, core));
  }

  /** The section a saved base's lines build has an `ID` and describes `Loaded(b)`. */
  lemma {:induction false} SectionLoads(b: Database1C)
    requires Storable(b)
    ensures "ID" in Section(b) && CreateDatabase(Section(b)) == Loaded(b)
  {
    EntriesPlain(b);
    SectionLoadsOf(HeaderSection(Header(b)), b, LeadEntries(b), Opts(TailFields(b)));
  }

  /** A header reads as one: it is bracketed and has no whitespace at either end. */
  lemma {:induction false} HeaderPlain(b: Database1C)
    ensures IsHeader(Header(b)) && Strip(Header(b)) == Header(b)
  {
    var h := Header(b);
    assert h[0] == '[' && h[|h| - 1] == ']';
    StripIdentity(h);
  }

  /** A header has no line break when the name has none. */
  lemma {:induction false} HeaderOneLine(name: string)
    requires OneLine(name)
    ensures OneLine("[" + name + "]")
  {
    OneLineConcat("[", name);
    OneLineConcat("[" + name, "]");
  }

  /** Reading one storable base's lines ends the previous section and opens the base's own. */
  lemma {:induction false} RecordLoads(r: Reader, b: Database1C)
    requires Storable(b)
    ensures Run(r, RecordLines(b)) == Reader(Flush(r.bases, r.current), Section(b))
  {
    HeaderPlain(b);
    EntriesPlain(b);
    RecordRead(r, Header(b), Entries(b));
  }

  /** Reading one storable base's lines, then flushing, adds exactly `Loaded(b)`. */
  lemma {:induction false} RecordFlushes(r: Reader, b: Database1C)
    requires Storable(b)
    ensures var r1 := Run(r, RecordLines(b)); Flush(r1.bases, r1.current) == Flush(r.bases, r.current) + [Loaded(b)]
  {
    RecordLoads(r, b);
    SectionLoads(b);
  }

  predicate AllStorable(items: seq<Database1C>) {
    forall i :: 0 <= i < |items| ==> Storable(items[i])
  }

  lemma {:induction false} AllStorableCons(items: seq<Database1C>)
    requires AllStorable(items) && items != []
    ensures Storable(items[0]) && AllStorable(items[1..]) && AllTimesValid(items)
  {
    assert forall i :: 0 <= i < |items[1..]| ==> items[1..][i] == items[i + 1];
  }

  lemma {:induction false} LoadedAllCons(items: seq<Database1C>)
    requires items != []
    ensures LoadedAll(items) == [Loaded(items[0])] + LoadedAll(items[1..])
  {
    var r, q := LoadedAll(items), [Loaded(items[0])] + LoadedAll(items[1..]);
    forall i | 0 <= i < |r| ensures r[i] == q[i] {
      if i > 0 {
        assert q[i] == LoadedAll(items[1..])[i - 1];
        assert items[1..][i - 1] == items[i];
      }
    }
    assert r == q;
  }

  /** Reading the lines of saved bases yields, after the final flush, one loaded base per saved base, in order. */
  lemma {:induction false} FileRead(r: Reader, items: seq<Database1C>)
    requires AllStorable(items)
    ensures AllTimesValid(items)
    ensures var s := Run(r, FileLines(items)); Flush(s.bases, s.current) == Flush(r.bases, r.current) + LoadedAll(items)
    decreases |items|
  {
    if items == [] {
      assert LoadedAll(items) == [];
    } else {
      var b := items[0];
      var rest := items[1..];
      AllStorableCons(items);
      RecordFlushes(r, b);
      var r1 := Run(r, RecordLines(b));
      FileRead(r1, rest);
      RunConcat(r, RecordLines(b), FileLines(rest));
      LoadedAllCons(items);
      AppendAssoc(Flush(r.bases, r.current), [Loaded(b)], LoadedAll(rest));
    }
  }

  /** Lines without line breaks, each followed by `\n`, read back as themselves and a last empty piece. */
  lemma {:induction false} TextLinesTerminated(lines: seq<string>)
    requires AllOneLine(lines)
    ensures TextLines(Terminated(lines)) == lines + [""]
    decreases |lines|
  {
    if lines == [] {
      assert FindLineEnd("").None?;
    } else {
      var x := lines[0];
      assert Terminated(lines) == x + "\n" + Terminated(lines[1..]);
      TextLinesCons(x, Terminated(lines[1..]));
      TextLinesTerminated(lines[1..]);
      assert lines + [""] == [x] + (lines[1..] + [""]);
    }
  }

  /** No line of a record holds a line break when its header and entries have none. */
  lemma {:induction false} RecordOneLineOf(h: string, es: seq<Entry>)
    requires OneLine(h) && PlainEntries(es)
    ensures AllOneLine([h] + EntryLines(es) + [""])
  {
    forall i | 0 <= i < |es| ensures OneLine(EntryLine(es[i])) {
      assert PlainKey(es[i].0) && Plain(es[i].1);
      OneLineConcat(es[i].0, "=");
      OneLineConcat(es[i].0 + "=", es[i].1);
    }
    var lines := [h] + EntryLines(es) + [""];
    assert forall i :: 0 <= i < |lines| ==> lines[i] == if i == 0 then h else if i <= |es| then EntryLine(es[i - 1]) else "";
  }

  /** No line of a storable base's record holds a line break. */
  lemma {:induction false} RecordOneLine(b: Database1C)
    requires Storable(b)
    ensures AllOneLine(RecordLines(b))
  {
    HeaderOneLine(b.name);
    EntriesPlain(b);
    RecordOneLineOf(Header(b), Entries(b));
  }

  predicate AllOneLine(lines: seq<string>) {
    forall i :: 0 <= i < |lines| ==> OneLine(lines[i])
  }

  lemma {:induction false} AllOneLineConcat(a: seq<string>, b: seq<string>)
    requires AllOneLine(a) && AllOneLine(b)
    ensures AllOneLine(a + b)
  {
    assert forall i :: 0 <= i < |a + b| ==> (a + b)[i] == if i < |a| then a[i] else b[i - |a|];
  }

  /** No line of the saved file holds a line break. */
  lemma {:induction false} FileLinesOneLine(items: seq<Database1C>)
    requires AllStorable(items)
    ensures AllTimesValid(items)
    ensures AllOneLine(FileLines(items))
    decreases |items|
  {
    if items != [] {
      AllStorableCons(items);
      FileLinesOneLine(items[1..]);
      RecordOneLine(items[0]);
      AllOneLineConcat(RecordLines(items[0]), FileLines(items[1..]));
    }
  }

  /**
   * Saving and then loading gives back, for every saved base in order, its
   * ID, connection string and folder unchanged, and its app and version when
   * they were set; the name becomes the folder, and every other field its
   * default.
   */
  lemma {:induction false} SaveLoadRoundTrip(items: seq<Database1C>)
    requires AllStorable(items)
    ensures AllTimesValid(items)
    ensures ReadResult(Some(TextLines(FileText(items)))) == LoadedAll(items)
  {
    FileLinesOneLine(items);
    ReadTerminated(FileLines(items));
    var r0 := Reader([], map[]);
    FileRead(r0, items);
    assert Flush(r0.bases, r0.current) == [];
    assert [] + LoadedAll(items) == LoadedAll(items);
  }

  /** Reading the text of line-break-free lines, each terminated, is running the reader over those lines. */
  lemma {:induction false} ReadTerminated(lines: seq<string>)
    requires AllOneLine(lines)
    ensures var s := Run(Reader([], map[]), lines);
      ReadResult(Some(TextLines(Terminated(lines)))) == Flush(s.bases, s.current)
  {
    TextLinesTerminated(lines);
    RunTrailingBlank(Reader([], map[]), lines);
  }

  /** The empty piece after the last line break is read as a blank line. */
  lemma {:induction false} RunTrailingBlank(r: Reader, lines: seq<string>)
    ensures Run(r, lines + [""]) == Run(r, lines)
  {
    var none: seq<string> := [];
    RunSkipsBlank(r, lines, "", none);
    assert lines + [""] + none == lines + [""];
    assert lines + none == lines;
  }

  /** The round trip field by field. */
  lemma {:induction false} SaveLoadFields(items: seq<Database1C>, i: nat)
    requires AllStorable(items)
    requires i < |items|
    ensures AllTimesValid(items)
    ensures var r := ReadResult(Some(TextLines(FileText(items))));
      |r| == |items|
      && r[i].id == items[i].id && r[i].connect == items[i].connect && r[i].folder == items[i].folder
      && r[i].name == items[i].folder
      && (Truthy(items[i].app) ==> r[i].app == items[i].app) && (!Truthy(items[i].app) ==> r[i].app.None?)
      && (Truthy(items[i].version) ==> r[i].version == items[i].version) && (!Truthy(items[i].version) ==> r[i].version.None?)
  {
    SaveLoadRoundTrip(items);
  }

  /** A record starts with its header and the three fixed entries and ends with a blank line. */
  lemma {:induction false} RecordLayout(b: Database1C)
    requires TimesValid(b)
    ensures var r := RecordLines(b);
      |r| >= 5 && r[0] == "[" + b.name + "]" && r[|r| - 1] == ""
      && r[1] == "ID=" + b.id && r[2] == "Connect=" + b.connect && r[3] == "Folder=" + b.folder
  {
    var fixed, lead, core, tail := FixedEntries(b), LeadEntries(b), Opts(CoreFields(b)), Opts(TailFields(b));
    var es := Entries(b);
    assert es == fixed + lead + core + tail;
    HeadOfFour(fixed, lead, core, tail);
    LinesLayout(Header(b), es);
    FixedLines(b.id, b.connect, b.folder);
  }

  lemma {:induction false} HeadOfFour<T>(a: seq<T>, b: seq<T>, c: seq<T>, d: seq<T>)
    ensures |a + b + c + d| >= |a| && forall i :: 0 <= i < |a| ==> (a + b + c + d)[i] == a[i]
  {
  }

  lemma {:induction false} LinesLayout(h: string, es: seq<Entry>)
    requires |es| >= 3
    ensures var r := [h] + EntryLines(es) + [""];
      |r| >= 5 && r[0] == h && r[|r| - 1] == ""
      && r[1] == EntryLine(es[0]) && r[2] == EntryLine(es[1]) && r[3] == EntryLine(es[2])
  {
  }

  /** The lines of the three fixed entries. */
  lemma {:induction false} FixedLines(id: string, connect: string, folder: string)
    ensures EntryLine(("ID", id)) == "ID=" + id
    ensures EntryLine(("Connect", connect)) == "Connect=" + connect
    ensures EntryLine(("Folder", folder)) == "Folder=" + folder
  {
    assert "ID" + "=" == "ID=";
    assert "Connect" + "=" == "Connect=";
    assert "Folder" + "=" == "Folder=";
  }

  lemma {:induction false} OptsHas(fs: seq<(string, Option<string>)>, i: nat)
    requires i < |fs| && Truthy(fs[i].1)
    ensures (fs[i].0, fs[i].1.value) in Opts(fs)
    decreases i
  {
    if i > 0 {
      assert fs[1..][i - 1] == fs[i];
      OptsHas(fs[1..], i - 1);
    }
  }

  lemma {:induction false} EntryInRecord(b: Database1C, e: Entry)
    requires TimesValid(b) && e in Entries(b)
    ensures EntryLine(e) in RecordLines(b)
  {
    EntryInLines(Header(b), Entries(b), e);
  }

  lemma {:induction false} EntryInLines(h: string, es: seq<Entry>, e: Entry)
    requires e in es
    ensures EntryLine(e) in [h] + EntryLines(es) + [""]
  {
    var k :| 0 <= k < |es| && es[k] == e;
    var lines := [h] + EntryLines(es) + [""];
    assert lines[k + 1] == EntryLines(es)[k];
  }

  /** Every field after `Version` that is set is written as its `key=value` line. */
  lemma {:induction false} TailWritten(b: Database1C, i: nat)
    requires TimesValid(b) && i < |TailKeys| && Truthy(TailFields(b)[i].1)
    ensures TailKeys[i] + "=" + TailFields(b)[i].1.value in RecordLines(b)
  {
    var tf := TailFields(b);
    OptsHas(tf, i);
    var e := (tf[i].0, tf[i].1.value);
    var fixed, lead, core, tail := FixedEntries(b), LeadEntries(b), Opts(CoreFields(b)), Opts(tf);
    assert e in tail;
    assert e in fixed + lead + core + tail;
    EntryInRecord(b, e);
  }

  /** `OrderInTree` is written whenever it is set, 0 included. */
  lemma {:induction false} OrderInTreeWritten(b: Database1C)
    requires TimesValid(b) && b.orderInTree.Some?
    ensures "OrderInTree=" + IntToString(b.orderInTree.value) in RecordLines(b)
  {
    var v := IntToString(b.orderInTree.value);
    OrderInTreeField(b);
    assert v != [];
    TailWritten(b, 2);
    assert TailKeys[2] == "OrderInTree";
    OrderInTreeLine(v);
  }

  lemma {:induction false} OrderInTreeField(b: Database1C)
    ensures TailFields(b)[2] == ("OrderInTree", if b.orderInTree.Some? then Some(IntToString(b.orderInTree.value)) else None)
  {
  }

  lemma {:induction false} OrderInTreeLine(v: string)
    ensures "OrderInTree" + "=" + v == "OrderInTree=" + v
  {
    assert "OrderInTree" + "=" == "OrderInTree=";
  }

  /** An order of 0 is still written. */
  lemma {:induction false} OrderInTreeZeroWritten(b: Database1C)
    requires TimesValid(b) && b.orderInTree == Some(0)
    ensures "OrderInTree=0" in RecordLines(b)
  {
    OrderInTreeWritten(b);
    assert DigitChar(0) == '0';
    assert NatToString(0) == ['0'];
    assert IntToString(0) == "0";
    var line := "OrderInTree=" + IntToString(b.orderInTree.value);
    assert forall j :: 0 <= j < 13 ==> line[j] == "OrderInTree=0"[j];
    assert line == "OrderInTree=0";
  }
}

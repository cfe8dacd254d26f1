/**
 * The base record `Database1C` and the shared list of bases.
 *
 * `Database1C` is a dataclass whose generated `==` compares its declared
 * fields. The record below has the fields the callers construct and read
 * (21 of them); its equality compares all of them.
 */
module Models {
  import opened Wrappers
  import opened Strings
  import opened Timestamps

  /**
   * One information base. The first six fields are the ones the reader
   * fills; the rest are kept by the GUI and written back by the serialiser.
   */
  datatype Database1C = Database1C(
    id: string,
    name: string,
    folder: string,
    connect: string,
    app: Option<string>,
    version: Option<string>,
    appArch: Option<string>,
    clientType: Option<string>,
    orderInTree: Option<int>,
    usr: Option<string>,
    pwd: Option<string>,
    originalFolder: Option<string>,
    isRecent: bool,
    lastRunTime: Option<Timestamp>,
    usrEnterprise: Option<string>,
    pwdEnterprise: Option<string>,
    usrConfigurator: Option<string>,
    pwdConfigurator: Option<string>,
    usrStorage: Option<string>,
    pwdStorage: Option<string>,
    storagePath: Option<string>)

  /** A record built from the six constructor arguments the reader passes; the fields the callers add later start empty. */
  function NewDatabase(id: string, name: string, folder: string, connect: string, app: Option<string>, version: Option<string>): (r: Database1C)
    ensures r.id == id && r.name == name && r.folder == folder && r.connect == connect
    ensures r.app == app && r.version == version
    ensures !r.isRecent && r.lastRunTime.None? && r.originalFolder.None? && r.orderInTree.None?
    ensures !Truthy(r.usr) && !Truthy(r.pwd) && !Truthy(r.appArch) && !Truthy(r.clientType)
  {
    Database1C(id, name, folder, connect, app, version, None, None, None, None, None, None,
      false, None, None, None, None, None, None, None, None)
  }

  /** Python truthiness of an optional string: present and not empty. */
  predicate Truthy(s: Option<string>) {
    s.Some? && s.value != ""
  }

  /** Python's `a or b` on optional strings. */
  function Or(a: Option<string>, b: Option<string>): (r: Option<string>)
    ensures Truthy(a) ==> r == a
    ensures !Truthy(a) ==> r == b
    ensures Truthy(r) <==> Truthy(a) || Truthy(b)
  {
    if Truthy(a) then a else b
  }

  /** `str(db)`: the name followed by the folder in parentheses. */
  function Display(db: Database1C): (r: string)
    ensures |r| == |db.name| + |db.folder| + 3
    ensures r[..|db.name|] == db.name
    ensures r[|db.name|..|db.name| + 2] == " ("
    ensures r[|db.name| + 2..|r| - 1] == db.folder
    ensures r[|r| - 1] == ')'
  {
    db.name + " (" + db.folder + ")"
  }

  /** Two records with names of the same length show the same text only when name and folder agree. */
  lemma DisplayInjective(a: Database1C, b: Database1C)
    requires |a.name| == |b.name| && Display(a) == Display(b)
    ensures a.name == b.name && a.folder == b.folder
  {
    var r := Display(a);
    assert a.folder == r[|a.name| + 2..|r| - 1];
  }

  const FileKind: string := "Файловая"
  const ServerKind: string := "Клиент-серверная"
  const UnknownKind: string := "Неизвестно"

  /** `get_connection_type`: file bases first, then client-server bases, otherwise unknown. */
  function ConnectionType(connect: string): (r: string)
    ensures r == FileKind <==> Contains(connect, "File=")
    ensures r == ServerKind <==> !Contains(connect, "File=") && Contains(connect, "Srvr=")
    ensures r == UnknownKind <==> !Contains(connect, "File=") && !Contains(connect, "Srvr=")
  {
    if Contains(connect, "File=") then FileKind
    else if Contains(connect, "Srvr=") then ServerKind
    else UnknownKind
  }

  /** The list of bases that the window, the actions and the operations all hold by reference. */
  class BaseList {
    var items: seq<Database1C>

    constructor (items: seq<Database1C>)
      ensures this.items == items
    {
      this.items := items;
    }
  }

  /** Index of the first record equal to `db`, which is the element `list.index` and `list.remove` find. */
  function IndexOf(items: seq<Database1C>, db: Database1C): (r: Option<nat>)
    ensures r.Some? <==> db in items
    ensures r.Some? ==> r.value < |items| && items[r.value] == db && db !in items[..r.value]
    decreases |items|
  {
    if items == [] then None
    else if items[0] == db then Some(0)
    else match IndexOf(items[1..], db)
      case None => None
      case Some(k) => (assert items[..k + 1] == [items[0]] + items[1..][..k]; Some(k + 1))
  }

  /** `list.remove(db)` for a record that is in the list: its first occurrence is dropped. */
  function RemoveFirst(items: seq<Database1C>, db: Database1C): (r: seq<Database1C>)
    requires db in items
    ensures |r| == |items| - 1
    ensures var k := IndexOf(items, db).value; r == items[..k] + items[k + 1..]
  {
    var k := IndexOf(items, db).value;
    items[..k] + items[k + 1..]
  }
}

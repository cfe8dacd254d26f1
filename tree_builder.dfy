/**
 * `TreeBuilder`: the bases of the list as a folder tree. Recent bases go
 * under one `Недавние` group in list order; the other bases are grouped by
 * the first segment of their folder path into sorted root folders, and each
 * folder holds its sorted subfolders followed by the bases that sit in it
 * directly. The older window (`_add_bases_to_folder` and the tree part of
 * `load_bases`) builds the same tree.
 *
 * `get_full_version`, which fills a base row's third cell, is not defined in
 * the record class; its value is the parameter `fv`.
 */
module TreeBuilder {
  import opened Wrappers
  import opened Strings
  import opened Models
  import opened TreeModel

  /** `s.split("/", 1)[0]`, which is also `s.split("/")[0]`: the text before the first slash, or all of `s`. */
  function Segment(s: string): (r: string)
    ensures forall j :: 0 <= j < |r| ==> r[j] != '/'
    ensures r == s || (|r| < |s| && s[|r|] == '/' && s[..|r|] == r)
  {
    if HasChar(s, '/') then
      var p := SplitFirst(s, '/');
      assert s[..|p.0|] == p.0 && s[|p.0|] == '/';
      p.0
    else s
  }

  /** `base.folder == "/" + folder_path`: the base sits directly in the folder. */
  predicate IsDirect(db: Database1C, path: string) {
    db.folder == "/" + path
  }

  /** The `elif` branch: the base sits further down, under `"/" + folder_path + "/"`. */
  predicate IsBelow(db: Database1C, path: string) {
    !IsDirect(db, path) && StartsWith(db.folder, "/" + path + "/")
  }

  /** A folder string that is the folder at `path` or lies under it. */
  predicate IsUnder(f: string, path: string) {
    f == "/" + path || StartsWith(f, "/" + path + "/")
  }

  /** The subfolder a lower base is filed under: the first segment after `"/" + path + "/"`. */
  function SubKey(db: Database1C, path: string): string {
    if IsBelow(db, path) then Segment(db.folder[|path| + 2..]) else ""
  }

  function SubKeyOf(path: string): Database1C -> string {
    db => SubKey(db, path)
  }

  /** The bases that sit directly in the folder, in list order. */
  function DirectOf(path: string, bases: seq<Database1C>): seq<Database1C>
    decreases |bases|
  {
    if bases == [] then []
    else
      var last := bases[|bases| - 1];
      DirectOf(path, bases[..|bases| - 1]) + (if IsDirect(last, path) then [last] else [])
  }

  /** The bases that sit further down, in list order. */
  function BelowOf(path: string, bases: seq<Database1C>): seq<Database1C>
    decreases |bases|
  {
    if bases == [] then []
    else
      var last := bases[|bases| - 1];
      BelowOf(path, bases[..|bases| - 1]) + (if IsBelow(last, path) then [last] else [])
  }

  /** The bases in the folder or under it, in list order. */
  function UnderOf(path: string, bases: seq<Database1C>): seq<Database1C>
    decreases |bases|
  {
    if bases == [] then []
    else
      var last := bases[|bases| - 1];
      UnderOf(path, bases[..|bases| - 1]) + (if IsUnder(last.folder, path) then [last] else [])
  }

  /** The elements whose key is `name`, in order: one `defaultdict(list)` bucket. */
  function Group<T>(xs: seq<T>, key: T -> string, name: string): seq<T>
    decreases |xs|
  {
    if xs == [] then []
    else
      var last := xs[|xs| - 1];
      Group(xs[..|xs| - 1], key, name) + (if key(last) == name then [last] else [])
  }

  /** The key of every element, in order. */
  function KeysOf<T>(xs: seq<T>, key: T -> string): seq<string>
    decreases |xs|
  {
    if xs == [] then [] else KeysOf(xs[..|xs| - 1], key) + [key(xs[|xs| - 1])]
  }

  /** All elements of the buckets named in `names`. */
  function GroupsUnion<T>(xs: seq<T>, key: T -> string, names: seq<string>): multiset<T>
    decreases |names|
  {
    if names == [] then multiset{}
    else GroupsUnion(xs, key, names[..|names| - 1]) + multiset(Group(xs, key, names[|names| - 1]))
  }

  /** The bucket of subfolder `name` under `path`. */
  function Bucket(path: string, bases: seq<Database1C>, name: string): seq<Database1C> {
    Group(BelowOf(path, bases), SubKeyOf(path), name)
  }

  /** The subfolder names under `path`. */
  function SubKeys(path: string, bases: seq<Database1C>): seq<string> {
    KeysOf(BelowOf(path, bases), SubKeyOf(path))
  }

  /** `sorted(subfolders.keys())`. */
  function SubNames(path: string, bases: seq<Database1C>): seq<string> {
    SortAsc(Dedup(SubKeys(path, bases)))
  }

  /** The longest folder string in the list; the recursion's measure is how far it reaches past the path. */
  function MaxFolder(bases: seq<Database1C>): nat
    decreases |bases|
  {
    if bases == [] then 0
    else
      var m := MaxFolder(bases[..|bases| - 1]);
      var n := |bases[|bases| - 1].folder|;
      if n > m then n else m
  }

  function Slack(path: string, bases: seq<Database1C>): nat {
    if MaxFolder(bases) > |path| then MaxFolder(bases) - |path| else 0
  }

  /** A folder row: the name and two empty cells, no data. */
  function FolderRow(name: string, children: seq<Row>): Row {
    Row([name, "", ""], NoData, true, children)
  }

  /** A base row: name, connection string and version, with the base stored on the first cell. */
  function BaseRow(db: Database1C, fv: Database1C -> string): Row {
    Row([db.name, db.connect, fv(db)], BaseData(db), true, [])
  }

  /** One base row per base, in order. */
  function BaseRows(ds: seq<Database1C>, fv: Database1C -> string): (r: seq<Row>)
    ensures |r| == |ds| && forall i :: 0 <= i < |ds| ==> r[i] == BaseRow(ds[i], fv)
    decreases |ds|
  {
    if ds == [] then [] else BaseRows(ds[..|ds| - 1], fv) + [BaseRow(ds[|ds| - 1], fv)]
  }

  /** What `add_bases_to_folder` appends under the folder at `path`: the sorted subfolders, then the direct bases. */
  function Children(path: string, bases: seq<Database1C>, fv: Database1C -> string): seq<Row>
    decreases Slack(path, bases), 1, 0
  {
    SubNamesAreKeys(path, bases);
    FolderRows(path, bases, SubNames(path, bases), fv) + BaseRows(DirectOf(path, bases), fv)
  }

  /** The subfolder rows for `names`, each filled recursively from its bucket. */
  function FolderRows(path: string, bases: seq<Database1C>, names: seq<string>, fv: Database1C -> string): seq<Row>
    requires forall n :: n in names ==> n in SubKeys(path, bases)
    decreases Slack(path, bases), 0, |names|
  {
    if names == [] then []
    else
      var n := names[|names| - 1];
      BucketSlack(path, bases, n);
      FolderRows(path, bases, names[..|names| - 1], fv) + [FolderRow(n, Children(path + "/" + n, Bucket(path, bases, n), fv))]
  }

  /** One more subfolder row, for the next name. */
  lemma {:induction false} FolderRowsStep(path: string, bases: seq<Database1C>, names: seq<string>, j: nat,
                                          fv: Database1C -> string)
    requires forall n :: n in names ==> n in SubKeys(path, bases)
    requires j < |names|
    ensures names[j] in SubKeys(path, bases) && forall n :: n in names[..j + 1] ==> n in SubKeys(path, bases)
    ensures FolderRows(path, bases, names[..j + 1], fv)
      == FolderRows(path, bases, names[..j], fv) + [FolderRow(names[j], Children(path + "/" + names[j], Bucket(path, bases, names[j]), fv))]
  {
    var front := names[..j + 1];
    assert front[..|front| - 1] == names[..j] && front[|front| - 1] == names[j];
  }

  lemma SubNamesAreKeys(path: string, bases: seq<Database1C>)
    ensures forall n :: n in SubNames(path, bases) <==> n in SubKeys(path, bases)
    ensures var r := SubNames(path, bases); forall i, j :: 0 <= i < j < |r| ==> r[i] != r[j]
  {
    SortedDistinctAsc(SubKeys(path, bases));
  }

  /** Each recursive call reaches less far past its path: the bucket is part of the list, and its path is longer. */
  lemma BucketSlack(path: string, bases: seq<Database1C>, n: string)
    requires n in SubKeys(path, bases)
    ensures Slack(path + "/" + n, Bucket(path, bases, n)) < Slack(path, bases)
  {
    var below := BelowOf(path, bases);
    var i := KeysOfWitness(below, SubKeyOf(path), n);
    var db := below[i];
    BelowOfMembers(path, bases, db);
    assert IsBelow(db, path);
    var rel := db.folder[|path| + 2..];
    assert |Segment(rel)| <= |rel|;
    GroupHas(below, SubKeyOf(path), i);
    var bucket := Bucket(path, bases, n);
    var k := IndexIn(bucket, db);
    MaxFolderUpper(bucket, k);
    forall j | 0 <= j < |bucket|
      ensures |bucket[j].folder| <= MaxFolder(bases)
    {
      GroupMembers(below, SubKeyOf(path), n, j);
      BelowOfMembers(path, bases, bucket[j]);
      var m := IndexIn(bases, bucket[j]);
      MaxFolderUpper(bases, m);
    }
    MaxFolderBound(bucket, MaxFolder(bases));
  }

  ghost function IndexIn<T>(xs: seq<T>, x: T): (i: nat)
    requires x in xs
    ensures i < |xs| && xs[i] == x
  {
    var i :| 0 <= i < |xs| && xs[i] == x; i
  }

  lemma {:induction false} MaxFolderUpper(bases: seq<Database1C>, i: nat)
    requires i < |bases|
    ensures |bases[i].folder| <= MaxFolder(bases)
    decreases |bases|
  {
    if i < |bases| - 1 {
      MaxFolderUpper(bases[..|bases| - 1], i);
    }
  }

  lemma {:induction false} MaxFolderBound(bases: seq<Database1C>, m: nat)
    requires forall i :: 0 <= i < |bases| ==> |bases[i].folder| <= m
    ensures MaxFolder(bases) <= m
    decreases |bases|
  {
    if bases != [] {
      MaxFolderBound(bases[..|bases| - 1], m);
    }
  }

  // Facts about the generic grouping.

  lemma GroupSnoc<T>(xs: seq<T>, x: T, key: T -> string, name: string)
    ensures Group(xs + [x], key, name) == Group(xs, key, name) + (if key(x) == name then [x] else [])
    ensures KeysOf(xs + [x], key) == KeysOf(xs, key) + [key(x)]
  {
    assert (xs + [x])[..|xs|] == xs;
  }

  lemma {:induction false} GroupMembers<T>(xs: seq<T>, key: T -> string, name: string, j: nat)
    requires j < |Group(xs, key, name)|
    ensures Group(xs, key, name)[j] in xs && key(Group(xs, key, name)[j]) == name
    decreases |xs|
  {
    var init := xs[..|xs| - 1];
    if j < |Group(init, key, name)| {
      GroupMembers(init, key, name, j);
      assert forall y :: y in init ==> y in xs;
    }
  }

  lemma {:induction false} GroupHas<T>(xs: seq<T>, key: T -> string, i: nat)
    requires i < |xs|
    ensures xs[i] in Group(xs, key, key(xs[i]))
    decreases |xs|
  {
    if i < |xs| - 1 {
      var init := xs[..|xs| - 1];
      GroupHas(init, key, i);
      assert init[i] == xs[i];
    }
  }

  lemma {:induction false} KeysOfHas<T>(xs: seq<T>, key: T -> string, i: nat)
    requires i < |xs|
    ensures key(xs[i]) in KeysOf(xs, key)
    decreases |xs|
  {
    if i < |xs| - 1 {
      var init := xs[..|xs| - 1];
      KeysOfHas(init, key, i);
      assert init[i] == xs[i];
    }
  }

  lemma {:induction false} KeysOfWitness<T>(xs: seq<T>, key: T -> string, name: string) returns (i: nat)
    requires name in KeysOf(xs, key)
    ensures i < |xs| && key(xs[i]) == name
    decreases |xs|
  {
    var init := xs[..|xs| - 1];
    if key(xs[|xs| - 1]) == name {
      i := |xs| - 1;
    } else {
      i := KeysOfWitness(init, key, name);
      assert init[i] == xs[i];
    }
  }

  lemma {:induction false} GroupEmpty<T>(xs: seq<T>, key: T -> string, name: string)
    requires name !in KeysOf(xs, key)
    ensures Group(xs, key, name) == []
    decreases |xs|
  {
    if xs != [] {
      GroupEmpty(xs[..|xs| - 1], key, name);
    }
  }

  /** Adding one element adds it to the union exactly when its bucket is named once among distinct names. */
  lemma {:induction false} UnionSnoc<T>(xs: seq<T>, x: T, key: T -> string, names: seq<string>)
    requires forall i, j :: 0 <= i < j < |names| ==> names[i] != names[j]
    ensures GroupsUnion(xs + [x], key, names)
      == GroupsUnion(xs, key, names) + (if key(x) in names then multiset{x} else multiset{})
    decreases |names|
  {
    if names != [] {
      var init := names[..|names| - 1];
      var n := names[|names| - 1];
      UnionSnoc(xs, x, key, init);
      GroupSnoc(xs, x, key, n);
      var a, b := GroupsUnion(xs, key, init), multiset(Group(xs, key, n));
      var e: multiset<T> := if key(x) in init then multiset{x} else multiset{};
      var f: multiset<T> := if key(x) == n then multiset{x} else multiset{};
      assert multiset(Group(xs + [x], key, n)) == b + f;
      assert GroupsUnion(xs + [x], key, names) == (a + e) + (b + f);
      assert key(x) in names <==> key(x) in init || key(x) == n;
      if key(x) == n {
        assert key(x) !in init;
      }
      assert e + f == if key(x) in names then multiset{x} else multiset{};
      assert GroupsUnion(xs, key, names) == a + b;
      MultisetRegroup(a, e, b, f);
    }
  }

  lemma MultisetRegroup<T>(a: multiset<T>, e: multiset<T>, b: multiset<T>, f: multiset<T>)
    ensures (a + e) + (b + f) == (a + b) + (e + f)
  {
  }

  /** The buckets of distinct names that cover every key hold every element exactly once. */
  lemma {:induction false} Partition<T>(xs: seq<T>, key: T -> string, names: seq<string>)
    requires forall i, j :: 0 <= i < j < |names| ==> names[i] != names[j]
    requires forall i :: 0 <= i < |xs| ==> key(xs[i]) in names
    ensures GroupsUnion(xs, key, names) == multiset(xs)
    decreases |xs|
  {
    if xs == [] {
      GroupsUnionEmpty(key, names);
    } else {
      var init := xs[..|xs| - 1];
      var x := xs[|xs| - 1];
      assert init + [x] == xs;
      Partition(init, key, names);
      UnionSnoc(init, x, key, names);
    }
  }

  lemma {:induction false} GroupsUnionEmpty<T>(key: T -> string, names: seq<string>)
    ensures GroupsUnion([], key, names) == multiset{}
    decreases |names|
  {
    if names != [] {
      GroupsUnionEmpty(key, names[..|names| - 1]);
    }
  }

  // Facts about the folder filters.

  lemma FiltersSnoc(path: string, xs: seq<Database1C>, b: Database1C)
    ensures DirectOf(path, xs + [b]) == DirectOf(path, xs) + (if IsDirect(b, path) then [b] else [])
    ensures BelowOf(path, xs + [b]) == BelowOf(path, xs) + (if IsBelow(b, path) then [b] else [])
    ensures UnderOf(path, xs + [b]) == UnderOf(path, xs) + (if IsUnder(b.folder, path) then [b] else [])
  {
    assert (xs + [b])[..|xs|] == xs;
  }

  lemma {:induction false} BelowOfMembers(path: string, bases: seq<Database1C>, db: Database1C)
    ensures db in BelowOf(path, bases) <==> db in bases && IsBelow(db, path)
    decreases |bases|
  {
    if bases != [] {
      var init := bases[..|bases| - 1];
      BelowOfMembers(path, init, db);
      DropLast(bases);
    }
  }

  lemma {:induction false} DirectOfMembers(path: string, bases: seq<Database1C>, db: Database1C)
    ensures db in DirectOf(path, bases) <==> db in bases && IsDirect(db, path)
    decreases |bases|
  {
    if bases != [] {
      var init := bases[..|bases| - 1];
      DirectOfMembers(path, init, db);
      DropLast(bases);
    }
  }

  /** Being in or under the folder splits into sitting directly in it or further down. */
  lemma {:induction false} UnderSplit(path: string, bases: seq<Database1C>)
    ensures multiset(UnderOf(path, bases)) == multiset(DirectOf(path, bases)) + multiset(BelowOf(path, bases))
    decreases |bases|
  {
    if bases != [] {
      var last := bases[|bases| - 1];
      UnderSplit(path, bases[..|bases| - 1]);
      assert IsUnder(last.folder, path) <==> IsDirect(last, path) || IsBelow(last, path);
    }
  }

  /** A base filed under subfolder `n` lies in or under the folder at `path + "/" + n`. */
  lemma SegmentUnder(f: string, path: string, n: string)
    requires StartsWith(f, "/" + path + "/") && n == Segment(f[|path| + 2..])
    ensures IsUnder(f, path + "/" + n)
  {
    var p := "/" + path + "/";
    var rel := f[|p|..];
    assert f == p + rel;
    var q := "/" + (path + "/" + n);
    assert p + n == q;
    if rel == n {
      assert f == q;
    } else {
      assert rel[..|n|] == n && rel[|n|] == '/';
      assert f[..|q| + 1] == q + "/" by {
        assert f[..|q| + 1] == p + rel[..|n| + 1];
        assert rel[..|n| + 1] == n + "/";
      }
    }
  }

  /** Every base in a bucket lies in or under its subfolder. */
  lemma {:induction false} BucketAllUnder(path: string, bases: seq<Database1C>, n: string)
    ensures UnderOf(path + "/" + n, Bucket(path, bases, n)) == Bucket(path, bases, n)
  {
    var bucket := Bucket(path, bases, n);
    forall j | 0 <= j < |bucket|
      ensures IsUnder(bucket[j].folder, path + "/" + n)
    {
      GroupMembers(BelowOf(path, bases), SubKeyOf(path), n, j);
      BelowOfMembers(path, bases, bucket[j]);
      SegmentUnder(bucket[j].folder, path, n);
    }
    AllUnder(path + "/" + n, bucket);
  }

  lemma {:induction false} AllUnder(path: string, xs: seq<Database1C>)
    requires forall j :: 0 <= j < |xs| ==> IsUnder(xs[j].folder, path)
    ensures UnderOf(path, xs) == xs
    decreases |xs|
  {
    if xs != [] {
      AllUnder(path, xs[..|xs| - 1]);
    }
  }

  // How many times a base is shown by a list of rows, at any depth.

  /** 1 when the row stores `db`, else 0. */
  function Own(r: Row, db: Database1C): nat {
    if r.data == BaseData(db) then 1 else 0
  }

  function Shown(rows: seq<Row>, db: Database1C): nat
    decreases rows
  {
    if rows == [] then 0
    else
      var last := rows[|rows| - 1];
      Shown(rows[..|rows| - 1], db) + Own(last, db) + Shown(last.children, db)
  }

  lemma {:induction false} ShownConcat(a: seq<Row>, b: seq<Row>, db: Database1C)
    ensures Shown(a + b, db) == Shown(a, db) + Shown(b, db)
    decreases |b|
  {
    if b == [] {
      assert a + b == a;
    } else {
      var b0 := b[..|b| - 1];
      var ab := a + b;
      ShownConcat(a, b0, db);
      assert ab[..|ab| - 1] == a + b0;
      assert ab[|ab| - 1] == b[|b| - 1];
    }
  }

  lemma {:induction false} ShownBaseRows(ds: seq<Database1C>, fv: Database1C -> string, db: Database1C)
    ensures Shown(BaseRows(ds, fv), db) == multiset(ds)[db]
    decreases |ds|
  {
    if ds != [] {
      var init := ds[..|ds| - 1];
      ShownBaseRows(init, fv, db);
      var rows := BaseRows(ds, fv);
      assert rows[..|rows| - 1] == BaseRows(init, fv);
      DropLast(ds);
    }
  }

  /**
   * Every base of the list that lies in or under the folder at `path` is
   * shown below it as often as it occurs in the list, and no other base is
   * shown at all.
   */
  lemma {:induction false} ShownChildren(path: string, bases: seq<Database1C>, fv: Database1C -> string, db: Database1C)
    ensures Shown(Children(path, bases, fv), db) == multiset(UnderOf(path, bases))[db]
    decreases Slack(path, bases), 1, 0
  {
    var names := SubNames(path, bases);
    var below := BelowOf(path, bases);
    SubNamesAreKeys(path, bases);
    ShownFolderRows(path, bases, names, fv, db);
    forall i | 0 <= i < |below|
      ensures SubKeyOf(path)(below[i]) in names
    {
      KeysOfHas(below, SubKeyOf(path), i);
    }
    Partition(below, SubKeyOf(path), names);
    ShownConcat(FolderRows(path, bases, names, fv), BaseRows(DirectOf(path, bases), fv), db);
    ShownBaseRows(DirectOf(path, bases), fv, db);
    UnderSplit(path, bases);
  }

  lemma {:induction false} ShownFolderRows(path: string, bases: seq<Database1C>, names: seq<string>, fv: Database1C -> string,
    db: Database1C)
    requires forall n :: n in names ==> n in SubKeys(path, bases)
    ensures Shown(FolderRows(path, bases, names, fv), db) == GroupsUnion(BelowOf(path, bases), SubKeyOf(path), names)[db]
    decreases Slack(path, bases), 0, |names|
  {
    if names != [] {
      var init := names[..|names| - 1];
      var n := names[|names| - 1];
      BucketSlack(path, bases, n);
      ShownFolderRows(path, bases, init, fv, db);
      var bucket := Bucket(path, bases, n);
      ShownChildren(path + "/" + n, bucket, fv, db);
      BucketAllUnder(path, bases, n);
      var row := FolderRow(n, Children(path + "/" + n, bucket, fv));
      ShownConcat(FolderRows(path, bases, init, fv), [row], db);
      assert Shown([row], db) == Shown(row.children, db) by {
        assert [row][..0] == [];
      }
    }
  }

  /** The position of every row below the folder at `path`: sorted, distinct subfolders first, then the direct bases in list order. */
  lemma ChildrenShape(path: string, bases: seq<Database1C>, fv: Database1C -> string)
    ensures var c := Children(path, bases, fv); var names := SubNames(path, bases);
      |c| == |names| + |DirectOf(path, bases)|
      && (forall i :: 0 <= i < |names| ==> Text(c[i]) == names[i] && c[i].data == NoData)
      && (forall i, j :: 0 <= i < j < |names| ==> Less(names[i], names[j]))
      && c[|names|..] == BaseRows(DirectOf(path, bases), fv)
  {
    SubNamesAreKeys(path, bases);
    var names := SubNames(path, bases);
    FolderRowsTexts(path, bases, names, fv);
    SortedDistinctAsc(SubKeys(path, bases));
    StrictlyAscending(names);
  }

  lemma {:induction false} FolderRowsTexts(path: string, bases: seq<Database1C>, names: seq<string>, fv: Database1C -> string)
    requires forall n :: n in names ==> n in SubKeys(path, bases)
    ensures var r := FolderRows(path, bases, names, fv);
      |r| == |names| && forall i :: 0 <= i < |names| ==> Text(r[i]) == names[i] && r[i].data == NoData
    decreases |names|
  {
    if names != [] {
      FolderRowsTexts(path, bases, names[..|names| - 1], fv);
    }
  }

  /** Sorted and without repeats is strictly ascending. */
  lemma StrictlyAscending(s: seq<string>)
    requires SortedAsc(s) && forall i, j :: 0 <= i < j < |s| ==> s[i] != s[j]
    ensures forall i, j :: 0 <= i < j < |s| ==> Less(s[i], s[j])
  {
    forall i, j | 0 <= i < j < |s|
      ensures Less(s[i], s[j])
    {
      LessTotal(s[i], s[j]);
    }
  }

  /** A base is a direct child row of the folder at `path` exactly when its folder is `"/" + path`. */
  lemma DirectChild(path: string, bases: seq<Database1C>, fv: Database1C -> string, db: Database1C)
    ensures var c := Children(path, bases, fv);
      (exists i :: 0 <= i < |c| && c[i].data == BaseData(db)) <==> db in bases && db.folder == "/" + path
  {
    ChildrenShape(path, bases, fv);
    RowsHoldBase(Children(path, bases, fv), |SubNames(path, bases)|, DirectOf(path, bases), fv, db);
    DirectOfMembers(path, bases, db);
  }

  /** Rows without data followed by the rows of `direct` hold a base's data exactly when the base is in `direct`. */
  lemma {:induction false} RowsHoldBase(c: seq<Row>, k: nat, direct: seq<Database1C>, fv: Database1C -> string, db: Database1C)
    requires k <= |c| && (forall i :: 0 <= i < k ==> c[i].data == NoData) && c[k..] == BaseRows(direct, fv)
    ensures (exists i :: 0 <= i < |c| && c[i].data == BaseData(db)) <==> db in direct
  {
    if exists i :: 0 <= i < |c| && c[i].data == BaseData(db) {
      var i :| 0 <= i < |c| && c[i].data == BaseData(db);
      RowHoldsListed(c, k, direct, fv, db, i);
    }
    if db in direct {
      var j :| 0 <= j < |direct| && direct[j] == db;
      ListedHasRow(c, k, direct, fv, j);
    }
  }

  lemma {:induction false} RowHoldsListed(c: seq<Row>, k: nat, direct: seq<Database1C>, fv: Database1C -> string,
                                          db: Database1C, i: nat)
    requires k <= |c| && (forall i :: 0 <= i < k ==> c[i].data == NoData) && c[k..] == BaseRows(direct, fv)
    requires i < |c| && c[i].data == BaseData(db)
    ensures db in direct
  {
    assert i >= k;
    var j := i - k;
    assert c[i] == c[k..][j] == BaseRow(direct[j], fv);
  }

  lemma {:induction false} ListedHasRow(c: seq<Row>, k: nat, direct: seq<Database1C>, fv: Database1C -> string, j: nat)
    requires k <= |c| && c[k..] == BaseRows(direct, fv) && j < |direct|
    ensures k + j < |c| && c[k + j].data == BaseData(direct[j])
  {
    assert c[k + j] == c[k..][j] == BaseRow(direct[j], fv);
  }

  /** A `defaultdict(list)` with its keys in insertion order, after filing every element of `xs` under its key. */
  ghost predicate Filed<T>(m: map<string, seq<T>>, keys: seq<string>, xs: seq<T>, key: T -> string) {
    keys == Dedup(KeysOf(xs, key))
    && (forall n :: n in m <==> n in keys)
    && (forall n :: n in m ==> m[n] == Group(xs, key, n))
  }

  /** Filing one more element: a new key starts an empty bucket, then the element joins its bucket. */
  lemma FiledStep<T>(m: map<string, seq<T>>, keys: seq<string>, xs: seq<T>, x: T, key: T -> string)
    requires Filed(m, keys, xs, key)
    ensures var n := key(x);
      var m1 := if n in m then m else m[n := []];
      var k1 := if n in m then keys else keys + [n];
      Filed(m1[n := m1[n] + [x]], k1, xs + [x], key)
  {
    var n := key(x);
    var k1 := if n in m then keys else keys + [n];
    GroupSnoc(xs, x, key, n);
    DedupSnoc(KeysOf(xs, key), n);
    DedupProps(KeysOf(xs, key));
    assert k1 == Dedup(KeysOf(xs + [x], key));
    if n !in m {
      GroupEmpty(xs, key, n);
    }
    BucketsStep(m, xs, x, key);
  }

  lemma BucketsStep<T>(m: map<string, seq<T>>, xs: seq<T>, x: T, key: T -> string)
    requires forall n :: n in m ==> m[n] == Group(xs, key, n)
    requires key(x) !in m ==> Group(xs, key, key(x)) == []
    ensures var n := key(x);
      var m1 := if n in m then m else m[n := []];
      var m2 := m1[n := m1[n] + [x]];
      forall p :: p in m2 ==> m2[p] == Group(xs + [x], key, p)
  {
    var n := key(x);
    var m1 := if n in m then m else m[n := []];
    var m2 := m1[n := m1[n] + [x]];
    forall p | p in m2
      ensures m2[p] == Group(xs + [x], key, p)
    {
      GroupSnoc(xs, x, key, p);
    }
  }

  /** A filed key has its bucket. */
  lemma FiledAt<T>(m: map<string, seq<T>>, keys: seq<string>, xs: seq<T>, key: T -> string, n: string)
    requires Filed(m, keys, xs, key) && n in SortAsc(keys)
    ensures n in m && m[n] == Group(xs, key, n)
  {
    SortedDistinctAsc(KeysOf(xs, key));
    DedupProps(KeysOf(xs, key));
  }

  /** Sorting the distinct keys keeps them distinct and keeps exactly the keys. */
  lemma SortedKeys(keys: seq<string>, all: seq<string>)
    requires keys == Dedup(all)
    ensures forall n :: n in SortAsc(keys) <==> n in all
  {
    SortedDistinctAsc(all);
  }

  /** The first loop of `add_bases_to_folder`: the direct bases in order, and the lower ones filed by subfolder. */
  method SortBases(path: string, bases: seq<Database1C>)
    returns (direct: seq<Database1C>, subfolders: map<string, seq<Database1C>>, keys: seq<string>)
    ensures direct == DirectOf(path, bases)
    ensures Filed(subfolders, keys, BelowOf(path, bases), SubKeyOf(path))
  {
    subfolders := map[];
    keys := [];
    direct := [];
    ghost var below: seq<Database1C> := [];
    var i := 0;
    while i < |bases|
      invariant 0 <= i <= |bases|
      invariant direct == DirectOf(path, bases[..i]) && below == BelowOf(path, bases[..i])
      invariant Filed(subfolders, keys, below, SubKeyOf(path))
    {
      var base := bases[i];
      TakeNext(bases, i);
      FiltersSnoc(path, bases[..i], base);
      direct, subfolders, keys, below := SortOne(path, base, direct, subfolders, keys, below);
      i := i + 1;
    }
    assert bases[..|bases|] == bases;
  }

  /** The body of the loop of `add_bases_to_folder`: the base goes to the direct list, to its subfolder's bucket, or nowhere. */
  method SortOne(path: string, base: Database1C, direct: seq<Database1C>, subfolders: map<string, seq<Database1C>>,
                 keys: seq<string>, ghost below: seq<Database1C>)
    returns (direct': seq<Database1C>, subfolders': map<string, seq<Database1C>>, keys': seq<string>,
             ghost below': seq<Database1C>)
    requires Filed(subfolders, keys, below, SubKeyOf(path))
    ensures direct' == direct + (if IsDirect(base, path) then [base] else [])
    ensures below' == below + (if IsBelow(base, path) then [base] else [])
    ensures Filed(subfolders', keys', below', SubKeyOf(path))
  {
    direct', subfolders', keys', below' := direct, subfolders, keys, below;
    if base.folder == "/" + path {
      direct' := direct + [base];
    } else if StartsWith(base.folder, "/" + path + "/") {
      var rel := base.folder[|path| + 2..];
      var name := if HasChar(rel, '/') then SplitFirst(rel, '/').0 else rel;
      assert name == Segment(rel);
      KeyOfBelow(path, base);
      subfolders', keys' := FileUnder(subfolders, keys, below, base, name, SubKeyOf(path));
      below' := below + [base];
    }
  }

  /** An empty dictionary files an empty list. */
  lemma FiledEmpty<T>(xs: seq<T>, key: T -> string)
    requires xs == []
    ensures Filed(map[], [], xs, key)
  {
    assert KeysOf(xs, key) == [];
  }

  /** `d[name].append(x)` on a `defaultdict(list)` whose keys keep their insertion order. */
  method FileUnder<T>(m: map<string, seq<T>>, keys: seq<string>, ghost xs: seq<T>, x: T, name: string,
                      ghost key: T -> string)
    returns (m': map<string, seq<T>>, keys': seq<string>)
    requires Filed(m, keys, xs, key) && name == key(x)
    ensures Filed(m', keys', xs + [x], key)
  {
    FiledStep(m, keys, xs, x, key);
    m', keys' := m, keys;
    if name !in m' {
      m' := m'[name := []];
      keys' := keys' + [name];
    }
    m' := m'[name := m'[name] + [x]];
  }

  lemma KeyOfBelow(path: string, db: Database1C)
    requires !IsDirect(db, path) && StartsWith(db.folder, "/" + path + "/")
    ensures IsBelow(db, path) && SubKeyOf(path)(db) == Segment(db.folder[|path| + 2..])
  {
  }

  /** Appending one base row per base, in order. */
  method AppendBaseRows(rows: seq<Row>, ds: seq<Database1C>, fv: Database1C -> string) returns (r: seq<Row>)
    ensures r == rows + BaseRows(ds, fv)
  {
    r := rows;
    var k := 0;
    while k < |ds|
      invariant 0 <= k <= |ds|
      invariant r == rows + BaseRows(ds[..k], fv)
    {
      TakeNext(ds, k);
      AppendAssoc(rows, BaseRows(ds[..k], fv), [BaseRow(ds[k], fv)]);
      r := r + [BaseRow(ds[k], fv)];
      k := k + 1;
    }
    assert ds[..|ds|] == ds;
  }

  /**
   * `add_bases_to_folder`: the bases are sorted into the direct list and
   * the subfolder buckets in one pass, then the sorted subfolders are
   * appended (each filled by the same procedure), then the direct bases.
   */
  method AddBasesToFolder(path: string, bases: seq<Database1C>, fv: Database1C -> string) returns (rows: seq<Row>)
    ensures rows == Children(path, bases, fv)
    decreases Slack(path, bases)
  {
    var direct, subfolders, keys := SortBases(path, bases);
    var names := SortAsc(keys);
    assert names == SubNames(path, bases);
    SubNamesAreKeys(path, bases);
    DedupProps(SubKeys(path, bases));
    rows := [];
    var j := 0;
    while j < |names|
      invariant 0 <= j <= |names|
      invariant rows == FolderRows(path, bases, names[..j], fv)
    {
      var name := names[j];
      FolderRowsStep(path, bases, names, j, fv);
      assert name in subfolders && subfolders[name] == Bucket(path, bases, name);
      BucketSlack(path, bases, name);
      var sub := AddBasesToFolder(path + "/" + name, subfolders[name], fv);
      rows := rows + [FolderRow(name, sub)];
      j := j + 1;
    }
    assert names[..|names|] == names;
    rows := AppendBaseRows(rows, direct, fv);
  }

  // The whole tree.

  predicate IsSlash(c: char) {
    c == '/'
  }

  /** `folder.lstrip("/").split("/")[0]`, and `""` for a folder of slashes only. */
  function RootKey(db: Database1C): string {
    Segment(TrimStart(db.folder, IsSlash))
  }

  /** A folder that the tree shows: one slash and then anything but another slash. */
  predicate Visible(f: string) {
    |f| >= 2 && f[0] == '/' && f[1] != '/'
  }

  function Recent(bases: seq<Database1C>): seq<Database1C>
    decreases |bases|
  {
    if bases == [] then []
    else
      var last := bases[|bases| - 1];
      Recent(bases[..|bases| - 1]) + (if last.isRecent then [last] else [])
  }

  function Regular(bases: seq<Database1C>): seq<Database1C>
    decreases |bases|
  {
    if bases == [] then []
    else
      var last := bases[|bases| - 1];
      Regular(bases[..|bases| - 1]) + (if !last.isRecent then [last] else [])
  }

  function VisibleOf(bases: seq<Database1C>): seq<Database1C>
    decreases |bases|
  {
    if bases == [] then []
    else
      var last := bases[|bases| - 1];
      VisibleOf(bases[..|bases| - 1]) + (if Visible(last.folder) then [last] else [])
  }

  /** `sorted(root_folders.keys())`, the empty key included. */
  function RootNames(regular: seq<Database1C>): seq<string> {
    SortAsc(Dedup(KeysOf(regular, RootKey)))
  }

  /** The root folder row for `n`, or nothing for the empty name. */
  function RootRow(regular: seq<Database1C>, n: string, fv: Database1C -> string): seq<Row> {
    if n == "" then [] else [FolderRow(n, Children(n, Group(regular, RootKey, n), fv))]
  }

  /** The root folder rows for `names`; the empty name is skipped. */
  function RootRows(regular: seq<Database1C>, names: seq<string>, fv: Database1C -> string): seq<Row>
    decreases |names|
  {
    if names == [] then []
    else RootRows(regular, names[..|names| - 1], fv) + RootRow(regular, names[|names| - 1], fv)
  }

  /** The rows `build_tree` leaves in the model. */
  function TreeRows(bases: seq<Database1C>, fv: Database1C -> string): seq<Row> {
    var recent := Recent(bases);
    (if recent != [] then [FolderRow(RecentNode, BaseRows(recent, fv))] else [])
      + RootRows(Regular(bases), RootNames(Regular(bases)), fv)
  }

  /** The loop of `build_tree` that files the regular bases by their root folder. */
  method SortRoots(regular: seq<Database1C>) returns (roots: map<string, seq<Database1C>>, keys: seq<string>)
    ensures Filed(roots, keys, regular, RootKey)
  {
    roots := map[];
    keys := [];
    ghost var done: seq<Database1C> := [];
    FiledEmpty(done, RootKey);
    var i := 0;
    while i < |regular|
      invariant 0 <= i <= |regular| && done == regular[..i]
      invariant Filed(roots, keys, done, RootKey)
    {
      var base := regular[i];
      var name := RootName(base);
      roots, keys := FileUnder(roots, keys, done, base, name, RootKey);
      TakeNext(regular, i);
      done := done + [base];
      i := i + 1;
    }
    assert regular[..|regular|] == regular;
  }

  /** The root key of a base, as the loop computes it. */
  method RootName(base: Database1C) returns (name: string)
    ensures name == RootKey(base)
  {
    var folder := TrimStart(base.folder, IsSlash);
    name := if folder != "" then (if HasChar(folder, '/') then SplitFirst(folder, '/').0 else folder) else "";
  }

  /** One step of the root loop: the next name adds its folder row, or nothing for the empty name. */
  lemma RootRowsStep(rows: seq<Row>, regular: seq<Database1C>, names: seq<string>, j: nat, fv: Database1C -> string)
    requires j < |names|
    ensures rows + RootRows(regular, names[..j + 1], fv) == rows + RootRows(regular, names[..j], fv) + RootRow(regular, names[j], fv)
  {
    PrefixFront(names, j);
    AppendAssoc(rows, RootRows(regular, names[..j], fv), RootRow(regular, names[j], fv));
  }

  /** The body of the root loop: the folder row of one key, filled from its bucket. */
  method RootPiece(roots: map<string, seq<Database1C>>, regular: seq<Database1C>, name: string, fv: Database1C -> string)
    returns (piece: seq<Row>)
    requires name in roots && roots[name] == Group(regular, RootKey, name)
    ensures piece == RootRow(regular, name, fv)
  {
    piece := [];
    if name != "" {
      var sub := AddBasesToFolder(name, roots[name], fv);
      piece := [FolderRow(name, sub)];
    }
  }

  /** The second loop of `build_tree`: one root folder per sorted key, skipping the empty key. */
  method AppendRootRows(rows: seq<Row>, regular: seq<Database1C>, fv: Database1C -> string) returns (r: seq<Row>)
    ensures r == rows + RootRows(regular, RootNames(regular), fv)
  {
    var roots, keys := SortRoots(regular);
    var names := SortAsc(keys);
    assert names == RootNames(regular);
    forall n | n in names
      ensures n in roots && roots[n] == Group(regular, RootKey, n)
    {
      FiledAt(roots, keys, regular, RootKey, n);
    }
    r := AppendRootPieces(rows, roots, names, regular, fv);
  }

  /** The loop over the sorted keys, each of which has its bucket. */
  method AppendRootPieces(rows: seq<Row>, roots: map<string, seq<Database1C>>, names: seq<string>, regular: seq<Database1C>,
    fv: Database1C -> string) returns (r: seq<Row>)
    requires forall n :: n in names ==> n in roots && roots[n] == Group(regular, RootKey, n)
    ensures r == rows + RootRows(regular, names, fv)
  {
    r := rows;
    var j := 0;
    while j < |names|
      invariant 0 <= j <= |names|
      invariant r == rows + RootRows(regular, names[..j], fv)
    {
      var piece := RootPiece(roots, regular, names[j], fv);
      RootRowsStep(rows, regular, names, j, fv);
      r := r + piece;
      j := j + 1;
    }
    assert names[..|names|] == names;
  }

  /** `build_tree`: clears the model, adds the recent group when there are recent bases, then the root folders in sorted order. */
  method BuildTree(model: Model, bases: seq<Database1C>, fv: Database1C -> string)
    modifies model
    ensures model.rows == TreeRows(bases, fv)
  {
    model.rows := [];
    var recent := Recent(bases);
    var regular := Regular(bases);
    var rows: seq<Row> := [];
    if recent != [] {
      var children := AppendBaseRows([], recent, fv);
      AppendEmpty(BaseRows(recent, fv));
      rows := [FolderRow(RecentNode, children)];
      model.rows := rows;
    }
    rows := AppendRootRows(rows, regular, fv);
    model.rows := rows;
  }

  // What the whole tree shows.

  /** A regular base is filed under a named root folder that it lies in or under exactly when its folder has the visible shape. */
  lemma VisibleIsShown(f: string)
    ensures var n := Segment(TrimStart(f, IsSlash));
      (n != "" && IsUnder(f, n)) <==> Visible(f)
  {
    var n := Segment(TrimStart(f, IsSlash));
    if Visible(f) {
      VisibleShown(f);
    }
    if n != "" && IsUnder(f, n) {
      ShownVisible(f, n);
    }
  }

  lemma {:induction false} VisibleShown(f: string)
    requires Visible(f)
    ensures var n := Segment(TrimStart(f, IsSlash)); n != "" && IsUnder(f, n)
  {
    var u := f[1..];
    assert f == [f[0]] + u && IsSlash(f[0]);
    assert TrimStart(f, IsSlash) == TrimStart(u, IsSlash);
    TrimStartKeeps(u, IsSlash);
    var n := Segment(u);
    if n == u {
      assert f == "/" + n;
    } else {
      assert u[..|n|] == n && u[|n|] == '/';
      assert f[..|n| + 2] == "/" + n + "/";
    }
  }

  lemma {:induction false} ShownVisible(f: string, n: string)
    requires n == Segment(TrimStart(f, IsSlash)) && n != "" && IsUnder(f, n)
    ensures Visible(f)
  {
    assert n[0] != '/';
    var p := "/" + n;
    if f != p {
      assert f[..|n| + 2] == p + "/";
      assert f[0] == (p + "/")[0] && f[1] == (p + "/")[1];
    }
    assert p[0] == '/' && p[1] == n[0];
  }

  lemma {:induction false} VisibleOfMembers(bases: seq<Database1C>, db: Database1C)
    ensures db in VisibleOf(bases) <==> db in bases && Visible(db.folder)
    decreases |bases|
  {
    if bases != [] {
      var init := bases[..|bases| - 1];
      VisibleOfMembers(init, db);
      DropLast(bases);
    }
  }

  /** The bases a root folder shows are the visible ones filed under its name. */
  lemma {:induction false} UnderGroup(regular: seq<Database1C>, n: string)
    requires n != ""
    ensures UnderOf(n, Group(regular, RootKey, n)) == Group(VisibleOf(regular), RootKey, n)
    decreases |regular|
  {
    if regular != [] {
      var init := regular[..|regular| - 1];
      var x := regular[|regular| - 1];
      UnderGroup(init, n);
      FiltersSnoc(n, Group(init, RootKey, n), x);
      GroupSnoc(VisibleOf(init), x, RootKey, n);
      VisibleIsShown(x.folder);
      AppendEmpty(Group(init, RootKey, n));
      AppendEmpty(UnderOf(n, Group(init, RootKey, n)));
      AppendEmpty(VisibleOf(init));
    }
  }

  /** No visible base has the empty root key. */
  lemma {:induction false} VisibleEmptyGroup(regular: seq<Database1C>)
    ensures Group(VisibleOf(regular), RootKey, "") == []
    decreases |regular|
  {
    if regular != [] {
      var init := regular[..|regular| - 1];
      var x := regular[|regular| - 1];
      VisibleEmptyGroup(init);
      GroupSnoc(VisibleOf(init), x, RootKey, "");
      VisibleIsShown(x.folder);
      AppendEmpty(VisibleOf(init));
    }
  }

  lemma {:induction false} ShownRootRows(regular: seq<Database1C>, names: seq<string>, fv: Database1C -> string, db: Database1C)
    ensures Shown(RootRows(regular, names, fv), db) == GroupsUnion(VisibleOf(regular), RootKey, names)[db]
    decreases |names|
  {
    if names != [] {
      var init := names[..|names| - 1];
      var n := names[|names| - 1];
      ShownRootRows(regular, init, fv, db);
      ShownConcat(RootRows(regular, init, fv), RootRow(regular, n, fv), db);
      if n == "" {
        VisibleEmptyGroup(regular);
      } else {
        var row := FolderRow(n, Children(n, Group(regular, RootKey, n), fv));
        assert Shown([row], db) == Shown(row.children, db) by {
          assert [row][..0] == [];
        }
        ShownChildren(n, Group(regular, RootKey, n), fv, db);
        UnderGroup(regular, n);
      }
    }
  }

  lemma {:induction false} RecentCount(bases: seq<Database1C>, db: Database1C)
    ensures multiset(Recent(bases))[db] == if db.isRecent then multiset(bases)[db] else 0
    ensures multiset(Regular(bases))[db] == if db.isRecent then 0 else multiset(bases)[db]
    decreases |bases|
  {
    if bases != [] {
      var init := bases[..|bases| - 1];
      RecentCount(init, db);
      DropLast(bases);
    }
  }

  lemma {:induction false} VisibleCount(bases: seq<Database1C>, db: Database1C)
    ensures multiset(VisibleOf(bases))[db] == if Visible(db.folder) then multiset(bases)[db] else 0
    decreases |bases|
  {
    if bases != [] {
      var init := bases[..|bases| - 1];
      VisibleCount(init, db);
      DropLast(bases);
    }
  }

  /** The root folders show every visible regular base once per occurrence. */
  lemma ShownRoots(regular: seq<Database1C>, fv: Database1C -> string, db: Database1C)
    ensures Shown(RootRows(regular, RootNames(regular), fv), db) == multiset(VisibleOf(regular))[db]
  {
    var names := RootNames(regular);
    var visible := VisibleOf(regular);
    ShownRootRows(regular, names, fv, db);
    SortedDistinctAsc(KeysOf(regular, RootKey));
    forall i | 0 <= i < |visible|
      ensures RootKey(visible[i]) in names
    {
      VisibleOfMembers(regular, visible[i]);
      var k := IndexIn(regular, visible[i]);
      KeysOfHas(regular, RootKey, k);
    }
    Partition(visible, RootKey, names);
  }

  /**
   * `build_tree` shows every recent base under `Недавние` and every other
   * base whose folder is `/` followed by a root folder name; each of them
   * as often as it occurs in the list, and no other base anywhere in the
   * tree. A base is therefore never attached twice for one occurrence, and
   * a non-recent base whose folder is empty after stripping `/` is not shown.
   */
  lemma TreeShowsEachBase(bases: seq<Database1C>, fv: Database1C -> string, db: Database1C)
    ensures Shown(TreeRows(bases, fv), db) == if db.isRecent || Visible(db.folder) then multiset(bases)[db] else 0
  {
    var recent := Recent(bases);
    var regular := Regular(bases);
    var head := if recent != [] then [FolderRow(RecentNode, BaseRows(recent, fv))] else [];
    ShownConcat(head, RootRows(regular, RootNames(regular), fv), db);
    if recent != [] {
      var row := FolderRow(RecentNode, BaseRows(recent, fv));
      assert Shown([row], db) == Shown(row.children, db) by {
        assert [row][..0] == [];
      }
    }
    ShownBaseRows(recent, fv, db);
    ShownRoots(regular, fv, db);
    RecentCount(bases, db);
    VisibleCount(regular, db);
  }

  /** The names that get a root folder row: all but the empty one, in order. */
  function NamedRoots(names: seq<string>): seq<string>
    decreases |names|
  {
    if names == [] then []
    else NamedRoots(names[..|names| - 1]) + (if names[|names| - 1] == "" then [] else [names[|names| - 1]])
  }

  lemma RootRowShape(regular: seq<Database1C>, n: string, fv: Database1C -> string)
    ensures var r := RootRow(regular, n, fv);
      |r| == (if n == "" then 0 else 1) && (n != "" ==> Text(r[0]) == n && r[0].data == NoData)
  {
  }

  /** The root folder rows carry the non-empty names, in order, and no data. */
  lemma {:induction false} RootRowsTexts(regular: seq<Database1C>, names: seq<string>, fv: Database1C -> string)
    ensures var r := RootRows(regular, names, fv); var t := NamedRoots(names);
      |r| == |t| && forall i :: 0 <= i < |r| ==> Text(r[i]) == t[i] && r[i].data == NoData
    decreases |names|
  {
    if names != [] {
      var init := names[..|names| - 1];
      var n := names[|names| - 1];
      RootRowsTexts(regular, init, fv);
      RootRowShape(regular, n, fv);
    }
  }

  lemma {:induction false} NamedRootsProps(names: seq<string>)
    requires forall i, j :: 0 <= i < j < |names| ==> Less(names[i], names[j])
    ensures forall i :: 0 <= i < |NamedRoots(names)| ==> NamedRoots(names)[i] != "" && NamedRoots(names)[i] in names
    ensures forall i, j :: 0 <= i < j < |NamedRoots(names)| ==> Less(NamedRoots(names)[i], NamedRoots(names)[j])
    decreases |names|
  {
    if names != [] {
      var init := names[..|names| - 1];
      var n := names[|names| - 1];
      NamedRootsProps(init);
      var t0 := NamedRoots(init);
      var t := t0 + (if n == "" then [] else [n]);
      assert NamedRoots(names) == t;
      forall i | 0 <= i < |t0|
        ensures t0[i] != "" && t0[i] in names && Less(t0[i], n)
      {
        assert t0[i] != "" && t0[i] in init;
        var k :| 0 <= k < |init| && init[k] == t0[i];
        assert names[k] == init[k];
      }
      forall i | 0 <= i < |t|
        ensures t[i] != "" && t[i] in names
      {
        if i < |t0| {
          assert t[i] == t0[i];
        } else {
          assert t[i] == names[|names| - 1];
        }
      }
      forall i, j | 0 <= i < j < |t|
        ensures Less(t[i], t[j])
      {
        if j < |t0| {
          assert t[i] == t0[i] && t[j] == t0[j];
        } else {
          assert t[i] == t0[i] && t[j] == n;
        }
      }
    }
  }

  /**
   * The top level `build_tree` leaves: a `Недавние` group first exactly
   * when some base is recent, holding the recent bases in list order; then
   * folder rows with non-empty names in strictly ascending order.
   */
  lemma TreeShape(bases: seq<Database1C>, fv: Database1C -> string)
    ensures var rows := TreeRows(bases, fv); var recent := Recent(bases);
      var off := if recent != [] then 1 else 0;
      |rows| == off + |NamedRoots(RootNames(Regular(bases)))|
      && (recent != [] ==> rows[0] == FolderRow(RecentNode, BaseRows(recent, fv)))
      && (forall i :: off <= i < |rows| ==> Text(rows[i]) != "" && rows[i].data == NoData)
      && (forall i, j :: off <= i < j < |rows| ==> Less(Text(rows[i]), Text(rows[j])))
  {
    var regular := Regular(bases);
    var names := RootNames(regular);
    RootNamesAscending(regular);
    RootRowsTexts(regular, names, fv);
    NamedRootsProps(names);
    var recent := Recent(bases);
    var head := if recent != [] then [FolderRow(RecentNode, BaseRows(recent, fv))] else [];
    var roots := RootRows(regular, names, fv);
    assert TreeRows(bases, fv) == head + roots;
    AfterHead(head, roots, NamedRoots(names));
  }

  /** The rows after a head keep the shape of the root rows. */
  lemma AfterHead(head: seq<Row>, roots: seq<Row>, t: seq<string>)
    requires |roots| == |t| && forall i :: 0 <= i < |roots| ==> Text(roots[i]) == t[i] && roots[i].data == NoData
    requires forall i :: 0 <= i < |t| ==> t[i] != ""
    requires forall i, j :: 0 <= i < j < |t| ==> Less(t[i], t[j])
    ensures var rows := head + roots;
      (forall i :: |head| <= i < |rows| ==> Text(rows[i]) != "" && rows[i].data == NoData)
      && (forall i, j :: |head| <= i < j < |rows| ==> Less(Text(rows[i]), Text(rows[j])))
  {
    var rows := head + roots;
    forall i | |head| <= i < |rows|
      ensures rows[i] == roots[i - |head|]
    {
    }
  }

  lemma RootNamesAscending(regular: seq<Database1C>)
    ensures var names := RootNames(regular); forall i, j :: 0 <= i < j < |names| ==> Less(names[i], names[j])
  {
    SortedDistinctAsc(KeysOf(regular, RootKey));
    StrictlyAscending(RootNames(regular));
  }
}

/**
 * The parts of `DatabaseSettingsDialog` that are logic rather than layout:
 * the version box text with its bitness suffix, reading that text back in
 * `get_settings`, and the list of installed platform versions the box
 * offers. The text fields arrive as the strings the user left in them; the
 * file system arrives as what `exists`, `iterdir` and `is_dir` report.
 */
module SettingsDialog {
  import opened Wrappers
  import opened Strings
  import opened Models

  // ---------------------------------------------------------------------
  // The version text.

  /** `'x64' if app_arch == 'x86_64' else 'x86'`. */
  function ArchDisplay(appArch: Option<string>): (r: string)
    ensures r == "x64" <==> appArch == Some("x86_64")
    ensures r == "x64" || r == "x86"
  {
    if appArch == Some("x86_64") then "x64" else "x86"
  }

  /** `f"{version} ({arch_display})"`. */
  function VersionWithArch(version: string, appArch: Option<string>): string {
    version + " (" + ArchDisplay(appArch) + ")"
  }

  /** The text the version box shows when the dialog opens: the base's version, else the first offered one. */
  function InitialVersionText(db: Database1C, installed: seq<string>): string {
    if Truthy(db.version) then VersionWithArch(db.version.value, db.appArch)
    else if installed != [] then installed[0]
    else ""
  }

  /** Text made of whitespace only. */
  predicate Spaces(s: string) {
    forall i :: 0 <= i < |s| ==> IsSpace(s[i])
  }

  /** The bitness words the pattern `\(\s*(x86|x64)\s*\)\s*$` accepts. */
  predicate ArchWord(tok: string) {
    |tok| == 3 && tok[0] == 'x' && ((tok[1] == '8' && tok[2] == '6') || (tok[1] == '6' && tok[2] == '4'))
  }

  lemma ArchWords(tok: string)
    ensures ArchWord(tok) <==> tok == "x86" || tok == "x64"
  {
  }

  /** A text of the shape the pattern matches: `pre`, `(`, spaces, the word, spaces, `)`, spaces. */
  function Shape(pre: string, a: string, tok: string, b: string, c: string): string {
    pre + "(" + a + tok + b + ")" + c
  }

  /** Where the whitespace run ending at `hi` starts. */
  function SpaceStart(s: string, hi: nat): (k: nat)
    requires hi <= |s|
    ensures k <= hi && forall i :: k <= i < hi ==> IsSpace(s[i])
    ensures k > 0 ==> !IsSpace(s[k - 1])
    decreases hi
  {
    if hi > 0 && IsSpace(s[hi - 1]) then SpaceStart(s, hi - 1) else hi
  }

  /** A whitespace run between a kept character (or the start) and `hi` starts where that character ends. */
  lemma {:induction false} SpaceStartAt(s: string, lo: nat, hi: nat)
    requires lo <= hi <= |s| && forall i :: lo <= i < hi ==> IsSpace(s[i])
    requires lo > 0 ==> !IsSpace(s[lo - 1])
    ensures SpaceStart(s, hi) == lo
    decreases hi
  {
    if hi > lo {
      SpaceStartAt(s, lo, hi - 1);
    }
  }

  /**
   * `re.search(r'\(\s*(x86|x64)\s*\)\s*$', text)`: where the match starts
   * and the word it captured. Everything after the match is whitespace, so
   * the match is found by scanning back from the end: whitespace, `)`,
   * whitespace, the word, whitespace, `(`.
   */
  function ArchMatch(text: string): (r: Option<(nat, string)>)
    ensures r.Some? ==> r.value.0 < |text| && ArchWord(r.value.1)
  {
    match ArchScan(text)
    case None => None
    case Some((open, wordStart, _)) => Some((open, text[wordStart..wordStart + 3]))
  }

  /** The scan behind `ArchMatch`: the positions of `(`, of the word and just after `)`. */
  function ArchScan(text: string): (r: Option<(nat, nat, nat)>)
    ensures r.Some? ==> Matched(text, r.value.0, r.value.1, r.value.2)
  {
    var close := SpaceStart(text, |text|);
    if close == 0 || text[close - 1] != ')' then None else ScanWord(text, close)
  }

  /** The scan from before the `)` that ends at `close`. */
  function ScanWord(text: string, close: nat): (r: Option<(nat, nat, nat)>)
    requires 0 < close <= |text| && text[close - 1] == ')' && forall i :: close <= i < |text| ==> IsSpace(text[i])
    ensures r.Some? ==> Matched(text, r.value.0, r.value.1, close) && r.value.2 == close
  {
    var wordEnd := SpaceStart(text, close - 1);
    if wordEnd < 3 || !ArchWord(text[wordEnd - 3..wordEnd]) then None else ScanOpen(text, wordEnd - 3, close)
  }

  /** The scan from before the word that starts at `wordStart`. */
  function ScanOpen(text: string, wordStart: nat, close: nat): (r: Option<(nat, nat, nat)>)
    requires wordStart + 3 < close <= |text| && text[close - 1] == ')' && ArchWord(text[wordStart..wordStart + 3])
    requires forall i :: wordStart + 3 <= i < close - 1 ==> IsSpace(text[i])
    requires forall i :: close <= i < |text| ==> IsSpace(text[i])
    ensures r.Some? ==> Matched(text, r.value.0, wordStart, close) && r.value.1 == wordStart && r.value.2 == close
  {
    var open := SpaceStart(text, wordStart);
    if open == 0 || text[open - 1] != '(' then None else Some((open - 1, wordStart, close))
  }

  /** `(` at `open`, the word at `wordStart`, `)` just before `close`, and whitespace between and after. */
  predicate Matched(text: string, open: nat, wordStart: nat, close: nat) {
    open < wordStart && wordStart + 3 < close <= |text|
    && text[open] == '(' && text[close - 1] == ')' && ArchWord(text[wordStart..wordStart + 3])
    && (forall i :: open + 1 <= i < wordStart ==> IsSpace(text[i]))
    && (forall i :: wordStart + 3 <= i < close - 1 ==> IsSpace(text[i]))
    && (forall i :: close <= i < |text| ==> IsSpace(text[i]))
  }

  /** The characters of `s` from `lo` to `hi`, when all of them are whitespace. */
  lemma SliceSpaces(s: string, lo: nat, hi: nat)
    requires lo <= hi <= |s| && forall i :: lo <= i < hi ==> IsSpace(s[i])
    ensures Spaces(s[lo..hi])
  {
    assert forall i :: 0 <= i < hi - lo ==> s[lo..hi][i] == s[lo + i];
  }

  lemma PrefixExtend(s: string, i: nat, j: nat)
    requires i <= j <= |s|
    ensures s[..j] == s[..i] + s[i..j]
  {
  }

  /** What the match finds is a match: the text has the pattern's shape from the start it reports. */
  lemma ArchMatchSound(text: string) returns (a: string, b: string, c: string)
    requires ArchMatch(text).Some?
    ensures Spaces(a) && Spaces(b) && Spaces(c)
    ensures text == Shape(text[..ArchMatch(text).value.0], a, ArchMatch(text).value.1, b, c)
  {
    var scan := ArchScan(text).value;
    var open, wordStart, close := scan.0, scan.1, scan.2;
    assert ArchMatch(text).value == (open, text[wordStart..wordStart + 3]);
    a, b, c := MatchedShape(text, open, wordStart, close);
  }

  /** The pieces of a match, with whitespace between them. */
  lemma MatchedShape(text: string, open: nat, wordStart: nat, close: nat) returns (a: string, b: string, c: string)
    requires Matched(text, open, wordStart, close)
    ensures Spaces(a) && Spaces(b) && Spaces(c)
    ensures text == Shape(text[..open], a, text[wordStart..wordStart + 3], b, c)
  {
    SliceSpaces(text, open + 1, wordStart);
    SliceSpaces(text, wordStart + 3, close - 1);
    SliceSpaces(text, close, |text|);
    ShapeOf(text, open, wordStart, close);
    a, b, c := text[open + 1..wordStart], text[wordStart + 3..close - 1], text[close..];
  }

  /** A text cut at an opening parenthesis, a three-letter word and a closing parenthesis is the shape of its pieces. */
  lemma ShapeOf(text: string, open: nat, wordStart: nat, close: nat)
    requires open < wordStart && wordStart + 3 < close <= |text| && text[open] == '(' && text[close - 1] == ')'
    ensures text == Shape(text[..open], text[open + 1..wordStart], text[wordStart..wordStart + 3],
                          text[wordStart + 3..close - 1], text[close..])
  {
    PrefixExtend(text, open, open + 1);
    assert text[open..open + 1] == "(";
    PrefixExtend(text, open + 1, wordStart);
    PrefixExtend(text, wordStart, wordStart + 3);
    PrefixExtend(text, wordStart + 3, close - 1);
    PrefixExtend(text, close - 1, close);
    assert text[close - 1..close] == ")";
    PrefixExtend(text, close, |text|);
    assert text[..|text|] == text;
  }

  /** Where the pieces of the shape sit in it. */
  lemma ShapePieces(pre: string, a: string, tok: string, b: string, c: string)
    requires |tok| == 3
    ensures var text := Shape(pre, a, tok, b, c);
      var wordStart := |pre| + 1 + |a|;
      var close := wordStart + 3 + |b| + 1;
      |text| == close + |c| && text[|pre|] == '(' && text[close - 1] == ')'
      && text[wordStart..wordStart + 3] == tok && text[wordStart + 2] == tok[2]
      && (forall i :: |pre| + 1 <= i < wordStart ==> text[i] == a[i - |pre| - 1])
      && (forall i :: wordStart + 3 <= i < close - 1 ==> text[i] == b[i - wordStart - 3])
      && (forall i :: close <= i < |text| ==> text[i] == c[i - close])
  {
  }

  /** Any text of the pattern's shape is matched, at the start of that shape and with its word. */
  lemma ArchMatchComplete(pre: string, a: string, tok: string, b: string, c: string)
    requires Spaces(a) && Spaces(b) && Spaces(c) && ArchWord(tok)
    ensures ArchMatch(Shape(pre, a, tok, b, c)) == Some((|pre|, tok))
  {
    var text := Shape(pre, a, tok, b, c);
    var wordStart := |pre| + 1 + |a|;
    ShapeScan(pre, a, tok, b, c);
    ShapeWord(pre, a, tok, b, c);
    assert ArchMatch(text) == Some((|pre|, text[wordStart..wordStart + 3]));
  }

  /** The word of a text of the pattern's shape sits right after the whitespace following `(`. */
  lemma ShapeWord(pre: string, a: string, tok: string, b: string, c: string)
    requires |tok| == 3
    ensures var wordStart := |pre| + 1 + |a|;
      wordStart + 3 <= |Shape(pre, a, tok, b, c)| && Shape(pre, a, tok, b, c)[wordStart..wordStart + 3] == tok
  {
    ShapePieces(pre, a, tok, b, c);
  }

  /** The scan of a text of the pattern's shape finds its `(`, its word and its `)`. */
  lemma ShapeScan(pre: string, a: string, tok: string, b: string, c: string)
    requires Spaces(a) && Spaces(b) && Spaces(c) && ArchWord(tok)
    ensures var wordStart := |pre| + 1 + |a|;
      ArchScan(Shape(pre, a, tok, b, c)) == Some((|pre|, wordStart, wordStart + 3 + |b| + 1))
  {
    var text := Shape(pre, a, tok, b, c);
    var wordStart := |pre| + 1 + |a|;
    ShapePieces(pre, a, tok, b, c);
    forall i | |pre| + 1 <= i < wordStart ensures IsSpace(text[i]) {
      assert text[i] == a[i - |pre| - 1];
    }
    forall i | wordStart + 3 <= i < wordStart + 3 + |b| ensures IsSpace(text[i]) {
      assert text[i] == b[i - wordStart - 3];
    }
    forall i | wordStart + 3 + |b| + 1 <= i < |text| ensures IsSpace(text[i]) {
      assert text[i] == c[i - wordStart - 3 - |b| - 1];
    }
    MatchAt(text, |pre|, wordStart, wordStart + 3 + |b| + 1);
  }

  /** The match, read off the positions of the parenthesis, the word and the closing parenthesis. */
  lemma MatchAt(text: string, open: nat, wordStart: nat, close: nat)
    requires Matched(text, open, wordStart, close)
    ensures ArchScan(text) == Some((open, wordStart, close))
  {
    SpaceStartAt(text, close, |text|);
    WordAt(text, open, wordStart, close);
  }

  lemma WordAt(text: string, open: nat, wordStart: nat, close: nat)
    requires Matched(text, open, wordStart, close)
    ensures ScanWord(text, close) == Some((open, wordStart, close))
  {
    assert text[wordStart + 2] == text[wordStart..wordStart + 3][2];
    SpaceStartAt(text, wordStart + 3, close - 1);
    OpenAt(text, open, wordStart, close);
  }

  lemma OpenAt(text: string, open: nat, wordStart: nat, close: nat)
    requires Matched(text, open, wordStart, close)
    ensures ScanOpen(text, wordStart, close) == Some((open, wordStart, close))
  {
    SpaceStartAt(text, open + 1, wordStart);
  }

  /** `get_settings`'s reading of the version box: the version text and the architecture. */
  function ParseVersion(text: string): (r: (string, string))
    ensures ArchMatch(text).None? ==> r == (text, "x86")
    ensures r.1 == "x86_64" <==> ArchMatch(text).Some? && ArchMatch(text).value.1 == "x64"
    ensures r.1 == "x86" || r.1 == "x86_64"
  {
    match ArchMatch(text)
    case None => (text, "x86")
    case Some((start, word)) => (Strip(text[..start]), if word == "x64" then "x86_64" else "x86")
  }

  /** Whitespace at the end does not change what `strip` keeps. */
  lemma StripSpaceSuffix(v: string, post: string)
    requires Spaces(post)
    ensures Strip(v + post) == Strip(v)
  {
    StripEnds(v);
    var pre, rest := StripParts(v);
    StripMoreSpace(v, pre, Strip(v), rest, post);
  }

  /** A kept text between whitespace keeps being what `strip` gives when more whitespace follows. */
  lemma StripMoreSpace(v: string, pre: string, m: string, rest: string, post: string)
    requires Spaces(pre) && Spaces(rest) && Spaces(post) && v == pre + m + rest
    requires m == [] || (!IsSpace(m[0]) && !IsSpace(m[|m| - 1]))
    ensures Strip(v + post) == m
  {
    SpacesConcat(rest, post);
    Regroup(v, pre, m, rest, post);
    StripAround(v + post, pre, m, rest + post);
  }

  lemma StripEnds(v: string)
    ensures var m := Strip(v); m == [] || (!IsSpace(m[0]) && !IsSpace(m[|m| - 1]))
  {
  }

  /** `Strip` of a kept text with whitespace around it, the whitespace after it in two pieces. */
  lemma StripAround(s: string, pre: string, m: string, post: string)
    requires Spaces(pre) && Spaces(post) && (m == [] || (!IsSpace(m[0]) && !IsSpace(m[|m| - 1])))
    requires s == pre + m + post
    ensures Strip(s) == m
  {
    StripPadded(pre, m, post);
  }

  /** A string is its stripped text with the whitespace `strip` removed on either side. */
  lemma StripParts(v: string) returns (pre: string, rest: string)
    ensures Spaces(pre) && Spaces(rest) && v == pre + Strip(v) + rest
  {
    var t := TrimStart(v, IsSpace);
    pre := TrimStartRest(v);
    rest := TrimEndRest(t);
    var body := TrimEnd(t, IsSpace);
    assert body == Strip(v);
    assert v == pre + (body + rest);
    AppendAssoc(pre, body, rest);
  }

  /** What `TrimEnd` drops from the end of a string. */
  function TrimEndRest(s: string): (r: string)
    ensures s == TrimEnd(s, IsSpace) + r && Spaces(r)
  {
    var k := |TrimEnd(s, IsSpace)|;
    SliceSpaces(s, k, |s|);
    s[k..]
  }

  /** What `TrimStart` drops from the front of a string. */
  function TrimStartRest(s: string): (r: string)
    ensures s == r + TrimStart(s, IsSpace) && Spaces(r)
  {
    TrimStartParts(s, IsSpace);
    s[..|s| - |TrimStart(s, IsSpace)|]
  }

  lemma SpacesConcat(a: string, b: string)
    requires Spaces(a) && Spaces(b)
    ensures Spaces(a + b)
  {
    forall i | 0 <= i < |a + b| ensures IsSpace((a + b)[i]) {
      if i >= |a| { assert (a + b)[i] == b[i - |a|]; }
    }
  }

  /**
   * Reading the text the dialog writes gives back the stripped version and
   * the architecture, with any value other than `x86_64` read as `x86`.
   */
  lemma VersionRoundTrip(version: string, appArch: Option<string>)
    ensures ParseVersion(VersionWithArch(version, appArch))
      == (Strip(version), if appArch == Some("x86_64") then "x86_64" else "x86")
  {
    var d := ArchDisplay(appArch);
    var text := VersionWithArch(version, appArch);
    VersionTextMatch(version, d);
    assert text[..|version| + 1] == version + " ";
    assert Spaces(" ");
    StripSpaceSuffix(version, " ");
  }

  /** The text the dialog writes is matched at its parenthesis, with its word. */
  lemma VersionTextMatch(version: string, d: string)
    requires d == "x64" || d == "x86"
    ensures ArchMatch(version + " (" + d + ")") == Some((|version| + 1, d))
  {
    var text := version + " (" + d + ")";
    var n := |version|;
    assert text[n + 1] == '(' && text[n + 5] == ')';
    assert text[n + 2..n + 5] == d;
    MatchAt(text, n + 1, n + 2, n + 6);
  }

  // ---------------------------------------------------------------------
  // get_settings

  /** The dialog's text fields as the user left them. */
  datatype Fields = Fields(name: string, folder: string, connect: string, user: string, password: string,
                           versionText: string, app: string)

  /** The dictionary `get_settings` returns. */
  datatype DialogSettings = DialogSettings(name: string, folder: string, connect: string,
                                           usr: Option<string>, pwd: Option<string>, version: Option<string>,
                                           appArch: string, app: Option<string>)

  /** `text if text else None`. */
  function NoneIfEmpty(s: string): (r: Option<string>)
    ensures r.None? <==> s == ""
    ensures r.Some? ==> r.value == s
  {
    if s == "" then None else Some(s)
  }

  /** `get_settings`: the texts, empty ones as `None`, and the version and architecture read from the version box. */
  function GetSettings(f: Fields): (r: DialogSettings)
    ensures r.name == f.name && r.folder == f.folder && r.connect == f.connect
    ensures (r.usr.None? <==> f.user == "") && (r.pwd.None? <==> f.password == "") && (r.app.None? <==> f.app == "")
    ensures r.version == NoneIfEmpty(ParseVersion(f.versionText).0) && r.appArch == ParseVersion(f.versionText).1
  {
    var (version, arch) := ParseVersion(f.versionText);
    DialogSettings(f.name, f.folder, f.connect, NoneIfEmpty(f.user), NoneIfEmpty(f.password),
      NoneIfEmpty(version), arch, NoneIfEmpty(f.app))
  }

  /** The fields as the dialog fills them for a base. */
  function InitialFields(db: Database1C, installed: seq<string>): Fields {
    Fields(db.name, db.folder, db.connect,
      if Truthy(db.usr) then db.usr.value else "",
      if Truthy(db.pwd) then db.pwd.value else "",
      InitialVersionText(db, installed),
      if Truthy(db.app) then db.app.value else "")
  }

  /** An optional text with `''` and `None` made the same. */
  function Normal(s: Option<string>): Option<string> {
    if Truthy(s) then s else None
  }

  /**
   * Accepting the dialog without editing gives the base's own values back:
   * name, folder and connection string as they were, empty credentials and
   * path as `None`, the version stripped and the architecture read back.
   */
  lemma UneditedSettings(db: Database1C, installed: seq<string>)
    requires Truthy(db.version)
    ensures var s := GetSettings(InitialFields(db, installed));
      s.name == db.name && s.folder == db.folder && s.connect == db.connect
      && s.usr == Normal(db.usr) && s.pwd == Normal(db.pwd) && s.app == Normal(db.app)
      && s.version == NoneIfEmpty(Strip(db.version.value))
      && s.appArch == (if db.appArch == Some("x86_64") then "x86_64" else "x86")
  {
    VersionRoundTrip(db.version.value, db.appArch);
  }

  // ---------------------------------------------------------------------
  // _get_installed_versions

  /** What `iterdir` yields under a platform folder: the name, whether it is a folder, whether `bin/1cv8.exe` exists in it. */
  datatype DirEntry = DirEntry(name: string, isDir: bool, hasExe: bool)

  /** The platform folder for 64-bit and for 32-bit installations. */
  const X64Root: string := "C:\\Program Files\\1cv8"
  const X86Root: string := "C:\\Program Files (x86)\\1cv8"

  /** A folder entry that is an installed version. */
  predicate IsVersionDir(e: DirEntry) {
    e.isDir && e.name != "common" && e.hasExe
  }

  /** `f"{item.name} ({bitness})"`. */
  function VersionLabel(name: string, bitness: string): string {
    name + " (" + bitness + ")"
  }

  /** The labels of one platform folder, in `iterdir` order. */
  function RootLabels(entries: seq<DirEntry>, bitness: string): (r: seq<string>)
    decreases |entries|
  {
    if entries == [] then []
    else
      var init := RootLabels(entries[..|entries| - 1], bitness);
      var e := entries[|entries| - 1];
      if IsVersionDir(e) then init + [VersionLabel(e.name, bitness)] else init
  }

  /** Each listed folder's labels, the 64-bit folder first; a folder that does not exist contributes nothing. */
  function Found(roots: seq<(Option<seq<DirEntry>>, string)>): seq<string>
    decreases |roots|
  {
    if roots == [] then []
    else
      var init := Found(roots[..|roots| - 1]);
      var (listing, bitness) := roots[|roots| - 1];
      if listing.Some? then init + RootLabels(listing.value, bitness) else init
  }

  /** The 64-bit folder, then the 32-bit one, each with its listing when it exists. */
  function BasePaths(x64: Option<seq<DirEntry>>, x86: Option<seq<DirEntry>>): seq<(Option<seq<DirEntry>>, string)> {
    [(x64, "x64"), (x86, "x86")]
  }

  /** The list the version box offers. */
  function InstalledVersionsOf(windows: bool, x64: Option<seq<DirEntry>>, x86: Option<seq<DirEntry>>): seq<string> {
    if windows then SortDesc(Dedup(Found(BasePaths(x64, x86)))) else []
  }

  /**
   * `_get_installed_versions` as its loops. `windows` is `platform.system()
   * == 'Windows'`; `x64` and `x86` are the listings of the two platform
   * folders, `None` for one that does not exist.
   */
  method InstalledVersions(windows: bool, x64: Option<seq<DirEntry>>, x86: Option<seq<DirEntry>>) returns (versions: seq<string>)
    ensures versions == InstalledVersionsOf(windows, x64, x86)
  {
    versions := [];
    if windows {
      var basePaths := BasePaths(x64, x86);
      ghost var found: seq<string> := [];
      var i := 0;
      while i < |basePaths|
        invariant 0 <= i <= |basePaths|
        invariant found == Found(basePaths[..i]) && versions == Dedup(found)
      {
        PrefixFront(basePaths, i);
        var (listing, bitness) := basePaths[i];
        if listing.Some? {
          versions := AddRootLabels(listing.value, bitness, found, versions);
          found := found + RootLabels(listing.value, bitness);
        }
        i := i + 1;
      }
      assert basePaths[..i] == basePaths;
      versions := SortDesc(versions);
    }
  }

  /** The inner loop of `_get_installed_versions`: one folder's version labels, each added unless already listed. */
  method AddRootLabels(entries: seq<DirEntry>, bitness: string, ghost before: seq<string>, listed: seq<string>)
    returns (versions: seq<string>)
    requires listed == Dedup(before)
    ensures versions == Dedup(before + RootLabels(entries, bitness))
  {
    versions := listed;
    ghost var found := before;
    AppendEmpty(before);
    var j := 0;
    while j < |entries|
      invariant 0 <= j <= |entries|
      invariant found == before + RootLabels(entries[..j], bitness) && versions == Dedup(found)
    {
      PrefixFront(entries, j);
      var item := entries[j];
      if item.isDir && item.name != "common" && item.hasExe {
        var shown := VersionLabel(item.name, bitness);
        AppendAssoc(before, RootLabels(entries[..j], bitness), [shown]);
        DedupSnoc(found, shown);
        found := found + [shown];
        if shown !in versions {
          versions := versions + [shown];
        }
      }
      j := j + 1;
    }
    assert entries[..j] == entries;
  }

  /** A label is found exactly when a listed folder holds a version folder of that name. */
  lemma {:induction false} RootLabelsHas(entries: seq<DirEntry>, bitness: string, v: string)
    ensures v in RootLabels(entries, bitness)
      <==> exists k :: 0 <= k < |entries| && IsVersionDir(entries[k]) && v == VersionLabel(entries[k].name, bitness)
    decreases |entries|
  {
    if entries != [] {
      var init := entries[..|entries| - 1];
      RootLabelsHas(init, bitness, v);
      if exists k :: 0 <= k < |entries| && IsVersionDir(entries[k]) && v == VersionLabel(entries[k].name, bitness) {
        var k :| 0 <= k < |entries| && IsVersionDir(entries[k]) && v == VersionLabel(entries[k].name, bitness);
        if k < |init| { assert init[k] == entries[k]; }
      }
      if exists k :: 0 <= k < |init| && IsVersionDir(init[k]) && v == VersionLabel(init[k].name, bitness) {
        var k :| 0 <= k < |init| && IsVersionDir(init[k]) && v == VersionLabel(init[k].name, bitness);
        assert entries[k] == init[k];
      }
    }
  }

  /**
   * The offered list: on Windows, each installed version exactly once,
   * labelled with its bitness, newest (largest) first; `common` and folders
   * without `bin/1cv8.exe` are never offered. Elsewhere it is empty.
   */
  lemma InstalledVersionsProps(windows: bool, x64: Option<seq<DirEntry>>, x86: Option<seq<DirEntry>>, v: string)
    ensures var r := InstalledVersionsOf(windows, x64, x86);
      SortedDesc(r) && (forall i, j :: 0 <= i < j < |r| ==> r[i] != r[j])
      && (v in r <==> (windows && ((x64.Some? && v in RootLabels(x64.value, "x64"))
                                   || (x86.Some? && v in RootLabels(x86.value, "x86")))))
  {
    if windows {
      FoundBoth(x64, x86);
      SortedDistinctDesc(Found(BasePaths(x64, x86)));
    }
  }

  /** The labels found under both roots: the 64-bit ones, then the 32-bit ones. */
  lemma FoundBoth(x64: Option<seq<DirEntry>>, x86: Option<seq<DirEntry>>)
    ensures Found(BasePaths(x64, x86))
      == (if x64.Some? then RootLabels(x64.value, "x64") else []) + (if x86.Some? then RootLabels(x86.value, "x86") else [])
  {
    var bp := BasePaths(x64, x86);
    var first := if x64.Some? then RootLabels(x64.value, "x64") else [];
    assert bp[..1][..0] == [] && bp[..1][0] == bp[0] && bp[..|bp| - 1] == bp[..1];
    AppendEmpty(first);
    assert Found(bp[..1]) == first;
  }
}

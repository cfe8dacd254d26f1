/**
 * `BaseReader.read_bases`: the `ibases.v8i` list read line by line. A
 * bracketed line starts a new section, `key=value` lines fill it (split at
 * the first `=`, later keys overwriting earlier ones), and every section
 * that has an `ID` becomes a base, in file order.
 *
 * The file arrives as its lines, already decoded and with their line ends
 * dropped as `Strings.TextLines` drops them (`\r\n`, a lone `\r` and `\n`
 * each end a line), or as `None` when it is missing or cannot be read.
 */
module BaseReader {
  import opened Wrappers
  import opened Strings
  import opened Models

  const NoName: string := "Без имени"

  /** `data.get(key, default)`. */
  function Get(data: map<string, string>, key: string, default: string): string {
    if key in data then data[key] else default
  }

  /** `data.get(key, None)`. */
  function Lookup(data: map<string, string>, key: string): Option<string> {
    if key in data then Some(data[key]) else None
  }

  /**
   * `_create_database`: the base a section describes. The name is taken
   * from `Folder`; the other fields have the constructor's defaults.
   */
  function CreateDatabase(data: map<string, string>): (r: Database1C)
    ensures "ID" in data ==> r.id == data["ID"]
    ensures "Folder" in data ==> r.name == data["Folder"] && r.folder == data["Folder"]
    ensures "Folder" !in data ==> r.name == NoName && r.folder == ""
    ensures r.connect == (if "Connect" in data then data["Connect"] else "")
    ensures r.app.Some? <==> "App" in data
    ensures r.app.Some? ==> r.app.value == data["App"]
    ensures r.version.Some? <==> "Version" in data
    ensures r.version.Some? ==> r.version.value == data["Version"]
    ensures !r.isRecent && r.lastRunTime.None? && r.originalFolder.None?
  {
    NewDatabase(Get(data, "ID", ""), Get(data, "Folder", NoName), Get(data, "Folder", ""),
                Get(data, "Connect", ""), Lookup(data, "App"), Lookup(data, "Version"))
  }

  /** `line.startswith('[') and line.endswith(']')`. */
  predicate IsHeader(line: string) {
    line != "" && line[0] == '[' && line[|line| - 1] == ']'
  }

  /** The text between the brackets of a header. */
  function Inner(line: string): (r: string)
    requires IsHeader(line)
    ensures |r| == |line| - 2
    ensures HasChar(r, '=') <==> HasChar(line, '=')
  {
    var r := line[1..|line| - 1];
    assert forall j :: 0 <= j < |r| ==> r[j] == line[j + 1];
    assert HasChar(line, '=') ==> HasChar(r, '=') by {
      if HasChar(line, '=') {
        var j :| 0 <= j < |line| && line[j] == '=';
        assert 0 < j < |line| - 1;
        assert r[j - 1] == '=';
      }
    }
    r
  }

  /** The section a header starts: `ID` from the text after the first `=` inside the brackets, if there is one. */
  function HeaderSection(line: string): (r: map<string, string>)
    requires IsHeader(line)
    ensures "ID" in r <==> HasChar(line, '=')
    ensures r.Keys <= {"ID"}
  {
    if HasChar(line, '=') then map["ID" := SplitFirst(Inner(line), '=').1] else map[]
  }

  /** The state of the loop: the bases collected so far and the section being read. */
  datatype Reader = Reader(bases: seq<Database1C>, current: map<string, string>)

  /** A finished section becomes a base only when it has an `ID`. */
  function Flush(bases: seq<Database1C>, current: map<string, string>): (r: seq<Database1C>)
    ensures "ID" in current ==> r == bases + [CreateDatabase(current)]
    ensures "ID" !in current ==> r == bases
  {
    if "ID" in current then bases + [CreateDatabase(current)] else bases
  }

  /** One turn of the `for line in file` loop. */
  function Step(r: Reader, raw: string): Reader {
    StrippedStep(r, Strip(raw))
  }

  /** The loop body once the line is stripped. */
  function StrippedStep(r: Reader, line: string): Reader {
    if line == "" then r
    else if IsHeader(line) then Reader(Flush(r.bases, r.current), HeaderSection(line))
    else if HasChar(line, '=') then
      var kv := SplitFirst(line, '=');
      Reader(r.bases, r.current[kv.0 := kv.1])
    else r
  }

  /** The loop over all lines. */
  function Run(r: Reader, lines: seq<string>): Reader
    decreases |lines|
  {
    if lines == [] then r else Run(Step(r, lines[0]), lines[1..])
  }

  /** `read_bases`: nothing for a missing or unreadable file; otherwise the loop and the final flush. */
  function ReadResult(file: Option<seq<string>>): seq<Database1C> {
    match file
    case None => []
    case Some(lines) =>
      var r := Run(Reader([], map[]), lines);
      Flush(r.bases, r.current)
  }

  /** `read_bases` as the loop that mutates `current_base` and appends to `bases`. */
  method ReadBases(file: Option<seq<string>>) returns (bases: seq<Database1C>)
    ensures bases == ReadResult(file)
  {
    if file.None? {
      return [];
    }
    var lines := file.value;
    bases := [];
    var current: map<string, string> := map[];
    var i := 0;
    while i < |lines|
      invariant 0 <= i <= |lines|
      invariant Run(Reader(bases, current), lines[i..]) == Run(Reader([], map[]), lines)
    {
      assert lines[i..][1..] == lines[i + 1..];
      var line := Strip(lines[i]);
      if line == "" {
      } else if IsHeader(line) {
        if "ID" in current {
          bases := bases + [CreateDatabase(current)];
        }
        current := map[];
        if HasChar(line, '=') {
          var id := SplitFirst(Inner(line), '=').1;
          current := current["ID" := id];
        }
      } else if HasChar(line, '=') {
        var kv := SplitFirst(line, '=');
        current := current[kv.0 := kv.1];
      }
      i := i + 1;
    }
    if "ID" in current {
      bases := bases + [CreateDatabase(current)];
    }
  }

  // ---------------------------------------------------------------------
  // What the reader promises.

  /** Only a header can add a base, and it adds one exactly when the section it ends has an `ID`. */
  lemma {:induction false} StepAppends(r: Reader, raw: string)
    ensures var s := Step(r, raw);
      && |s.bases| == |r.bases| + (if IsHeader(Strip(raw)) && "ID" in r.current then 1 else 0)
      && s.bases[..|r.bases|] == r.bases
  {
    var s := Step(r, raw);
    assert s.bases[..|r.bases|] == r.bases;
  }

  /** Bases already read are never changed or reordered by later lines. */
  lemma {:induction false} RunExtends(r: Reader, lines: seq<string>)
    ensures var s := Run(r, lines);
      |r.bases| <= |s.bases| && s.bases[..|r.bases|] == r.bases
    decreases |lines|
  {
    if lines != [] {
      var t := Step(r, lines[0]);
      StepAppends(r, lines[0]);
      RunExtends(t, lines[1..]);
      var s := Run(r, lines);
      assert s == Run(t, lines[1..]);
      assert s.bases[..|t.bases|] == t.bases;
      assert s.bases[..|r.bases|] == s.bases[..|t.bases|][..|r.bases|];
    }
  }

  /** A blank line, whitespace included, is skipped. */
  lemma {:induction false} BlankIgnored(r: Reader, raw: string)
    requires forall i :: 0 <= i < |raw| ==> IsSpace(raw[i])
    ensures Step(r, raw) == r
  {
  }

  /** Blank lines can be inserted anywhere without changing what is read. */
  lemma {:induction false} RunSkipsBlank(r: Reader, before: seq<string>, raw: string, after: seq<string>)
    requires forall i :: 0 <= i < |raw| ==> IsSpace(raw[i])
    ensures Run(r, before + [raw] + after) == Run(r, before + after)
    decreases |before|
  {
    if before == [] {
      assert before + [raw] + after == [raw] + after;
      assert ([raw] + after)[1..] == after;
      assert before + after == after;
      BlankIgnored(r, raw);
    } else {
      assert (before + [raw] + after)[0] == before[0];
      assert (before + [raw] + after)[1..] == before[1..] + [raw] + after;
      assert (before + after)[0] == before[0];
      assert (before + after)[1..] == before[1..] + after;
      RunSkipsBlank(Step(r, before[0]), before[1..], raw, after);
    }
  }

  /** Whitespace around a line does not matter. */
  lemma {:induction false} PaddingIgnored(r: Reader, pre: string, line: string, post: string)
    requires forall i :: 0 <= i < |pre| ==> IsSpace(pre[i])
    requires forall i :: 0 <= i < |post| ==> IsSpace(post[i])
    requires line == [] || (!IsSpace(line[0]) && !IsSpace(line[|line| - 1]))
    ensures Step(r, pre + line + post) == Step(r, line)
  {
    var raw := pre + line + post;
    StripPadded(pre, line, post);
    StripIdentity(line);
    assert Strip(raw) == Strip(line);
  }

  /**
   * An entry is split at its first `=`: the key is the text before it and
   * the value everything after, further `=` signs included; the entry sets
   * that key in the current section and nothing else.
   */
  lemma {:induction false} EntrySplitsAtFirstEquals(r: Reader, key: string, value: string)
    requires key != [] && key[0] != '[' && !IsSpace(key[0])
    requires !HasChar(key, '=')
    requires value == [] || !IsSpace(value[|value| - 1])
    ensures Step(r, key + "=" + value) == Reader(r.bases, r.current[key := value])
  {
    var line := key + "=" + value;
    assert line[0] == key[0];
    assert line[|line| - 1] == if value == [] then '=' else value[|value| - 1];
    StripIdentity(line);
    assert "=" == ['='];
    SplitFirstOf(key, '=', value);
    assert !IsHeader(line);
  }

  /** Of two entries with the same key, the later one wins. */
  lemma {:induction false} LaterEntryWins(r: Reader, key: string, v1: string, v2: string)
    requires key != [] && key[0] != '[' && !IsSpace(key[0])
    requires !HasChar(key, '=')
    requires v1 == [] || !IsSpace(v1[|v1| - 1])
    requires v2 == [] || !IsSpace(v2[|v2| - 1])
    ensures var s := Run(r, [key + "=" + v1, key + "=" + v2]); key in s.current && s.current[key] == v2
  {
    var a, b := key + "=" + v1, key + "=" + v2;
    EntrySplitsAtFirstEquals(r, key, v1);
    var t := Step(r, a);
    EntrySplitsAtFirstEquals(t, key, v2);
    var u := Step(t, b);
    assert [a, b][1..] == [b];
    assert [b][1..] == [];
    assert Run(r, [a, b]) == Run(t, [b]);
    assert Run(t, [b]) == Run(u, []);
  }

  /** A header ends the section being read and starts an empty one, or one holding the header's `ID`. */
  lemma {:induction false} HeaderStartsSection(r: Reader, line: string)
    requires IsHeader(line) && Strip(line) == line
    ensures Step(r, line) == Reader(Flush(r.bases, r.current), HeaderSection(line))
    ensures "ID" in Step(r, line).current <==> HasChar(line, '=')
  {
  }

  /** A missing file gives no bases; an empty one does too. */
  lemma NothingToRead()
    ensures ReadResult(None) == []
    ensures ReadResult(Some([])) == []
  {
  }
}

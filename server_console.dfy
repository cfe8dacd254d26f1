/**
 * Opening the 1C server console (`DbServerConsoleMixin`): a PowerShell
 * script is found among a few candidate places, or written to a temporary
 * file once and remembered, and started with the base's platform version
 * and architecture.
 *
 * The candidate directories, which paths exist, whether the temporary
 * file can be made, and how `subprocess.Popen` ends are parameters; the
 * text of the fallback script is one too.
 */
module ServerConsole {
  import opened Wrappers
  import opened Strings
  import opened Models
  import opened Paths
  import opened Actions
  import opened Executable
  import Host

  const ScriptName: string := "Start-1C-Console.ps1"

  const NoBaseMessage: string := "❌ База не выбрана"
  const WindowsOnlyMessage: string := "❌ Консоль сервера 1С доступна только в Windows"
  const NoVersionMessage: string := "❌ У базы не указана версия платформы (Version=...)"
  const NoScriptMessage: string := "❌ Не удалось подготовить Start-1C-Console.ps1"
  const NoPowershellMessage: string := "❌ Не найден powershell.exe"

  function StartingMessage(version: string, x64: string): string {
    "🛠️ Запуск консоли сервера 1С: " + version + ", x64=" + x64
  }

  function StartFailedMessage(error: string): string {
    "❌ Ошибка запуска консоли сервера 1С: " + error
  }

  function TempFailedMessage(error: string): string {
    "❌ Не удалось создать временный PS1: " + error
  }

  // ---------------------------------------------------------------------
  // Architecture and arguments.

  /** The architecture names that mean a 64-bit platform. */
  predicate X64Name(a: string) {
    a == "x86_64" || a == "x64" || a == "amd64"
  }

  /** `(app_arch or '').lower().strip()` is one of the 64-bit names. */
  predicate IsX64(appArch: Option<string>) {
    X64Name(Strip(Lower(if Truthy(appArch) then appArch.value else "")))
  }

  /** Python's `"true" if is_x64 else "false"`. */
  function X64Flag(appArch: Option<string>): string {
    if IsX64(appArch) then "true" else "false"
  }

  /** The flag is one of PowerShell's two spellings and says `true` exactly for a 64-bit base. */
  lemma X64FlagMeans(appArch: Option<string>)
    ensures X64Flag(appArch) == "true" || X64Flag(appArch) == "false"
    ensures X64Flag(appArch) == "true" <==> IsX64(appArch)
  {
  }

  /** Lower-casing neither removes nor creates whitespace. */
  lemma LowerCharSpace(c: char)
    ensures IsSpace(LowerChar(c)) <==> IsSpace(c)
  {
  }

  lemma LowerConcat(a: string, b: string)
    ensures Lower(a + b) == Lower(a) + Lower(b)
  {
    var l, r := Lower(a + b), Lower(a) + Lower(b);
    forall i | 0 <= i < |l| ensures l[i] == r[i] {
      if i >= |a| {
        assert (a + b)[i] == b[i - |a|];
      }
    }
  }

  /** Whitespace around the architecture does not change the decision. */
  lemma {:induction false} X64Padded(pre: string, a: string, post: string)
    requires forall i :: 0 <= i < |pre| ==> IsSpace(pre[i])
    requires forall i :: 0 <= i < |post| ==> IsSpace(post[i])
    requires a != "" && !IsSpace(a[0]) && !IsSpace(a[|a| - 1])
    ensures IsX64(Some(pre + a + post)) <==> IsX64(Some(a))
  {
    var s := pre + a + post;
    var lp, la, lq := Lower(pre), Lower(a), Lower(post);
    LowerConcat(pre, a);
    LowerConcat(pre + a, post);
    forall i | 0 <= i < |lp| ensures IsSpace(lp[i]) {
      LowerCharSpace(pre[i]);
    }
    forall i | 0 <= i < |lq| ensures IsSpace(lq[i]) {
      LowerCharSpace(post[i]);
    }
    LowerCharSpace(a[0]);
    LowerCharSpace(a[|a| - 1]);
    StripPadded(lp, la, lq);
    StripIdentity(la);
  }

  /** The architecture key of a set, non-empty architecture. */
  lemma {:induction false} X64Key(a: string, key: string)
    requires a != "" && Lower(a) == key && Strip(key) == key
    ensures IsX64(Some(a)) <==> X64Name(key)
  {
  }

  /** Upper-case spellings count as well. */
  lemma X64UpperCase(a: string)
    requires a == "AMD64"
    ensures IsX64(Some(a))
  {
    var l := Lower(a);
    assert l[0] == 'a' && l[1] == 'm' && l[2] == 'd' && l[3] == '6' && l[4] == '4';
    assert l == "amd64";
    assert !IsSpace(l[0]) && !IsSpace(l[4]);
    StripIdentity(l);
    X64Key(a, l);
  }

  /** A 32-bit architecture does not. */
  lemma X86IsNot(a: string)
    requires a == "x86"
    ensures !IsX64(Some(a))
  {
    var l := Lower(a);
    assert |l| == 3 && l[0] == 'x' && l[1] == '8' && l[2] == '6';
    assert !IsSpace(l[0]) && !IsSpace(l[2]);
    StripIdentity(l);
    assert l != "x64" by { assert "x64"[1] == '6'; }
    assert !X64Name(l);
    X64Key(a, l);
  }

  /** Nor does a missing or empty architecture. */
  lemma {:induction false} UnsetIsNot(appArch: Option<string>)
    requires !Truthy(appArch)
    ensures !IsX64(appArch)
  {
    var e: string := [];
    assert |Lower(e)| == 0;
    assert Strip(Lower(e)) == [];
  }

  /** The PowerShell command line. */
  function ConsoleArgs(script: string, version: string, x64: string): (r: seq<string>)
    ensures |r| == 10
    ensures r[0] == "powershell" && r[5] == script && r[7] == version && r[9] == x64
    ensures r[4] == "-File" && r[6] == "-Ver" && r[8] == "-IsX64String"
  {
    ["powershell", "-NoProfile", "-ExecutionPolicy", "Bypass", "-File", script, "-Ver", version, "-IsX64String", x64]
  }

  // ---------------------------------------------------------------------
  // Candidate scripts.

  predicate Distinct(s: seq<string>) {
    forall i, j :: 0 <= i < j < |s| ==> s[i] != s[j]
  }

  /** The elements of `s` not in `seen`, each once, at its first occurrence. */
  function DedupFrom(s: seq<string>, seen: set<string>): (r: seq<string>)
    ensures forall x :: x in r <==> x in s && x !in seen
    ensures Distinct(r)
    decreases |s|
  {
    if s == [] then []
    else if s[0] in seen then DedupFrom(s[1..], seen)
    else [s[0]] + DedupFrom(s[1..], seen + {s[0]})
  }

  /** The candidates without repetitions, in the order of their first occurrence. */
  function Dedup(s: seq<string>): (r: seq<string>) {
    DedupFrom(s, {})
  }

  /** Removing repetitions keeps every candidate and leaves each once. */
  lemma {:induction false} DedupElements(s: seq<string>)
    ensures forall x :: x in Dedup(s) <==> x in s
    ensures Distinct(Dedup(s))
    ensures s != [] ==> Dedup(s)[0] == s[0]
  {
  }

  /** A list without repetitions is left as it is. */
  lemma {:induction false} DedupDistinct(s: seq<string>, seen: set<string>)
    requires Distinct(s)
    requires forall x :: x in s ==> x !in seen
    ensures DedupFrom(s, seen) == s
    decreases |s|
  {
    if s != [] {
      assert forall x :: x in s[1..] ==> x !in seen + {s[0]} by {
        forall x | x in s[1..] ensures x !in seen + {s[0]} {
          var k :| 1 <= k < |s| && s[k] == x;
        }
      }
      DedupDistinct(s[1..], seen + {s[0]});
    }
  }

  /** The candidates `_console_ps1_candidates` lists, before repetitions are removed. */
  function RawCandidates(moduleDir: string, cwd: string, meipass: Option<string>, exeDir: Option<string>): (r: seq<string>)
    ensures |r| >= 3
    ensures r[0] == PathJoin(moduleDir, ScriptName)
  {
    [PathJoin(moduleDir, ScriptName), PathJoin(cwd, ScriptName), PathJoin(PathJoin(PathJoin(cwd, "gui"), "actions"), ScriptName)]
    + (if Truthy(meipass) then [PathJoin(meipass.value, ScriptName), PathJoin(PathJoin(PathJoin(meipass.value, "gui"), "actions"), ScriptName)] else [])
    + (if exeDir.Some? then [PathJoin(exeDir.value, ScriptName), PathJoin(PathJoin(PathJoin(exeDir.value, "gui"), "actions"), ScriptName)] else [])
  }

  /**
   * The loop with a `seen` set that removes repetitions: the result is
   * `Dedup` of the candidates.
   */
  method Unique(candidates: seq<string>) returns (uniq: seq<string>)
    ensures uniq == Dedup(candidates)
  {
    uniq := [];
    var seen: set<string> := {};
    var i := 0;
    while i < |candidates|
      invariant 0 <= i <= |candidates|
      invariant uniq + DedupFrom(candidates[i..], seen) == Dedup(candidates)
    {
      var p := candidates[i];
      assert candidates[i..][1..] == candidates[i + 1..];
      if p !in seen {
        uniq := uniq + [p];
        seen := seen + {p};
      }
      i := i + 1;
    }
  }

  /** `_console_ps1_candidates`. */
  method ConsoleCandidates(moduleDir: string, cwd: string, meipass: Option<string>, exeDir: Option<string>)
    returns (r: seq<string>)
    ensures r == Dedup(RawCandidates(moduleDir, cwd, meipass, exeDir))
  {
    r := Unique(RawCandidates(moduleDir, cwd, meipass, exeDir));
  }

  // ---------------------------------------------------------------------
  // Finding or writing the script.

  /** The `for` loop over the candidates that returns the first one that exists. */
  method FirstPresent(candidates: seq<string>, present: string -> bool) returns (r: Option<string>)
    ensures r == FirstExisting(candidates, present)
  {
    var i := 0;
    while i < |candidates|
      invariant 0 <= i <= |candidates|
      invariant FirstExisting(candidates[i..], present) == FirstExisting(candidates, present)
    {
      assert candidates[i..][1..] == candidates[i + 1..];
      if present(candidates[i]) {
        return Some(candidates[i]);
      }
      i := i + 1;
    }
    return None;
  }

  /** Whether a remembered temporary script can be reused. */
  predicate CachedUsable(cached: Option<string>, present: string -> bool) {
    Truthy(cached) && present(cached.value)
  }

  /** Whether `_ensure_console_ps1` has to write the fallback script. */
  predicate MustWrite(cached: Option<string>, candidates: seq<string>, present: string -> bool) {
    !CachedUsable(cached, present) && FirstExisting(candidates, present).None?
  }

  /**
   * The script `_ensure_console_ps1` settles on: the remembered temporary
   * script while it exists, else the first existing candidate, else the
   * newly written temporary file, or none when it cannot be made.
   */
  function EnsuredScript(cached: Option<string>, candidates: seq<string>, present: string -> bool,
                         created: bool, tmpPath: string): (r: Option<string>)
  {
    if CachedUsable(cached, present) then cached
    else if FirstExisting(candidates, present).Some? then FirstExisting(candidates, present)
    else if created then Some(tmpPath)
    else None
  }

  /**
   * The script found is an existing file: the remembered one, or a
   * candidate with no existing candidate before it; otherwise it is the
   * new file, and there is none only when that could not be made.
   */
  lemma {:induction false} EnsuredScriptIsExisting(cached: Option<string>, candidates: seq<string>, present: string -> bool,
                                                   created: bool, tmpPath: string)
    ensures var r := EnsuredScript(cached, candidates, present, created, tmpPath);
      && (r.Some? && !MustWrite(cached, candidates, present) ==> present(r.value))
      && (r.Some? && !CachedUsable(cached, present) && !MustWrite(cached, candidates, present) ==>
            exists i :: 0 <= i < |candidates| && candidates[i] == r.value && forall j :: 0 <= j < i ==> !present(candidates[j]))
      && (MustWrite(cached, candidates, present) ==> (r == Some(tmpPath) <==> created) && (r.None? <==> !created))
      && (r.None? ==> MustWrite(cached, candidates, present) && !created)
  {
    FirstExistingIsFirstHit(candidates, present);
  }

  /**
   * Once written and remembered, the temporary script is reused by every
   * later call while it exists, whatever the candidates are.
   */
  lemma {:induction false} TempScriptReused(candidates: seq<string>, later: seq<string>, present: string -> bool,
                                            created: bool, tmpPath: string, otherTmp: string)
    requires tmpPath != ""
    requires present(tmpPath)
    ensures EnsuredScript(Some(tmpPath), later, present, created, otherTmp) == Some(tmpPath)
  {
  }

  /** What `_ensure_console_ps1` leaves in the log: nothing, the written file, or the failure. */
  function EnsureEffects(cached: Option<string>, candidates: seq<string>, present: string -> bool,
                         created: bool, tmpPath: string, fallback: string, error: string): seq<Host.Effect>
  {
    if !MustWrite(cached, candidates, present) then []
    else if created then [Host.FileWritten(tmpPath, fallback, "utf-8-sig")]
    else [Host.StatusMessage(TempFailedMessage(error))]
  }

  /**
   * `_ensure_console_ps1`: settles on `EnsuredScript`; the fallback text is
   * written, in UTF-8 with a byte order mark, and its path remembered only
   * when nothing existing was found; a temporary file that cannot be made
   * gives a message.
   */
  method EnsureConsolePs1(self: DatabaseActions, candidates: seq<string>, present: string -> bool,
                          created: bool, tmpPath: string, fallback: string, error: string)
    returns (r: Option<string>)
    modifies self, self.host
    ensures r == EnsuredScript(old(self.tempConsolePs1), candidates, present, created, tmpPath)
    ensures self.lastLaunchedDb == old(self.lastLaunchedDb)
    ensures self.tempConsolePs1 == if MustWrite(old(self.tempConsolePs1), candidates, present) && created
                                   then Some(tmpPath) else old(self.tempConsolePs1)
    ensures self.host.files == if MustWrite(old(self.tempConsolePs1), candidates, present) && created
                               then old(self.host.files)[tmpPath := fallback] else old(self.host.files)
    ensures self.host.log == old(self.host.log) + EnsureEffects(old(self.tempConsolePs1), candidates, present, created, tmpPath, fallback, error)
  {
    if CachedUsable(self.tempConsolePs1, present) {
      return self.tempConsolePs1;
    }
    r := FirstPresent(candidates, present);
    if r.Some? {
      return r;
    }
    if !created {
      self.host.Record(Host.StatusMessage(TempFailedMessage(error)));
      return None;
    }
    self.host.WriteFile(tmpPath, fallback, "utf-8-sig");
    self.tempConsolePs1 := Some(tmpPath);
    r := Some(tmpPath);
  }

  /** How `subprocess.Popen` ends. */
  datatype Spawn = Started | PowershellMissing | Raised(error: string)

  /** `(db.version or '').strip()`. */
  function ConsoleVersion(db: Database1C): string {
    Strip(if Truthy(db.version) then db.version.value else "")
  }

  /** The checks before any script is looked for pass. */
  predicate Ready(db: Option<Database1C>, isWindows: bool) {
    db.Some? && isWindows && ConsoleVersion(db.value) != ""
  }

  /** The script the console is started with, if the checks pass and one is found. */
  function ConsoleScript(db: Option<Database1C>, isWindows: bool, cached: Option<string>, candidates: seq<string>,
                         present: string -> bool, created: bool, tmpPath: string): Option<string>
  {
    if Ready(db, isWindows) then EnsuredScript(cached, candidates, present, created, tmpPath) else None
  }

  /** The effect of starting PowerShell: the process, or the message for the error. */
  function SpawnEffect(spawn: Spawn, cmd: seq<string>): Host.Effect {
    match spawn
    case Started => Host.ProcessSpawned(cmd)
    case PowershellMissing => Host.StatusMessage(NoPowershellMessage)
    case Raised(e) => Host.StatusMessage(StartFailedMessage(e))
  }

  /** What follows the script lookup: the message for no script, or the announcement and the start. */
  function StartEffects(script: Option<string>, version: string, x64: string, spawn: Spawn): seq<Host.Effect> {
    match script
    case None => [Host.StatusMessage(NoScriptMessage)]
    case Some(path) => [Host.StatusMessage(StartingMessage(version, x64)), SpawnEffect(spawn, ConsoleArgs(path, version, x64))]
  }

  /** Everything `open_server_console` leaves in the log, in order. */
  function ConsoleEffects(db: Option<Database1C>, isWindows: bool, cached: Option<string>, candidates: seq<string>,
                          present: string -> bool, created: bool, tmpPath: string, fallback: string, error: string,
                          spawn: Spawn): seq<Host.Effect>
  {
    if db.None? then [Host.StatusMessage(NoBaseMessage)]
    else if !isWindows then [Host.StatusMessage(WindowsOnlyMessage)]
    else if ConsoleVersion(db.value) == "" then [Host.StatusMessage(NoVersionMessage)]
    else EnsureEffects(cached, candidates, present, created, tmpPath, fallback, error)
         + StartEffects(EnsuredScript(cached, candidates, present, created, tmpPath),
                        ConsoleVersion(db.value), X64Flag(db.value.appArch), spawn)
  }

  /** A failed check stops before any script is looked for, with exactly one message. */
  lemma ChecksFirst(db: Option<Database1C>, isWindows: bool, cached: Option<string>, candidates: seq<string>,
                    present: string -> bool, created: bool, tmpPath: string, fallback: string, error: string,
                    spawn: Spawn)
    requires !Ready(db, isWindows)
    ensures var e := ConsoleEffects(db, isWindows, cached, candidates, present, created, tmpPath, fallback, error, spawn);
      |e| == 1 && e[0].StatusMessage?
  {
  }

  /** Without a script nothing is started; with one there is a start only when `Popen` succeeds. */
  lemma {:induction false} StartOnlyWithScript(script: Option<string>, version: string, x64: string, spawn: Spawn)
    ensures var e := StartEffects(script, version, x64, spawn);
      (exists k :: 0 <= k < |e| && e[k].ProcessSpawned?) <==> script.Some? && spawn == Started
  {
    var e := StartEffects(script, version, x64, spawn);
    if script.None? {
      assert forall k :: 0 <= k < |e| ==> k == 0 && e[k].StatusMessage?;
    } else if spawn == Started {
      assert e[1].ProcessSpawned?;
    } else {
      assert forall k :: 0 <= k < |e| ==> e[k].StatusMessage?;
    }
  }

  /**
   * When the console starts, the start is announced with the version and
   * the flag, then PowerShell runs the script with the base's version and
   * the architecture flag.
   */
  lemma {:induction false} StartedWithArgs(script: string, db: Database1C)
    requires ConsoleVersion(db) != ""
    ensures var e := StartEffects(Some(script), ConsoleVersion(db), X64Flag(db.appArch), Started);
      var cmd := e[1].argv;
      |e| == 2 && e[1].ProcessSpawned? && cmd[5] == script && cmd[7] == ConsoleVersion(db) && cmd[7] != ""
      && (cmd[9] == "true" <==> IsX64(db.appArch))
      && e[0] == Host.StatusMessage(StartingMessage(cmd[7], cmd[9]))
  {
    X64FlagMeans(db.appArch);
  }

  /** The part of `open_server_console` after the checks: find or write the script, announce and start. */
  method StartConsole(self: DatabaseActions, version: string, x64: string,
                      candidates: seq<string>, present: string -> bool,
                      created: bool, tmpPath: string, fallback: string, error: string, spawn: Spawn)
    returns (ok: bool)
    modifies self, self.host
    ensures self.lastLaunchedDb == old(self.lastLaunchedDb)
    ensures ok <==> EnsuredScript(old(self.tempConsolePs1), candidates, present, created, tmpPath).Some? && spawn == Started
    ensures self.tempConsolePs1 == if MustWrite(old(self.tempConsolePs1), candidates, present) && created
                                   then Some(tmpPath) else old(self.tempConsolePs1)
    ensures self.host.files == if MustWrite(old(self.tempConsolePs1), candidates, present) && created
                               then old(self.host.files)[tmpPath := fallback] else old(self.host.files)
    ensures self.host.log == old(self.host.log)
      + EnsureEffects(old(self.tempConsolePs1), candidates, present, created, tmpPath, fallback, error)
      + StartEffects(EnsuredScript(old(self.tempConsolePs1), candidates, present, created, tmpPath), version, x64, spawn)
  {
    ghost var cached := self.tempConsolePs1;
    ghost var before := self.host.log;
    var script := EnsureConsolePs1(self, candidates, present, created, tmpPath, fallback, error);
    ghost var found := before + EnsureEffects(cached, candidates, present, created, tmpPath, fallback, error);
    if script.None? {
      self.host.Record(Host.StatusMessage(NoScriptMessage));
      return false;
    }
    var cmd := ConsoleArgs(script.value, version, x64);
    self.host.Record(Host.StatusMessage(StartingMessage(version, x64)));
    self.host.Record(SpawnEffect(spawn, cmd));
    assert self.host.log == found + [Host.StatusMessage(StartingMessage(version, x64))] + [SpawnEffect(spawn, cmd)];
    assert [Host.StatusMessage(StartingMessage(version, x64))] + [SpawnEffect(spawn, cmd)]
        == StartEffects(script, version, x64, spawn);
    ok := spawn == Started;
  }

  /**
   * `open_server_console`: no base, another system or a blank version
   * gives a message and `False` before any script is looked for; no script
   * gives a message and `False`; otherwise the start is announced and
   * PowerShell started with the ten arguments, and the result says whether
   * it started.
   */
  method OpenServerConsole(self: DatabaseActions, db: Option<Database1C>, isWindows: bool,
                           candidates: seq<string>, present: string -> bool,
                           created: bool, tmpPath: string, fallback: string, error: string, spawn: Spawn)
    returns (ok: bool)
    modifies self, self.host
    ensures self.lastLaunchedDb == old(self.lastLaunchedDb)
    ensures ok <==> ConsoleScript(db, isWindows, old(self.tempConsolePs1), candidates, present, created, tmpPath).Some?
                    && spawn == Started
    ensures self.tempConsolePs1 == if Ready(db, isWindows) && MustWrite(old(self.tempConsolePs1), candidates, present) && created
                                   then Some(tmpPath) else old(self.tempConsolePs1)
    ensures self.host.files == if Ready(db, isWindows) && MustWrite(old(self.tempConsolePs1), candidates, present) && created
                               then old(self.host.files)[tmpPath := fallback] else old(self.host.files)
    ensures self.host.log == old(self.host.log)
      + ConsoleEffects(db, isWindows, old(self.tempConsolePs1), candidates, present, created, tmpPath, fallback, error, spawn)
  {
    if db.None? {
      self.host.Record(Host.StatusMessage(NoBaseMessage));
      return false;
    }
    if !isWindows {
      self.host.Record(Host.StatusMessage(WindowsOnlyMessage));
      return false;
    }
    var d := db.value;
    var version := ConsoleVersion(d);
    if version == "" {
      self.host.Record(Host.StatusMessage(NoVersionMessage));
      return false;
    }
    var x64 := X64Flag(d.appArch);
    ghost var before := self.host.log;
    ghost var found := EnsureEffects(self.tempConsolePs1, candidates, present, created, tmpPath, fallback, error);
    ghost var started := StartEffects(EnsuredScript(self.tempConsolePs1, candidates, present, created, tmpPath), version, x64, spawn);
    ok := StartConsole(self, version, x64, candidates, present, created, tmpPath, fallback, error, spawn);
    Host.AppendTwice(before, found, started);
  }
}

/**
 * The designer operations (`DbDesignerMixin`): saving the configuration to
 * the database, updating it from the repository, dumping it to a `.cf`
 * file, and the combined save-and-dump. Each writes a batch script that
 * runs the platform in `DESIGNER` mode, starts it with `cmd /c`, and
 * deletes it a minute later. The file names are built from the base name
 * and the time, made safe for Windows.
 */
module Designer {
  import opened Wrappers
  import opened Strings
  import opened Timestamps
  import opened Models
  import opened ConnectString
  import opened LaunchCommand
  import opened Executable
  import opened Paths
  import opened Actions
  import opened Batch
  import Host

  // ---------------------------------------------------------------------
  // File names.

  /** The characters `[<>:"/\\|?*\x00-\x1F]` matches: those Windows forbids in file names. */
  predicate Forbidden(c: char) {
    c == '<' || c == '>' || c == ':' || c == '"' || c == '/' || c == '\\' || c == '|' || c == '?' || c == '*'
    || c < '\U{20}'
  }

  /** No character of `s` is forbidden. */
  predicate Allowed(s: string) {
    forall i :: 0 <= i < |s| ==> !Forbidden(s[i])
  }

  /** Separators are forbidden, so an allowed name is a single path component. */
  lemma {:induction false} AllowedNoSep(s: string)
    requires Allowed(s)
    ensures NoSep(s)
  {
  }

  /** No two whitespace characters are next to each other. */
  predicate SingleSpaced(s: string) {
    forall i, j :: 0 <= i < |s| && 0 <= j < |s| && j == i + 1 ==> !(IsSpace(s[i]) && IsSpace(s[j]))
  }

  /** The first substitution: every forbidden character becomes `_`. */
  function ReplaceForbidden(s: string): (r: string)
    ensures |r| == |s| && Allowed(r)
    ensures forall i :: 0 <= i < |s| ==> r[i] == if Forbidden(s[i]) then '_' else s[i]
  {
    seq(|s|, i requires 0 <= i < |s| => if Forbidden(s[i]) then '_' else s[i])
  }

  /**
   * `re.sub(r'\s+', ' ', s)`: every run of whitespace becomes one space.
   * Other characters are kept, and the first and last characters keep
   * their kind.
   */
  function CollapseSpaces(s: string): (r: string)
    ensures r == [] <==> s == []
    ensures s != [] ==> r[0] == (if IsSpace(s[0]) then ' ' else s[0])
    ensures s != [] ==> r[|r| - 1] == (if IsSpace(s[|s| - 1]) then ' ' else s[|s| - 1])
    decreases |s|
  {
    if s == [] then []
    else if IsSpace(s[0]) then [' '] + CollapseSpaces(TrimStart(s[1..], IsSpace))
    else [s[0]] + CollapseSpaces(s[1..])
  }

  /** The only whitespace left is the plain space, and never two whitespace characters in a row. */
  lemma {:induction false} CollapseShape(s: string)
    ensures var r := CollapseSpaces(s);
      (forall i :: 0 <= i < |r| ==> r[i] == ' ' || !IsSpace(r[i])) && SingleSpaced(r)
    decreases |s|
  {
    if s != [] {
      var t := if IsSpace(s[0]) then TrimStart(s[1..], IsSpace) else s[1..];
      var c := if IsSpace(s[0]) then ' ' else s[0];
      CollapseShape(t);
      var rest := CollapseSpaces(t);
      assert CollapseSpaces(s) == [c] + rest;
      KindsCons(c, rest);
      SingleSpacedCons(c, rest);
    }
  }

  /** A plain space or a non-whitespace character in front keeps the only whitespace plain spaces. */
  lemma KindsCons(c: char, rest: string)
    requires c == ' ' || !IsSpace(c)
    requires forall i :: 0 <= i < |rest| ==> rest[i] == ' ' || !IsSpace(rest[i])
    ensures forall i :: 0 <= i < |[c] + rest| ==> ([c] + rest)[i] == ' ' || !IsSpace(([c] + rest)[i])
  {
    var r := [c] + rest;
    forall i | 0 <= i < |r|
      ensures r[i] == ' ' || !IsSpace(r[i])
    {
      if i > 0 {
        assert r[i] == rest[i - 1];
      }
    }
  }

  /** A character in front keeps single spacing unless both it and the next one are whitespace. */
  lemma SingleSpacedCons(c: char, rest: string)
    requires SingleSpaced(rest) && (rest != [] && IsSpace(c) ==> !IsSpace(rest[0]))
    ensures SingleSpaced([c] + rest)
  {
    var r := [c] + rest;
    forall i, j | 0 <= i < |r| && 0 <= j < |r| && j == i + 1
      ensures !(IsSpace(r[i]) && IsSpace(r[j]))
    {
      if i > 0 {
        assert r[i] == rest[i - 1] && r[j] == rest[j - 1];
      }
    }
  }

  /** Collapsing whitespace adds no forbidden character. */
  lemma {:induction false} CollapseAllowed(s: string)
    requires Allowed(s)
    ensures Allowed(CollapseSpaces(s))
    decreases |s|
  {
    if s != [] {
      var tail := s[1..];
      forall i | 0 <= i < |tail| ensures !Forbidden(tail[i]) {
        assert tail[i] == s[i + 1];
      }
      var t := if IsSpace(s[0]) then TrimStart(tail, IsSpace) else tail;
      var c := if IsSpace(s[0]) then ' ' else s[0];
      if IsSpace(s[0]) {
        TrimStartAllowed(tail, IsSpace);
      }
      CollapseAllowed(t);
      assert CollapseSpaces(s) == [c] + CollapseSpaces(t);
      AllowedCons(c, CollapseSpaces(t));
    }
  }

  lemma AllowedCons(c: char, rest: string)
    requires !Forbidden(c) && Allowed(rest)
    ensures Allowed([c] + rest)
  {
    var r := [c] + rest;
    forall i | 0 < i < |r| ensures !Forbidden(r[i]) {
      assert r[i] == rest[i - 1];
    }
  }

  /** Trimming the front keeps a string allowed. */
  lemma {:induction false} TrimStartAllowed(s: string, drop: char -> bool)
    requires Allowed(s)
    ensures Allowed(TrimStart(s, drop))
  {
    var r := TrimStart(s, drop);
    forall i | 0 <= i < |r| ensures !Forbidden(r[i]) {
      assert r[i] == s[|s| - |r| + i];
    }
  }

  /** Trimming keeps a string allowed. */
  lemma {:induction false} TrimAllowed(s: string, a: char -> bool, b: char -> bool)
    requires Allowed(s)
    ensures Allowed(TrimEnd(TrimStart(s, a), b))
  {
    TrimBothSlice(s, a, b);
    var t := TrimStart(s, a);
    var r := TrimEnd(t, b);
    forall i | 0 <= i < |r| ensures !Forbidden(r[i]) {
      assert r[i] == s[|s| - |t| + i];
    }
  }

  /** `_sanitize_filename`: replace forbidden characters, strip whitespace, then dots, then collapse whitespace. */
  function Sanitize(value: string): (r: string)
    ensures Allowed(r)
    ensures SingleSpaced(r)
    ensures r != [] ==> r[0] != '.' && r[|r| - 1] != '.'
  {
    var replaced := ReplaceForbidden(value);
    var stripped := StripChar(Strip(replaced), '.');
    TrimAllowed(replaced, IsSpace, IsSpace);
    TrimAllowed(Strip(replaced), x => x == '.', x => x == '.');
    CollapseAllowed(stripped);
    CollapseShape(stripped);
    CollapseSpaces(stripped)
  }

  /** A name is clean when it has no forbidden character, no surrounding whitespace or dots, and only single spaces. */
  predicate CleanName(s: string) {
    (forall i :: 0 <= i < |s| ==> !Forbidden(s[i]) && (IsSpace(s[i]) ==> s[i] == ' '))
    && SingleSpaced(s)
    && (s != [] ==> !IsSpace(s[0]) && !IsSpace(s[|s| - 1]) && s[0] != '.' && s[|s| - 1] != '.')
  }

  /** Single spaces between other characters are left as they are. */
  lemma {:induction false} CollapseSingleSpaces(s: string)
    requires forall i :: 0 <= i < |s| ==> IsSpace(s[i]) ==> s[i] == ' '
    requires SingleSpaced(s)
    ensures CollapseSpaces(s) == s
    decreases |s|
  {
    if s != [] {
      if IsSpace(s[0]) {
        if |s| > 1 {
          assert !IsSpace(s[1]);
        }
        assert TrimStart(s[1..], IsSpace) == s[1..];
      }
      CollapseSingleSpaces(s[1..]);
    }
  }

  /** An allowed string has nothing to replace. */
  lemma {:induction false} ReplaceAllowed(s: string)
    requires Allowed(s)
    ensures ReplaceForbidden(s) == s
  {
  }

  /** Clean names are exactly the names sanitising leaves unchanged. */
  lemma {:induction false} SanitizeClean(s: string)
    requires CleanName(s)
    ensures Sanitize(s) == s
  {
    ReplaceAllowed(s);
    StripIdentity(s);
    StripCharIdentity(s, '.');
    CollapseSingleSpaces(s);
  }

  const DefaultName: string := "database"

  /** Letters and digits only. */
  predicate AsciiWord(s: string) {
    forall i :: 0 <= i < |s| ==> ('a' <= s[i] <= 'z') || ('A' <= s[i] <= 'Z') || ('0' <= s[i] <= '9')
  }

  /** The fixed names used in the file names are such words. */
  lemma DefaultNameWord()
    ensures AsciiWord(DefaultName)
  {
  }

  lemma ActionWord()
    ensures AsciiWord("action")
  {
  }

  lemma OperationWords()
    ensures AsciiWord("UpdateDBCfg") && AsciiWord("DumpCfg")
  {
  }

  /** The fixed parts of the file names have no separator. */
  lemma FixedPartsNoSep()
    ensures NoSep("_") && NoSep("_log_")
  {
  }

  /** A word of ASCII letters and digits is a clean name. */
  lemma {:induction false} AsciiWordClean(s: string)
    requires AsciiWord(s)
    ensures CleanName(s) && Allowed(s)
  {
  }

  /** The safe part of a base's file names: the sanitised, stripped name, with `database` for an empty result. */
  function SafeBaseName(name: string): (r: string)
    ensures r != [] && NoSep(r) && Allowed(r)
  {
    var safe := Sanitize(Strip(if name == "" then DefaultName else name));
    DefaultNameWord();
    AsciiWordClean(DefaultName);
    var r := if safe == "" then DefaultName else safe;
    AllowedNoSep(r);
    r
  }

  /** The time stamp of file names has no separator. */
  lemma {:induction false} StampNoSep(now: Timestamp)
    requires Valid(now)
    ensures NoSep(StemStamp(now))
  {
    var stamp := StemStamp(now);
    forall i | 0 <= i < 11 ensures !IsSep(stamp[i]) {
      assert i == 6 || '0' <= stamp[i] <= '9';
    }
  }

  /** `<safe>_<yymmdd>_<HHMM>`. */
  function Stamped(safe: string, now: Timestamp): (r: string)
    requires Valid(now)
    ensures |r| == |safe| + 12
    ensures r[..|safe|] == safe && r[|safe|] == '_' && r[|safe| + 1..] == StemStamp(now)
    ensures NoSep(safe) ==> NoSep(r)
  {
    var stamp := StemStamp(now);
    StampNoSep(now);
    FixedPartsNoSep();
    assert NoSep(safe) ==> NoSep(safe + "_" + stamp) by {
      if NoSep(safe) {
        NoSepConcat(safe, "_");
        NoSepConcat(safe + "_", stamp);
      }
    }
    safe + "_" + stamp
  }

  /** `_build_base_stem`: `<safe name>_<yymmdd>_<HHMM>`. */
  function BaseStem(name: string, now: Timestamp): (r: string)
    requires Valid(now)
    ensures |r| == |SafeBaseName(name)| + 12
    ensures r[..|r| - 12] == SafeBaseName(name) && r[|r| - 12] == '_' && r[|r| - 11..] == StemStamp(now)
    ensures NoSep(r)
  {
    Stamped(SafeBaseName(name), now)
  }

  /** A clean name is used as it is. */
  lemma {:induction false} CleanNameStem(name: string, now: Timestamp)
    requires Valid(now)
    requires name != "" && CleanName(name)
    ensures BaseStem(name, now) == name + "_" + StemStamp(now)
  {
    StripIdentity(name);
    SanitizeClean(name);
  }

  /** A name of whitespace only, or no name at all, falls back to `database`. */
  lemma {:induction false} BlankNameStem(name: string, now: Timestamp)
    requires Valid(now)
    requires forall i :: 0 <= i < |name| ==> IsSpace(name[i])
    ensures BaseStem(name, now) == DefaultName + "_" + StemStamp(now)
  {
    if name != "" {
      assert Strip(name) == [];
      assert Sanitize([]) == [] by {
        assert ReplaceForbidden([]) == [];
      }
    } else {
      DefaultNameWord();
      AsciiWordClean(DefaultName);
      StripIdentity(DefaultName);
      SanitizeClean(DefaultName);
    }
  }

  /** `_build_cf_dump_path`: `<stem>.cf` in the dump directory. */
  function CfDumpPath(name: string, now: Timestamp, cfDumpDir: string): string
    requires Valid(now)
  {
    PathJoin(cfDumpDir, BaseStem(name, now) + ".cf")
  }

  /** `.cf` is an extension with a single leading dot. */
  lemma CfExtension()
    ensures |".cf"| >= 2 && ".cf"[0] == '.' && NoSep(".cf") && forall i :: 1 <= i < |".cf"| ==> ".cf"[i] != '.'
  {
  }

  /** The stem of the dump file, from which the dump's log names are built, is the base stem. */
  lemma {:induction false} CfDumpStem(name: string, now: Timestamp, cfDumpDir: string)
    requires Valid(now)
    ensures Stem(CfDumpPath(name, now, cfDumpDir)) == BaseStem(name, now)
    ensures Suffix(CfDumpPath(name, now, cfDumpDir)) == ".cf"
  {
    var n := BaseStem(name, now);
    assert n != [] && NoSep(n);
    CfExtension();
    StemOfExtension(cfDumpDir, n, ".cf");
  }

  /** `_get_log_dir`: the parent of `LOG_PATH` when it names a file (it has a suffix), else `LOG_PATH` itself. */
  function LogDir(logPath: string): string {
    if Suffix(logPath) != "" then Parent(logPath) else logPath
  }

  /** The extension of log files: that of `LOG_PATH`, or `.txt`. */
  function LogExt(logPath: string): (r: string)
    ensures r != [] && r[0] == '.' && NoSep(r)
  {
    if Suffix(logPath) != "" then Suffix(logPath) else ".txt"
  }

  /** The action's part of a log name: the sanitised action, or `action` when nothing is left. */
  function ActionPart(action: string): (r: string)
    ensures r != [] && NoSep(r)
  {
    var safe := Sanitize(action);
    ActionWord();
    AsciiWordClean("action");
    var r := if safe != "" then safe else "action";
    AllowedNoSep(r);
    r
  }

  /** A non-empty word of letters and digits is its own action part. */
  lemma {:induction false} WordActionPart(action: string)
    requires action != [] && AsciiWord(action)
    ensures ActionPart(action) == action
  {
    AsciiWordClean(action);
    SanitizeClean(action);
  }

  /** The file name of an action's log. */
  function ActionLogName(baseStem: string, action: string, logPath: string): (r: string)
    ensures NoSep(baseStem) ==> NoSep(r)
  {
    var act := ActionPart(action);
    FixedPartsNoSep();
    assert NoSep(baseStem) ==> NoSep(baseStem + "_log_" + act + LogExt(logPath)) by {
      if NoSep(baseStem) {
        NoSepConcat(baseStem, "_log_");
        NoSepConcat(baseStem + "_log_", act);
        NoSepConcat(baseStem + "_log_" + act, LogExt(logPath));
      }
    }
    baseStem + "_log_" + act + LogExt(logPath)
  }

  /** `_build_action_log_path`: `<stem>_log_<action><ext>` in the log directory. */
  function ActionLogPath(baseStem: string, action: string, logPath: string): string {
    PathJoin(LogDir(logPath), ActionLogName(baseStem, action, logPath))
  }

  /** The log's directory is the log directory and its name is `<stem>_log_<action><ext>`. */
  lemma {:induction false} ActionLogParts(baseStem: string, action: string, logPath: string)
    requires NoSep(baseStem)
    ensures Parent(ActionLogPath(baseStem, action, logPath)) == LogDir(logPath)
    ensures Name(ActionLogPath(baseStem, action, logPath)) == ActionLogName(baseStem, action, logPath)
  {
    NameOfJoin(LogDir(logPath), ActionLogName(baseStem, action, logPath));
  }

  /** The save and the dump of the combined operation write to different logs. */
  lemma {:induction false} DistinctActionLogs(baseStem: string, logPath: string)
    ensures ActionLogPath(baseStem, "UpdateDBCfg", logPath) != ActionLogPath(baseStem, "DumpCfg", logPath)
  {
    OperationWords();
    WordActionPart("UpdateDBCfg");
    WordActionPart("DumpCfg");
    var ext := LogExt(logPath);
    assert ActionLogName(baseStem, "UpdateDBCfg", logPath) == baseStem + "_log_" + "UpdateDBCfg" + ext;
    assert ActionLogName(baseStem, "DumpCfg", logPath) == baseStem + "_log_" + "DumpCfg" + ext;
    JoinedLogsDiffer(LogDir(logPath), baseStem, "UpdateDBCfg", "DumpCfg", ext);
  }

  /** Log paths whose action parts start with different characters differ. */
  lemma {:induction false} JoinedLogsDiffer(dir: string, stem: string, a: string, b: string, ext: string)
    requires a != [] && b != [] && a[0] != b[0]
    ensures PathJoin(dir, stem + "_log_" + a + ext) != PathJoin(dir, stem + "_log_" + b + ext)
  {
    var k := |dir| + 1 + |stem| + 5;
    assert PathJoin(dir, stem + "_log_" + a + ext)[k] == a[0];
    assert PathJoin(dir, stem + "_log_" + b + ext)[k] == b[0];
  }

  // ---------------------------------------------------------------------
  // Batch scripts.

  /** `_build_base_param_for_bat`: `/S"<parsed>"` for a base with a connection string, nothing otherwise. */
  function BaseParam(db: Database1C): (r: string)
    ensures r == "" <==> Strip(db.connect) == ""
  {
    var connect := Strip(db.connect);
    if connect == "" then "" else "/S\"" + ParseServerConnectString(connect) + "\""
  }

  /** The parameter is empty exactly for a blank connection string. */
  lemma {:induction false} BaseParamEmpty(db: Database1C)
    ensures BaseParam(db) == "" <==> forall i :: 0 <= i < |db.connect| ==> IsSpace(db.connect[i])
  {
  }

  /** For a connection string without surrounding whitespace the batch gets the same `/S` parameter as a launch. */
  lemma {:induction false} BaseParamMatchesLaunch(db: Database1C)
    requires db.connect == [] || (!IsSpace(db.connect[0]) && !IsSpace(db.connect[|db.connect| - 1]))
    ensures BaseParam(db) == "" <==> ConnectParam(db) == []
    ensures BaseParam(db) != "" ==> ConnectParam(db) == [BaseParam(db)]
  {
    StripIdentity(db.connect);
    assert Strip(db.connect) == db.connect;
  }

  /** A stored client-server connection string starts with `S` and ends with a quote. */
  lemma {:induction false} ServerConnectEnds(server: string, ref: string)
    ensures var c := ServerConnect(server, ref); c[0] == 'S' && c[|c| - 1] == '"'
  {
  }

  /** A client-server base stored as `Srvr="…";Ref="…"` gets `/S"<server>\<base>"`. */
  lemma {:induction false} BaseParamOfServer(db: Database1C, server: string, ref: string)
    requires db.connect == ServerConnect(server, ref)
    requires QuotableValue(server) && QuotableValue(ref) && !EndsLikeRefKey(server)
    ensures BaseParam(db) == "/S\"" + server + "\\" + ref + "\""
  {
    var c := ServerConnect(server, ref);
    ServerConnectStripped(server, ref);
    BaseParamOfStripped(db, c);
    ParseServerConnect(server, ref);
    AppendAssoc("/S\"", server + "\\", ref);
    AppendAssoc("/S\"", server, "\\");
  }

  lemma {:induction false} ServerConnectStripped(server: string, ref: string)
    ensures Strip(ServerConnect(server, ref)) == ServerConnect(server, ref) != ""
  {
    ServerConnectEnds(server, ref);
    StripIdentity(ServerConnect(server, ref));
  }

  lemma {:induction false} BaseParamOfStripped(db: Database1C, c: string)
    requires Strip(db.connect) == c != ""
    ensures BaseParam(db) == "/S\"" + ParseServerConnectString(c) + "\""
  {
  }

  /**
   * `_build_credentials_for_bat`: the designer's user and password, each
   * falling back to the generic one, as `/N"…"` and `/P"…"` separated by a
   * space; empty ones are left out.
   */
  function CredentialsArg(db: Database1C): (r: string)
    ensures var usr := Or(db.usrConfigurator, db.usr); var pwd := Or(db.pwdConfigurator, db.pwd);
      (Truthy(usr) && Truthy(pwd) ==> r == "/N\"" + usr.value + "\" /P\"" + pwd.value + "\"")
      && (Truthy(usr) && !Truthy(pwd) ==> r == "/N\"" + usr.value + "\"")
      && (!Truthy(usr) && Truthy(pwd) ==> r == "/P\"" + pwd.value + "\"")
      && (!Truthy(usr) && !Truthy(pwd) ==> r == "")
  {
    var ps := CredentialParams(Or(db.usrConfigurator, db.usr), Or(db.pwdConfigurator, db.pwd));
    assert |ps| == 2 ==> Join(ps, " ") == ps[0] + " " + ps[1] by {
      if |ps| == 2 {
        assert ps[..1] == [ps[0]];
      }
    }
    Join(ps, " ")
  }

  /** The batch credentials are the parameters a configurator launch passes, separated by spaces. */
  lemma {:induction false} CredentialsMatchLaunch(db: Database1C)
    ensures var creds := ModeCredentials(db, LaunchCommand.Designer);
      CredentialsArg(db) == Join(CredentialParams(creds.0, creds.1), " ")
  {
  }

  function Quoted(s: string): string {
    "\"" + s + "\""
  }

  const UpdateTitle: string := "Обновление конфигурации БД..."
  const RepositoryTitle: string := "Обновление конфигурации из хранилища..."
  const DumpTitle: string := "Выгрузка конфигурации..."
  const UpdateFailure: string := "ОШИБКА при обновлении конфигурации!"
  const DumpFailure: string := "ОШИБКА при выгрузке!"
  const UpdateAction: string := "/UpdateDBCfg"
  const RepositoryAction: string := "/ConfigurationRepositoryUpdateCfg -v -1 -revised -force /UpdateDBCfg"
  const DumpAction: string := "/DumpCfg"

  const Prologue: seq<Stmt> := [Text("@echo off"), Text("chcp 65001 >nul")]
  const Epilogue: seq<Stmt> := [ExitSuccess, Text("")]

  /** The variable block: platform, base, the files of the operation, credentials, then a blank line. */
  function Settings(exe: string, base: string, creds: string, files: seq<Stmt>): seq<Stmt> {
    [SetVar(Platform, Quoted(exe)), SetVar(Base, base)] + files
    + [SetVar(Credentials, creds), Text("")]
  }

  /** One designer run: its title, the run, the error check, a blank line. */
  function Step(title: string, action: string, toDump: bool, logVar: Var, failure: string): seq<Stmt> {
    [Text("echo " + title), RunDesigner(action, toDump, logVar), FailIfError(failure), Text("")]
  }

  /** `_build_update_db_cfg_bat`. */
  function UpdateDbCfgScript(exe: string, base: string, creds: string, log: string): seq<Stmt> {
    Prologue + Settings(exe, base, creds, [SetVar(Log, Quoted(log))])
    + Step(UpdateTitle, UpdateAction, false, Log, UpdateFailure) + Epilogue
  }

  /** `_build_repo_update_cfg_bat`: the repository update and the database update in one run. */
  function RepoUpdateCfgScript(exe: string, base: string, creds: string, log: string): seq<Stmt> {
    Prologue + Settings(exe, base, creds, [SetVar(Log, Quoted(log))])
    + Step(RepositoryTitle, RepositoryAction, false, Log, UpdateFailure) + Epilogue
  }

  /** `_build_dump_cf_bat`. */
  function DumpCfScript(exe: string, base: string, creds: string, dump: string, log: string): seq<Stmt> {
    Prologue + Settings(exe, base, creds, [SetVar(Log, Quoted(log)), SetVar(Dump, Quoted(dump))])
    + Step(DumpTitle, DumpAction, true, Log, DumpFailure) + Epilogue
  }

  /** `_build_save_and_dump_cf_bat`: the update, then the dump, each with its own log named after the dump's stem. */
  function SaveAndDumpCfScript(exe: string, base: string, creds: string, dump: string, logPath: string): seq<Stmt> {
    var stem := Stem(dump);
    SaveAndDumpScriptWith(exe, base, creds, dump, ActionLogPath(stem, "UpdateDBCfg", logPath), ActionLogPath(stem, "DumpCfg", logPath))
  }

  /** The combined script for given log files. */
  function SaveAndDumpScriptWith(exe: string, base: string, creds: string, dump: string, logUpdate: string, logDump: string): seq<Stmt> {
    [Text("chcp 65001 >nul"), Text("@echo off")]
    + Settings(exe, base, creds, [SetVar(LogUpdate, Quoted(logUpdate)), SetVar(LogDump, Quoted(logDump)), SetVar(Dump, Quoted(dump))])
    + Step(UpdateTitle, UpdateAction, false, LogUpdate, UpdateFailure)
    + Step(DumpTitle, DumpAction, true, LogDump, DumpFailure)
    + Epilogue
  }

  /** A prologue and variable block run nothing and end nothing. */
  lemma {:induction false} SettingsQuiet(pre: seq<Stmt>, exe: string, base: string, creds: string, files: seq<Stmt>)
    requires Quiet(pre) && Quiet(files)
    ensures Quiet(pre + Settings(exe, base, creds, files))
  {
    var s := pre + Settings(exe, base, creds, files);
    var n := |pre| + 2 + |files|;
    forall i | 0 <= i < |s| ensures s[i].Text? || s[i].SetVar? {
      if i < |pre| {
        assert s[i] == pre[i];
      } else if i < |pre| + 2 {
      } else if i < n {
        assert s[i] == files[i - |pre| - 2];
      }
    }
  }

  /** A script of one step ends with 0 exactly when its run succeeds, and runs only that step. */
  lemma {:induction false} OneStepOutcome(pre: seq<Stmt>, title: string, action: string, toDump: bool, logVar: Var,
                                           failure: string, level: nat -> int)
    requires Quiet(pre)
    ensures Exec(pre + Step(title, action, toDump, logVar, failure) + Epilogue, level, 0, [])
      == Outcome(if level(0) >= 1 then 1 else 0, [action])
  {
    var tail := [Text("")] + Epilogue;
    assert pre + Step(title, action, toDump, logVar, failure) + Epilogue
      == (pre + [Text("echo " + title)]) + ([RunDesigner(action, toDump, logVar), FailIfError(failure)] + tail);
    QuietPrefix(pre + [Text("echo " + title)], [RunDesigner(action, toDump, logVar), FailIfError(failure)] + tail, level, 0, []);
    GuardedRun(action, toDump, logVar, failure, tail, level, 0, []);
    QuietPrefix([Text("")], Epilogue, level, level(0), [action]);
  }

  /**
   * A script of two steps runs the second only when the first succeeds, and
   * ends with 0 exactly when both do.
   */
  lemma {:induction false} TwoStepOutcome(pre: seq<Stmt>, title1: string, action1: string, toDump1: bool, logVar1: Var, failure1: string,
                                           title2: string, action2: string, toDump2: bool, logVar2: Var, failure2: string,
                                           level: nat -> int)
    requires Quiet(pre)
    ensures Exec(pre + Step(title1, action1, toDump1, logVar1, failure1) + Step(title2, action2, toDump2, logVar2, failure2) + Epilogue, level, 0, [])
      == if level(0) >= 1 then Outcome(1, [action1])
         else Outcome(if level(1) >= 1 then 1 else 0, [action1, action2])
  {
    var tail2 := [Text("")] + Epilogue;
    var run2 := [RunDesigner(action2, toDump2, logVar2), FailIfError(failure2)] + tail2;
    var tail1 := [Text(""), Text("echo " + title2)] + run2;
    var run1 := [RunDesigner(action1, toDump1, logVar1), FailIfError(failure1)] + tail1;
    assert pre + Step(title1, action1, toDump1, logVar1, failure1) + Step(title2, action2, toDump2, logVar2, failure2) + Epilogue
      == (pre + [Text("echo " + title1)]) + run1;
    var none: seq<string> := [];
    QuietPrefix(pre + [Text("echo " + title1)], run1, level, 0, none);
    GuardedRun(action1, toDump1, logVar1, failure1, tail1, level, 0, none);
    assert none + [action1] == [action1];
    if level(0) < 1 {
      assert tail1 == [Text(""), Text("echo " + title2)] + run2;
      QuietPrefix([Text(""), Text("echo " + title2)], run2, level, level(0), [action1]);
      GuardedRun(action2, toDump2, logVar2, failure2, tail2, level, level(0), [action1]);
      assert |[action1]| == 1;
      assert [action1] + [action2] == [action1, action2];
      QuietPrefix([Text("")], Epilogue, level, level(1), [action1, action2]);
      assert Exec(Epilogue, level, level(1), [action1, action2]) == Outcome(0, [action1, action2]);
    }
  }

  /** `save_cfg`'s script exits 0 exactly when the update succeeds. */
  lemma {:induction false} UpdateOutcome(exe: string, base: string, creds: string, log: string, level: nat -> int)
    ensures Exec(UpdateDbCfgScript(exe, base, creds, log), level, 0, []) == Outcome(if level(0) >= 1 then 1 else 0, [UpdateAction])
  {
    var files := [SetVar(Log, Quoted(log))];
    SettingsQuiet(Prologue, exe, base, creds, files);
    OneStepOutcome(Prologue + Settings(exe, base, creds, files), UpdateTitle, UpdateAction, false, Log, UpdateFailure, level);
  }

  /** The repository update and the database update are one run; the script exits 0 exactly when it succeeds. */
  lemma {:induction false} RepoUpdateOutcome(exe: string, base: string, creds: string, log: string, level: nat -> int)
    ensures Exec(RepoUpdateCfgScript(exe, base, creds, log), level, 0, []) == Outcome(if level(0) >= 1 then 1 else 0, [RepositoryAction])
  {
    var files := [SetVar(Log, Quoted(log))];
    SettingsQuiet(Prologue, exe, base, creds, files);
    OneStepOutcome(Prologue + Settings(exe, base, creds, files), RepositoryTitle, RepositoryAction, false, Log, UpdateFailure, level);
  }

  /** `dump_cf`'s script exits 0 exactly when the dump succeeds. */
  lemma {:induction false} DumpOutcome(exe: string, base: string, creds: string, dump: string, log: string, level: nat -> int)
    ensures Exec(DumpCfScript(exe, base, creds, dump, log), level, 0, []) == Outcome(if level(0) >= 1 then 1 else 0, [DumpAction])
  {
    var files := [SetVar(Log, Quoted(log)), SetVar(Dump, Quoted(dump))];
    SettingsQuiet(Prologue, exe, base, creds, files);
    OneStepOutcome(Prologue + Settings(exe, base, creds, files), DumpTitle, DumpAction, true, Log, DumpFailure, level);
  }

  /** The combined script dumps only after a successful update, and exits 0 only when both succeed. */
  lemma {:induction false} SaveAndDumpOutcome(exe: string, base: string, creds: string, dump: string, logPath: string, level: nat -> int)
    ensures Exec(SaveAndDumpCfScript(exe, base, creds, dump, logPath), level, 0, [])
      == if level(0) >= 1 then Outcome(1, [UpdateAction])
         else Outcome(if level(1) >= 1 then 1 else 0, [UpdateAction, DumpAction])
  {
    var stem := Stem(dump);
    SaveAndDumpWithOutcome(exe, base, creds, dump, ActionLogPath(stem, "UpdateDBCfg", logPath), ActionLogPath(stem, "DumpCfg", logPath), level);
  }

  lemma {:induction false} SaveAndDumpWithOutcome(exe: string, base: string, creds: string, dump: string, logUpdate: string, logDump: string, level: nat -> int)
    ensures Exec(SaveAndDumpScriptWith(exe, base, creds, dump, logUpdate, logDump), level, 0, [])
      == if level(0) >= 1 then Outcome(1, [UpdateAction])
         else Outcome(if level(1) >= 1 then 1 else 0, [UpdateAction, DumpAction])
  {
    var files := [SetVar(LogUpdate, Quoted(logUpdate)), SetVar(LogDump, Quoted(logDump)), SetVar(Dump, Quoted(dump))];
    var chcpFirst := [Text("chcp 65001 >nul"), Text("@echo off")];
    SettingsQuiet(chcpFirst, exe, base, creds, files);
    TwoStepOutcome(chcpFirst + Settings(exe, base, creds, files), UpdateTitle, UpdateAction, false, LogUpdate, UpdateFailure,
                   DumpTitle, DumpAction, true, LogDump, DumpFailure, level);
  }

  /** A one-step script whose prefix sets what the run reads sets every variable before it is read. */
  lemma {:induction false} OneStepSetFirst(pre: seq<Stmt>, title: string, action: string, toDump: bool, logVar: Var, failure: string)
    requires Quiet(pre) && RunVars(RunDesigner(action, toDump, logVar)) <= Assigned(pre)
    ensures SetBeforeUse(pre + Step(title, action, toDump, logVar, failure) + Epilogue)
  {
    var steps := Step(title, action, toDump, logVar, failure) + Epilogue;
    assert pre + Step(title, action, toDump, logVar, failure) + Epilogue == pre + steps;
    forall i | 0 <= i < |steps| && steps[i].RunDesigner? ensures RunVars(steps[i]) <= Assigned(pre) {
      assert i == 1;
    }
    SetFirst(pre, steps);
  }

  /** The same for a two-step script. */
  lemma {:induction false} TwoStepSetFirst(pre: seq<Stmt>, title1: string, action1: string, toDump1: bool, logVar1: Var, failure1: string,
                                            title2: string, action2: string, toDump2: bool, logVar2: Var, failure2: string)
    requires Quiet(pre)
    requires RunVars(RunDesigner(action1, toDump1, logVar1)) <= Assigned(pre)
    requires RunVars(RunDesigner(action2, toDump2, logVar2)) <= Assigned(pre)
    ensures SetBeforeUse(pre + Step(title1, action1, toDump1, logVar1, failure1) + Step(title2, action2, toDump2, logVar2, failure2) + Epilogue)
  {
    var steps := Step(title1, action1, toDump1, logVar1, failure1) + Step(title2, action2, toDump2, logVar2, failure2) + Epilogue;
    assert pre + Step(title1, action1, toDump1, logVar1, failure1) + Step(title2, action2, toDump2, logVar2, failure2) + Epilogue
      == pre + steps;
    forall i | 0 <= i < |steps| && steps[i].RunDesigner? ensures RunVars(steps[i]) <= Assigned(pre) {
      assert i == 1 || i == 5;
    }
    SetFirst(pre, steps);
  }

  /** What a variable block sets: the platform, the base, the files and the credentials. */
  lemma {:induction false} SettingsAssign(pre: seq<Stmt>, exe: string, base: string, creds: string, files: seq<Stmt>)
    ensures {Platform, Base, Credentials} <= Assigned(pre + Settings(exe, base, creds, files))
    ensures forall k :: 0 <= k < |files| && files[k].SetVar? ==> files[k].name in Assigned(pre + Settings(exe, base, creds, files))
  {
    var s := pre + Settings(exe, base, creds, files);
    assert s[|pre|].name == Platform && s[|pre| + 1].name == Base;
    assert s[|pre| + 2 + |files|].name == Credentials;
    forall k | 0 <= k < |files| && files[k].SetVar? ensures files[k].name in Assigned(s) {
      assert s[|pre| + 2 + k] == files[k];
    }
  }

  /** Every script sets each variable a designer run reads before that run. */
  lemma {:induction false} UpdateSetFirst(exe: string, base: string, creds: string, log: string)
    ensures SetBeforeUse(UpdateDbCfgScript(exe, base, creds, log))
    ensures SetBeforeUse(RepoUpdateCfgScript(exe, base, creds, log))
  {
    var files := [SetVar(Log, Quoted(log))];
    SettingsQuiet(Prologue, exe, base, creds, files);
    SettingsAssign(Prologue, exe, base, creds, files);
    var a := Assigned(Prologue + Settings(exe, base, creds, files));
    assert files[0].name == Log;
    assert Log in a;
    assert RunVars(RunDesigner(UpdateAction, false, Log)) == {Platform, Base, Credentials, Log};
    assert RunVars(RunDesigner(RepositoryAction, false, Log)) == {Platform, Base, Credentials, Log};
    OneStepSetFirst(Prologue + Settings(exe, base, creds, files), UpdateTitle, UpdateAction, false, Log, UpdateFailure);
    OneStepSetFirst(Prologue + Settings(exe, base, creds, files), RepositoryTitle, RepositoryAction, false, Log, UpdateFailure);
  }

  lemma {:induction false} DumpSetFirst(exe: string, base: string, creds: string, dump: string, log: string)
    ensures SetBeforeUse(DumpCfScript(exe, base, creds, dump, log))
  {
    var files := [SetVar(Log, Quoted(log)), SetVar(Dump, Quoted(dump))];
    SettingsQuiet(Prologue, exe, base, creds, files);
    SettingsAssign(Prologue, exe, base, creds, files);
    var a := Assigned(Prologue + Settings(exe, base, creds, files));
    assert files[0].name == Log && files[1].name == Dump;
    assert Log in a && Dump in a;
    assert RunVars(RunDesigner(DumpAction, true, Log)) == {Platform, Base, Credentials, Log, Dump};
    OneStepSetFirst(Prologue + Settings(exe, base, creds, files), DumpTitle, DumpAction, true, Log, DumpFailure);
  }

  lemma {:induction false} SaveAndDumpSetFirst(exe: string, base: string, creds: string, dump: string, logUpdate: string, logDump: string)
    ensures SetBeforeUse(SaveAndDumpScriptWith(exe, base, creds, dump, logUpdate, logDump))
  {
    var files := [SetVar(LogUpdate, Quoted(logUpdate)), SetVar(LogDump, Quoted(logDump)), SetVar(Dump, Quoted(dump))];
    var chcpFirst := [Text("chcp 65001 >nul"), Text("@echo off")];
    SettingsQuiet(chcpFirst, exe, base, creds, files);
    SettingsAssign(chcpFirst, exe, base, creds, files);
    var a := Assigned(chcpFirst + Settings(exe, base, creds, files));
    assert files[0].name == LogUpdate && files[1].name == LogDump && files[2].name == Dump;
    assert LogUpdate in a && LogDump in a && Dump in a;
    assert RunVars(RunDesigner(UpdateAction, false, LogUpdate)) == {Platform, Base, Credentials, LogUpdate};
    assert RunVars(RunDesigner(DumpAction, true, LogDump)) == {Platform, Base, Credentials, LogDump, Dump};
    TwoStepSetFirst(chcpFirst + Settings(exe, base, creds, files), UpdateTitle, UpdateAction, false, LogUpdate, UpdateFailure,
                    DumpTitle, DumpAction, true, LogDump, DumpFailure);
  }

  // ---------------------------------------------------------------------
  // The operations.

  datatype Operation = SaveCfg | RepositoryUpdate | DumpCf | SaveAndDumpCf

  /** Whether an operation writes a `.cf` file. */
  predicate Dumps(op: Operation) {
    op == DumpCf || op == SaveAndDumpCf
  }

  /** Delay before the script is deleted. */
  const CleanupDelayMs: nat := 60000

  const NoBaseMessage: string := "❌ База не выбрана"
  const NoDesignerMessage: string := "❌ Не удалось найти 1cv8.exe для конфигуратора"

  function WindowsOnlyMessage(op: Operation): string {
    if Dumps(op) then "❌ Выгрузка CF поддерживается только в Windows"
    else "❌ Операция поддерживается только в Windows"
  }

  /** The status-bar message when preparing the operation raises `error`. */
  function PrepareFailedMessage(op: Operation, error: string): string {
    match op
    case SaveCfg => "❌ Ошибка подготовки UpdateDBCfg: " + error
    case RepositoryUpdate => "❌ Ошибка подготовки RepositoryUpdateCfg: " + error
    case DumpCf => "❌ Ошибка подготовки DumpCfg: " + error
    case SaveAndDumpCf => "❌ Ошибка подготовки выгрузки CF: " + error
  }

  /**
   * What an operation prepares: the directories it creates, in order, the
   * log files and the dump file its script names, the script, and the
   * message shown once the script is started.
   */
  datatype Plan = Plan(dirs: seq<string>, logs: seq<string>, dump: Option<string>, script: seq<Stmt>, started: string)

  /** The message shown once an operation's script is started. */
  function StartedMessage(op: Operation, dump: string, log: string): string {
    match op
    case SaveCfg => "💾 Обновление конфигурации запущено (log: " + log + ")"
    case RepositoryUpdate => "📥 Обновление из хранилища запущено (log: " + log + ")"
    case DumpCf => "📦 Выгрузка CF запущена: " + dump + " (log: " + log + ")"
    case SaveAndDumpCf => "💾 Выгрузка CF запущена: " + dump
  }

  /** The action names an operation's logs are named after, one per run. */
  function LogActions(op: Operation): (r: seq<string>)
    ensures 1 <= |r| <= 2
  {
    match op
    case SaveCfg => ["UpdateDBCfg"]
    case RepositoryUpdate => ["RepositoryUpdateCfg"]
    case DumpCf => ["DumpCfg"]
    case SaveAndDumpCf => ["UpdateDBCfg", "DumpCfg"]
  }

  /** The log of each action, in order. */
  function LogsFor(logStem: string, actions: seq<string>, logPath: string): (r: seq<string>)
    ensures |r| == |actions|
    ensures forall i :: 0 <= i < |actions| ==> r[i] == ActionLogPath(logStem, actions[i], logPath)
  {
    seq(|actions|, i requires 0 <= i < |actions| => ActionLogPath(logStem, actions[i], logPath))
  }

  /** The dump file of a base whose file names start with `stem`. */
  function DumpFile(stem: string, cfDumpDir: string): string {
    PathJoin(cfDumpDir, stem + ".cf")
  }

  /** The stem the logs are named after: the dump's for the operations that dump. */
  function LogStem(op: Operation, stem: string, cfDumpDir: string): string {
    if Dumps(op) then Stem(DumpFile(stem, cfDumpDir)) else stem
  }

  /** The log files an operation's script names. */
  function PlanLogs(op: Operation, stem: string, cfDumpDir: string, logPath: string): (r: seq<string>)
    ensures 1 <= |r| <= 2
  {
    LogsFor(LogStem(op, stem, cfDumpDir), LogActions(op), logPath)
  }

  /** The directories an operation creates, in order: the dump's, then the log's (the log directory for the combined one). */
  function PlanDirs(op: Operation, stem: string, cfDumpDir: string, logPath: string): (r: seq<string>)
    ensures 1 <= |r| <= 2
  {
    var log := PlanLogs(op, stem, cfDumpDir, logPath)[0];
    match op
    case SaveCfg => [Parent(log)]
    case RepositoryUpdate => [Parent(log)]
    case DumpCf => [Parent(DumpFile(stem, cfDumpDir)), Parent(log)]
    case SaveAndDumpCf => [Parent(DumpFile(stem, cfDumpDir)), LogDir(logPath)]
  }

  /** The script of an operation. */
  function PlanScript(op: Operation, exe: string, base: string, creds: string, stem: string,
                      cfDumpDir: string, logPath: string): seq<Stmt> {
    var dump := DumpFile(stem, cfDumpDir);
    var log := PlanLogs(op, stem, cfDumpDir, logPath)[0];
    match op
    case SaveCfg => UpdateDbCfgScript(exe, base, creds, log)
    case RepositoryUpdate => RepoUpdateCfgScript(exe, base, creds, log)
    case DumpCf => DumpCfScript(exe, base, creds, dump, log)
    case SaveAndDumpCf => SaveAndDumpCfScript(exe, base, creds, dump, logPath)
  }

  /** The plan for a base whose file names start with `stem`, its batch parameters computed. */
  function PlanOf(op: Operation, exe: string, base: string, creds: string, stem: string,
                  cfDumpDir: string, logPath: string): (r: Plan)
    ensures 1 <= |r.dirs| <= 2
    ensures r.dump.Some? <==> Dumps(op)
  {
    var dump := DumpFile(stem, cfDumpDir);
    Plan(PlanDirs(op, stem, cfDumpDir, logPath), PlanLogs(op, stem, cfDumpDir, logPath),
         if Dumps(op) then Some(dump) else None,
         PlanScript(op, exe, base, creds, stem, cfDumpDir, logPath),
         StartedMessage(op, dump, PlanLogs(op, stem, cfDumpDir, logPath)[0]))
  }

  /** The plan for a base at time `now`, with the executable `exe`. */
  function PlanFor(op: Operation, exe: string, db: Database1C, now: Timestamp, cfDumpDir: string, logPath: string): (r: Plan)
    requires Valid(now)
    ensures 1 <= |r.dirs| <= 2
    ensures r.dump.Some? <==> Dumps(op)
  {
    PlanOf(op, exe, BaseParam(db), CredentialsArg(db), BaseStem(db.name, now), cfDumpDir, logPath)
  }

  /** For a stem without separators the dump is `<stem>.cf`, and the logs are named after the stem itself. */
  lemma {:induction false} PlanLogStem(op: Operation, stem: string, cfDumpDir: string)
    requires stem != [] && NoSep(stem)
    ensures LogStem(op, stem, cfDumpDir) == stem
    ensures Stem(DumpFile(stem, cfDumpDir)) == stem && Suffix(DumpFile(stem, cfDumpDir)) == ".cf"
  {
    CfExtension();
    StemOfExtension(cfDumpDir, stem, ".cf");
  }

  /** Every log an operation names lies in a directory it creates. */
  lemma {:induction false} PlanLogsInDirs(op: Operation, stem: string, cfDumpDir: string, logPath: string)
    requires LogStem(op, stem, cfDumpDir) == stem && NoSep(stem)
    ensures forall i :: 0 <= i < |PlanLogs(op, stem, cfDumpDir, logPath)| ==>
      Parent(PlanLogs(op, stem, cfDumpDir, logPath)[i]) in PlanDirs(op, stem, cfDumpDir, logPath)
  {
    var logs := PlanLogs(op, stem, cfDumpDir, logPath);
    var dirs := PlanDirs(op, stem, cfDumpDir, logPath);
    forall i | 0 <= i < |logs| ensures Parent(logs[i]) in dirs {
      var a := LogActions(op)[i];
      ActionLogParts(stem, a, logPath);
      assert logs[i] == ActionLogPath(stem, a, logPath);
      assert Parent(logs[i]) == LogDir(logPath);
      if op == SaveAndDumpCf {
        assert dirs[1] == LogDir(logPath);
      } else {
        assert i == 0;
        if op == DumpCf {
          assert dirs[1] == Parent(logs[0]);
        } else {
          assert dirs[0] == Parent(logs[0]);
        }
      }
    }
  }

  /**
   * Every file a script names lies in a directory the operation creates
   * before writing the script; the dump is `<stem>.cf`, and every log is
   * named after the stem and its action.
   */
  lemma {:induction false} PlanFiles(op: Operation, stem: string, cfDumpDir: string, logPath: string)
    requires stem != [] && NoSep(stem)
    ensures var logs := PlanLogs(op, stem, cfDumpDir, logPath); var dirs := PlanDirs(op, stem, cfDumpDir, logPath);
      (forall i :: 0 <= i < |logs| ==> Parent(logs[i]) in dirs && logs[i] == ActionLogPath(stem, LogActions(op)[i], logPath))
      && (Dumps(op) ==> Parent(DumpFile(stem, cfDumpDir)) == dirs[0]
                        && Stem(DumpFile(stem, cfDumpDir)) == stem && Suffix(DumpFile(stem, cfDumpDir)) == ".cf")
  {
    PlanLogStem(op, stem, cfDumpDir);
    PlanLogsInDirs(op, stem, cfDumpDir, logPath);
  }

  /**
   * What a plan promises about its files: one log per action, each in a
   * directory created first and named after `stem` and its action; the dump,
   * when there is one, is `dump` and lies in the first directory; the two
   * logs of the combined operation are different files.
   */
  predicate FilesSound(p: Plan, op: Operation, stem: string, logPath: string, dump: string) {
    |p.logs| == |LogActions(op)| && p.dirs != []
    && (forall i :: 0 <= i < |p.logs| ==> Parent(p.logs[i]) in p.dirs && p.logs[i] == ActionLogPath(stem, LogActions(op)[i], logPath))
    && (p.dump.Some? ==> p.dump.value == dump && Parent(dump) == p.dirs[0])
    && (op == SaveAndDumpCf ==> p.logs[0] != p.logs[1])
  }

  /** The plan for a base keeps those promises, with the base stem and the base's `.cf` file. */
  lemma {:induction false} PlanForFiles(op: Operation, exe: string, db: Database1C, now: Timestamp,
                                        cfDumpDir: string, logPath: string)
    requires Valid(now)
    ensures FilesSound(PlanFor(op, exe, db, now, cfDumpDir, logPath), op, BaseStem(db.name, now), logPath,
                       CfDumpPath(db.name, now, cfDumpDir))
  {
    var stem := BaseStem(db.name, now);
    assert stem != [] && NoSep(stem);
    PlanOfFiles(op, exe, BaseParam(db), CredentialsArg(db), stem, cfDumpDir, logPath);
    assert DumpFile(stem, cfDumpDir) == CfDumpPath(db.name, now, cfDumpDir);
  }

  /** The same for the plan of any stem without separators, whatever the batch parameters. */
  lemma {:induction false} PlanOfFiles(op: Operation, exe: string, base: string, creds: string, stem: string,
                                       cfDumpDir: string, logPath: string)
    requires stem != [] && NoSep(stem)
    ensures FilesSound(PlanOf(op, exe, base, creds, stem, cfDumpDir, logPath), op, stem, logPath, DumpFile(stem, cfDumpDir))
  {
    PlanOfParts(op, exe, base, creds, stem, cfDumpDir, logPath);
    PlanFiles(op, stem, cfDumpDir, logPath);
    if op == SaveAndDumpCf {
      DistinctActionLogs(stem, logPath);
    }
  }

  /** A plan's directories, logs and dump are those of its operation and stem, whatever the batch parameters. */
  lemma {:induction false} PlanOfParts(op: Operation, exe: string, base: string, creds: string, stem: string,
                                       cfDumpDir: string, logPath: string)
    ensures var p := PlanOf(op, exe, base, creds, stem, cfDumpDir, logPath);
      p.logs == PlanLogs(op, stem, cfDumpDir, logPath) && p.dirs == PlanDirs(op, stem, cfDumpDir, logPath)
      && p.dump == (if Dumps(op) then Some(DumpFile(stem, cfDumpDir)) else None)
  {
  }

  /** How a script of each operation ends, given the exit codes of its runs. */
  function OperationOutcome(op: Operation, level: nat -> int): Outcome {
    match op
    case SaveCfg => Outcome(if level(0) >= 1 then 1 else 0, [UpdateAction])
    case RepositoryUpdate => Outcome(if level(0) >= 1 then 1 else 0, [RepositoryAction])
    case DumpCf => Outcome(if level(0) >= 1 then 1 else 0, [DumpAction])
    case SaveAndDumpCf =>
      if level(0) >= 1 then Outcome(1, [UpdateAction])
      else Outcome(if level(1) >= 1 then 1 else 0, [UpdateAction, DumpAction])
  }

  /** Every plan's script ends as its operation promises and sets each variable before a run reads it. */
  lemma {:induction false} PlanRuns(op: Operation, exe: string, base: string, creds: string, stem: string,
                                      cfDumpDir: string, logPath: string, level: nat -> int)
    ensures var p := PlanOf(op, exe, base, creds, stem, cfDumpDir, logPath);
      Exec(p.script, level, 0, []) == OperationOutcome(op, level) && SetBeforeUse(p.script)
  {
    var dump := DumpFile(stem, cfDumpDir);
    var log := PlanLogs(op, stem, cfDumpDir, logPath)[0];
    match op
    case SaveCfg =>
      UpdateOutcome(exe, base, creds, log, level);
      UpdateSetFirst(exe, base, creds, log);
    case RepositoryUpdate =>
      RepoUpdateOutcome(exe, base, creds, log, level);
      UpdateSetFirst(exe, base, creds, log);
    case DumpCf =>
      DumpOutcome(exe, base, creds, dump, log, level);
      DumpSetFirst(exe, base, creds, dump, log);
    case SaveAndDumpCf =>
      SaveAndDumpOutcome(exe, base, creds, dump, logPath, level);
      SaveAndDumpSetFirst(exe, base, creds, dump, ActionLogPath(Stem(dump), "UpdateDBCfg", logPath),
                          ActionLogPath(Stem(dump), "DumpCfg", logPath));
  }

  /** The same for the plan of a base. */
  lemma {:induction false} PlanForRuns(op: Operation, exe: string, db: Database1C, now: Timestamp,
                                       cfDumpDir: string, logPath: string, level: nat -> int)
    requires Valid(now)
    ensures var p := PlanFor(op, exe, db, now, cfDumpDir, logPath);
      Exec(p.script, level, 0, []) == OperationOutcome(op, level) && SetBeforeUse(p.script)
  {
    PlanRuns(op, exe, BaseParam(db), CredentialsArg(db), BaseStem(db.name, now), cfDumpDir, logPath, level);
  }

  /** Whether every directory can be created. */
  predicate AllMade(dirs: seq<string>, mkdirOk: string -> bool) {
    forall i :: 0 <= i < |dirs| ==> mkdirOk(dirs[i])
  }

  /** The directories created before the first one that fails. */
  function DirEffects(dirs: seq<string>, mkdirOk: string -> bool): (r: seq<Host.Effect>)
    ensures |r| <= |dirs|
    ensures AllMade(dirs, mkdirOk) ==> |r| == |dirs|
    ensures forall i :: 0 <= i < |r| ==> r[i] == Host.DirectoryMade(dirs[i])
    decreases |dirs|
  {
    if dirs == [] || !mkdirOk(dirs[0]) then []
    else [Host.DirectoryMade(dirs[0])] + DirEffects(dirs[1..], mkdirOk)
  }

  /**
   * The effects of a prepared operation: the directories, then (when they
   * all exist and the temporary file can be created) the script, then the
   * start, the message and the cleanup timer; any exception ends the
   * sequence with `failure`.
   */
  function RunEffects(p: Plan, mkdirOk: string -> bool, created: bool, spawnOk: bool, batPath: string, failure: string): seq<Host.Effect> {
    DirEffects(p.dirs, mkdirOk)
    + (if !AllMade(p.dirs, mkdirOk) || !created then [Host.StatusMessage(failure)]
       else [Host.FileWritten(batPath, ScriptText(p.script), "utf-8")]
            + (if !spawnOk then [Host.StatusMessage(failure)]
               else [Host.ProcessSpawned(["cmd", "/c", batPath]), Host.StatusMessage(p.started),
                     Host.TimerScheduled(CleanupDelayMs, Host.DeleteTempFile(batPath))]))
  }

  /** The directory effects of a plan of one or two directories, case by case. */
  lemma {:induction false} DirEffectsOfPlan(dirs: seq<string>, mkdirOk: string -> bool)
    requires 1 <= |dirs| <= 2
    ensures !mkdirOk(dirs[0]) ==> !AllMade(dirs, mkdirOk) && DirEffects(dirs, mkdirOk) == []
    ensures mkdirOk(dirs[0]) && |dirs| == 1 ==> AllMade(dirs, mkdirOk) && DirEffects(dirs, mkdirOk) == [Host.DirectoryMade(dirs[0])]
    ensures mkdirOk(dirs[0]) && |dirs| == 2 && !mkdirOk(dirs[1]) ==>
      !AllMade(dirs, mkdirOk) && DirEffects(dirs, mkdirOk) == [Host.DirectoryMade(dirs[0])]
    ensures mkdirOk(dirs[0]) && |dirs| == 2 && mkdirOk(dirs[1]) ==>
      AllMade(dirs, mkdirOk) && DirEffects(dirs, mkdirOk) == [Host.DirectoryMade(dirs[0]), Host.DirectoryMade(dirs[1])]
  {
    if |dirs| == 2 && mkdirOk(dirs[0]) {
      assert dirs[1..][0] == dirs[1];
      assert dirs[1..][1..] == [];
    } else if |dirs| == 1 && mkdirOk(dirs[0]) {
      assert dirs[1..] == [];
    }
  }

  /**
   * The `try` block the four operations share, once the plan is made:
   * create the directories, write the script, start it, report and
   * schedule the script's deletion; an exception on the way ends it with
   * `failure`. `mkdirOk`, `created` and `spawnOk` say which steps succeed.
   */

  method Execute(host: Host.Host, p: Plan, mkdirOk: string -> bool, created: bool, spawnOk: bool,
                 batPath: string, failure: string)
    returns (ok: bool)
    requires 1 <= |p.dirs| <= 2
    modifies host
    ensures ok <==> AllMade(p.dirs, mkdirOk) && created && spawnOk
    ensures host.log == old(host.log) + RunEffects(p, mkdirOk, created, spawnOk, batPath, failure)
    ensures host.files == if AllMade(p.dirs, mkdirOk) && created then old(host.files)[batPath := ScriptText(p.script)]
                          else old(host.files)
  {
    var made := MakeDirs(host, p.dirs, mkdirOk, failure);
    if !made {
      return false;
    }
    ghost var before := host.log;
    ok := WriteAndStart(host, p, created, spawnOk, batPath, failure);
    AppendAssoc(old(host.log), DirEffects(p.dirs, mkdirOk), host.log[|before|..]);
  }

  /** The directories of a plan, one after the other; the first that cannot be made ends the run with `failure`. */
  method MakeDirs(host: Host.Host, dirs: seq<string>, mkdirOk: string -> bool, failure: string) returns (made: bool)
    requires 1 <= |dirs| <= 2
    modifies host
    ensures made == AllMade(dirs, mkdirOk)
    ensures host.log == old(host.log) + DirEffects(dirs, mkdirOk) + (if made then [] else [Host.StatusMessage(failure)])
    ensures host.files == old(host.files)
  {
    DirEffectsOfPlan(dirs, mkdirOk);
    if !mkdirOk(dirs[0]) {
      host.Record(Host.StatusMessage(failure));
      return false;
    }
    host.Record(Host.DirectoryMade(dirs[0]));
    if |dirs| == 2 {
      if !mkdirOk(dirs[1]) {
        host.Record(Host.StatusMessage(failure));
        return false;
      }
      host.Record(Host.DirectoryMade(dirs[1]));
    }
    made := true;
  }

  /** The script written, started and scheduled for deletion, once the directories exist. */
  method WriteAndStart(host: Host.Host, p: Plan, created: bool, spawnOk: bool, batPath: string, failure: string)
    returns (ok: bool)
    modifies host
    ensures ok <==> created && spawnOk
    ensures host.log == old(host.log)
      + (if !created then [Host.StatusMessage(failure)]
         else [Host.FileWritten(batPath, ScriptText(p.script), "utf-8")]
              + (if !spawnOk then [Host.StatusMessage(failure)]
                 else [Host.ProcessSpawned(["cmd", "/c", batPath]), Host.StatusMessage(p.started),
                       Host.TimerScheduled(CleanupDelayMs, Host.DeleteTempFile(batPath))]))
    ensures host.files == if created then old(host.files)[batPath := ScriptText(p.script)] else old(host.files)
  {
    if !created {
      host.Record(Host.StatusMessage(failure));
      return false;
    }
    host.WriteFile(batPath, ScriptText(p.script), "utf-8");
    if !spawnOk {
      host.Record(Host.StatusMessage(failure));
      return false;
    }
    host.Record(Host.ProcessSpawned(["cmd", "/c", batPath]));
    host.Record(Host.StatusMessage(p.started));
    host.Record(Host.TimerScheduled(CleanupDelayMs, Host.DeleteTempFile(batPath)));
    ok := true;
  }

  /**
   * `save_cfg`, `update_cfg_from_repository`, `dump_cf` and
   * `save_and_dump_cf`: no base, another system or no executable gives a
   * message and `False` with nothing done; otherwise the plan is carried
   * out as `Execute` does, and an exception reports `error` with the
   * operation's message.
   */
  method RunOperation(self: DatabaseActions, op: Operation, db: Option<Database1C>, isWindows: bool,
                      present: string -> bool, now: Timestamp, cfDumpDir: string, logPath: string,
                      mkdirOk: string -> bool, created: bool, spawnOk: bool, batPath: string, error: string)
    returns (ok: bool)
    requires Valid(now)
    modifies self.host
    ensures db.None? ==> !ok && self.host.log == old(self.host.log) + [Host.StatusMessage(NoBaseMessage)]
                         && self.host.files == old(self.host.files)
    ensures db.Some? && !isWindows ==> !ok && self.host.log == old(self.host.log) + [Host.StatusMessage(WindowsOnlyMessage(op))]
                                       && self.host.files == old(self.host.files)
    ensures db.Some? && isWindows ==>
      var exe := FirstExisting(MixinCandidates(db.value, Some("DESIGNER"), isWindows), present);
      (exe.None? ==> !ok && self.host.log == old(self.host.log) + [Host.StatusMessage(NoDesignerMessage)]
                     && self.host.files == old(self.host.files))
      && (exe.Some? ==>
            var p := PlanFor(op, exe.value, db.value, now, cfDumpDir, logPath);
            (ok <==> AllMade(p.dirs, mkdirOk) && created && spawnOk)
            && self.host.log == old(self.host.log) + RunEffects(p, mkdirOk, created, spawnOk, batPath, PrepareFailedMessage(op, error))
            && self.host.files == if AllMade(p.dirs, mkdirOk) && created then old(self.host.files)[batPath := ScriptText(p.script)]
                                  else old(self.host.files))
  {
    var host := self.host;
    if db.None? {
      host.Record(Host.StatusMessage(NoBaseMessage));
      return false;
    }
    if !isWindows {
      host.Record(Host.StatusMessage(WindowsOnlyMessage(op)));
      return false;
    }
    var exe := FindMixinExecutable(db.value, Some("DESIGNER"), isWindows, present);
    if exe.None? {
      host.Record(Host.StatusMessage(NoDesignerMessage));
      return false;
    }
    var p := PlanFor(op, exe.value, db.value, now, cfDumpDir, logPath);
    ok := Execute(host, p, mkdirOk, created, spawnOk, batPath, PrepareFailedMessage(op, error));
  }
}

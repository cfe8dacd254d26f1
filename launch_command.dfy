/**
 * `_build_launch_command`: the command line that starts the 1C platform
 * for one base in one mode.
 *
 * Two generations exist. The current one (the launch mixin) knows the
 * modes `ENTERPRISE`, `DESIGNER` and `IR_TOOLS` and adds debugger and tool
 * flags; the older one (the first `DatabaseActions` and the old
 * `TreeWindow`) knows `ENTERPRISE` and `DESIGNER` and adds no flags.
 */
module LaunchCommand {
  import opened Wrappers
  import opened Strings
  import opened Models
  import opened ConnectString

  const Enterprise: string := "ENTERPRISE"
  const Designer: string := "DESIGNER"
  const IrTools: string := "IR_TOOLS"

  const DebugFlags: seq<string> := ["/Debug -attach", "/DebuggerURL tcp://localhost"]

  /** The six flags of the IR tools mode; `irToolsPath` is the configured processing file. */
  function IrToolsFlags(irToolsPath: string): seq<string> {
    ["/RunModeOrdinaryApplication", "/Debug -attach", "/DebuggerURL tcp://localhost",
     "/UC\"\"", "/Execute\"" + irToolsPath + "\"", "/WA-"]
  }

  /** Some parameter starts with `prefix`. */
  predicate HasParam(ps: seq<string>, prefix: string) {
    exists i :: 0 <= i < |ps| && StartsWith(ps[i], prefix)
  }

  /** `/S"<parsed>"` when the base has a connection string, nothing otherwise. */
  function ConnectParam(db: Database1C): seq<string> {
    if db.connect != "" then ["/S\"" + ParseServerConnectString(db.connect) + "\""] else []
  }

  /** `/N"<user>"` then `/P"<password>"`, each only when it is not empty. */
  function CredentialParams(usr: Option<string>, pwd: Option<string>): seq<string> {
    (if Truthy(usr) then ["/N\"" + usr.value + "\""] else [])
    + (if Truthy(pwd) then ["/P\"" + pwd.value + "\""] else [])
  }

  /** The user and password a mode uses: its own pair or, where that is empty, the generic one. No pair for other modes. */
  function ModeCredentials(db: Database1C, mode: string): (r: (Option<string>, Option<string>))
    ensures mode == Enterprise || mode == IrTools ==> r == (Or(db.usrEnterprise, db.usr), Or(db.pwdEnterprise, db.pwd))
    ensures mode == Designer ==> r == (Or(db.usrConfigurator, db.usr), Or(db.pwdConfigurator, db.pwd))
    ensures mode != Enterprise && mode != IrTools && mode != Designer ==> r == (None, None)
  {
    if mode == Enterprise || mode == IrTools then (Or(db.usrEnterprise, db.usr), Or(db.pwdEnterprise, db.pwd))
    else if mode == Designer then (Or(db.usrConfigurator, db.usr), Or(db.pwdConfigurator, db.pwd))
    else (None, None)
  }

  /** The older selection: only `ENTERPRISE` and `DESIGNER` have credentials. */
  function LegacyModeCredentials(db: Database1C, mode: string): (r: (Option<string>, Option<string>))
    ensures mode != IrTools ==> r == ModeCredentials(db, mode)
    ensures mode == IrTools ==> r == (None, None)
  {
    if mode == Enterprise then (Or(db.usrEnterprise, db.usr), Or(db.pwdEnterprise, db.pwd))
    else if mode == Designer then (Or(db.usrConfigurator, db.usr), Or(db.pwdConfigurator, db.pwd))
    else (None, None)
  }

  /** The flags the current generation appends after the credentials. */
  function ModeFlags(mode: string, irToolsPath: string): seq<string> {
    if mode == IrTools then IrToolsFlags(irToolsPath)
    else if mode == Enterprise then DebugFlags
    else []
  }

  /** The parameter list of the current generation; `IR_TOOLS` runs as `ENTERPRISE`. */
  function LaunchParams(db: Database1C, mode: string, irToolsPath: string): seq<string> {
    var creds := ModeCredentials(db, mode);
    [if mode != IrTools then mode else Enterprise] + ConnectParam(db)
    + CredentialParams(creds.0, creds.1) + ModeFlags(mode, irToolsPath)
  }

  /** The parameter list of the older generation. */
  function LegacyLaunchParams(db: Database1C, mode: string): seq<string> {
    var creds := LegacyModeCredentials(db, mode);
    [mode] + ConnectParam(db) + CredentialParams(creds.0, creds.1)
  }

  /** A parameter is wrapped in quotes when it contains a space and is not an option starting with `/`. */
  function QuoteParam(p: string): string {
    if Contains(p, " ") && !StartsWith(p, "/") then "\"" + p + "\"" else p
  }

  function QuoteAll(ps: seq<string>): (r: seq<string>)
    ensures |r| == |ps| && forall i :: 0 <= i < |ps| ==> r[i] == QuoteParam(ps[i])
  {
    seq(|ps|, i requires 0 <= i < |ps| => QuoteParam(ps[i]))
  }

  /** The quoted executable, one space, then the parameters separated by single spaces. */
  function CommandLine(exe: string, ps: seq<string>): string {
    "\"" + exe + "\" " + Join(QuoteAll(ps), " ")
  }

  /** `_build_launch_command` of the current generation: the quoted executable, then the mode (`IR_TOOLS` written as `ENTERPRISE`). */
  function BuildLaunchCommand(exe: string, mode: string, db: Database1C, irToolsPath: string): (r: string)
    ensures StartsWith(r, "\"" + exe + "\" " + QuoteParam(if mode == IrTools then Enterprise else mode))
  {
    var ps := LaunchParams(db, mode, irToolsPath);
    LaunchFirstToken(db, mode, irToolsPath);
    CommandLineStart(exe, ps);
    CommandLine(exe, ps)
  }

  /** `_build_launch_command` of the older generation: the quoted executable, then the mode. */
  function BuildLegacyLaunchCommand(exe: string, mode: string, db: Database1C): (r: string)
    ensures StartsWith(r, "\"" + exe + "\" " + QuoteParam(mode))
  {
    var ps := LegacyLaunchParams(db, mode);
    LaunchFirstToken(db, mode, "");
    CommandLineStart(exe, ps);
    CommandLine(exe, ps)
  }

  // ---------------------------------------------------------------------
  // Properties of the parameter lists.

  /** The first parameter is the mode token; `IR_TOOLS` appears as `ENTERPRISE`. */
  lemma LaunchFirstToken(db: Database1C, mode: string, irToolsPath: string)
    ensures LaunchParams(db, mode, irToolsPath)[0] == (if mode == IrTools then Enterprise else mode)
    ensures LegacyLaunchParams(db, mode)[0] == mode
  {
  }

  /** No credential or flag parameter starts with `/S"`. */
  lemma NoServerPrefixAfterConnect(usr: Option<string>, pwd: Option<string>, mode: string, irToolsPath: string)
    ensures !HasParam(CredentialParams(usr, pwd) + ModeFlags(mode, irToolsPath), "/S\"")
  {
    var cs, fs := CredentialParams(usr, pwd), ModeFlags(mode, irToolsPath);
    forall i | 0 <= i < |cs| ensures cs[i][1] != 'S' {
    }
    forall i | 0 <= i < |fs| ensures fs[i][1] != 'S' {
    }
    var ps := cs + fs;
    forall i | 0 <= i < |ps| ensures !StartsWith(ps[i], "/S\"") {
      assert ps[i][1] != 'S' by {
        if i >= |cs| {
          assert ps[i] == fs[i - |cs|];
        }
      }
    }
  }

  /** A mode token that is not itself an `/S"` option. */
  predicate PlainMode(mode: string) {
    !StartsWith(mode, "/S\"")
  }

  /**
   * `/S"<parsed>"` is present iff the base has a connection string, and it
   * then directly follows the mode token.
   */
  lemma LaunchConnectParam(db: Database1C, mode: string, irToolsPath: string)
    requires PlainMode(mode)
    ensures HasParam(LaunchParams(db, mode, irToolsPath), "/S\"") <==> db.connect != ""
    ensures db.connect != "" ==> LaunchParams(db, mode, irToolsPath)[1] == "/S\"" + ParseServerConnectString(db.connect) + "\""
  {
    var creds := ModeCredentials(db, mode);
    var first := if mode != IrTools then mode else Enterprise;
    var mid := ConnectParam(db);
    var tail := CredentialParams(creds.0, creds.1) + ModeFlags(mode, irToolsPath);
    AppendAssoc([first] + mid, CredentialParams(creds.0, creds.1), ModeFlags(mode, irToolsPath));
    NoServerPrefixAfterConnect(creds.0, creds.1, mode, irToolsPath);
    assert !StartsWith(first, "/S\"") by {
      if mode == IrTools {
        assert first[1] != 'S';
      }
    }
    HasParamBetween(first, mid, tail, "/S\"");
    if db.connect != "" {
      var p := "/S\"" + ParseServerConnectString(db.connect) + "\"";
      assert p[..3] == "/S\"";
      assert mid == [p] && StartsWith(mid[0], "/S\"");
    }
  }

  /** Only the middle part can hold a parameter with the prefix when the first token and the tail do not. */
  lemma HasParamBetween(first: string, mid: seq<string>, tail: seq<string>, prefix: string)
    requires !StartsWith(first, prefix) && !HasParam(tail, prefix)
    ensures HasParam([first] + mid + tail, prefix) <==> HasParam(mid, prefix)
  {
    var ps := [first] + mid + tail;
    if HasParam(ps, prefix) {
      var i :| 0 <= i < |ps| && StartsWith(ps[i], prefix);
      if 0 < i <= |mid| {
        assert ps[i] == mid[i - 1];
      }
    }
    if HasParam(mid, prefix) {
      var i :| 0 <= i < |mid| && StartsWith(mid[i], prefix);
      assert ps[i + 1] == mid[i];
    }
  }

  /**
   * Credentials: the user goes in `/N"..."` and the password in `/P"..."`,
   * each present iff the mode's value (with the generic fallback) is not
   * empty, and `/N` precedes `/P`.
   */
  lemma LaunchCredentialParams(db: Database1C, mode: string, irToolsPath: string)
    ensures var creds := ModeCredentials(db, mode);
      var ps := LaunchParams(db, mode, irToolsPath);
      var k := 1 + |ConnectParam(db)|;
      (Truthy(creds.0) ==> ps[k] == "/N\"" + creds.0.value + "\"")
      && (Truthy(creds.1) ==> ps[k + (if Truthy(creds.0) then 1 else 0)] == "/P\"" + creds.1.value + "\"")
      && (!Truthy(creds.0) && !Truthy(creds.1) ==> ps[k..] == ModeFlags(mode, irToolsPath))
  {
  }

  /** `ENTERPRISE` ends with exactly the two debugger flags; `IR_TOOLS` with its six; `DESIGNER` with neither. */
  lemma LaunchModeFlags(db: Database1C, mode: string, irToolsPath: string)
    ensures var ps := LaunchParams(db, mode, irToolsPath);
      (mode == Enterprise ==> |ps| >= 3 && ps[|ps| - 2..] == DebugFlags)
      && (mode == IrTools ==> |ps| >= 7 && ps[|ps| - 6..] == IrToolsFlags(irToolsPath))
      && (mode == Designer ==> !HasParam(ps, "/Debug") && !HasParam(ps, "/Execute"))
  {
    var ps := LaunchParams(db, mode, irToolsPath);
    var creds := ModeCredentials(db, mode);
    var opts := ConnectParam(db) + CredentialParams(creds.0, creds.1);
    var first := if mode != IrTools then mode else Enterprise;
    AppendAssoc([first], ConnectParam(db), CredentialParams(creds.0, creds.1));
    assert ps == [first] + opts + ModeFlags(mode, irToolsPath);
    if mode == Designer {
      AppendEmpty([first] + opts);
      OptionPrefixes(db, creds.0, creds.1);
      NoFlagsAmongOptions(mode, opts);
    } else {
      SuffixPart([first] + opts, ModeFlags(mode, irToolsPath));
    }
  }

  /** Every option a launch line carries before its flags starts with `/S"`, `/N"` or `/P"`. */
  lemma OptionPrefixes(db: Database1C, usr: Option<string>, pwd: Option<string>)
    ensures forall q :: q in ConnectParam(db) + CredentialParams(usr, pwd) ==>
      StartsWith(q, "/S\"") || StartsWith(q, "/N\"") || StartsWith(q, "/P\"")
  {
    if db.connect != "" {
      var c := "/S\"" + ParseServerConnectString(db.connect) + "\"";
      assert c[..3] == "/S\"";
    }
    if Truthy(usr) {
      var n := "/N\"" + usr.value + "\"";
      assert n[..3] == "/N\"";
    }
    if Truthy(pwd) {
      var p := "/P\"" + pwd.value + "\"";
      assert p[..3] == "/P\"";
    }
  }

  /** The end of a concatenation is its second part. */
  lemma SuffixPart<T>(a: seq<T>, b: seq<T>)
    ensures |a + b| == |a| + |b| && (a + b)[|a + b| - |b|..] == b
  {
  }

  /** The older generation never adds a debugger or tool flag for the two modes it is called with. */
  lemma LegacyHasNoFlags(db: Database1C, mode: string)
    requires mode == Enterprise || mode == Designer
    ensures !HasParam(LegacyLaunchParams(db, mode), "/Debug")
    ensures !HasParam(LegacyLaunchParams(db, mode), "/Execute")
  {
    var creds := LegacyModeCredentials(db, mode);
    assert LegacyLaunchParams(db, mode) == [mode] + (ConnectParam(db) + CredentialParams(creds.0, creds.1));
    OptionPrefixes(db, creds.0, creds.1);
    NoFlagsAmongOptions(mode, ConnectParam(db) + CredentialParams(creds.0, creds.1));
  }

  /** The two generations agree up to the flags: the current list is the older one plus the mode's flags. */
  lemma GenerationsDifferByFlags(db: Database1C, mode: string, irToolsPath: string)
    requires mode == Enterprise || mode == Designer
    ensures LaunchParams(db, mode, irToolsPath) == LegacyLaunchParams(db, mode) + ModeFlags(mode, irToolsPath)
  {
  }

  /** The connection and credential options are `/S`, `/N` and `/P` options, never a debugger or tool flag. */
  lemma NoFlagsAmongOptions(mode: string, opts: seq<string>)
    requires mode == Enterprise || mode == Designer
    requires forall q :: q in opts ==> StartsWith(q, "/S\"") || StartsWith(q, "/N\"") || StartsWith(q, "/P\"")
    ensures !HasParam([mode] + opts, "/Debug") && !HasParam([mode] + opts, "/Execute")
  {
    var ps := [mode] + opts;
    forall i | 0 <= i < |ps| ensures !StartsWith(ps[i], "/Debug") && !StartsWith(ps[i], "/Execute") {
      var q := ps[i];
      if i == 0 {
        assert q[0] == 'E' || q[0] == 'D';
        if |q| >= 8 {
          assert q[..6][0] == q[0] && q[..8][0] == q[0];
        }
      } else {
        assert q in opts;
        assert q[1] == q[..3][1];
        assert q[1] == 'S' || q[1] == 'N' || q[1] == 'P';
        if |q| >= 6 {
          assert q[..6][1] == q[1];
        }
        if |q| >= 8 {
          assert q[..8][1] == q[1];
        }
      }
    }
  }

  /** In the older generation a mode other than the two it knows gets no credentials. */
  lemma LegacyOtherModeNoCredentials(db: Database1C, mode: string)
    requires mode != Enterprise && mode != Designer
    ensures LegacyLaunchParams(db, mode) == [mode] + ConnectParam(db)
  {
  }

  // ---------------------------------------------------------------------
  // Properties of the command line.

  /** A parameter without a space, or one starting with `/`, is written as it is; any other is wrapped in quotes. */
  lemma QuoteParamCases(p: string)
    ensures !Contains(p, " ") || StartsWith(p, "/") ==> QuoteParam(p) == p
    ensures Contains(p, " ") && !StartsWith(p, "/") ==> QuoteParam(p) == "\"" + p + "\""
  {
  }

  /** The command line begins with the executable in quotes and a space, followed by the first parameter. */
  lemma CommandLineStart(exe: string, ps: seq<string>)
    requires ps != []
    ensures StartsWith(CommandLine(exe, ps), "\"" + exe + "\" " + QuoteParam(ps[0]))
  {
    var qs := QuoteAll(ps);
    if |qs| > 1 {
      JoinCons(qs[0], qs[1..], " ");
      assert qs == [qs[0]] + qs[1..];
    }
    var c := CommandLine(exe, ps);
    var pre := "\"" + exe + "\" " + QuoteParam(ps[0]);
    assert c[..|pre|] == pre;
  }

  /** Adding a parameter adds one space and the (quoted) parameter at the end of the line. */
  lemma CommandLineSnoc(exe: string, ps: seq<string>, p: string)
    requires ps != []
    ensures CommandLine(exe, ps + [p]) == CommandLine(exe, ps) + " " + QuoteParam(p)
  {
    assert QuoteAll(ps + [p]) == QuoteAll(ps) + [QuoteParam(p)];
    JoinSnoc(QuoteAll(ps), QuoteParam(p), " ");
  }

  /**
   * A client-server base opened in `ENTERPRISE` mode with a generic user and
   * no password: the mode, `/S"<server>\<base>"`, `/N"<user>"`, then the
   * two debugger flags.
   */
  lemma EnterpriseServerParams(db: Database1C, server: string, ref: string, user: string)
    requires QuotableValue(server) && QuotableValue(ref) && !EndsLikeRefKey(server)
    requires db.connect == ServerConnect(server, ref)
    requires db.usrEnterprise == None && db.usr == Some(user) && user != ""
    requires db.pwdEnterprise == None && db.pwd == None
    ensures LaunchParams(db, Enterprise, "")
      == [Enterprise, "/S\"" + (server + "\\" + ref) + "\"", "/N\"" + user + "\""] + DebugFlags
  {
    ParseServerConnect(server, ref);
    assert |db.connect| > 0 by { assert db.connect == ServerConnect(server, ref); }
    assert ConnectParam(db) == ["/S\"" + (server + "\\" + ref) + "\""];
    assert ModeCredentials(db, Enterprise) == (Some(user), None);
    assert CredentialParams(Some(user), None) == ["/N\"" + user + "\""];
    assert ModeFlags(Enterprise, "") == DebugFlags;
  }
}

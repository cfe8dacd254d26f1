/**
 * `_get_1c_executable`: the first existing file among an ordered list of
 * candidate paths, or `None`.
 *
 * Three generations exist: the launch mixin (with client type and mode),
 * the older `DatabaseActions` and `TreeWindow` (version path always
 * `1cv8.exe`, common paths for every client), and the two `BaseLauncher`
 * services (custom path, then common paths). The file system is the
 * `present` predicate; the operating system is `isWindows`.
 */
module Executable {
  import opened Wrappers
  import opened Models

  const CommonPaths: seq<string> := [
    "C:\\Program Files\\1cv8\\common\\1cestart.exe",
    "C:\\Program Files (x86)\\1cv8\\common\\1cestart.exe"]

  /** The first candidate that exists. */
  function FirstExisting(cands: seq<string>, present: string -> bool): Option<string>
    decreases |cands|
  {
    if cands == [] then None
    else if present(cands[0]) then Some(cands[0])
    else FirstExisting(cands[1..], present)
  }

  /** First hit: the result exists and nothing before it does; `None` only when no candidate exists. */
  lemma {:induction false} FirstExistingIsFirstHit(cands: seq<string>, present: string -> bool)
    ensures var r := FirstExisting(cands, present);
      (r.Some? ==> exists i :: 0 <= i < |cands| && cands[i] == r.value && present(cands[i])
                     && (forall j :: 0 <= j < i ==> !present(cands[j])))
      && (r.None? <==> forall j :: 0 <= j < |cands| ==> !present(cands[j]))
    decreases |cands|
  {
    if cands != [] && !present(cands[0]) {
      FirstExistingIsFirstHit(cands[1..], present);
      var r := FirstExisting(cands, present);
      if r.Some? {
        var i :| 0 <= i < |cands[1..]| && cands[1..][i] == r.value && present(cands[1..][i])
                 && (forall j :: 0 <= j < i ==> !present(cands[1..][j]));
        assert cands[i + 1] == r.value && forall j :: 0 <= j < i + 1 ==> !present(cands[j]);
      }
    }
  }

  /** The search over `a + b` is the search over `a`, and over `b` when nothing in `a` exists. */
  lemma {:induction false} FirstExistingConcat(a: seq<string>, b: seq<string>, present: string -> bool)
    ensures FirstExisting(a + b, present) == if FirstExisting(a, present).Some? then FirstExisting(a, present) else FirstExisting(b, present)
    decreases |a|
  {
    if a != [] {
      assert (a + b)[1..] == a[1..] + b;
      FirstExistingConcat(a[1..], b, present);
    } else {
      assert a + b == b;
    }
  }

  /** `database.app_arch or 'x86'`. */
  function Bitness(db: Database1C): string {
    if Truthy(db.appArch) then db.appArch.value else "x86"
  }

  /** `database.client_type or 'thick'`. */
  function ClientType(db: Database1C): string {
    if Truthy(db.clientType) then db.clientType.value else "thick"
  }

  /** The platform binary: the thin client `1cv8c.exe` except in the designer and IR tools modes, which need `1cv8.exe`. */
  function ExeName(db: Database1C, mode: Option<string>): (r: string)
    ensures r == "1cv8c.exe" <==> ClientType(db) == "thin" && mode != Some("IR_TOOLS") && mode != Some("DESIGNER")
    ensures r == "1cv8c.exe" || r == "1cv8.exe"
  {
    if mode == Some("IR_TOOLS") || mode == Some("DESIGNER") then "1cv8.exe"
    else if ClientType(db) == "thin" then "1cv8c.exe"
    else "1cv8.exe"
  }

  /** The installed-version path: `Program Files` for `x86_64`, `Program Files (x86)` for anything else. */
  function VersionPath(version: string, bitness: string, exe: string): string {
    (if bitness == "x86_64" then "C:\\Program Files\\1cv8\\" else "C:\\Program Files (x86)\\1cv8\\")
    + version + "\\bin\\" + exe
  }

  function AppCandidate(db: Database1C): seq<string> {
    if Truthy(db.app) then [db.app.value] else []
  }

  /** The candidates of the launch mixin, in search order. */
  function MixinCandidates(db: Database1C, mode: Option<string>, isWindows: bool): seq<string> {
    AppCandidate(db)
    + (if isWindows && Truthy(db.version) then [VersionPath(db.version.value, Bitness(db), ExeName(db, mode))] else [])
    + (if isWindows && ClientType(db) == "thick" then CommonPaths else [])
  }

  /** The candidates of the older `DatabaseActions` and `TreeWindow`, in search order. */
  function LegacyCandidates(db: Database1C, isWindows: bool): seq<string> {
    AppCandidate(db)
    + (if isWindows && Truthy(db.version) then [VersionPath(db.version.value, Bitness(db), "1cv8.exe")] else [])
    + (if isWindows then CommonPaths else [])
  }

  /** The candidates of `BaseLauncher`, in search order. */
  function LauncherCandidates(customPath: Option<string>, isWindows: bool): seq<string> {
    (if Truthy(customPath) then [customPath.value] else [])
    + (if isWindows then CommonPaths else [])
  }

  /** Searches the common paths in order, as the `for path in common_paths` loops do. */
  method SearchCommonPaths(present: string -> bool) returns (r: Option<string>)
    ensures r == FirstExisting(CommonPaths, present)
  {
    var i := 0;
    while i < |CommonPaths|
      invariant 0 <= i <= |CommonPaths|
      invariant FirstExisting(CommonPaths, present) == FirstExisting(CommonPaths[i..], present)
    {
      if present(CommonPaths[i]) {
        return Some(CommonPaths[i]);
      }
      i := i + 1;
    }
    return None;
  }

  /** `_get_1c_executable` of the launch mixin. */
  method FindMixinExecutable(db: Database1C, mode: Option<string>, isWindows: bool, present: string -> bool) returns (r: Option<string>)
    ensures r == FirstExisting(MixinCandidates(db, mode, isWindows), present)
  {
    var bitness := Bitness(db);
    var clientType := ClientType(db);
    var exeName := if clientType == "thin" then "1cv8c.exe" else "1cv8.exe";
    if mode == Some("IR_TOOLS") || mode == Some("DESIGNER") {
      exeName := "1cv8.exe";
    }
    assert exeName == ExeName(db, mode);
    var versionPart := if isWindows && Truthy(db.version) then [VersionPath(db.version.value, bitness, exeName)] else [];
    var commonPart := if isWindows && clientType == "thick" then CommonPaths else [];
    FirstExistingConcat(AppCandidate(db), versionPart + commonPart, present);
    FirstExistingConcat(versionPart, commonPart, present);
    assert MixinCandidates(db, mode, isWindows) == AppCandidate(db) + (versionPart + commonPart);
    if Truthy(db.app) {
      if present(db.app.value) {
        return Some(db.app.value);
      }
    }
    if isWindows {
      if Truthy(db.version) {
        var path := VersionPath(db.version.value, bitness, exeName);
        if present(path) {
          return Some(path);
        }
      }
      if clientType == "thick" {
        r := SearchCommonPaths(present);
        if r.Some? {
          return r;
        }
      }
    }
    return None;
  }

  /** `_get_1c_executable` of the older `DatabaseActions` and `TreeWindow`. */
  method FindLegacyExecutable(db: Database1C, isWindows: bool, present: string -> bool) returns (r: Option<string>)
    ensures r == FirstExisting(LegacyCandidates(db, isWindows), present)
  {
    var bitness := Bitness(db);
    var versionPart := if isWindows && Truthy(db.version) then [VersionPath(db.version.value, bitness, "1cv8.exe")] else [];
    var commonPart := if isWindows then CommonPaths else [];
    FirstExistingConcat(AppCandidate(db), versionPart + commonPart, present);
    FirstExistingConcat(versionPart, commonPart, present);
    assert LegacyCandidates(db, isWindows) == AppCandidate(db) + (versionPart + commonPart);
    if Truthy(db.app) {
      if present(db.app.value) {
        return Some(db.app.value);
      }
    }
    if isWindows {
      if Truthy(db.version) {
        var path := VersionPath(db.version.value, bitness, "1cv8.exe");
        if present(path) {
          return Some(path);
        }
      }
      r := SearchCommonPaths(present);
      if r.Some? {
        return r;
      }
    }
    return None;
  }

  /** `BaseLauncher._get_1c_executable`: the custom path if it exists, else the first existing common path on Windows. */
  method FindLauncherExecutable(customPath: Option<string>, isWindows: bool, present: string -> bool) returns (r: Option<string>)
    ensures r == FirstExisting(LauncherCandidates(customPath, isWindows), present)
  {
    var customPart := if Truthy(customPath) then [customPath.value] else [];
    FirstExistingConcat(customPart, if isWindows then CommonPaths else [], present);
    if Truthy(customPath) {
      if present(customPath.value) {
        return Some(customPath.value);
      }
    }
    if isWindows {
      r := SearchCommonPaths(present);
      if r.Some? {
        return r;
      }
    }
    return None;
  }

  // ---------------------------------------------------------------------
  // Properties of the resolution.

  /** An explicit `app` path that present always wins, in every generation. */
  lemma ExistingAppWins(db: Database1C, mode: Option<string>, isWindows: bool, present: string -> bool)
    requires Truthy(db.app) && present(db.app.value)
    ensures FirstExisting(MixinCandidates(db, mode, isWindows), present) == db.app
    ensures FirstExisting(LegacyCandidates(db, isWindows), present) == db.app
    ensures FirstExisting(LauncherCandidates(db.app, isWindows), present) == db.app
  {
  }

  /** Outside Windows only the explicit path can be found. */
  lemma OnlyAppOutsideWindows(db: Database1C, mode: Option<string>, present: string -> bool)
    ensures FirstExisting(MixinCandidates(db, mode, false), present) == FirstExisting(AppCandidate(db), present)
    ensures FirstExisting(LegacyCandidates(db, false), present) == FirstExisting(AppCandidate(db), present)
  {
    assert MixinCandidates(db, mode, false) == AppCandidate(db);
    assert LegacyCandidates(db, false) == AppCandidate(db);
  }

  /** The version path is tried before the common paths: when it present and `app` does not, it is chosen. */
  lemma VersionBeforeCommon(db: Database1C, mode: Option<string>, present: string -> bool)
    requires !(Truthy(db.app) && present(db.app.value))
    requires Truthy(db.version)
    requires present(VersionPath(db.version.value, Bitness(db), ExeName(db, mode)))
    ensures FirstExisting(MixinCandidates(db, mode, true), present) == Some(VersionPath(db.version.value, Bitness(db), ExeName(db, mode)))
  {
    var v := [VersionPath(db.version.value, Bitness(db), ExeName(db, mode))];
    var c := if ClientType(db) == "thick" then CommonPaths else [];
    assert MixinCandidates(db, mode, true) == AppCandidate(db) + (v + c);
    FirstExistingConcat(AppCandidate(db), v + c, present);
    FirstExistingConcat(v, c, present);
  }

  /** A thin client is never directed to `1cestart.exe` by the launch mixin, while the older code does so for any client. */
  lemma ThinClientSkipsCommonPaths(db: Database1C, mode: Option<string>, present: string -> bool)
    requires ClientType(db) == "thin"
    requires !(Truthy(db.app) && present(db.app.value))
    requires !(Truthy(db.version) && present(VersionPath(db.version.value, Bitness(db), ExeName(db, mode))))
    requires !(Truthy(db.version) && present(VersionPath(db.version.value, Bitness(db), "1cv8.exe")))
    requires present(CommonPaths[0])
    ensures FirstExisting(MixinCandidates(db, mode, true), present).None?
    ensures FirstExisting(LegacyCandidates(db, true), present) == Some(CommonPaths[0])
  {
    var v := if Truthy(db.version) then [VersionPath(db.version.value, Bitness(db), "1cv8.exe")] else [];
    assert LegacyCandidates(db, true) == AppCandidate(db) + (v + CommonPaths);
    FirstExistingConcat(AppCandidate(db), v + CommonPaths, present);
    FirstExistingConcat(v, CommonPaths, present);
    var w := if Truthy(db.version) then [VersionPath(db.version.value, Bitness(db), ExeName(db, mode))] else [];
    assert MixinCandidates(db, mode, true) == AppCandidate(db) + w;
  }

  /** The two bitness values pick the two installation roots. */
  lemma VersionPathRoots(version: string, exe: string)
    ensures VersionPath(version, "x86_64", exe) == "C:\\Program Files\\1cv8\\" + version + "\\bin\\" + exe
    ensures VersionPath(version, "x86", exe) == "C:\\Program Files (x86)\\1cv8\\" + version + "\\bin\\" + exe
  {
  }
}

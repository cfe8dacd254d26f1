/**
 * `BaseLauncher.launch_database` of the two service generations: the
 * executable is looked up from the base's `app`, and the base is started
 * directly (without a batch file) with its connection string. The older
 * generation can add two debug options; the newer one has no such switch
 * and behaves as the older one with `debug_mode` off.
 *
 * Whether `subprocess.Popen` raises is a parameter.
 */
module BaseLauncher {
  import opened Wrappers
  import opened Strings
  import opened Models
  import opened Executable
  import Host

  const DebugOptions: seq<string> := ["/DisableUnsafeActionProtection", "/AllowExecuteScheduledJobs"]

  /** The argument list of `launch_database`. */
  function LaunchArgs(exe: string, connect: string, debugMode: bool): (r: seq<string>)
    ensures |r| == (if debugMode then 5 else 3)
    ensures r[..3] == [exe, "ENTERPRISE", "/IBConnectionString" + connect]
    ensures debugMode ==> r[3..] == DebugOptions
  {
    [exe, "ENTERPRISE", "/IBConnectionString" + connect] + (if debugMode then DebugOptions else [])
  }

  /** The connection string can be read back from the third argument, whatever it holds. */
  lemma ConnectArgRoundTrip(exe: string, connect: string, debugMode: bool)
    ensures var a := LaunchArgs(exe, connect, debugMode)[2];
      StartsWith(a, "/IBConnectionString") && a[|"/IBConnectionString"|..] == connect
  {
  }

  /** The service object; `platform.system()` is read once, when it is made. */
  class Launcher {
    const isWindows: bool

    constructor (isWindows: bool)
      ensures this.isWindows == isWindows
    {
      this.isWindows := isWindows;
    }

    /**
     * `launch_database`: `False` with nothing started when no executable is
     * found or the start fails; otherwise the base is started and the result
     * is `True`.
     */
    method LaunchDatabase(host: Host.Host, db: Database1C, debugMode: bool, present: string -> bool, spawnOk: bool)
      returns (ok: bool)
      modifies host
      ensures host.files == old(host.files)
      ensures var exe := FirstExisting(LauncherCandidates(db.app, isWindows), present);
        (ok <==> exe.Some? && spawnOk)
        && (exe.Some? && spawnOk ==> host.log == old(host.log) + [Host.ProcessSpawned(LaunchArgs(exe.value, db.connect, debugMode))])
        && (!ok ==> host.log == old(host.log))
    {
      var exe := FindLauncherExecutable(db.app, isWindows, present);
      if exe.None? {
        return false;
      }
      var command := [exe.value, "ENTERPRISE", "/IBConnectionString" + db.connect];
      if debugMode {
        command := command + ["/DisableUnsafeActionProtection"];
        command := command + ["/AllowExecuteScheduledJobs"];
      }
      if !spawnOk {
        return false;
      }
      assert command == LaunchArgs(exe.value, db.connect, debugMode);
      host.Record(Host.ProcessSpawned(command));
      ok := true;
    }
  }

  /** A custom path that exists is what gets started, on any platform. */
  lemma CustomPathWins(customPath: string, isWindows: bool, present: string -> bool)
    requires customPath != [] && present(customPath)
    ensures FirstExisting(LauncherCandidates(Some(customPath), isWindows), present) == Some(customPath)
  {
  }

  /** Without a usable custom path, Windows falls back to the common paths and other systems find nothing. */
  lemma LauncherFallback(customPath: Option<string>, isWindows: bool, present: string -> bool)
    requires !(Truthy(customPath) && present(customPath.value))
    ensures isWindows ==> FirstExisting(LauncherCandidates(customPath, isWindows), present) == FirstExisting(CommonPaths, present)
    ensures !isWindows ==> FirstExisting(LauncherCandidates(customPath, isWindows), present).None?
  {
    var customPart := if Truthy(customPath) then [customPath.value] else [];
    FirstExistingConcat(customPart, if isWindows then CommonPaths else [], present);
  }
}

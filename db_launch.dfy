/**
 * Launching a base through a temporary batch file, as the current mixin
 * (`DbLaunchMixin`) and the older `DatabaseActions` class both do: the
 * command line is shown on the status bar, written into a three-line
 * script in code page 866, the script is opened, and its deletion is
 * scheduled three seconds later. The open operations gate this on the
 * executable lookup and, on success, move the base to the recent list.
 *
 * The temporary file's name, whether it can be created and whether the
 * shell can open it are parameters.
 */
module DbLaunch {
  import opened Wrappers
  import opened Strings
  import opened Timestamps
  import opened Models
  import opened LaunchCommand
  import opened Executable
  import opened Encodings
  import opened Actions
  import opened Recent
  import Host

  /** Delay before the launch script is deleted. */
  const CleanupDelayMs: nat := 3000

  const NoExecutableMessage: string := "❌ Не удалось найти исполняемый файл 1C"

  /** What the script file holds after the first of its three writes. */
  const ScriptHeader: string := "@echo off\n"

  function StartLine(cmd: string): string {
    "start \"\" " + cmd
  }

  /** The launch script: `@echo off`, `start "" <cmd>`, `exit`, each ended by a newline. */
  function LaunchScript(cmd: string): string {
    ScriptHeader + StartLine(cmd) + "\n" + "exit\n"
  }

  function LaunchingMessage(cmd: string): string {
    "🚀 Запуск: " + cmd
  }

  /** The status-bar message after a failed launch in each mode. */
  function LaunchFailedMessage(mode: string, name: string): string {
    if mode == Enterprise then "❌ Ошибка при запуске базы " + name
    else if mode == Designer then "❌ Ошибка при запуске конфигуратора для " + name
    else "❌ Ошибка при запуске инструментов ИР для " + name
  }

  /** The mode the current lookup receives: `open_database` passes none. */
  function LookupMode(mode: string): Option<string> {
    if mode == Enterprise then None else Some(mode)
  }

  /** A single-line command gives exactly the three script lines, and an empty text after the last newline. */
  lemma LaunchScriptLines(cmd: string)
    requires !HasChar(cmd, '\n')
    ensures Split(LaunchScript(cmd), '\n') == ["@echo off", StartLine(cmd), "exit", ""]
  {
    var lines := ["@echo off", StartLine(cmd), "exit", ""];
    LaunchScriptJoin(cmd);
    StartLineSingle(cmd);
    assert !HasChar("@echo off", '\n') && !HasChar("exit", '\n') && !HasChar("", '\n');
    forall p | p in lines ensures !HasChar(p, '\n') {
    }
    SplitJoin(lines, '\n');
  }

  /** The script is its three lines and an empty one, joined by newlines. */
  lemma LaunchScriptJoin(cmd: string)
    ensures Join(["@echo off", StartLine(cmd), "exit", ""], "\n") == LaunchScript(cmd)
  {
    var lines := ["@echo off", StartLine(cmd), "exit", ""];
    JoinSnoc(["@echo off"], StartLine(cmd), "\n");
    JoinSnoc(["@echo off", StartLine(cmd)], "exit", "\n");
    JoinSnoc(["@echo off", StartLine(cmd), "exit"], "", "\n");
    assert ["@echo off"] + [StartLine(cmd)] == ["@echo off", StartLine(cmd)];
    assert ["@echo off", StartLine(cmd)] + ["exit"] == ["@echo off", StartLine(cmd), "exit"];
    assert ["@echo off", StartLine(cmd), "exit"] + [""] == lines;
  }

  lemma StartLineSingle(cmd: string)
    requires !HasChar(cmd, '\n')
    ensures !HasChar(StartLine(cmd), '\n')
  {
    var p := StartLine(cmd);
    forall k | 0 <= k < |p| ensures p[k] != '\n' {
      if k >= 9 {
        assert p[k] == cmd[k - 9];
      } else {
        assert p[k] == "start \"\" "[k];
      }
    }
  }

  /** The script can be written in code page 866 exactly when the command line can. */
  lemma LaunchScriptEncodable(cmd: string)
    ensures Cp866Encodable(LaunchScript(cmd)) <==> Cp866Encodable(cmd)
  {
    Cp866Concat("start \"\" ", cmd);
    Cp866Concat(ScriptHeader, StartLine(cmd));
    Cp866Concat(ScriptHeader + StartLine(cmd), "\n");
    Cp866Concat(ScriptHeader + StartLine(cmd) + "\n", "exit\n");
    assert Cp866Encodable("start \"\" ") by {
      forall i | 0 <= i < 9 ensures Cp866Char("start \"\" "[i]) {
      }
    }
    assert Cp866Encodable(ScriptHeader) by {
      forall i | 0 <= i < |ScriptHeader| ensures Cp866Char(ScriptHeader[i]) {
      }
    }
    assert Cp866Encodable("\n") && Cp866Encodable("exit\n") by {
      forall i | 0 <= i < 5 ensures Cp866Char("exit\n"[i]) {
      }
    }
  }

  /**
   * The effects of a launch with a non-empty command: the message, then
   * the script (cut short after its first line when the command is not
   * encodable), then, once the script is complete and opened, the cleanup
   * timer.
   */
  function LaunchEffects(cmd: string, batPath: string, created: bool, started: bool): seq<Host.Effect> {
    [Host.StatusMessage(LaunchingMessage(cmd))]
    + (if !created then []
       else if !Cp866Encodable(cmd) then [Host.FileWritten(batPath, ScriptHeader, "cp866")]
       else [Host.FileWritten(batPath, LaunchScript(cmd), "cp866")]
            + (if started then [Host.FileOpened(batPath), Host.TimerScheduled(CleanupDelayMs, Host.DeleteTempFile(batPath))] else []))
  }

  /** The files after a launch with a non-empty command: the script is left behind even when the launch fails. */
  function LaunchFiles(files: map<string, string>, cmd: string, batPath: string, created: bool): map<string, string> {
    if !created then files
    else files[batPath := if Cp866Encodable(cmd) then LaunchScript(cmd) else ScriptHeader]
  }

  /**
   * `_launch_1c_process` once the command line is built. `created` says
   * whether the temporary file can be created, `started` whether the shell
   * opens it; an encoding error stops the second write.
   */
  method LaunchViaScript(host: Host.Host, cmd: Option<string>, batPath: string, created: bool, started: bool) returns (ok: bool)
    modifies host
    ensures ok <==> Truthy(cmd) && created && Cp866Encodable(cmd.value) && started
    ensures !Truthy(cmd) ==> host.log == old(host.log) && host.files == old(host.files)
    ensures Truthy(cmd) ==> host.log == old(host.log) + LaunchEffects(cmd.value, batPath, created, started)
    ensures Truthy(cmd) ==> host.files == LaunchFiles(old(host.files), cmd.value, batPath, created)
    ensures ok ==> batPath in host.files && host.files[batPath] == LaunchScript(cmd.value)
    ensures ok ==> host.log[|host.log| - 1] == Host.TimerScheduled(CleanupDelayMs, Host.DeleteTempFile(batPath))
  {
    if !Truthy(cmd) {
      return false;
    }
    var line := cmd.value;
    host.Record(Host.StatusMessage(LaunchingMessage(line)));
    if !created {
      return false;
    }
    if !Cp866Encodable(line) {
      host.WriteFile(batPath, ScriptHeader, "cp866");
      return false;
    }
    host.WriteFile(batPath, LaunchScript(line), "cp866");
    if !started {
      return false;
    }
    host.Record(Host.FileOpened(batPath));
    host.Record(Host.TimerScheduled(CleanupDelayMs, Host.DeleteTempFile(batPath)));
    ok := true;
  }

  /** `_cleanup_temp_file`: removes the file if it is there; a second call finds nothing to do. */
  method CleanupTempFile(host: Host.Host, path: string)
    modifies host
    ensures path !in host.files
    ensures host.files == old(host.files) - {path}
    ensures path in old(host.files) ==> host.log == old(host.log) + [Host.FileRemoved(path)]
    ensures path !in old(host.files) ==> host.log == old(host.log)
  {
    host.RemoveIfExists(path);
  }

  /**
   * The part of every open operation after the executable is found:
   * launch, then on success move the base to the recent list and reload,
   * on failure show the mode's error message.
   */
  method LaunchAndRecord(self: DatabaseActions, db: Database1C, mode: string, cmd: string,
                         batPath: string, created: bool, started: bool, now: Timestamp)
    returns (ok: bool)
    requires cmd != []
    modifies self, self.bases, self.host
    ensures self.tempConsolePs1 == old(self.tempConsolePs1)
    ensures ok <==> created && Cp866Encodable(cmd) && started
    ensures self.host.files == LaunchFiles(old(self.host.files), cmd, batPath, created)
    ensures ok ==> self.bases.items == MovedToFront(old(self.bases.items), db, MarkedRecent(db, now))
                   && self.lastLaunchedDb == Some(MarkedRecent(db, now))
                   && self.host.log == old(self.host.log) + LaunchEffects(cmd, batPath, true, true) + [Host.BasesSaved, Host.UiReloaded]
    ensures !ok ==> self.bases.items == old(self.bases.items) && self.lastLaunchedDb == old(self.lastLaunchedDb)
                    && self.host.log == old(self.host.log) + LaunchEffects(cmd, batPath, created, started)
                                        + [Host.StatusMessage(LaunchFailedMessage(mode, db.name))]
  {
    ok := LaunchViaScript(self.host, Some(cmd), batPath, created, started);
    if ok {
      var moved := MoveToRecent(self, db, now);
      DelayedReloadAfterLaunch(self);
    } else {
      self.host.Record(Host.StatusMessage(LaunchFailedMessage(mode, db.name)));
    }
  }

  /**
   * `open_database`, `open_configurator` and `open_ir_tools` of the current
   * mixin, by mode: no executable gives a message and `False` with nothing
   * written; a failed launch gives a message and leaves the list alone; a
   * successful one moves the base to the front, saves and reloads.
   */
  method Open(self: DatabaseActions, db: Database1C, mode: string, isWindows: bool, present: string -> bool,
              irToolsPath: string, batPath: string, created: bool, started: bool, now: Timestamp)
    returns (ok: bool)
    requires mode == Enterprise || mode == Designer || mode == IrTools
    modifies self, self.bases, self.host
    ensures self.tempConsolePs1 == old(self.tempConsolePs1)
    ensures var exe := FirstExisting(MixinCandidates(db, LookupMode(mode), isWindows), present);
      exe.None? ==>
        !ok && self.host.log == old(self.host.log) + [Host.StatusMessage(NoExecutableMessage)]
        && self.host.files == old(self.host.files)
        && self.bases.items == old(self.bases.items) && self.lastLaunchedDb == old(self.lastLaunchedDb)
    ensures var exe := FirstExisting(MixinCandidates(db, LookupMode(mode), isWindows), present);
      exe.Some? ==>
        var cmd := BuildLaunchCommand(exe.value, mode, db, irToolsPath);
        var moved := MarkedRecent(db, now);
        (ok <==> created && Cp866Encodable(cmd) && started)
        && self.host.files == LaunchFiles(old(self.host.files), cmd, batPath, created)
        && (ok ==> self.bases.items == MovedToFront(old(self.bases.items), db, moved)
                   && self.lastLaunchedDb == Some(moved)
                   && self.host.log == old(self.host.log) + LaunchEffects(cmd, batPath, true, true) + [Host.BasesSaved, Host.UiReloaded])
        && (!ok ==> self.bases.items == old(self.bases.items) && self.lastLaunchedDb == old(self.lastLaunchedDb)
                    && self.host.log == old(self.host.log) + LaunchEffects(cmd, batPath, created, started)
                                        + [Host.StatusMessage(LaunchFailedMessage(mode, db.name))])
  {
    var exe := FindMixinExecutable(db, LookupMode(mode), isWindows, present);
    if exe.None? {
      self.host.Record(Host.StatusMessage(NoExecutableMessage));
      return false;
    }
    var cmd := BuildLaunchCommand(exe.value, mode, db, irToolsPath);
    ok := LaunchAndRecord(self, db, mode, cmd, batPath, created, started, now);
  }

  /**
   * `open_database` and `open_configurator` of the older `DatabaseActions`
   * class: the same gating over the older lookup and command builder.
   */
  method OpenLegacy(self: DatabaseActions, db: Database1C, mode: string, isWindows: bool, present: string -> bool,
                    batPath: string, created: bool, started: bool, now: Timestamp)
    returns (ok: bool)
    requires mode == Enterprise || mode == Designer
    modifies self, self.bases, self.host
    ensures self.tempConsolePs1 == old(self.tempConsolePs1)
    ensures var exe := FirstExisting(LegacyCandidates(db, isWindows), present);
      exe.None? ==>
        !ok && self.host.log == old(self.host.log) + [Host.StatusMessage(NoExecutableMessage)]
        && self.host.files == old(self.host.files)
        && self.bases.items == old(self.bases.items) && self.lastLaunchedDb == old(self.lastLaunchedDb)
    ensures var exe := FirstExisting(LegacyCandidates(db, isWindows), present);
      exe.Some? ==>
        var cmd := BuildLegacyLaunchCommand(exe.value, mode, db);
        var moved := MarkedRecent(db, now);
        (ok <==> created && Cp866Encodable(cmd) && started)
        && self.host.files == LaunchFiles(old(self.host.files), cmd, batPath, created)
        && (ok ==> self.bases.items == MovedToFront(old(self.bases.items), db, moved)
                   && self.lastLaunchedDb == Some(moved)
                   && self.host.log == old(self.host.log) + LaunchEffects(cmd, batPath, true, true) + [Host.BasesSaved, Host.UiReloaded])
        && (!ok ==> self.bases.items == old(self.bases.items) && self.lastLaunchedDb == old(self.lastLaunchedDb)
                    && self.host.log == old(self.host.log) + LaunchEffects(cmd, batPath, created, started)
                                        + [Host.StatusMessage(LaunchFailedMessage(mode, db.name))])
  {
    var exe := FindLegacyExecutable(db, isWindows, present);
    if exe.None? {
      self.host.Record(Host.StatusMessage(NoExecutableMessage));
      return false;
    }
    var cmd := BuildLegacyLaunchCommand(exe.value, mode, db);
    ok := LaunchAndRecord(self, db, mode, cmd, batPath, created, started, now);
  }
}

# 1C launcher core, modelled in Dafny

This project models the core of a desktop launcher for 1C:Enterprise
information bases. The launcher reads the platform's list of bases
(`ibases.v8i`), shows the bases as a folder tree next to the running 1C
processes, and opens a base in `ENTERPRISE`, `DESIGNER` or `IR_TOOLS` mode
through a temporary batch file. It also runs designer batch operations
(save, update from the repository, dump to `.cf`), opens the server
console, edits base settings, duplicates and deletes bases, activates or
closes the windows of running processes, and brings itself forward on a
global hotkey.

The repository holds two generations of most of this code. One is the
older single-class window under `gui/` and `services/`; the other is the
newer set of mixins under `src/`. Both are modelled. Where they differ,
the model has one member per generation and a lemma relating the two.

What the operating system answers is an input to the model:
- which files exist, and the process and window tables;
- whether a call raises, the user's answers, and the current time.

What the launcher does to the outside world is recorded in an effect log
(`Host.Effect`) rather than performed. The effects are status messages,
files written and removed, programs started, timers scheduled, and the
save and reload callbacks. A member's contract states the log it
produces.

Python semantics are written out where the launcher relies on them:
- truthiness and `a or b` on optional strings;
- `str.strip` with Unicode whitespace, `split(sep, 1)`, `replace`, `lower`;
- `re.search` with `re.IGNORECASE`;
- universal newlines when a text file is read line by line (`\r\n`, `\r` and `\n` all end a line);
- the `pathlib` parts `name`, `stem`, `suffix` and `parent` of Windows paths, taken from the path text as given (the normalisation `Path` applies first is not modelled, see Left out);
- `datetime.isoformat` and `strftime`;
- dataclass equality, and `list.remove` removing the first equal element.

Modules, one per source concern:
- `Wrappers`, `Strings`, `Timestamps`, `Paths`, `Encodings`: shared value semantics.
- `Models`: the `Database1C` record and the shared base list, a class updated in place.
- `Host`: the effect log and the temporary files.
- `Actions`: the state the action mixins share through `self`.
- `ConnectString`, `LaunchCommand`, `Executable`, `Recent`, `DbLaunch`: opening a base.
- `BaseLauncher`: the launcher services, which start a base directly.
- `Batch`, `Designer`: the designer batch operations.
- `ServerConsole`: the server console.
- `BaseReader`, `BasesData`: reading and saving `ibases.v8i`.
- `DatabaseOperations`: the context-menu operations on the list.
- `SettingsDialog`: the logic of the settings dialog.
- `TreeModel`, `TreeBuilder`, `ProcessTrees`, `TreeNavigation`: the tree.
- `ProcessManager`, `ProcessActions`: running processes.
- `Hotkeys`: the global hotkey.
- `LegacyWindow`: what the older window does differently.

## Model

| member | source | states |
|---|---|---|
| ConnectString.MatchAt | src/gui/mixins/db_launch_mixin.py:105-106 | a match of `KEY([^"]+)"` at a position has the key there (any letter case), a non-empty capture free of quotes, and a closing quote right after it |
| ConnectString.Search | src/gui/mixins/db_launch_mixin.py:105-106 | `re.search` finds nothing only when no position of the string matches |
| ConnectString.SearchFirst | src/gui/mixins/db_launch_mixin.py:105-106 | the search returns the leftmost match |
| ConnectString.ParseWithoutQuotes | src/gui/mixins/db_launch_mixin.py:102-117 | a string without a quote, such as a file base's `File=...`, comes back unchanged |
| ConnectString.ParseUnmatched | src/gui/mixins/db_launch_mixin.py:108-113 | when either key has no match the string comes back unchanged |
| ConnectString.ParseServerConnect | src/gui/mixins/db_launch_mixin.py:102-113 | `Srvr="S";Ref="R"` becomes `S\R`, for quote-free non-empty `S` and `R` where `S` does not end like the `Ref=` key |
| ConnectString.SrvrOfServerConnect | src/gui/mixins/db_launch_mixin.py:105 | the `Srvr` search on `Srvr="S";Ref="R"` captures `S` |
| ConnectString.RefOfServerConnect | src/gui/mixins/db_launch_mixin.py:106 | the `Ref` search on `Srvr="S";Ref="R"` captures `R` unless `S` ends like the key |
| ConnectString.NoQuoteNoMatch | gui/actions/database_actions.py:100-109 | neither pattern matches a string without a quote |
| LaunchCommand.ModeCredentials | src/gui/mixins/db_launch_mixin.py:128-136 | `ENTERPRISE` and `IR_TOOLS` use the enterprise user and password and `DESIGNER` the configurator pair, each falling back to the generic field when empty; any other mode has none |
| LaunchCommand.LegacyModeCredentials | gui/actions/database_actions.py:134-142 | the older selection is the same except that `IR_TOOLS` gets no credentials |
| LaunchCommand.QuoteAll | src/gui/mixins/db_launch_mixin.py:159-162 | every parameter is written through the same quoting rule, in order |
| LaunchCommand.QuoteParamCases | src/gui/mixins/db_launch_mixin.py:160 | a parameter is quoted exactly when it contains a space and does not start with `/` |
| LaunchCommand.BuildLaunchCommand | src/gui/mixins/db_launch_mixin.py:119-164 | the command line starts with the quoted executable, a space and the mode, with `IR_TOOLS` written as `ENTERPRISE` |
| LaunchCommand.BuildLegacyLaunchCommand | gui/tree_window.py:261-291 | the older command line starts with the quoted executable, a space and the mode as given |
| LaunchCommand.CommandLineStart | src/gui/mixins/db_launch_mixin.py:159-162 | the line begins with the quoted executable, one space and the first (quoted) parameter |
| LaunchCommand.CommandLineSnoc | src/gui/mixins/db_launch_mixin.py:159-162 | one more parameter adds one space and that parameter at the end |
| LaunchCommand.LaunchFirstToken | src/gui/mixins/db_launch_mixin.py:122 | the first parameter is the mode, with `IR_TOOLS` written as `ENTERPRISE`; the older generation writes the mode as given |
| LaunchCommand.LaunchConnectParam | src/gui/mixins/db_launch_mixin.py:124-126 | an `/S"..."` parameter is present iff the base has a connection string, and it is the second parameter holding the parsed string |
| LaunchCommand.NoServerPrefixAfterConnect | src/gui/mixins/db_launch_mixin.py:138-157 | no credential or flag parameter starts with `/S"` |
| LaunchCommand.LaunchCredentialParams | src/gui/mixins/db_launch_mixin.py:138-141 | the user follows the connection as `/N"..."`, the password follows as `/P"..."`, each only when non-empty, and with neither the flags follow directly |
| LaunchCommand.LaunchModeFlags | src/gui/mixins/db_launch_mixin.py:143-157 | `ENTERPRISE` ends with the two debugger flags, `IR_TOOLS` with its six flags, and `DESIGNER` carries no `/Debug` or `/Execute` flag |
| LaunchCommand.OptionPrefixes | src/gui/mixins/db_launch_mixin.py:124-141 | every connection or credential option starts with `/S"`, `/N"` or `/P"` |
| LaunchCommand.NoFlagsAmongOptions | gui/tree_window.py:267-287 | a list made of a mode and such options has no debugger or tool flag |
| LaunchCommand.LegacyHasNoFlags | gui/tree_window.py:261-291 | the older generation never adds a `/Debug` or `/Execute` flag |
| LaunchCommand.GenerationsDifferByFlags | gui/actions/database_actions.py:126-147 | for `ENTERPRISE` and `DESIGNER` the newer parameter list is the older one followed by the mode's flags |
| LaunchCommand.LegacyOtherModeNoCredentials | gui/actions/database_actions.py:127-142 | in the older generation an unknown mode gets the mode and the connection only |
| LaunchCommand.EnterpriseServerParams | src/gui/mixins/db_launch_mixin.py:122-157 | a client-server base opened in `ENTERPRISE` with only a generic user gets exactly `ENTERPRISE`, `/S"S\R"`, `/N"user"` and the two debugger flags |
| Executable.FirstExistingIsFirstHit | src/gui/mixins/db_launch_mixin.py:74-100 | the lookup returns a candidate that exists with none existing before it, and `None` iff no candidate exists |
| Executable.FirstExistingConcat | src/gui/mixins/db_launch_mixin.py:74-100 | searching two candidate lists in turn is searching the first, then the second when the first has no hit |
| Executable.ExeName | src/gui/mixins/db_launch_mixin.py:63-72 | the binary is `1cv8c.exe` iff the client type is `thin` and the mode is neither `IR_TOOLS` nor `DESIGNER`; otherwise `1cv8.exe` |
| Executable.SearchCommonPaths | src/gui/mixins/db_launch_mixin.py:90-98 | the loop over the two common paths returns the first that exists |
| Executable.FindMixinExecutable | src/gui/mixins/db_launch_mixin.py:61-100 | the method returns the first existing candidate: `app`, then the version path on Windows, then the common paths for a thick client |
| Executable.FindLegacyExecutable | gui/tree_window.py:652-681 | the same for the older lookup, where the version path always names `1cv8.exe` and the common paths follow for every client |
| Executable.FindLauncherExecutable | src/services/base_launcher.py:48-75 | the launcher service's lookup: the custom path, then the common paths on Windows |
| Executable.ExistingAppWins | gui/actions/database_actions.py:245-250 | an `app` path that exists is chosen by every generation |
| Executable.OnlyAppOutsideWindows | src/gui/mixins/db_launch_mixin.py:74-79 | outside Windows only the `app` path can be found |
| Executable.VersionBeforeCommon | src/gui/mixins/db_launch_mixin.py:80-88 | when `app` does not exist and the version path does, the version path is chosen |
| Executable.ThinClientSkipsCommonPaths | src/gui/mixins/db_launch_mixin.py:90-100 | a thin client is never sent to `1cestart.exe` by the mixin, while the older lookup sends any client there |
| Executable.VersionPathRoots | src/gui/mixins/db_launch_mixin.py:82-85 | `x86_64` selects `Program Files` and any other bitness `Program Files (x86)` |
| Recent.MarkedRecent | gui/actions/_db_recent_mixin.py:11-15 | the launched record is recent and stamped with the launch time; `original_folder` takes the folder only when the base was neither recent nor had one; no other field changes |
| Recent.MovedToFrontShape | gui/actions/_db_recent_mixin.py:17-20 | the moved record is first; the rest is the old list without the base's first occurrence, or the whole old list when the base was absent |
| Recent.MovedToFrontElements | gui/actions/_db_recent_mixin.py:17-20 | the list keeps every other base: one copy of the old record is replaced by the moved one, or the moved one is added |
| Recent.MoveFrontIdempotent | gui/actions/_db_recent_mixin.py:17-20 | a base already at the front stays the only copy there |
| Recent.MoveToRecent | gui/actions/_db_recent_mixin.py:9-22 | the method marks the base, moves it to the front of the shared list, runs the save callback and remembers the base as the last launched one |
| Recent.DelayedReloadAfterLaunch | gui/actions/_db_recent_mixin.py:24-26 | the reload callback runs once |
| DbLaunch.LaunchScriptLines | src/gui/mixins/db_launch_mixin.py:186-188 | a one-line command gives exactly the lines `@echo off`, `start "" <cmd>`, `exit` and nothing after the last newline |
| DbLaunch.LaunchScriptJoin | src/gui/mixins/db_launch_mixin.py:186-188 | the script is those lines joined by newlines |
| DbLaunch.LaunchScriptEncodable | src/gui/mixins/db_launch_mixin.py:180-185 | the script can be written in code page 866 exactly when the command line can |
| DbLaunch.LaunchViaScript | src/gui/mixins/db_launch_mixin.py:170-200 | the launch succeeds iff the command is non-empty, the file can be made, the command is encodable and the start succeeds; on success the script holds the three lines and the last effect schedules its deletion after 3000 ms; an empty command does nothing |
| DbLaunch.CleanupTempFile | src/gui/mixins/db_launch_mixin.py:202-208 | afterwards the file is gone and nothing else changed; the removal is recorded only when the file was there |
| DbLaunch.LaunchAndRecord | src/gui/mixins/db_launch_mixin.py:23-29 | on success the base is moved to the recent front, saved and the UI reloaded; on failure the list is unchanged and the mode's error message is shown |
| DbLaunch.Open | src/gui/mixins/db_launch_mixin.py:16-59 | with no executable only the "not found" message is shown and nothing changes; otherwise the current command line is launched, with the outcome above |
| DbLaunch.OpenLegacy | gui/actions/database_actions.py:45-87 | the same for the older `DatabaseActions`, with the older lookup and command line |
| BaseLauncher.LaunchArgs | services/base_launcher.py:34-39 | the argument list is the executable, `ENTERPRISE` and `/IBConnectionString<connect>`, followed in debug mode by the two debug options |
| BaseLauncher.ConnectArgRoundTrip | services/base_launcher.py:34 | the connection string is recovered from the third argument, whatever it holds |
| BaseLauncher.Launcher.LaunchDatabase | services/base_launcher.py:14-53 | the launch succeeds iff an executable is found and the start succeeds; then exactly one process is started with those arguments, and otherwise nothing happens |
| BaseLauncher.CustomPathWins | src/services/base_launcher.py:58-62 | a custom path that exists is what gets started, on any platform |
| BaseLauncher.LauncherFallback | src/services/base_launcher.py:64-75 | without a usable custom path Windows falls back to the common paths and other systems find nothing |
| Batch.StmtLinesOneLine | gui/actions/_db_designer_mixin.py:269-286 | every line a statement is written as is a single line when the statement's own strings are |
| Batch.LinesOneLine | gui/actions/_db_designer_mixin.py:269-286 | the same for every line of a script |
| Batch.SplitLines | gui/actions/_db_designer_mixin.py:288 | lines without line breaks joined by newlines split back into the same lines |
| Batch.ScriptTextLines | gui/actions/_db_designer_mixin.py:288 | reading a script's text back line by line gives exactly its statements' lines |
| Batch.Exec | gui/actions/_db_designer_mixin.py:279-285 | running a script only adds designer runs, after the ones already made |
| Batch.QuietPrefix | gui/actions/_db_designer_mixin.py:270-278 | `echo`, `set`, `chcp` and blank lines do not change how a script ends |
| Batch.GuardedRun | gui/actions/_db_designer_mixin.py:279-283 | a run followed by `if errorlevel 1` ends the script with code 1 when the run's exit code is at least 1, and otherwise goes on with that code as `errorlevel` |
| Batch.AssignedPrefix | gui/actions/_db_designer_mixin.py:269-275 | extending a script keeps every variable it sets |
| Batch.SetFirst | gui/actions/_db_designer_mixin.py:269-279 | a script whose `set` block comes first and sets what every run reads sets each variable before its use |
| Designer.ReplaceForbidden | gui/actions/_db_designer_mixin.py:255 | every character `[<>:"/\\|?*\x00-\x1F]` matches becomes `_` and no other changes; the result has no forbidden character |
| Designer.CollapseSpaces | gui/actions/_db_designer_mixin.py:257 | `re.sub(r'\s+', ' ', s)` is empty iff its input is, and keeps the input's first and last character unless it was whitespace, which becomes a space |
| Designer.CollapseShape | gui/actions/_db_designer_mixin.py:257 | after collapsing, the only whitespace is the plain space, never two in a row |
| Designer.CollapseAllowed | gui/actions/_db_designer_mixin.py:255-257 | collapsing whitespace adds no forbidden character |
| Designer.CollapseSingleSpaces | gui/actions/_db_designer_mixin.py:257 | single plain spaces are left as they are |
| Designer.TrimAllowed | gui/actions/_db_designer_mixin.py:256 | stripping keeps a name free of forbidden characters |
| Designer.Sanitize | gui/actions/_db_designer_mixin.py:253-258 | a sanitised name has no forbidden character and no two adjacent whitespace characters, and neither starts nor ends with a dot |
| Designer.ReplaceAllowed | gui/actions/_db_designer_mixin.py:255 | a name without forbidden characters is not changed by the substitution |
| Designer.SanitizeClean | gui/actions/_db_designer_mixin.py:253-258 | a clean name is left unchanged by sanitising |
| Designer.AllowedNoSep | gui/actions/_db_designer_mixin.py:255 | a sanitised name has no path separator, so it stays one path component |
| Designer.AsciiWordClean | gui/actions/_db_designer_mixin.py:253-258 | a word of ASCII letters and digits is clean |
| Designer.SafeBaseName | gui/actions/_db_designer_mixin.py:226-229 | the safe name is never empty and holds no separator or forbidden character |
| Designer.Stamped | gui/actions/_db_designer_mixin.py:231-233 | `<safe>_<yymmdd>_<HHMM>` is the safe name, `_` and the eleven-character stamp, without separators |
| Designer.BaseStem | gui/actions/_db_designer_mixin.py:224-233 | the stem is the safe base name, `_` and the stamp `%y%m%d_%H%M`, and holds no separator |
| Designer.CleanNameStem | gui/actions/_db_designer_mixin.py:226-233 | a clean non-empty name is used as it is |
| Designer.BlankNameStem | gui/actions/_db_designer_mixin.py:226-230 | a blank name falls back to `database` |
| Designer.CfDumpStem | gui/actions/_db_designer_mixin.py:235-238 | the dump file has the suffix `.cf` and the base stem as its stem |
| Designer.LogExt | gui/actions/_db_designer_mixin.py:248 | the log extension starts with a dot and has no separator |
| Designer.ActionPart | gui/actions/_db_designer_mixin.py:250 | the action's part of a log name is never empty and has no separator |
| Designer.WordActionPart | gui/actions/_db_designer_mixin.py:250 | a word action such as `UpdateDBCfg` is used as it is |
| Designer.ActionLogName | gui/actions/_db_designer_mixin.py:251 | a log name built from a stem without separators has none |
| Designer.ActionLogParts | gui/actions/_db_designer_mixin.py:244-251 | the log lies in the log directory and is named `<stem>_log_<action><ext>` |
| Designer.DistinctActionLogs | gui/actions/_db_designer_mixin.py:356-357 | the update and the dump of the combined operation write different logs |
| Designer.BaseParam | gui/actions/_db_designer_mixin.py:390-397 | the `BASE` value is empty iff the stripped connection string is |
| Designer.BaseParamEmpty | gui/actions/_db_designer_mixin.py:392-394 | it is empty exactly for a connection string of whitespace only |
| Designer.BaseParamMatchesLaunch | gui/actions/_db_designer_mixin.py:390-397 | for a connection string without surrounding whitespace, the batch gets the launch's `/S` parameter |
| Designer.BaseParamOfServer | gui/actions/_db_designer_mixin.py:390-397 | a base stored as `Srvr="S";Ref="R"` gets `/S"S\R"` |
| Designer.CredentialsArg | gui/actions/_db_designer_mixin.py:399-410 | the `CREDENTIALS` value is `/N"user"` and `/P"password"` of the configurator pair (with the generic fallback), each only when non-empty, separated by one space |
| Designer.CredentialsMatchLaunch | gui/actions/_db_designer_mixin.py:399-410 | the batch credentials are the options a configurator launch passes, joined by spaces |
| Designer.SettingsQuiet | gui/actions/_db_designer_mixin.py:270-276 | the prologue and the `set` block run nothing and end nothing |
| Designer.OneStepOutcome | gui/actions/_db_designer_mixin.py:278-286 | a one-run script exits 0 exactly when its run succeeds, and makes only that run |
| Designer.TwoStepOutcome | gui/actions/_db_designer_mixin.py:370-386 | a two-run script makes the second run only after the first succeeds, and exits 0 only when both do |
| Designer.UpdateOutcome | gui/actions/_db_designer_mixin.py:264-288 | `save_cfg`'s script runs `/UpdateDBCfg` once and exits 0 exactly when it succeeds |
| Designer.RepoUpdateOutcome | gui/actions/_db_designer_mixin.py:290-319 | the repository update and the database update are one run, and the script exits 0 exactly when it succeeds |
| Designer.DumpOutcome | gui/actions/_db_designer_mixin.py:321-346 | `dump_cf`'s script runs `/DumpCfg` once and exits 0 exactly when it succeeds |
| Designer.SaveAndDumpOutcome | gui/actions/_db_designer_mixin.py:348-388 | the combined script dumps only after a successful update, and exits 0 only when both succeed |
| Designer.SaveAndDumpWithOutcome | gui/actions/_db_designer_mixin.py:359-388 | the same for any two log files |
| Designer.UpdateSetFirst | gui/actions/_db_designer_mixin.py:264-319 | the update scripts set `PLATFORM`, `BASE`, `CREDENTIALS` and `LOG` before the run reads them |
| Designer.DumpSetFirst | gui/actions/_db_designer_mixin.py:321-346 | the dump script sets every variable before its run |
| Designer.SaveAndDumpSetFirst | gui/actions/_db_designer_mixin.py:348-388 | the combined script sets every variable before both runs |
| Designer.LogsFor | gui/actions/_db_designer_mixin.py:356-357 | one log per action, in order, each `<stem>_log_<action><ext>` |
| Designer.PlanFor | gui/actions/_db_designer_mixin.py:36-46 | an operation creates one or two directories, and names a dump file exactly when it dumps |
| Designer.PlanLogStem | gui/actions/_db_designer_mixin.py:133-134 | the dump is `<stem>.cf` and its logs are named after that same stem |
| Designer.PlanLogsInDirs | gui/actions/_db_designer_mixin.py:132-137 | every log an operation names lies in a directory it creates first |
| Designer.PlanFiles | gui/actions/_db_designer_mixin.py:133-137 | every log and the dump file lie in directories the operation creates, the dump in the first of them |
| Designer.PlanForFiles | gui/actions/_db_designer_mixin.py:36-46 | the plan for a base keeps those promises with the base stem and the base's `.cf` file |
| Designer.PlanOfFiles | gui/actions/_db_designer_mixin.py:184-196 | the same for a plan of any stem without separators |
| Designer.PlanOfParts | gui/actions/_db_designer_mixin.py:184-196 | a plan's directories, logs and dump depend only on the operation and the stem |
| Designer.PlanRuns | gui/actions/_db_designer_mixin.py:264-388 | every operation's script ends as the operation promises, and sets each variable before a run reads it |
| Designer.PlanForRuns | gui/actions/_db_designer_mixin.py:31-46 | the same for the plan made for a base |
| Designer.DirEffects | gui/actions/_db_designer_mixin.py:136-137 | the directories are created in order up to the first that fails, and all of them when none fails |
| Designer.MakeDirs | gui/actions/_db_designer_mixin.py:136-137 | the loop creates the directories in order; the first failure ends the run with the failure message |
| Designer.WriteAndStart | gui/actions/_db_designer_mixin.py:146-159 | the script is written in UTF-8, started as `cmd /c <bat>`, announced, and its deletion scheduled after 60000 ms; a failed write or start ends with the failure message |
| Designer.Execute | gui/actions/_db_designer_mixin.py:132-163 | the operation succeeds iff every directory, the script file and the start succeed; the script file is left exactly when the directories and the file could be made |
| Designer.RunOperation | gui/actions/_db_designer_mixin.py:21-218 | no base, a system other than Windows, or no designer executable each end with their message and change nothing; otherwise the base's plan is carried out as above |
| ServerConsole.X64FlagMeans | src/gui/mixins/db_server_console_mixin.py:96-98 | the flag is `true` or `false`, and `true` exactly for a 64-bit architecture |
| ServerConsole.LowerCharSpace | src/gui/mixins/db_server_console_mixin.py:96 | lower-casing neither removes nor creates whitespace |
| ServerConsole.X64Padded | src/gui/mixins/db_server_console_mixin.py:96-97 | whitespace around the architecture does not change the decision |
| ServerConsole.X64Key | src/gui/mixins/db_server_console_mixin.py:96-97 | an architecture counts as 64-bit iff its lower-cased form is `x86_64`, `x64` or `amd64` |
| ServerConsole.X64UpperCase | src/gui/mixins/db_server_console_mixin.py:96-97 | `AMD64` counts as 64-bit |
| ServerConsole.X86IsNot | src/gui/mixins/db_server_console_mixin.py:96-97 | `x86` does not |
| ServerConsole.UnsetIsNot | src/gui/mixins/db_server_console_mixin.py:96-97 | a missing or empty architecture does not |
| ServerConsole.ConsoleArgs | src/gui/mixins/db_server_console_mixin.py:105-112 | PowerShell gets the script after `-File`, the version after `-Ver` and the flag after `-IsX64String`, ten arguments in all |
| ServerConsole.DedupFrom | src/gui/mixins/db_server_console_mixin.py:153-161 | removing repetitions keeps exactly the candidates not seen yet, each once |
| ServerConsole.DedupElements | src/gui/mixins/db_server_console_mixin.py:153-161 | the unique list holds every candidate once, the first candidate first |
| ServerConsole.DedupDistinct | src/gui/mixins/db_server_console_mixin.py:153-161 | a list without repetitions is kept as it is |
| ServerConsole.RawCandidates | src/gui/mixins/db_server_console_mixin.py:129-151 | at least three candidates, the one beside the module first |
| ServerConsole.Unique | src/gui/mixins/db_server_console_mixin.py:154-161 | the loop with a `seen` set computes the repetition-free list |
| ServerConsole.ConsoleCandidates | src/gui/mixins/db_server_console_mixin.py:127-161 | the candidates, in order, without repetitions |
| ServerConsole.FirstPresent | src/gui/mixins/db_server_console_mixin.py:174-176 | the first candidate that exists |
| ServerConsole.EnsuredScriptIsExisting | src/gui/mixins/db_server_console_mixin.py:163-189 | the script settled on exists: the remembered file, or the first existing candidate; when none exists the temporary file is used iff it could be written, and otherwise there is none |
| ServerConsole.TempScriptReused | src/gui/mixins/db_server_console_mixin.py:165-170 | a written and remembered script is reused while it exists, whatever the candidates |
| ServerConsole.EnsureConsolePs1 | src/gui/mixins/db_server_console_mixin.py:163-189 | the method returns that script; the fallback text is written and remembered exactly when it must be and can be; a failure is reported |
| ServerConsole.ChecksFirst | src/gui/mixins/db_server_console_mixin.py:83-94 | no base, another system or a blank version ends with exactly one message |
| ServerConsole.StartOnlyWithScript | src/gui/mixins/db_server_console_mixin.py:100-125 | PowerShell is started iff a script was found and `Popen` succeeds |
| ServerConsole.StartedWithArgs | src/gui/mixins/db_server_console_mixin.py:105-118 | the start is announced with the stripped version and the flag, then PowerShell runs the script with them |
| ServerConsole.StartConsole | src/gui/mixins/db_server_console_mixin.py:96-125 | after the checks: the script is ensured, then the console is announced and started; the result is true iff a script exists and the start succeeds |
| ServerConsole.OpenServerConsole | src/gui/mixins/db_server_console_mixin.py:81-125 | the whole operation: the checks, the script and the start, with the remembered temporary file updated only when a new one is written |
| BaseReader.CreateDatabase | services/base_reader.py:60-69 | the base takes `ID`, `Connect`, `App` and `Version` from the section, and both its name and folder from `Folder` (name `Без имени` and folder empty without one); it is not recent |
| BaseReader.Inner | services/base_reader.py:41 | the text inside the brackets is two characters shorter and holds `=` iff the header does |
| BaseReader.HeaderSection | services/base_reader.py:37-42 | a header starts a section holding only `ID`, present iff the header has `=` |
| BaseReader.Flush | services/base_reader.py:33-34 | a finished section becomes a base at the end of the list exactly when it has an `ID` |
| BaseReader.ReadBases | services/base_reader.py:12-58 | the loop over the file's lines returns the bases the reading function describes |
| BaseReader.StepAppends | services/base_reader.py:31-48 | only a header adds a base, and it adds one exactly when the section it ends has an `ID`; earlier bases are kept |
| BaseReader.RunExtends | services/base_reader.py:23-48 | bases already read are never changed or reordered by later lines |
| BaseReader.BlankIgnored | services/base_reader.py:27-28 | a blank line is skipped |
| BaseReader.RunSkipsBlank | services/base_reader.py:24-28 | blank lines can be inserted anywhere without changing what is read |
| BaseReader.PaddingIgnored | services/base_reader.py:24 | whitespace around a line does not matter |
| BaseReader.EntrySplitsAtFirstEquals | services/base_reader.py:46-48 | an entry is split at its first `=` and sets that key to the rest of the line |
| BaseReader.LaterEntryWins | services/base_reader.py:46-48 | of two entries with the same key, the later one wins |
| BaseReader.HeaderStartsSection | services/base_reader.py:31-43 | a header flushes the current section and starts a new one, holding `ID` iff the header has `=` |
| BaseReader.NothingToRead | services/base_reader.py:14-16 | a missing file and an empty file both give no bases |
| BasesData.OptEntry | src/gui/mixins/bases_data_mixin.py:28-31 | an optional field is written exactly when it is truthy, as its `key=value` pair |
| BasesData.TailFields | src/gui/mixins/bases_data_mixin.py:32-55 | the fields after `Version` come in the fixed key order `AppArch` … `PwdStorage` |
| BasesData.OrderInTreeField | src/gui/mixins/bases_data_mixin.py:36-37 | `OrderInTree` is written as `str(n)` whenever it is set, and only then |
| BasesData.OrderInTreeZeroWritten | src/gui/mixins/bases_data_mixin.py:36-37 | an order of 0 is still written |
| BasesData.OrderInTreeWritten | src/gui/mixins/bases_data_mixin.py:36-37 | any set order appears as its `OrderInTree=` line |
| BasesData.TailWritten | src/gui/mixins/bases_data_mixin.py:32-55 | every set field after `Version` appears as its `key=value` line |
| BasesData.RecordLayout | src/gui/mixins/bases_data_mixin.py:20-56 | a record starts with `[name]`, `ID=`, `Connect=` and `Folder=` lines and ends with a blank line |
| BasesData.FileLinesSnoc | src/gui/mixins/bases_data_mixin.py:19 | the file's lines are the records of the bases in list order |
| BasesData.SaveText | src/gui/mixins/bases_data_mixin.py:18-56 | the loop over the list writes the text of every record in turn, each line terminated |
| BasesData.SaveBases | src/gui/mixins/bases_data_mixin.py:15-58 | on success the file holds exactly that text in `utf-8-sig`; on failure it is unchanged and the error is shown |
| BasesData.LoadBases | src/gui/mixins/bases_data_mixin.py:8-13 | the shared list object now holds what the reader reads, and the tree is rebuilt |
| BasesData.ReloadAndNavigate | src/gui/mixins/bases_data_mixin.py:60-65 | the list is reloaded, then the opened bases and main processes refreshed, then the initial selection made, in that order |
| BasesData.LoadedAll | services/base_reader.py:60-69 | one loaded base per saved base, in order |
| BasesData.ApplyForeign | src/gui/mixins/bases_data_mixin.py:24-27 | entries whose keys the reader ignores leave the base it makes unchanged |
| BasesData.SameReadCreates | services/base_reader.py:60-69 | two sections that agree on `ID`, `Connect`, `Folder`, `App` and `Version` give the same base |
| BasesData.RunEntries | services/base_reader.py:46-48 | reading entry lines applies the entries to the current section, in order |
| BasesData.RecordRead | services/base_reader.py:31-48 | reading a record's lines ends the previous section and fills the header's section with the entries |
| BasesData.EntriesPlain | src/gui/mixins/bases_data_mixin.py:20-55 | every entry of a storable base reads back unchanged, and `IsRecent`, `LastRunTime` and the fields after `Version` do not touch what the reader uses |
| BasesData.IsoFormatPlain | src/gui/mixins/bases_data_mixin.py:27 | `isoformat()` gives a value that reads back unchanged |
| BasesData.SectionLoads | src/gui/mixins/bases_data_mixin.py:20-55 | the section a saved base's lines build has an `ID` and describes the loaded base |
| BasesData.RecordLoads | src/gui/mixins/bases_data_mixin.py:20-56 | reading one storable record ends the previous section and opens the record's own |
| BasesData.RecordFlushes | services/base_reader.py:31-34 | reading one record and flushing adds exactly its loaded base |
| BasesData.FileRead | src/gui/mixins/bases_data_mixin.py:19-56 | reading the lines of saved bases yields one loaded base per saved base, in order |
| BasesData.TextLinesTerminated | src/gui/mixins/bases_data_mixin.py:20-56 | lines without `\n` or `\r`, each written with a `\n` after it, are read back in text mode as themselves and a last empty piece |
| BasesData.FileLinesOneLine | src/gui/mixins/bases_data_mixin.py:20-56 | no line of the saved file holds a `\n` or `\r` for storable bases |
| BasesData.RunTrailingBlank | services/base_reader.py:27-28 | the empty piece after the last line break changes nothing |
| BasesData.SaveLoadRoundTrip | src/gui/mixins/bases_data_mixin.py:15-56 | saving storable bases and reading the file back line by line in text mode gives one base per saved base, in order, with what the reader keeps of it |
| BasesData.SaveLoadFields | src/gui/mixins/bases_data_mixin.py:20-31 | field by field: the ID, connection and folder come back, the name comes back as the folder, and `App` and `Version` come back when set and as `None` otherwise |
| Models.NewDatabase | models/database.py:4-12 | a record made from the six constructor arguments carries them; the fields the callers add later start empty (no recent flag, launch time, folder to restore, order or credentials) |
| Models.Or | gui/actions/database_actions.py:138-139 | `a or b`: `a` when it is truthy, else `b`; the result is truthy iff one of them is |
| Models.Display | models/database.py:14-15 | `str(db)` reads back as the name, then ` (`, the folder and `)`, and is three characters longer than name and folder together |
| Models.DisplayInjective | models/database.py:14-15 | for names of equal length, equal texts mean equal names and equal folders |
| Models.ConnectionType | models/database.py:17-23 | `Файловая` iff the string contains `File=`; `Клиент-серверная` iff it contains `Srvr=` but not `File=`; `Неизвестно` otherwise |
| Models.IndexOf | src/gui/actions/database_operations.py:93 | `list.index` finds the first record equal to the base, and finds one iff the base is in the list |
| Models.RemoveFirst | src/gui/actions/database_operations.py:153 | `list.remove` drops exactly the first equal record |
| DatabaseOperations.Owner | src/gui/actions/database_operations.py:44-53 | the first row going up that is a base outside the recent group, with none before it; or none at all |
| DatabaseOperations.FolderPath | src/gui/actions/database_operations.py:54-56 | the path is absolute, and `/` for no parts |
| DatabaseOperations.RootFirstConcat | src/gui/actions/database_operations.py:50-53 | labels of outer rows come before those of inner rows |
| DatabaseOperations.RootFirstOne | src/gui/actions/database_operations.py:49-52 | a row contributes its label exactly when it is a folder whose label does not contain `Недавние` |
| DatabaseOperations.OwnerWins | src/gui/actions/database_operations.py:45-48 | a base outside the recent group decides the folder when no nearer row ends the walk |
| DatabaseOperations.ProcessRowRaises | src/gui/actions/database_operations.py:44-47 | a process or application row met first has no `is_recent`, so the walk raises and gives no folder |
| DatabaseOperations.CurrentFolderAbsolute | src/gui/actions/database_operations.py:37-56 | without a selection the folder is `/`, and when the walk reaches the top it is an absolute path |
| DatabaseOperations.CurrentFolder | src/gui/actions/database_operations.py:36-56 | the loop that walks up the parents returns the folder described above, or `None` where it raises |
| DatabaseOperations.Renamed | src/gui/actions/database_operations.py:91-92 | the original gets ` <date>` appended to its name and nothing else changes |
| DatabaseOperations.Copy | src/gui/actions/database_operations.py:68-90 | the copy has the new id and no launch time, and every other field as the original had it |
| Strings.TextLinesWithoutCr | services/base_reader.py:22-23 | a text without `\r` is read line by line exactly as its split at `\n` |
| Strings.InsertAt | src/gui/actions/database_operations.py:94 | `list.insert(j, x)` (and `insertRow`) puts `x` at `j` with the elements before and after it unchanged |
| DatabaseOperations.DuplicateList | src/gui/actions/database_operations.py:91-94 | the list work of a duplication, step by step, gives the list the duplication describes |
| DatabaseOperations.DuplicateDatabase | src/gui/actions/database_operations.py:66-99 | on success the list is the duplicated one, saved and reloaded, and the renamed name is reported; on failure the list is unchanged and the error is shown |
| DatabaseOperations.DuplicateShape | src/gui/actions/database_operations.py:92-94 | the renamed original stays in place and the copy follows it directly |
| DatabaseOperations.UniqueIdsNoTwin | src/gui/actions/database_operations.py:93 | with unique ids the renamed record is found at its own position |
| DatabaseOperations.DuplicateElements | src/gui/actions/database_operations.py:92-94 | duplication grows the list by one and trades the original for the renamed record and the copy |
| DatabaseOperations.SpliceMultiset | src/gui/actions/database_operations.py:92-94 | replacing one element by a run trades that element for the run |
| DatabaseOperations.ResetRecent | src/gui/actions/database_operations.py:135-139 | a base taken out of the recent group is not recent and has no launch time; its remembered folder, if any, is restored and cleared; nothing else changes |
| DatabaseOperations.DeleteDatabase | src/gui/actions/database_operations.py:125-162 | declining changes nothing; a confirmed recent base is reset in place; a confirmed other base is removed, and the cache report and messages follow |
| DatabaseOperations.RemoveFirstElements | src/gui/actions/database_operations.py:153 | removing a base drops exactly one copy of it |
| DatabaseOperations.ResetUndoesLaunch | src/gui/actions/database_operations.py:134-139 | taking a launched base out of the recent group restores its folder and flag |
| DatabaseOperations.NewRecord | src/gui/actions/database_operations.py:185-207 | the new record has the new id, name `Новая база`, the current folder, no connection, `x86` and `thick`, and no other values |
| DatabaseOperations.Applied | src/gui/actions/database_operations.py:210-226 | every field the dialog edits is taken from its settings; the id, order, recent state and launch time are kept |
| DatabaseOperations.AddDatabase | src/gui/actions/database_operations.py:183-230 | the dialog opens on the new record in the current folder; on acceptance the edited record is appended, saved and reloaded; otherwise, and when finding the folder raises, nothing changes |
| DatabaseOperations.IrFolderName | src/gui/actions/database_operations.py:280-281 | an empty connection string gives an empty name |
| DatabaseOperations.ReplaceCharPointwise | src/gui/actions/database_operations.py:289 | replacing one character by `_` works character by character |
| DatabaseOperations.ReplaceEachPointwise | src/gui/actions/database_operations.py:289-295 | the chain of replacements turns each listed character into `_` and keeps every other |
| DatabaseOperations.IrFolderNamePointwise | src/gui/actions/database_operations.py:283-297 | after the separators, each unsafe character becomes `_` and nothing else changes |
| DatabaseOperations.IrFolderNameSafe | src/gui/actions/database_operations.py:288-295 | the folder name holds no `:`, `-`, `.`, `,`, `\`, `/` or space |
| DatabaseOperations.ServerSeparated | src/gui/actions/database_operations.py:285-286 | on `Srvr="S";Ref="R";` both `="` and both `";` become `__` |
| DatabaseOperations.IrFolderNameOfServer | src/gui/actions/database_operations.py:274-297 | for `Srvr="S";Ref="R";` the name is `Srvr__S'__Ref__R'__`, with `S'` and `R'` made safe |
| DatabaseOperations.IrFolderNameExample | src/gui/actions/database_operations.py:277-278 | the documented example gives `Srvr__srv_1c_8325_1541__Ref__ZUP_0202_Pechericadv_1__` |
| SettingsDialog.ArchDisplay | gui/dialogs/database_settings_dialog.py:63 | the box shows `x64` exactly for `x86_64` and `x86` for anything else |
| SettingsDialog.ArchWords | gui/dialogs/database_settings_dialog.py:133 | the pattern's word is `x86` or `x64` |
| SettingsDialog.SpaceStart | gui/dialogs/database_settings_dialog.py:133 | the start of the whitespace run that ends at a position |
| SettingsDialog.ArchMatch | gui/dialogs/database_settings_dialog.py:133 | a match of `\(\s*(x86\|x64)\s*\)\s*$` starts inside the text and captures one of the two words |
| SettingsDialog.ArchScan | gui/dialogs/database_settings_dialog.py:133 | a scan result is a match: `(`, whitespace, the word, whitespace, `)`, whitespace to the end |
| SettingsDialog.ArchMatchSound | gui/dialogs/database_settings_dialog.py:133 | what the match finds has the pattern's shape from the start it reports |
| SettingsDialog.ArchMatchComplete | gui/dialogs/database_settings_dialog.py:133 | every text of the pattern's shape is matched, at the start of the shape and with its word |
| SettingsDialog.MatchAt | gui/dialogs/database_settings_dialog.py:133 | a match is found at the positions of its parenthesis, word and closing parenthesis |
| SettingsDialog.ParseVersion | gui/dialogs/database_settings_dialog.py:125-138 | without a match the text and `x86` are returned; the architecture is `x86_64` exactly when the match's word is `x64` |
| SettingsDialog.StripSpaceSuffix | gui/dialogs/database_settings_dialog.py:138 | whitespace at the end does not change what `strip` keeps |
| SettingsDialog.StripParts | gui/dialogs/database_settings_dialog.py:138 | a text is its stripped part with whitespace on either side |
| SettingsDialog.VersionRoundTrip | gui/dialogs/database_settings_dialog.py:61-138 | reading back the text the dialog writes gives the stripped version and `x86_64` exactly for a 64-bit base |
| SettingsDialog.VersionTextMatch | gui/dialogs/database_settings_dialog.py:64-133 | the written text is matched at its parenthesis, with its word |
| SettingsDialog.NoneIfEmpty | gui/dialogs/database_settings_dialog.py:144-148 | an empty text becomes `None`, any other stays as it is |
| SettingsDialog.GetSettings | gui/dialogs/database_settings_dialog.py:122-149 | name, folder and connection as typed; user, password and path as `None` exactly when empty; version and architecture read from the version box |
| SettingsDialog.UneditedSettings | gui/dialogs/database_settings_dialog.py:24-149 | accepting without edits gives the base's own values back, the version stripped and the architecture normalised |
| SettingsDialog.InstalledVersions | gui/dialogs/database_settings_dialog.py:93-120 | the loops compute the offered list |
| SettingsDialog.AddRootLabels | gui/dialogs/database_settings_dialog.py:107-115 | one folder's labels are added in order, each unless already listed |
| SettingsDialog.RootLabelsHas | gui/dialogs/database_settings_dialog.py:107-113 | a label is found exactly when a version folder other than `common` holds `bin/1cv8.exe` |
| SettingsDialog.InstalledVersionsProps | gui/dialogs/database_settings_dialog.py:93-120 | the list is sorted newest first, without repetitions, and holds exactly the installed versions on Windows |
| SettingsDialog.FoundBoth | gui/dialogs/database_settings_dialog.py:99-105 | the 64-bit folder's labels come before the 32-bit folder's |
| TreeModel.FirstWithText | src/gui/tree/main_processes_tree_builder.py:42-46 | the first top-level row with the label, or none when no row has it |
| TreeModel.RemoveFirstWithText | src/gui/tree/main_processes_tree_builder.py:40-46 | the scan removes the first row with the label and nothing else |
| TreeModel.RemovedFirstKeepsOthers | gui/tree/opened_bases_tree_builder.py:20-26 | removing the old group keeps every other row and takes out one row with the label, when there is one |
| TreeModel.CutFirstPicked | gui/tree/opened_bases_tree_builder.py:22-26 | cutting out the first row with the label leaves one such row fewer and the rest in order |
| TreeModel.InsertPosition | src/gui/tree/main_processes_tree_builder.py:116-121 | the main group goes second exactly when the first row's text contains `Открытые базы`, otherwise first |
| TreeModel.DataRowsMembers | gui/tree/opened_bases_tree_builder.py:55-66 | a child is listed exactly when it is at or after the start and stores data |
| TreeModel.DataRowsFrom | gui/tree/opened_bases_tree_builder.py:62-65 | every listed row is a child from the start on with data |
| TreeModel.DataRowsHas | gui/tree/opened_bases_tree_builder.py:62-65 | every child from the start on with data is listed |
| TreeModel.GetProcessItems | src/gui/tree/main_processes_tree_builder.py:127-138 | nothing before the group exists, otherwise the children with data from the given start |
| TreeBuilder.Segment | src/gui/tree/tree_builder.py:20-24 | the text before the first slash, slash-free, or the whole text |
| TreeBuilder.BaseRows | src/gui/tree/tree_builder.py:32-42 | one row per base, in order: name, connection string, version, the base stored on the first cell |
| TreeBuilder.SortBases | src/gui/tree/tree_builder.py:13-24 | the direct bases in list order, and the lower bases filed by subfolder in a dictionary whose buckets are the subfolder groups |
| TreeBuilder.SortOne | src/gui/tree/tree_builder.py:15-24 | one base goes to the direct list, to its subfolder's bucket, or nowhere |
| TreeBuilder.FileUnder | src/gui/tree/tree_builder.py:22-24 | appending to a `defaultdict(list)` bucket keeps every bucket equal to its group |
| TreeBuilder.KeyOfBelow | src/gui/tree/tree_builder.py:18-24 | a base under the folder but not directly in it is filed by the first segment after the folder |
| TreeBuilder.AppendBaseRows | src/gui/tree/tree_builder.py:32-42 | the loop appends one row per direct base, in order |
| TreeBuilder.AddBasesToFolder | src/gui/tree/tree_builder.py:12-42 | the rows added under a folder are its children as the recursive definition gives them |
| TreeBuilder.SubNamesAreKeys | src/gui/tree/tree_builder.py:25 | the sorted subfolder names are exactly the keys, each once |
| TreeBuilder.BucketSlack | src/gui/tree/tree_builder.py:25-29 | the recursion ends: each call reaches less far past its longer path |
| TreeBuilder.SegmentUnder | src/gui/tree/tree_builder.py:18-24 | a base filed under a subfolder lies in or under that subfolder |
| TreeBuilder.BucketAllUnder | src/gui/tree/tree_builder.py:28-29 | every base of a bucket lies in or under its subfolder |
| TreeBuilder.UnderSplit | src/gui/tree/tree_builder.py:16-18 | the bases in or under a folder are those directly in it plus those further down |
| TreeBuilder.Partition | src/gui/tree/tree_builder.py:13-29 | buckets of distinct names covering every key hold every element exactly once |
| TreeBuilder.ShownChildren | src/gui/tree/tree_builder.py:12-42 | a folder shows each base in or under it as often as the list holds it, and no other |
| TreeBuilder.ChildrenShape | src/gui/tree/tree_builder.py:25-42 | subfolder rows first, strictly ascending and without data, then the direct bases in list order |
| TreeBuilder.DirectChild | src/gui/tree/tree_builder.py:16-42 | a base is a direct child row exactly when its folder is `"/" + path` |
| TreeBuilder.SortRoots | src/gui/tree/tree_builder.py:64-71 | the regular bases filed by their root folder name |
| TreeBuilder.RootName | src/gui/tree/tree_builder.py:66-71 | the root key is the first segment after the leading slashes, `""` for none |
| TreeBuilder.RootPiece | src/gui/tree/tree_builder.py:75-80 | one root folder row filled from its bucket |
| TreeBuilder.AppendRootPieces | src/gui/tree/tree_builder.py:72-80 | the loop adds one folder per sorted key, in order |
| TreeBuilder.AppendRootRows | src/gui/tree/tree_builder.py:64-80 | the root folders of all regular bases, the empty key skipped |
| TreeBuilder.BuildTree | src/gui/tree/tree_builder.py:44-80 | the model holds exactly the recent group, when there are recent bases, and the root folders |
| TreeBuilder.VisibleIsShown | src/gui/tree/tree_builder.py:66-80 | a regular base lands in a root folder that shows it exactly when its folder is a slash and then anything but another slash |
| TreeBuilder.RecentCount | src/gui/tree/tree_builder.py:46-47 | the recent and regular lists split each base's occurrences by its recent flag |
| TreeBuilder.ShownRoots | src/gui/tree/tree_builder.py:64-80 | the root folders show every visible regular base once per occurrence |
| TreeBuilder.TreeShowsEachBase | src/gui/tree/tree_builder.py:44-80 | the tree shows each recent base and each regular base with a visible folder once per occurrence, and no other base |
| TreeBuilder.TreeShape | src/gui/tree/tree_builder.py:44-80 | `Недавние` first exactly when there are recent bases, then named root folders without data in strictly ascending order |
| TreeBuilder.RootNamesAscending | src/gui/tree/tree_builder.py:72 | the root names are sorted and distinct |
| ProcessTrees.ProcessRows | gui/tree/main_processes_tree_builder.py:35-43 | one row per process, in order, each storing its process |
| ProcessTrees.ProcessMap | src/gui/tree/main_processes_tree_builder.py:56-68 | each name maps to its instances in discovery order, never to an empty list; a failed lookup is skipped |
| ProcessTrees.AppendProcessRows | src/gui/tree/main_processes_tree_builder.py:81-96 | the loop appends one row per running instance |
| ProcessTrees.AppendAppRows | src/gui/tree/main_processes_tree_builder.py:70-114 | the loop over the tracked applications builds the group's rows in their order |
| ProcessTrees.MainProcessesTreeBuilder.constructor | src/gui/tree/main_processes_tree_builder.py:30-32 | the builder has its model and no group yet |
| ProcessTrees.MainProcessesTreeBuilder.BuildTree | src/gui/tree/main_processes_tree_builder.py:34-125 | the old `Основное` node is replaced by one holding each application's instances or placeholder, at the insert position; the count is its number of rows |
| ProcessTrees.MainProcessesTreeBuilder.GetItems | src/gui/tree/main_processes_tree_builder.py:127-138 | the group's rows with data from the first on, nothing before a build |
| ProcessTrees.LegacyMainProcessesTreeBuilder.constructor | gui/tree/main_processes_tree_builder.py:11-13 | the builder has its model and no group yet |
| ProcessTrees.LegacyMainProcessesTreeBuilder.BuildTree | gui/tree/main_processes_tree_builder.py:15-55 | the old node is replaced by one row per discovered process at the insert position; the count is the number of processes |
| ProcessTrees.LegacyMainProcessesTreeBuilder.GetItems | gui/tree/main_processes_tree_builder.py:57-68 | the group's rows with data from the first on |
| ProcessTrees.OpenedRows | gui/tree/opened_bases_tree_builder.py:40-50 | one row per process |
| ProcessTrees.OpenedRowsAt | gui/tree/opened_bases_tree_builder.py:40-50 | each row shows the process's name, window handle and pid and stores the process |
| ProcessTrees.OpenedRowsNext | gui/tree/opened_bases_tree_builder.py:40-50 | one more process adds its row at the end |
| ProcessTrees.AppendOpenedRows | gui/tree/opened_bases_tree_builder.py:39-50 | the loop appends one row per running 1C process |
| ProcessTrees.OpenedBasesTreeBuilder.constructor | gui/tree/opened_bases_tree_builder.py:12-14 | the builder has its model and no group yet |
| ProcessTrees.OpenedBasesTreeBuilder.BuildTree | gui/tree/opened_bases_tree_builder.py:16-53 | the old node is replaced by a non-selectable node with the header row and one row per process, inserted first |
| ProcessTrees.OpenedBasesTreeBuilder.GetItems | gui/tree/opened_bases_tree_builder.py:55-66 | the rows after the header that carry data |
| ProcessTrees.InstancesMembers | src/gui/tree/main_processes_tree_builder.py:58-68 | a process is among a name's instances exactly when it runs and its lookup answered that name |
| ProcessTrees.MainChildrenCount | src/gui/tree/main_processes_tree_builder.py:72-114 | every tracked application shows at least one row |
| ProcessTrees.MainChildrenComplete | src/gui/tree/main_processes_tree_builder.py:79-114 | every running instance of a tracked application is shown, and an application without instances shows its placeholder |
| ProcessTrees.MainChildrenSound | src/gui/tree/main_processes_tree_builder.py:79-114 | every row is a running instance of a tracked application or the placeholder of one without instances |
| ProcessTrees.MainItemsAll | src/gui/tree/main_processes_tree_builder.py:127-138 | every row of the newer main group carries data, so all are items |
| ProcessTrees.LegacyItemsAll | gui/tree/main_processes_tree_builder.py:35-68 | the older group's items are its process rows, each storing its process |
| ProcessTrees.OpenedItems | gui/tree/opened_bases_tree_builder.py:34-66 | the items skip the header and are the process rows in discovery order |
| ProcessTrees.OpenedThenMain | src/gui/mixins/bases_data_mixin.py:63-64 | rebuilding the opened bases and then the main group puts them first and second |
| TreeNavigation.LastOfKind | src/gui/mixins/tree_navigation_mixin.py:34-43 | the last row of a group kind before a position, the `if`/`elif` order deciding the kind |
| TreeNavigation.ScanGroups | src/gui/mixins/tree_navigation_mixin.py:30-43 | each group index is the last top-level row whose text names it |
| TreeNavigation.LastOfKindNext | src/gui/mixins/tree_navigation_mixin.py:34-43 | one more row overwrites the index of its kind only |
| TreeNavigation.PidRow | src/gui/mixins/tree_navigation_mixin.py:62-74 | the first child storing a process with the pid, or none |
| TreeNavigation.IdRow | src/gui/mixins/tree_navigation_mixin.py:110-118 | the first child storing a base with the id, or none |
| TreeNavigation.FindProcessRow | src/gui/mixins/tree_navigation_mixin.py:61-78 | the remembered process's row, else the first row |
| TreeNavigation.FindRecentRow | src/gui/mixins/tree_navigation_mixin.py:109-122 | the last launched base's row, else the first row, none for an empty group |
| TreeNavigation.ExpandAndSelectInitial | src/gui/mixins/tree_navigation_mixin.py:28-122 | the expanded rows and the cursor as the priority rule gives them |
| TreeNavigation.ProcessChoiceFinds | src/gui/mixins/tree_navigation_mixin.py:61-78 | the remembered process is selected exactly when its pid is in the group |
| TreeNavigation.SelectionIgnoresOrder | src/gui/mixins/tree_navigation_mixin.py:61-74 | with distinct pids, reordering a group's rows selects the same row |
| TreeNavigation.RecentChoiceFinds | src/gui/mixins/tree_navigation_mixin.py:104-122 | the last launched base when present, the first row otherwise, nothing for an empty group |
| TreeNavigation.SelectionPriority | src/gui/mixins/tree_navigation_mixin.py:56-122 | a filled opened group decides, else a filled main group, else the recent group; the cursor is a real row |
| TreeNavigation.HeaderAlwaysWins | src/gui/mixins/tree_navigation_mixin.py:56-78 | as written: after a rebuild the opened group, header row included, always takes the cursor, on its header row when no 1C process runs |
| TreeNavigation.FirstItem | src/gui/mixins/tree_navigation_mixin.py:75-77 | the first child with data, or none |
| TreeNavigation.IntendedSelectsEntries | src/gui/mixins/tree_navigation_mixin.py:56-102 | corrected: the cursor lands on an entry when a process group holds one |
| TreeNavigation.IntendedReachesMain | src/gui/mixins/tree_navigation_mixin.py:80-98 | corrected: with no 1C process running, the remembered main process is selected |
| TreeNavigation.FirstRecent | gui/tree_window.py:828-830 | the first top-level row whose text contains `Недавние` |
| TreeNavigation.FindIdRow | gui/tree_window.py:834-843 | the older search of the recent group finds the first row holding the base |
| TreeNavigation.ExpandRecentAndSelectLast | gui/tree_window.py:826-849 | the first recent group is expanded and its remembered base or first row selected as the older rule gives |
| TreeNavigation.LegacyKeepsCursorForMissingBase | gui/tree_window.py:834-848 | the older window selects nothing for a remembered base that is gone, where the newer one takes the first row |
| ProcessActions.SelectedTarget | src/gui/actions/process_actions.py:23-52 | a target exactly for a row storing a process or a tracked application, and it is what the row stores |
| ProcessActions.ProcessActions.constructor | src/gui/actions/process_actions.py:16-21 | no activation history |
| ProcessActions.ProcessActions.ActivateProcess1C | src/gui/actions/process_actions.py:86-99 | on success the process becomes the last one, the previous one moves back when its pid differs, the message and the tray follow; on failure only the message |
| ProcessActions.ProcessActions.LaunchApplication | src/gui/actions/process_actions.py:101-140 | the effects of a launch: the missing path, the missing file, the start with its refresh and tray, or the error |
| ProcessActions.ProcessActions.Activate | src/gui/actions/process_actions.py:54-99 | a 1C process is brought forward as `ActivateProcess1C` states: on success it becomes the last one, the previous one moves back when its pid differs, the message and the tray follow, and on failure only the message is logged; a running application is brought forward and remembered on success, with the same messages; any other application is launched; the 1C history is unchanged for applications |
| ProcessActions.ProcessActions.ActivateSelected | src/gui/actions/process_actions.py:61-65 | without a selected process or application nothing changes; otherwise the selected row's target is activated with every effect `Activate` states for it, on both outcomes |
| ProcessActions.ProcessActions.Close | src/gui/actions/process_actions.py:142-187 | nothing for an application that is not running; otherwise the calls of `activate_window` and then of `close_process` with the same `force`, and the reply to how that close ended: the message and the refresh of the cursor's group, the failure message, or nothing while it still waits |
| ProcessActions.ActivationKeepsConsistent | src/gui/actions/process_actions.py:91-95 | the previous process never has the last one's pid |
| ProcessActions.ActivationSwaps | src/gui/actions/process_actions.py:91-95 | switching back and forth swaps the last and previous processes |
| ProcessActions.ReactivationKeepsHistory | src/gui/actions/process_actions.py:92 | activating the same process again keeps the previous one |
| ProcessActions.LaunchStartsOnlyWhenAllowed | src/gui/actions/process_actions.py:108-140 | a start happens exactly with a path set, not a missing absolute file, and no error; only then the refresh after 1000 ms and the tray |
| ProcessActions.RelativePathIsNotChecked | src/gui/actions/process_actions.py:113-116 | a relative path is never checked for existence |
| ProcessActions.CloseTargetOfApp | src/gui/actions/process_actions.py:156-161 | a close acts exactly on a running application's process |
| ProcessActions.CloseRefreshesItsGroup | src/gui/actions/process_actions.py:177-185 | a close under `Основное` refreshes the main group, otherwise the opened bases |
| ProcessActions.ForceChangesCallAndMessage | src/gui/actions/process_actions.py:166-185 | for the same answers, `force` kills where a close sends `WM_CLOSE` or terminates; when both succeed only the message word differs |
| ProcessActions.MainRowsNeverActivateApps | src/gui/tree/main_processes_tree_builder.py:79-114 | every row of the newer main group is a target, and an application row is never a running one |
| ProcessManager.SameProcessIgnoresWindow | src/services/process_manager.py:29-35 | two entries are the same process exactly when they differ at most in shown name and window handle |
| ProcessManager.MainIndex | src/services/process_manager.py:150-166 | the first window the callback accepts, or none |
| ProcessManager.FindMainWindow | src/services/process_manager.py:138-168 | nothing when enumeration raises, otherwise the first visible top-level window of the pid with its title |
| ProcessManager.Icon | src/services/process_manager.py:72-82 | a square exactly for a title containing `Конфигуратор`, green exactly for one containing `тест` in lower case |
| ProcessManager.DisplayName | src/services/process_manager.py:69-84 | the icon, a space, then the title or `Без имени` |
| ProcessManager.CollectPids | src/services/process_manager.py:55-62 | the pids of the readable table entries with a wanted name, in table order |
| ProcessManager.CollectProcesses | src/services/process_manager.py:64-87 | one entry per pid that has a main window, in pid order |
| ProcessManager.GetRunningProcesses | src/services/process_manager.py:45-89 | the newer collection of running `1cv8.exe` and `1cv8c.exe` processes |
| ProcessManager.LegacyGetRunningProcesses | services/process_manager.py:42-69 | the older collection: `1cv8.exe` only, titled windows only |
| ProcessManager.WantedPidsMembers | src/services/process_manager.py:57-62 | a pid is collected exactly when its entry is readable and its name is wanted |
| ProcessManager.CollectedSound | src/services/process_manager.py:64-87 | each entry belongs to a given pid and carries that pid's main window |
| ProcessManager.CollectedComplete | src/services/process_manager.py:64-87 | a pid has an entry exactly when it is given and has a main window |
| ProcessManager.CollectedDistinct | src/services/process_manager.py:29-87 | distinct pids give entries that are pairwise different processes |
| ProcessManager.WantedPidsDistinct | src/services/process_manager.py:55-62 | a table without repeated pids gives distinct pids |
| ProcessManager.LegacyEntryTitled | services/process_manager.py:62-93 | an older entry always has a non-empty title, shown unchanged |
| ProcessManager.ConfigFor | src/services/process_manager.py:102-120 | the last configuration with the process name, none exactly when no configuration has it |
| ProcessManager.MainDisplayName | src/services/process_manager.py:124-131 | the icon (default `💻`), a space, then the title or the display name (default the process name) |
| ProcessManager.TrackedPids | src/services/process_manager.py:105-111 | every collected pair has a configuration |
| ProcessManager.CollectTracked | src/services/process_manager.py:104-111 | the loop collects the pids and names of the tracked processes |
| ProcessManager.CollectMainEntries | src/services/process_manager.py:113-133 | one entry per pair whose process has a main window |
| ProcessManager.GetRunningMainProcesses | src/services/process_manager.py:91-135 | the running tracked applications with their main windows |
| ProcessManager.CollectedMainLength | src/services/process_manager.py:119-122 | the configuration check after a match never drops an entry |
| ProcessManager.CloseOutcome | src/services/process_manager.py:195-236 | a kill exactly for a forced close; failure exactly for another exception; a vanished or protected process counts as closed |
| ProcessManager.CloseProcess | src/services/process_manager.py:207-236 | the wait loop ends as the outcome says, with the calls it makes |
| ProcessManager.LegacyCloseProcess | services/process_manager.py:129-157 | the older close: kill when forced, terminate when the window message fails, `False` for a vanished process |
| ProcessManager.VanishedProcessDisagrees | src/services/process_manager.py:231-233 | the newer generation reports a vanished process closed, the older one not |
| ProcessManager.NoImplicitKill | src/services/process_manager.py:210-228 | a graceful close never kills; a forced one only kills |
| ProcessManager.ActivateWindow | src/services/process_manager.py:170-193 | the calls made are a prefix of restore-when-minimised then bring-forward, all of them when nothing raises; `SetForegroundWindow` is called iff no earlier call raised; `True` iff no call raised |
| ProcessManager.ActivationStopsAtFault | src/services/process_manager.py:181-193 | a raising call is the last one made, and the result is `(True, all calls)` exactly when none raises |
| ProcessManager.ForegroundProcess | src/services/process_manager.py:238-260 | the foreground window's process exactly when its name is a 1C name, with its pid, handle and shown name |
| Hotkeys.GlobalHotkeyManager.constructor | src/gui/hotkeys/global_hotkey_manager.py:37-44 | no hotkey registered, no calls made |
| Hotkeys.GlobalHotkeyManager.Register | src/gui/hotkeys/global_hotkey_manager.py:46-79 | without the Windows API nothing happens; otherwise `RegisterHotKey(1, Ctrl+Shift, VK_OEM_3)` is called, and a success sets the flag and shows the active message for 3000 ms |
| Hotkeys.GlobalHotkeyManager.Unregister | src/gui/hotkeys/global_hotkey_manager.py:81-95 | only a registered hotkey is released, and the flag is cleared |
| Hotkeys.GlobalHotkeyManager.HandleNativeEvent | src/gui/hotkeys/global_hotkey_manager.py:97-147 | a `WM_HOTKEY` (`0x0312`) for id 1 on Windows is handled by showing the window from the tray and forcing it forward; the answer is `(handled, 0)` |
| Hotkeys.LegacyHotkeyWindow.constructor | gui/tree_window.py:38-50 | no hotkey registered, no calls made |
| Hotkeys.LegacyHotkeyWindow.Register | gui/tree_window.py:77-103 | `RegisterHotKey(1, Win, '1')` on Windows; a success sets the flag |
| Hotkeys.LegacyHotkeyWindow.Unregister | gui/tree_window.py:105-120 | only a registered hotkey is released, also when the window closes |
| Hotkeys.LegacyHotkeyWindow.NativeEvent | gui/tree_window.py:122-167 | a handled message answers `(True, 0)` after restoring, activating, raising and forcing the window forward; any other goes on to the base class |
| Hotkeys.ModifierNamesExact | src/gui/hotkeys/global_hotkey_manager.py:151-159 | each modifier is named exactly when its bit is set |
| Hotkeys.ConfiguredNames | src/gui/hotkeys/global_hotkey_manager.py:149-169 | the configured hotkey reads `Ctrl+Shift+Ё`; the older window's is Win+1 |
| Hotkeys.HexDigitsInjective | src/gui/hotkeys/global_hotkey_manager.py:167 | different key codes have different `hex` spellings |
| Hotkeys.KeyNamesInverse | src/gui/hotkeys/global_hotkey_manager.py:162-166 | every table name is one character that leads back to its code |
| Hotkeys.KeyNameInjective | src/gui/hotkeys/global_hotkey_manager.py:162-167 | two keys with the same name are the same key |
| LegacyWindow.TreeWindow.constructor | gui/tree_window.py:40-50 | the window holds its base list and host |
| LegacyWindow.LegacyTailFields | gui/tree_window.py:696-730 | the older fields after `Version` are the newer ones without `ClientType` |
| LegacyWindow.WithoutClientType | gui/tree_window.py:442-464 | every base with its client type cleared, nothing else changed |
| LegacyWindow.LegacyRecordAgrees | gui/tree_window.py:687-730 | the older record of a base is the newer record of the same base without client type |
| LegacyWindow.LegacyFileAgrees | gui/tree_window.py:683-730 | the older file is the newer file of the bases without client type |
| LegacyWindow.LegacyFileLinesSnoc | gui/tree_window.py:687-730 | one more base appends its record |
| LegacyWindow.LegacySaveText | gui/tree_window.py:686-730 | the loop writes the older file text |
| LegacyWindow.SaveBases | gui/tree_window.py:683-733 | the file is written with the older layout, or the failure is reported and no file changes |
| LegacyWindow.LegacySaveLoadRoundTrip | gui/tree_window.py:683-730 | reading back, line by line in text mode, what the older window saves gives what the reader makes of the bases |
| LegacyWindow.StorableWithoutClientType | gui/tree_window.py:683-730 | clearing the client type keeps a list storable |
| LegacyWindow.LoadedWithoutClientType | services/base_reader.py:24-88 | the reader never sees the client type |
| LegacyWindow.LoadBases | gui/tree_window.py:773-779 | `all_bases` is bound to a new list holding what the reader returns, and the tree is rebuilt |
| LegacyWindow.LegacyCopy | gui/tree_window.py:442-464 | a new id, no launch time, no client type, every other field copied |
| LegacyWindow.DuplicateDatabase | gui/tree_window.py:433-480 | the newer list change with the older copy on the list object held; then `ibases.v8i` rewritten in the older layout (or the save failure shown), `all_bases` rebound to a fresh list of what the reader returns, and the message; or the failure message and no change |
| LegacyWindow.StoreAndReload | gui/tree_window.py:469-475 | the list object holds the duplicated list, the file is written, a fresh list is read and the report follows |
| LegacyWindow.LegacyDuplicateShape | gui/tree_window.py:466-470 | with unique ids the copy goes right after the renamed original and nothing else moves |
| LegacyWindow.CopiesDifferInClientType | gui/tree_window.py:442-464 | the older and newer copies differ in the client type alone |
| Actions.DatabaseActions.constructor | src/gui/actions/database_actions.py:39-48 | the actions share the window's base list; no base launched yet, no console script cached |
| Timestamps.StemStamp | gui/actions/_db_designer_mixin.py:232 | `%y%m%d_%H%M`: eleven characters, digits around an underscore at position 6 |
| Timestamps.DateStamp | src/gui/actions/database_operations.py:91 | `%Y-%m-%d`: ten characters with dashes at positions 4 and 7 |
| Timestamps.IsoFormat | src/gui/mixins/bases_data_mixin.py:27 | `isoformat()`: 19 characters, or 26 with microseconds, `T` and colons in place |
| Timestamps.IsoFormatChars | src/gui/mixins/bases_data_mixin.py:27 | the written time is one line of digits and separators ending in a digit |

## Left out

- Operating-system calls are not performed. `psutil`, `win32gui`, `win32process`, `RegisterHotKey`, `ShellExecute`, `os.startfile`, `subprocess.Popen`, `mkdir`, `os.remove` and `tempfile` appear only through their answers, which are parameters. Their effects appear only as entries in the host log.
- The `time.sleep(0.1)` polling in `close_process` has no timing. The model walks a given sequence of observed rounds (window valid, pid exists).
- `shutil.rmtree` in `_clear_database_cache` is not modelled. The lines it reports are a parameter of `DatabaseOperations.DeleteDatabase`.
- `get_selected_database`, `copy_connection_string`, `edit_database_settings` and `clear_cache` in `src/gui/actions/database_operations.py` are not modelled. They are dialog and clipboard glue around the selected record.
- `get_connection_string` in `services/base_launcher.py` is not modelled. It returns a field unchanged.
- The fallback PowerShell script's text is not modelled; it is foreign code. The model records only that a script file is written and where.
- Encodings (`cp866`, `utf-8-sig`, `utf-8`) are labels on written files. The only property kept is which characters `cp866` can encode, for the batch text.
- `QTimer.singleShot` is recorded as a delay and a task in the log. The event loop that later runs the task is not modelled.
- Qt items are rows of cell texts, stored data, a selectable flag and children. Editability, column spans (`setFirstColumnSpanned`), icons and scrolling are left out.
- Object identity is modelled by value. The record a selection refers to is the first element of the list equal to it. Two equal records in the list are therefore not told apart.
- Models.IndexOf: equality compares all 21 fields of the record, the ones the callers construct (`app_arch`, `is_recent`, `last_run_time`, the credentials and the rest). `models/database.py` as it stands declares only six dataclass fields. Under that file, `==`, `list.index` and `list.remove` would ignore the attributes the GUI sets, and the callers' 21-argument constructor calls would raise `TypeError`. The model follows the record the callers use. `get_full_version`, which the tree builder calls, is not in that file either; the model takes its result as a parameter.
- `print` and `traceback` output is not modelled.
- The settings dialog's input fields are taken as given. The 16-field settings record that `src/gui/actions/database_operations.py` reads is an input, because the newer settings dialog is not part of this model.
- `datetime.now()` and `uuid.uuid4()` are parameters.
- `str.lower` covers ASCII, Latin-1 and the basic Cyrillic block. Other scripts keep their case.
- BasesData.SaveBases: a failed write leaves the file unchanged. Python opens the file with `'w'` first, so a failure after opening leaves it truncated. The model does not capture that.
- LegacyWindow.SaveBases: same limitation as `BasesData.SaveBases`.
- Hotkeys.GlobalHotkeyManager.Register: an exception from `winId` or `RegisterHotKey` is treated like a refusal. The flag keeps its value in both cases, but the call to `RegisterHotKey` is still recorded.
- Hotkeys.LegacyHotkeyWindow.NativeEvent: the exception path, where reading the `MSG` structure fails, is not modelled.
- Hotkeys.GlobalHotkeyManager.HandleNativeEvent: the exception path, where reading the `MSG` structure fails and `(False, 0)` is returned, is not modelled. A failure inside `activate_window`, which that method catches, is not modelled either: the handled answer always records both calls.
- Executable.FindMixinExecutable: the found path is returned as the text of `database.app`. `str(Path(...))` on Windows would first turn `/` into `\`, collapse repeated separators and drop `.` parts and a trailing separator; that normalisation is not modelled.
- Executable.FindLegacyExecutable: same limitation as `Executable.FindMixinExecutable` for the configured `app` path.
- Executable.FindLauncherExecutable: same limitation for `custom_path`.
- Paths.Parent: works on the path text as given, without `Path`'s normalisation. A trailing separator, a `.` part or a doubled separator gives a different parent than `pathlib`, and a drive root such as `C:\` loses its separator.
- Paths.PathJoin: always inserts one `\`. `pathlib` joins to `.` or an empty directory without a separator (`Path('.') / 'x'` is `x`) and does not double a trailing separator. So `Designer.ActionLogPath` for a bare log file name such as `x.log` gives `.\<stem>_log_…`, where the launcher uses `<stem>_log_…`; both name the same file.
- ProcessActions.ProcessActions.LaunchApplication: `os.path.isabs` is a parameter, not a function of the path. Windows path syntax is not modelled.
- In `src/gui/hotkeys/global_hotkey_manager.py` the class and `register` docstrings say Alt, and the comment above the constants says Ctrl+Alt+Shift. The constants give Ctrl+Shift, and the model follows the constants.

## Findings

| source | as written | input that shows it | evidently intended | confidence | as-written member | corrected member |
|---|---|---|---|---|---|---|
| src/gui/mixins/tree_navigation_mixin.py:56-78 | the opened-bases group always has a header row (gui/tree/opened_bases_tree_builder.py:34-36), so it always counts as filled. When no 1C process runs, the cursor goes to the header row, and the main group and the recent bases are never reached | no 1C process running, a tracked application running and remembered as `last_activated_main_process` | a process group takes priority only when it holds an entry; with no 1C process, the remembered main process is selected | high, not executed | TreeNavigation.HeaderAlwaysWins | TreeNavigation.IntendedSelectsEntries, TreeNavigation.IntendedReachesMain |

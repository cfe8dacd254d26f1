/**
 * The batch scripts the designer operations generate, as statements: the
 * lines each statement is written as, the text of a script (its lines
 * joined by newlines), and what `cmd /c` does with it as far as the
 * outcome goes: which designer runs happen and with which exit code the
 * script ends.
 */
module Batch {
  import opened Strings

  /** The variables the scripts set. */
  datatype Var = Platform | Base | Log | LogUpdate | LogDump | Dump | Credentials

  function VarName(v: Var): string {
    match v
    case Platform => "PLATFORM"
    case Base => "BASE"
    case Log => "LOG"
    case LogUpdate => "LOG_UPDATE"
    case LogDump => "LOG_DUMP"
    case Dump => "DUMP"
    case Credentials => "CREDENTIALS"
  }

  /** One statement of a generated script. */
  datatype Stmt =
    | Text(line: string)                                   // `@echo off`, `chcp`, `echo …` and blank lines
    | SetVar(name: Var, value: string)                     // `set NAME=value`
    | RunDesigner(action: string, toDump: bool, logVar: Var) // the platform in DESIGNER mode
    | FailIfError(message: string)                            // `if errorlevel 1 ( echo …  exit /b 1 )`
    | ExitSuccess                                             // `exit /b 0`

  const RunPrefix: string := "%PLATFORM% DESIGNER %BASE% %CREDENTIALS% "

  /** The lines a statement is written as. */
  function StmtLines(s: Stmt): (r: seq<string>)
    ensures |r| >= 1
  {
    match s
    case Text(line) => [line]
    case SetVar(name, value) => ["set " + VarName(name) + "=" + value]
    case RunDesigner(action, toDump, logVar) =>
      [RunPrefix + action + (if toDump then "%DUMP%" else "") + " /Out%" + VarName(logVar) + "%"]
    case FailIfError(message) => ["if errorlevel 1 (", "    echo " + message, "    exit /b 1", ")"]
    case ExitSuccess => ["exit /b 0"]
  }

  /** The lines of a script, statement after statement. */
  function Lines(script: seq<Stmt>): (r: seq<string>)
    ensures |r| >= |script|
    decreases |script|
  {
    if script == [] then [] else StmtLines(script[0]) + Lines(script[1..])
  }

  /** `'\n'.join(lines)`: the text written to the batch file. */
  function ScriptText(script: seq<Stmt>): string {
    Join(Lines(script), "\n")
  }

  lemma {:induction false} OneLineNoBreak(p: string)
    requires OneLine(p)
    ensures !HasChar(p, '\n')
  {
  }

  /** The statement's own strings have no line break. */
  predicate CleanStmt(s: Stmt) {
    match s
    case Text(line) => OneLine(line)
    case SetVar(_, value) => OneLine(value)
    case RunDesigner(action, _, _) => OneLine(action)
    case FailIfError(message) => OneLine(message)
    case ExitSuccess => true
  }

  /** The fixed parts of the statements' lines have no line break. */
  lemma FixedLinesOneLine()
    ensures OneLine("set ") && OneLine("=") && OneLine(RunPrefix) && OneLine("%DUMP%") && OneLine("")
    ensures OneLine(" /Out%") && OneLine("%") && OneLine("if errorlevel 1 (") && OneLine("    echo ")
    ensures OneLine("    exit /b 1") && OneLine(")") && OneLine("exit /b 0")
  {
  }

  lemma VarNameOneLine(v: Var)
    ensures OneLine(VarName(v))
  {
  }

  /** Every line of a clean statement is a single line. */
  lemma {:induction false} StmtLinesOneLine(s: Stmt)
    requires CleanStmt(s)
    ensures forall p :: p in StmtLines(s) ==> OneLine(p)
  {
    FixedLinesOneLine();
    match s
    case Text(line) =>
    case SetVar(name, value) =>
      var n := VarName(name);
      VarNameOneLine(name);
      OneLineConcat("set ", n);
      OneLineConcat("set " + n, "=");
      OneLineConcat("set " + n + "=", value);
    case RunDesigner(action, toDump, logVar) =>
      var d := if toDump then "%DUMP%" else "";
      var n := VarName(logVar);
      VarNameOneLine(logVar);
      OneLineConcat(RunPrefix, action);
      OneLineConcat(RunPrefix + action, d);
      OneLineConcat(RunPrefix + action + d, " /Out%");
      OneLineConcat(RunPrefix + action + d + " /Out%", n);
      OneLineConcat(RunPrefix + action + d + " /Out%" + n, "%");
    case FailIfError(message) =>
      OneLineConcat("    echo ", message);
    case ExitSuccess =>
  }

  /** Every line of a script of clean statements is a single line. */
  lemma {:induction false} LinesOneLine(script: seq<Stmt>)
    requires forall i :: 0 <= i < |script| ==> CleanStmt(script[i])
    ensures forall p :: p in Lines(script) ==> OneLine(p)
    decreases |script|
  {
    if script != [] {
      StmtLinesOneLine(script[0]);
      LinesOneLine(script[1..]);
    }
  }

  /** Lines without line breaks, joined by newlines, split back into themselves. */
  lemma {:induction false} SplitLines(lines: seq<string>)
    requires |lines| >= 1
    requires forall p :: p in lines ==> OneLine(p)
    ensures Split(Join(lines, "\n"), '\n') == lines
  {
    forall p | p in lines ensures !HasChar(p, '\n') {
      OneLineNoBreak(p);
    }
    assert "\n" == ['\n'];
    SplitJoin(lines, '\n');
  }

  /**
   * Reading the batch file back line by line gives exactly the statements'
   * lines: no statement spills into another line.
   */
  lemma {:induction false} ScriptTextLines(script: seq<Stmt>)
    requires script != []
    requires forall i :: 0 <= i < |script| ==> CleanStmt(script[i])
    ensures Split(ScriptText(script), '\n') == Lines(script)
  {
    var lines := Lines(script);
    LinesOneLine(script);
    assert |lines| >= 1;
    SplitLines(lines);
  }

  /** How a script ends: its exit code and the designer runs it made, in order. */
  datatype Outcome = Outcome(exitCode: int, ran: seq<string>)

  /**
   * Runs a script under `cmd`. `level(k)` is the exit code of the `k`-th
   * designer run; `if errorlevel 1` holds when the last code is at least 1.
   * Lines other than runs leave the code alone.
   */
  function Exec(script: seq<Stmt>, level: nat -> int, errorlevel: int, ran: seq<string>): (r: Outcome)
    ensures |ran| <= |r.ran| && r.ran[..|ran|] == ran
    decreases |script|
  {
    if script == [] then Outcome(errorlevel, ran)
    else match script[0]
      case RunDesigner(action, _, _) => Exec(script[1..], level, level(|ran|), ran + [action])
      case FailIfError(_) => if errorlevel >= 1 then Outcome(1, ran) else Exec(script[1..], level, errorlevel, ran)
      case ExitSuccess => Outcome(0, ran)
      case _ => Exec(script[1..], level, errorlevel, ran)
  }

  /** Statements that neither run anything nor end the script. */
  predicate Quiet(script: seq<Stmt>) {
    forall i :: 0 <= i < |script| ==> script[i].Text? || script[i].SetVar?
  }

  /** Quiet statements do not change how a script ends. */
  lemma {:induction false} QuietPrefix(q: seq<Stmt>, rest: seq<Stmt>, level: nat -> int, errorlevel: int, ran: seq<string>)
    requires Quiet(q)
    ensures Exec(q + rest, level, errorlevel, ran) == Exec(rest, level, errorlevel, ran)
    decreases |q|
  {
    if q != [] {
      assert (q + rest)[0] == q[0];
      assert q[0].Text? || q[0].SetVar?;
      assert (q + rest)[1..] == q[1..] + rest;
      assert Exec(q + rest, level, errorlevel, ran) == Exec(q[1..] + rest, level, errorlevel, ran);
      QuietPrefix(q[1..], rest, level, errorlevel, ran);
    } else {
      assert q + rest == rest;
    }
  }

  /** A run followed by an error check: a failed run ends the script with 1, any other continues. */
  lemma {:induction false} GuardedRun(action: string, toDump: bool, logVar: Var, message: string, rest: seq<Stmt>,
                   level: nat -> int, errorlevel: int, ran: seq<string>)
    ensures Exec([RunDesigner(action, toDump, logVar), FailIfError(message)] + rest, level, errorlevel, ran)
      == if level(|ran|) >= 1 then Outcome(1, ran + [action])
         else Exec(rest, level, level(|ran|), ran + [action])
  {
    var s := [RunDesigner(action, toDump, logVar), FailIfError(message)] + rest;
    assert s[1..] == [FailIfError(message)] + rest;
    assert s[1..][1..] == rest;
  }

  /** The names of the variables a script sets. */
  function Assigned(script: seq<Stmt>): set<Var> {
    set i | 0 <= i < |script| && script[i].SetVar? :: script[i].name
  }

  /** The variables a run reads. */
  function RunVars(s: Stmt): set<Var>
    requires s.RunDesigner?
  {
    {Platform, Base, Credentials, s.logVar} + (if s.toDump then {Dump} else {})
  }

  /** Every run reads only variables some earlier statement sets. */
  predicate SetBeforeUse(script: seq<Stmt>) {
    forall i :: 0 <= i < |script| && script[i].RunDesigner? ==> RunVars(script[i]) <= Assigned(script[..i])
  }

  /** Extending a script keeps the variables it sets. */
  lemma {:induction false} AssignedPrefix(a: seq<Stmt>, b: seq<Stmt>)
    ensures Assigned(a) <= Assigned(a + b)
  {
    forall n | n in Assigned(a) ensures n in Assigned(a + b) {
      var i :| 0 <= i < |a| && a[i].SetVar? && a[i].name == n;
      assert (a + b)[i] == a[i];
    }
  }

  /**
   * A prefix that only sets variables and prints, followed by statements
   * whose runs read only what that prefix sets, sets every variable before
   * it is read.
   */
  lemma {:induction false} SetFirst(pre: seq<Stmt>, steps: seq<Stmt>)
    requires Quiet(pre)
    requires forall i :: 0 <= i < |steps| && steps[i].RunDesigner? ==> RunVars(steps[i]) <= Assigned(pre)
    ensures SetBeforeUse(pre + steps)
  {
    var s := pre + steps;
    forall i | 0 <= i < |s| && s[i].RunDesigner? ensures RunVars(s[i]) <= Assigned(s[..i]) {
      assert i >= |pre|;
      assert s[i] == steps[i - |pre|];
      assert s[..i] == pre + steps[..i - |pre|];
      AssignedPrefix(pre, steps[..i - |pre|]);
    }
  }
}

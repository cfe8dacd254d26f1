/**
 * What the launcher does to the outside world, recorded instead of
 * performed: status-bar messages (`TimedStatus` where the call gives a
 * timeout), information boxes, files written and removed, programs started
 * (`ShellStarted` for a detached command line run through the shell),
 * timers scheduled, the window hidden to the tray, and the save and reload
 * callbacks.
 */
module Host {
  /** The work a `QTimer.singleShot` runs when it fires. */
  datatype Task =
    | DeleteTempFile(path: string)
    | RefreshMainProcesses
    | RefreshOpenedBases

  datatype Effect =
    | StatusMessage(text: string)
    | TimedStatus(text: string, timeoutMs: nat)
    | FileWritten(path: string, text: string, encoding: string)
    | FileOpened(path: string)
    | ProcessSpawned(argv: seq<string>)
    | TimerScheduled(delayMs: nat, task: Task)
    | FileRemoved(path: string)
    | DirectoryMade(path: string)
    | BasesSaved
    | UiReloaded
    | TreeRebuilt
    | OpenedBasesRefreshed
    | MainProcessesRefreshed
    | InitialSelectionMade
    | InfoShown(title: string, text: string)
    | ShellStarted(command: string)
    | MinimizedToTray
    | ShownFromTray

  /** The part of the machine the launcher touches: the files it creates and the log of effects. */
  class Host {
    var files: map<string, string>
    var log: seq<Effect>

    constructor ()
      ensures files == map[] && log == []
    {
      files := map[];
      log := [];
    }

    /** Records an effect that leaves the files alone. */
    method Record(e: Effect)
      modifies this
      ensures log == old(log) + [e] && files == old(files)
    {
      log := log + [e];
    }

    /** Records, in order, effects that leave the files alone. */
    method RecordAll(es: seq<Effect>)
      modifies this
      ensures log == old(log) + es && files == old(files)
    {
      log := log + es;
    }

    /** Creates or overwrites a file. */
    method WriteFile(path: string, text: string, encoding: string)
      modifies this
      ensures files == old(files)[path := text]
      ensures log == old(log) + [FileWritten(path, text, encoding)]
    {
      files := files[path := text];
      log := log + [FileWritten(path, text, encoding)];
    }

    /** `os.path.exists(p)` followed by `os.remove(p)`; a missing file is left alone. */
    method RemoveIfExists(path: string)
      modifies this
      ensures files == old(files) - {path}
      ensures log == old(log) + (if path in old(files) then [FileRemoved(path)] else [])
    {
      if path in files {
        files := files - {path};
        log := log + [FileRemoved(path)];
      }
    }
  }

  /** Appending two runs of effects one after the other is appending them together. */
  lemma AppendTwice(log: seq<Effect>, a: seq<Effect>, b: seq<Effect>)
    ensures log + a + b == log + (a + b)
  {
    assert forall i :: 0 <= i < |log + a + b| ==> (log + a + b)[i] == (log + (a + b))[i];
  }
}

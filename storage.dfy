// The mutable world a run works on: the screenshot folder, the URLScan CSV,
// the messages shown to the user, the number of result requests sent, the
// time slept, and whether an exception has ended the run.

module Storage {
  import opened Similarity
  import opened Scan
  import opened Pipeline

  class Workspace {
    /** Regular files of the screenshot folder, by file name, with the pHash of the image each holds. */
    var shots: map<string, PHash>
    /** Names of subdirectories of the screenshot folder. */
    var subdirs: set<string>
    /** Whether the URLScan CSV exists, holding the header row. */
    var header: bool
    /** The URLScan CSV's data rows, in the order written. */
    var rows: seq<seq<Cell>>
    var log: seq<Notice>
    var requests: nat
    var clock: nat
    var crashed: bool

    /** The workspace as a value, for the specification functions. */
    function State(): RunState
      reads this
    {
      RunState(shots, subdirs, header, rows, log, requests, clock, crashed)
    }

    /** A fresh process, with the screenshot folder as found on disk (a missing folder is an empty one). */
    constructor (files: map<string, PHash>, dirs: set<string>)
      requires files.Keys !! dirs
      ensures State() == RunState(files, dirs, false, [], [], 0, 0, false)
    {
      shots, subdirs := files, dirs;
      header, rows, log := false, [], [];
      requests, clock, crashed := 0, 0, false;
    }

    /** Remove every regular file listed in the folder; subdirectories stay (twistscan.py:40-46). */
    method ClearScreenshots()
      modifies this
      ensures State() == Cleared(old(State()))
    {
      var listing := shots.Keys + subdirs;
      while listing != {}
        invariant shots.Keys <= listing
        invariant State() == old(State()).(shots := shots)
        decreases listing
      {
        var name :| name in listing;
        if name in shots {
          shots := shots - {name};
        }
        listing := listing - {name};
      }
      assert shots == map[];
    }

    /** Delete the URLScan CSV left by an earlier run. */
    method DeleteReport()
      modifies this
      ensures State() == old(State()).(header := false, rows := [])
    {
      header, rows := false, [];
    }

    /** Create the URLScan CSV with the FIELDS header row (mode 'w'). */
    method WriteHeader()
      modifies this
      ensures State() == old(State()).(header := true, rows := [])
    {
      header, rows := true, [];
    }

    /** Append one data row to the URLScan CSV (mode 'a'). */
    method AppendRow(row: seq<Cell>)
      modifies this
      ensures State() == old(State()).(rows := old(rows) + [row])
    {
      rows := rows + [row];
    }

    /** `os.path.exists` on a name in the screenshot folder. */
    function Exists(name: string): bool
      reads this
    {
      name in shots || name in subdirs
    }

    /**
     * Write an image under `name`. Opening a subdirectory for writing raises,
     * which ends the run; otherwise the file is created or overwritten.
     */
    method SaveScreenshot(name: string, image: PHash) returns (ok: bool)
      modifies this
      ensures ok == (name !in old(subdirs))
      ensures State() == if ok then old(State()).(shots := old(shots)[name := image])
                         else old(State()).(crashed := true)
    {
      if name in subdirs {
        crashed := true;
        ok := false;
      } else {
        shots := shots[name := image];
        ok := true;
      }
    }

    /** `phash(Image.open(path))` for an existing `name`; opening a subdirectory raises and ends the run. */
    method OpenImage(name: string) returns (image: Option<PHash>)
      requires Exists(name)
      modifies this
      ensures image.Some? == (name !in old(subdirs))
      ensures image.Some? ==> name in shots && image.value == shots[name] && State() == old(State())
      ensures image.None? ==> State() == old(State()).(crashed := true)
    {
      if name in subdirs {
        crashed := true;
        image := None;
      } else {
        image := Some(shots[name]);
      }
    }

    method Notify(n: Notice)
      modifies this
      ensures State() == old(State()).(log := old(log) + [n])
    {
      log := log + [n];
    }

    /** `time.sleep(t)`, kept as the advance of an abstract clock. */
    method Sleep(t: nat)
      modifies this
      ensures State() == old(State()).(clock := old(clock) + t)
    {
      clock := clock + t;
    }

    /** Account for `k` result requests sent to the service. */
    method Requested(k: nat)
      modifies this
      ensures State() == old(State()).(requests := old(requests) + k)
    {
      requests := requests + k;
    }

    /** An uncaught exception: the script stops. */
    method Crash()
      modifies this
      ensures State() == old(State()).(crashed := true)
    {
      crashed := true;
    }
  }
}

/**
  The local state file: written to a temporary file beside it, then moved over it. A crash can
  come between any two file-system steps, an error can strike at any of them, and so can one
  in cleaning up after an error.
 */
module StateFile {
  import opened Wrappers

  type Path = string
  type Files = map<Path, string>

  datatype Phase =
    | Start
    | Writing(tmp: Path)      // the temporary file exists, with a prefix of the payload
    | Failed(tmp: Path)       // an OSError was raised: clean-up is due
    | Replaced                // the move has happened: the write is complete
    | Raised(left: Option<Path>)  // the error is on its way to the caller, and this temporary file was left

  datatype Disk = Disk(files: Files, phase: Phase)

  datatype Move =
    | MakeTemp(tmp: Path)
    | Flush(upTo: nat)        // more of the payload reaches the temporary file
    | Replace
    | OsError
    | OtherError              // an error the handler does not catch
    | CleanUp
    | CleanUpFails            // the temporary file cannot be removed

  predicate Enabled(path: Path, payload: string, d: Disk, m: Move) {
    match m
    case MakeTemp(tmp) => d.phase.Start? && tmp !in d.files && tmp != path
    case Flush(n) => d.phase.Writing? && n <= |payload| && d.phase.tmp in d.files && |d.files[d.phase.tmp]| <= n
    case Replace => d.phase.Writing? && d.phase.tmp in d.files && d.files[d.phase.tmp] == payload
    case OsError => d.phase.Start? || d.phase.Writing?
    case OtherError => d.phase.Writing?
    case CleanUp => d.phase.Failed?
    case CleanUpFails => d.phase.Failed?
  }

  function Apply(path: Path, payload: string, d: Disk, m: Move): Disk
    requires Enabled(path, payload, d, m)
  {
    match m
    case MakeTemp(tmp) => Disk(d.files[tmp := ""], Writing(tmp))
    case Flush(n) => d.(files := d.files[d.phase.tmp := payload[..n]])
    case Replace => Disk((d.files - {d.phase.tmp})[path := d.files[d.phase.tmp]], Replaced)
    case OsError => d.(phase := if d.phase.Start? then Raised(None) else Failed(d.phase.tmp))
    case OtherError => d.(phase := Raised(Some(d.phase.tmp)))
    case CleanUp => Disk(d.files - {d.phase.tmp}, Raised(None))
    case CleanUpFails => d.(phase := Raised(Some(d.phase.tmp)))
  }

  predicate Possible(path: Path, payload: string, d: Disk, ms: seq<Move>)
    decreases |ms|
  {
    ms == [] || (Enabled(path, payload, d, ms[0]) && Possible(path, payload, Apply(path, payload, d, ms[0]), ms[1..]))
  }

  /** Where the file system stands after ms: stopping here is what a crash leaves behind. */
  function After(path: Path, payload: string, d: Disk, ms: seq<Move>): Disk
    requires Possible(path, payload, d, ms)
    decreases |ms|
  {
    if ms == [] then d else After(path, payload, Apply(path, payload, d, ms[0]), ms[1..])
  }

  function Contents(files: Files, path: Path): Option<string> {
    if path in files then Some(files[path]) else None
  }

  /** What every step keeps, relative to the files before the write. */
  ghost predicate Inv(before: Files, path: Path, payload: string, d: Disk) {
    match d.phase
    case Start => d.files == before
    case Writing(tmp) => tmp !in before && tmp != path && tmp in d.files && d.files[tmp] <= payload && d.files - {tmp} == before
    case Failed(tmp) => tmp !in before && tmp != path && tmp in d.files && d.files - {tmp} == before
    case Replaced => d.files == before[path := payload]
    case Raised(left) =>
      match left
      case None => d.files == before
      case Some(tmp) => tmp !in before && tmp != path && tmp in d.files && d.files - {tmp} == before
  }

  lemma StepKeepsInv(before: Files, path: Path, payload: string, d: Disk, m: Move)
    requires Inv(before, path, payload, d) && Enabled(path, payload, d, m)
    ensures Inv(before, path, payload, Apply(path, payload, d, m))
  {}

  lemma {:induction false} RunKeepsInv(before: Files, path: Path, payload: string, d: Disk, ms: seq<Move>)
    requires Inv(before, path, payload, d) && Possible(path, payload, d, ms)
    ensures Inv(before, path, payload, After(path, payload, d, ms))
    decreases |ms|
  {
    if ms != [] {
      StepKeepsInv(before, path, payload, d, ms[0]);
      RunKeepsInv(before, path, payload, Apply(path, payload, d, ms[0]), ms[1..]);
    }
  }

  predicate MadeTemp(ms: seq<Move>) { exists i | 0 <= i < |ms| :: ms[i].MakeTemp? }

  /** Which errors leave the temporary file behind, told by the moves. */
  lemma {:induction false} LeftIff(path: Path, payload: string, d: Disk, ms: seq<Move>)
    requires Possible(path, payload, d, ms) && !d.phase.Raised? && After(path, payload, d, ms).phase.Raised?
    ensures After(path, payload, d, ms).phase.left.None? <==> CleanUp in ms || (d.phase.Start? && !MadeTemp(ms))
    decreases |ms|
  {
    var next := Apply(path, payload, d, ms[0]);
    assert ms == [ms[0]] + ms[1..];
    if next.phase.Raised? {
      assert ms[1..] == [];
    } else {
      LeftIff(path, payload, next, ms[1..]);
      if d.phase.Start? { assert MadeTemp(ms) by { assert ms[0].MakeTemp?; } }
    }
  }

  /** A removal that fails leaves a file the write did not find. */
  lemma StrayIsPossible(files: Files, path: Path, payload: string, tmp: Path)
    requires tmp !in files && tmp != path
    ensures var ms := [MakeTemp(tmp), OsError, CleanUpFails];
            && Possible(path, payload, Disk(files, Start), ms)
            && After(path, payload, Disk(files, Start), ms) == Disk(files[tmp := ""], Raised(Some(tmp)))
  {
    var d := Disk(files, Start);
    RunsSnoc(path, payload, d, [], MakeTemp(tmp));
    RunsSnoc(path, payload, d, [] + [MakeTemp(tmp)], OsError);
    RunsSnoc(path, payload, d, [] + [MakeTemp(tmp)] + [OsError], CleanUpFails);
    assert [] + [MakeTemp(tmp)] + [OsError] + [CleanUpFails] == [MakeTemp(tmp), OsError, CleanUpFails];
  }

  /**
    Whenever the run dies, the state file holds the whole old payload or the whole new one,
    the new one exactly when the move has happened, and no other file is touched but one new
    temporary file. A write that raises leaves the files as they were exactly when it made no
    temporary file or removed it.
   */
  lemma {:induction false} CrashLeavesOldOrNew(files: Files, path: Path, payload: string, ms: seq<Move>)
    requires Possible(path, payload, Disk(files, Start), ms)
    ensures var d := After(path, payload, Disk(files, Start), ms);
            && Contents(d.files, path) == (if d.phase.Replaced? then Some(payload) else Contents(files, path))
            && (forall f | f in files && f != path :: f in d.files && d.files[f] == files[f])
            && |d.files.Keys - files.Keys - {path}| <= 1
            && (d.phase.Raised? ==> (d.files == files <==> CleanUp in ms || !MadeTemp(ms)))
            && (d.phase.Replaced? ==> d.files == files[path := payload])
  {
    RunKeepsInv(files, path, payload, Disk(files, Start), ms);
    var d := After(path, payload, Disk(files, Start), ms);
    if d.phase.Raised? { LeftIff(path, payload, Disk(files, Start), ms); }
    match d.phase
    case Writing(tmp) => OneStray(files, d.files, path, tmp);
    case Failed(tmp) => OneStray(files, d.files, path, tmp);
    case Raised(Some(tmp)) => OneStray(files, d.files, path, tmp);
    case _ => assert d.files.Keys - files.Keys - {path} == {};
  }

  lemma OneStray(before: Files, files: Files, path: Path, tmp: Path)
    requires tmp !in before && tmp != path && tmp in files && files - {tmp} == before
    ensures Contents(files, path) == Contents(before, path) && files != before
    ensures forall f | f in before :: f in files && files[f] == before[f]
    ensures |files.Keys - before.Keys - {path}| == 1
  {
    assert forall f | f in before :: f in (files - {tmp}) && files[f] == (files - {tmp})[f];
    assert path in files <==> path in files - {tmp};
    assert files.Keys - before.Keys - {path} == {tmp} by {
      assert (files - {tmp}).Keys == before.Keys;
    }
  }

  lemma {:induction false} RunsSnoc(path: Path, payload: string, d: Disk, ms: seq<Move>, m: Move)
    requires Possible(path, payload, d, ms) && Enabled(path, payload, After(path, payload, d, ms), m)
    ensures Possible(path, payload, d, ms + [m])
    ensures After(path, payload, d, ms + [m]) == Apply(path, payload, After(path, payload, d, ms), m)
    decreases |ms|
  {
    if ms == [] {
      assert [m][1..] == [] && ms + [m] == [m];
    } else {
      assert (ms + [m])[1..] == ms[1..] + [m];
      RunsSnoc(path, payload, Apply(path, payload, d, ms[0]), ms[1..], m);
    }
  }

  /** The store itself, under an arbitrary operating system. */
  class LocalStateStore {
    const path: Path
    var files: Files

    constructor (path: Path, files: Files)
      ensures this.path == path && this.files == files
    {
      this.path, this.files := path, files;
    }

    /** None is a file that is absent or cannot be read. */
    method Read() returns (payload: Option<string>)
      ensures payload.Some? ==> payload == Contents(files, path)
    {
      var readable: bool := *;
      payload := if path in files && readable then Some(files[path]) else None;
    }

    /** ok is false where the write raises; moves is the history a crash could have cut short. */
    method Write(payload: string) returns (ok: bool, ghost moves: seq<Move>)
      modifies this
      ensures Possible(path, payload, Disk(old(files), Start), moves)
      ensures var d := After(path, payload, Disk(old(files), Start), moves);
              d.files == files && (if ok then d.phase.Replaced? else d.phase.Raised?)
      ensures ok ==> files == old(files)[path := payload]
      ensures !ok ==> (files == old(files) <==> CleanUp in moves || !MadeTemp(moves))
      ensures Contents(files, path) == if ok then Some(payload) else Contents(old(files), path)
    {
      ghost var d := Disk(files, Start);
      moves := [];
      var fails: bool := *;
      if fails {
        RunsSnoc(path, payload, d, [], OsError);
        CrashLeavesOldOrNew(files, path, payload, [] + [OsError]);
        return false, [] + [OsError];
      }
      var tmp := MakeTempName();
      files := files[tmp := ""];
      RunsSnoc(path, payload, d, moves, MakeTemp(tmp)); moves := moves + [MakeTemp(tmp)];
      fails := *;
      var written: nat :| written <= |payload| && (!fails ==> written == |payload|);
      files := files[tmp := payload[..written]];
      RunsSnoc(path, payload, d, moves, Flush(written)); moves := moves + [Flush(written)];
      if fails {
        moves := Handle(d, payload, tmp, moves);
      } else {
        RunsSnoc(path, payload, d, moves, Replace); moves := moves + [Replace];
        files := (files - {tmp})[path := files[tmp]];
      }
      ok := !fails;
      CrashLeavesOldOrNew(old(files), path, payload, moves);
    }

    /** The handler: it catches an OSError and removes the temporary file, unless that fails too. */
    method Handle(ghost d: Disk, payload: string, tmp: Path, ghost before: seq<Move>) returns (ghost moves: seq<Move>)
      requires Possible(path, payload, d, before) && After(path, payload, d, before) == Disk(files, Writing(tmp))
      modifies this
      ensures Possible(path, payload, d, moves)
      ensures var d' := After(path, payload, d, moves); d'.files == files && d'.phase.Raised?
    {
      moves := before;
      var caught: bool := *;
      if !caught {
        RunsSnoc(path, payload, d, moves, OtherError); moves := moves + [OtherError];
        return;
      }
      RunsSnoc(path, payload, d, moves, OsError); moves := moves + [OsError];
      var removed: bool := *;
      if tmp in files && removed {
        files := files - {tmp};
      }
      ghost var end := if tmp in old(files) && !removed then CleanUpFails else CleanUp;
      RunsSnoc(path, payload, d, moves, end); moves := moves + [end];
    }

    /** mkstemp: a name no file has. */
    method MakeTempName() returns (tmp: Path)
      ensures tmp !in files && tmp != path
    {
      ghost var free := UnusedName(files.Keys + {path});
      tmp :| tmp !in files && tmp != path;
    }
  }

  lemma UnusedName(used: set<string>) returns (free: string)
    ensures free !in used
  {
    free := seq(LongerThanAll(used), _ => 'x');
  }

  ghost function LongerThanAll(used: set<string>): (n: nat)
    ensures forall s | s in used :: |s| < n
  {
    if used == {} then 0
    else
      var s :| s in used;
      var n := LongerThanAll(used - {s});
      if n <= |s| then |s| + 1 else n
  }
}

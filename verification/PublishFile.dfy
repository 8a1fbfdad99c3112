/** One publication as its process runs it: the checks, the copy loop, and the clean-up that follows
    every exit. Each system call is a step of the protocol; before any of them other processes may act. */
module PublishFile {
  import opened Wrappers
  import opened Publication

  const COPY_CHUNK := 1024 * 1024

  /** What others do just before a system call, and whether the call raises. */
  datatype Moment = Moment(others: seq<Step>, raises: bool)

  datatype Reason = BadSource | SystemError | NameTaken | SourceChanged | DestinationExists

  datatype Outcome = Done(sha256: seq<Byte>, size: nat) | Failed(reason: Reason)

  predicate ByOther(step: Step, pid: Pid) {
    step.Rewrite? || step.Repoint? || step.Appear? || step.pid != pid
  }

  ghost predicate ByOthers(steps: seq<Step>, pid: Pid) {
    forall i :: 0 <= i < |steps| ==> ByOther(steps[i], pid)
  }

  ghost predicate OthersOnly(moments: seq<Moment>, pid: Pid) {
    forall k :: 0 <= k < |moments| ==> ByOthers(moments[k].others, pid)
  }

  ghost predicate Raising(moments: seq<Moment>) {
    exists k :: 0 <= k < |moments| && moments[k].raises
  }

  lemma OthersLeaveIt(w: World, step: Step, pid: Pid, v: World)
    requires ByOther(step, pid) && pid in w.publishers && v == Next(w, step)
    ensures pid in v.publishers && v.publishers[pid] == w.publishers[pid]
  {}

  /** A run leads to this state. (The quantifier keeps the run folded.) */
  ghost predicate Reaches(w: World, steps: seq<Step>, v: World) {
    forall s :: s == steps ==> v == Run(w, s)
  }

  lemma ReachesNext(w: World, steps: seq<Step>, step: Step, v: World, next: World)
    requires Reaches(w, steps, v) && next == Next(v, step)
    ensures Reaches(w, steps + [step], next)
  {
    assert v == Run(w, steps);
    RunsOn(w, steps, step);
  }

  /** The disk, and the processes that publish on it: the local variables of a publisher are its row
      of `publishers`, and `phase` says how far it has come. */
  class Library {
    var directory: map<Name, Inode>
    var files: map<Inode, seq<Byte>>
    var sources: map<Path, Inode>
    var sourceFiles: map<Inode, SourceFile>
    var publishers: map<Pid, Publisher>
    var nextInode: Inode
    ghost const start: World
    ghost var history: seq<Step>

    function View(): World
      reads this
    {
      World(directory, files, sources, sourceFiles, publishers, nextInode)
    }

    /** Everything that happened here is a run of the protocol. */
    ghost predicate Valid()
      reads this
    {
      Initial(start) && Reaches(start, history, View())
    }

    /** The last step of that run is the one just taken. */
    twostate predicate Took(step: Step)
      reads this
    {
      Valid() && history == old(history) + [step]
    }

    /** What a publisher was told to do stays the same. */
    twostate predicate SameTask(pid: Pid)
      requires pid in old(publishers)
      reads this
    {
      && pid in publishers && publishers[pid].source == old(publishers[pid].source)
      && publishers[pid].dest == old(publishers[pid].dest)
      && publishers[pid].removeSource == old(publishers[pid].removeSource)
      && publishers[pid].stat == old(publishers[pid].stat) && publishers[pid].original == old(publishers[pid].original)
    }

    /** The source is still as it was examined. */
    ghost predicate Intact(pid: Pid)
      reads this
    {
      && pid in publishers && publishers[pid].source.Some?
      && var p := publishers[pid];
      && p.source.value in sources && sources[p.source.value] == p.stat.inode && p.stat.inode in sourceFiles
      && sourceFiles[p.stat.inode] == SourceFile(p.original, p.stat.mtime, true)
    }

    ghost predicate At(pid: Pid, phase: Phase)
      reads this
    {
      pid in publishers && publishers[pid].phase == phase
    }

    constructor (w: World)
      requires Initial(w)
      ensures Valid() && View() == w && history == []
    {
      directory, files, sources, sourceFiles := w.directory, w.files, w.sources, w.sourceFiles;
      publishers, nextInode := w.publishers, w.nextInode;
      start, history := w, [];
    }

    lemma Known(pid: Pid)
      requires Valid() && pid in publishers
      ensures PlacedInv(View(), pid) && LocalInv(View(), publishers[pid])
    {
      RunKeepsInv(start, history);
    }

    /** The others act. */
    method Absorb(step: Step, pid: Pid)
      requires Valid() && pid in publishers && ByOther(step, pid)
      modifies this
      ensures Took(step) && pid in publishers && publishers[pid] == old(publishers[pid])
    {
      var v := Next(View(), step);
      OthersLeaveIt(View(), step, pid, v);
      ghost var before := View();
      directory, files, sources, sourceFiles := v.directory, v.files, v.sources, v.sourceFiles;
      publishers, nextInode := v.publishers, v.nextInode;
      ReachesNext(start, history, step, before, View());
      history := history + [step];
    }

    /** What happens before the k-th system call; afterwards the publisher is where it was. */
    method Pass(moments: seq<Moment>, k: nat, pid: Pid) returns (raises: bool)
      requires Valid() && pid in publishers && OthersOnly(moments, pid)
      modifies this
      ensures Valid() && old(history) <= history && pid in publishers && publishers[pid] == old(publishers[pid])
      ensures raises == (k < |moments| && moments[k].raises)
      ensures k >= |moments| ==> View() == old(View()) && history == old(history)
    {
      if k >= |moments| {
        return false;
      }
      var others := moments[k].others;
      assert ByOthers(others, pid);
      for i := 0 to |others|
        invariant Valid() && old(history) <= history && pid in publishers && publishers[pid] == old(publishers[pid])
      {
        Absorb(others[i], pid);
      }
      raises := moments[k].raises;
    }

    /** The size and time of the source are taken of its path; anything but a regular file is refused. */
    method Examine(pid: Pid, path: Path, dest: string, removeSource: bool) returns (ok: bool)
      requires Valid() && pid !in publishers
      modifies `publishers, `history
      ensures ok == (path in sources && sources[path] in sourceFiles && sourceFiles[sources[path]].regular)
      ensures if ok then Took(Begin(pid, path, dest, removeSource)) && At(pid, Started) && Intact(pid)
                         && publishers[pid].source == Some(path) && publishers[pid].dest == dest
                         && publishers[pid].removeSource == removeSource
              else Valid() && View() == old(View()) && history == old(history)
    {
      if path !in sources || sources[path] !in sourceFiles || !sourceFiles[sources[path]].regular {
        return false;
      }
      ghost var step := Begin(pid, path, dest, removeSource);
      ghost var before := View();
      var inode := sources[path];
      var file := sourceFiles[inode];
      publishers := publishers[pid := Publisher(Some(path), dest, removeSource, Stat(inode, |file.data|, file.mtime),
                                                file.data, 0, [], Started)];
      ReachesNext(start, history, step, before, View());
      history := history + [step];
      ok := true;
    }

    /** A new file under the temporary name, unless that name is taken. */
    method CreateTemporary(pid: Pid)
      requires Valid() && At(pid, Started)
      modifies `directory, `files, `publishers, `nextInode, `history
      ensures Took(Step.Create(pid)) && SameTask(pid)
      ensures Final(publishers[pid].dest) in directory <==> Final(publishers[pid].dest) in old(directory)
      ensures At(pid, if Temp(old(publishers[pid].dest), pid) in old(directory) then Raised(false) else Created)
    {
      ghost var before := View();
      var p := publishers[pid];
      var temp := Temp(p.dest, pid);
      if temp in directory {
        publishers := publishers[pid := p.(phase := Raised(false))];
      } else {
        directory, files := directory[temp := nextInode], files[nextInode := []];
        publishers := publishers[pid := p.(inode := nextInode, copied := [], phase := Created)];
        nextInode := nextInode + 1;
      }
      ReachesNext(start, history, Step.Create(pid), before, View());
      history := history + [Step.Create(pid)];
    }

    /** Opens the path again; it must lead to the same regular file. */
    method Open(pid: Pid)
      requires Valid() && At(pid, Created) && publishers[pid].source.Some?
      modifies `publishers, `history
      ensures old(Intact(pid)) ==> At(pid, Copying)
      ensures Took(Step.OpenSource(pid)) && SameTask(pid) && (At(pid, Copying) || At(pid, Cleaning(false, false)))
    {
      ghost var before := View();
      var p := publishers[pid];
      var path := p.source.value;
      var same := path in sources && sources[path] == p.stat.inode && p.stat.inode in sourceFiles
                  && sourceFiles[p.stat.inode].regular;
      publishers := publishers[pid := p.(phase := if same then Copying else Cleaning(false, false))];
      ReachesNext(start, history, Step.OpenSource(pid), before, View());
      history := history + [Step.OpenSource(pid)];
    }

    /** One read and write of the copy loop; an empty read ends it. */
    method CopyOne(pid: Pid)
      requires Valid() && At(pid, Copying)
      modifies `files, `publishers, `history
      ensures Took(Step.CopyChunk(pid, COPY_CHUNK)) && SameTask(pid)
      ensures publishers[pid].stat.inode in sourceFiles
      ensures var data := sourceFiles[publishers[pid].stat.inode].data;
              if |data| <= |old(publishers[pid].copied)|
              then At(pid, Copied) && publishers[pid].copied == old(publishers[pid].copied)
              else At(pid, Copying) && |old(publishers[pid].copied)| < |publishers[pid].copied| <= |data|
    {
      Known(pid);
      ghost var before := View();
      var p := publishers[pid];
      var data := sourceFiles[p.stat.inode].data;
      if |data| <= |p.copied| {
        publishers := publishers[pid := p.(phase := Copied)];
      } else {
        var chunk := data[|p.copied|..Min(|p.copied| + COPY_CHUNK, |data|)];
        files := files[p.inode := files[p.inode] + chunk];
        publishers := publishers[pid := p.(copied := p.copied + chunk)];
      }
      ReachesNext(start, history, Step.CopyChunk(pid, COPY_CHUNK), before, View());
      history := history + [Step.CopyChunk(pid, COPY_CHUNK)];
    }

    /** As much was copied as the source had, and its size and time are still the same. */
    method Compare(pid: Pid)
      requires Valid() && At(pid, Copied)
      modifies `publishers, `history
      ensures Took(Step.Verify(pid)) && SameTask(pid)
      ensures old(Intact(pid) && |publishers[pid].original| <= |publishers[pid].copied|) ==> At(pid, Verified)
      ensures At(pid, Verified) || At(pid, Cleaning(false, false))
    {
      Known(pid);
      ghost var before := View();
      var p := publishers[pid];
      var after := sourceFiles[p.stat.inode];
      var same := |p.copied| == p.stat.size && |after.data| == p.stat.size && after.mtime == p.stat.mtime;
      publishers := publishers[pid := p.(phase := if same then Verified else Cleaning(false, false))];
      ReachesNext(start, history, Step.Verify(pid), before, View());
      history := history + [Step.Verify(pid)];
    }

    /** Gives the file its final name, unless that is taken. */
    method LinkFinal(pid: Pid)
      requires Valid() && At(pid, Verified)
      modifies `directory, `publishers, `history
      ensures Took(Step.Link(pid)) && SameTask(pid)
      ensures At(pid, if Final(old(publishers[pid].dest)) in old(directory) then Cleaning(false, false) else Linked)
    {
      ghost var before := View();
      var p := publishers[pid];
      if Final(p.dest) in directory {
        publishers := publishers[pid := p.(phase := Cleaning(false, false))];
      } else {
        directory := directory[Final(p.dest) := p.inode];
        publishers := publishers[pid := p.(phase := Linked)];
      }
      ReachesNext(start, history, Step.Link(pid), before, View());
      history := history + [Step.Link(pid)];
    }

    /** The directory is synchronised: what is left is the clean-up. */
    method SyncDirectory(pid: Pid)
      requires Valid() && At(pid, Linked)
      modifies `publishers, `history
      ensures Took(Step.Sync(pid)) && SameTask(pid) && At(pid, Cleaning(true, true))
    {
      ghost var before := View();
      publishers := publishers[pid := publishers[pid].(phase := Cleaning(true, true))];
      ReachesNext(start, history, Step.Sync(pid), before, View());
      history := history + [Step.Sync(pid)];
    }

    /** Removes the temporary name. */
    method RemoveTemporary(pid: Pid)
      requires Valid() && pid in publishers && publishers[pid].phase.Cleaning?
      modifies `directory, `publishers, `history
      ensures Took(Step.Unlink(pid)) && SameTask(pid)
      ensures var p := old(publishers[pid]);
              At(pid, if !p.phase.ok then Raised(p.phase.linked) else if p.removeSource then Removing else Returned)
    {
      ghost var before := View();
      var p := publishers[pid];
      directory := directory - {Temp(p.dest, pid)};
      var next := if !p.phase.ok then Raised(p.phase.linked) else if p.removeSource then Removing else Returned;
      publishers := publishers[pid := p.(phase := next)];
      ReachesNext(start, history, Step.Unlink(pid), before, View());
      history := history + [Step.Unlink(pid)];
    }

    method RemoveOriginal(pid: Pid)
      requires Valid() && At(pid, Removing) && publishers[pid].source.Some?
      modifies `sources, `publishers, `history
      ensures Took(Step.RemoveSource(pid)) && SameTask(pid) && At(pid, Returned)
    {
      ghost var before := View();
      var p := publishers[pid];
      sources := sources - {p.source.value};
      publishers := publishers[pid := p.(phase := Returned)];
      ReachesNext(start, history, Step.RemoveSource(pid), before, View());
      history := history + [Step.RemoveSource(pid)];
    }

    /** An exception: to the clean-up if there is something to clean up, and otherwise out. */
    method Raise(pid: Pid)
      requires Valid() && pid in publishers && !Ended(publishers[pid].phase)
      modifies `publishers, `history
      ensures Took(Step.Fail(pid)) && pid in publishers
      ensures publishers[pid] == old(publishers[pid]).(phase := Thrown(old(publishers[pid]).phase))
    {
      ghost var before := View();
      publishers := publishers[pid := publishers[pid].(phase := Thrown(publishers[pid].phase))];
      ReachesNext(start, history, Step.Fail(pid), before, View());
      history := history + [Step.Fail(pid)];
    }

    /** How much of the source is not yet copied. */
    ghost function Left(pid: Pid): nat
      requires pid in publishers && publishers[pid].stat.inode in sourceFiles
      reads this
    {
      var copied, data := publishers[pid].copied, sourceFiles[publishers[pid].stat.inode].data;
      if |copied| < |data| then |data| - |copied| else 0
    }

    /** The next system call is about to be made; if it raises, the publisher is thrown out of what it
        is doing. */
    method Interrupted(moments: seq<Moment>, k: nat, pid: Pid) returns (raised: bool)
      requires Valid() && pid in publishers && OthersOnly(moments, pid) && !Ended(publishers[pid].phase)
      modifies this
      ensures Valid() && old(history) <= history && SameTask(pid)
      ensures if k >= |moments| then !raised && View() == old(View()) else raised ==> Raising(moments)
      ensures At(pid, if raised then Thrown(old(publishers[pid].phase)) else old(publishers[pid].phase))
    {
      raised := Pass(moments, k, pid);
      if raised { Raise(pid); }
    }

    /** One turn of the copy loop. */
    method CopyTurn(pid: Pid, moments: seq<Moment>, k: nat) returns (copying: bool)
      requires Valid() && At(pid, Copying) && OthersOnly(moments, pid) && publishers[pid].stat.inode in sourceFiles
      modifies this
      ensures Valid() && old(history) <= history && SameTask(pid) && publishers[pid].stat.inode in sourceFiles
      ensures if copying then At(pid, Copying)
              else At(pid, Copied) || (At(pid, Cleaning(false, false)) && Raising(moments))
      ensures copying && k >= |moments| ==> Left(pid) < old(Left(pid))
      ensures moments == [] && old(Intact(pid)) ==>
                Intact(pid) && directory == old(directory)
                && (copying || |publishers[pid].original| <= |publishers[pid].copied|)
    {
      Known(pid);
      var raised := Interrupted(moments, k, pid);
      Known(pid);
      if raised { return false; }
      CopyOne(pid);
      copying := publishers[pid].phase == Copying;
    }

    /** The copy loop. */
    method Copy(pid: Pid, moments: seq<Moment>, first: nat) returns (k: nat)
      requires Valid() && At(pid, Copying) && OthersOnly(moments, pid)
      modifies this
      ensures Valid() && old(history) <= history && SameTask(pid)
      ensures At(pid, Copied) || (At(pid, Cleaning(false, false)) && Raising(moments))
      ensures moments == [] && old(Intact(pid)) ==>
                At(pid, Copied) && Intact(pid) && directory == old(directory)
                && |publishers[pid].original| <= |publishers[pid].copied|
    {
      k := first;
      var copying := true;
      Known(pid);
      while copying
        invariant Valid() && old(history) <= history && SameTask(pid) && publishers[pid].stat.inode in sourceFiles
        invariant if copying then At(pid, Copying)
                  else At(pid, Copied) || (At(pid, Cleaning(false, false)) && Raising(moments))
        invariant moments == [] && old(Intact(pid)) ==>
                    Intact(pid) && directory == old(directory)
                    && (copying || |publishers[pid].original| <= |publishers[pid].copied|)
        decreases if k < |moments| then |moments| - k else 0, if copying then 1 + Left(pid) else 0
      {
        copying := CopyTurn(pid, moments, k);
        k := k + 1;
      }
    }

    /** Opens the source and copies it, up to the first exception. */
    method OpenAndCopy(pid: Pid, moments: seq<Moment>, first: nat) returns (error: Option<Reason>, k: nat)
      requires Valid() && At(pid, Created) && publishers[pid].source.Some? && OthersOnly(moments, pid)
      modifies this
      ensures Valid() && old(history) <= history && SameTask(pid)
      ensures error == Some(SystemError) ==> Raising(moments)
      ensures moments == [] && old(Intact(pid)) ==>
                error.None? && Intact(pid) && directory == old(directory)
                && |publishers[pid].original| <= |publishers[pid].copied|
      ensures error != Some(BadSource) && At(pid, if error.None? then Copied else Cleaning(false, false))
    {
      k := first + 1;
      var raised := Interrupted(moments, first, pid);
      if raised { return Some(SystemError), k; }
      Open(pid);
      if publishers[pid].phase != Copying { return Some(SourceChanged), k; }
      k := Copy(pid, moments, k);
      error := if publishers[pid].phase == Copied then None else Some(SystemError);
    }

    /** Examines the source once more, and compares. */
    method ExamineAgain(pid: Pid, moments: seq<Moment>, k: nat) returns (error: Option<Reason>)
      requires Valid() && At(pid, Copied) && OthersOnly(moments, pid)
      modifies this
      ensures Valid() && old(history) <= history && SameTask(pid)
      ensures error == Some(SystemError) ==> Raising(moments)
      ensures moments == [] && old(Intact(pid) && |publishers[pid].original| <= |publishers[pid].copied|) ==>
                error.None? && directory == old(directory)
      ensures error != Some(BadSource) && At(pid, if error.None? then Verified else Cleaning(false, false))
    {
      var raised := Interrupted(moments, k, pid);
      if raised { return Some(SystemError); }
      Compare(pid);
      error := if publishers[pid].phase == Verified then None else Some(SourceChanged);
    }

    /** Opens, copies, compares, links and synchronises, up to the first exception. */
    method Attempt(pid: Pid, moments: seq<Moment>, first: nat) returns (error: Option<Reason>, k: nat)
      requires Valid() && At(pid, Created) && publishers[pid].source.Some? && OthersOnly(moments, pid)
      modifies this
      ensures Valid() && old(history) <= history && SameTask(pid)
      ensures error == Some(SystemError) ==> Raising(moments)
      ensures moments == [] && old(Intact(pid)) ==>
                error == if Final(publishers[pid].dest) in old(directory) then Some(DestinationExists) else None
      ensures error != Some(BadSource)
      ensures if error.None? then At(pid, Cleaning(true, true))
              else At(pid, Cleaning(false, false)) || (At(pid, Cleaning(false, true)) && error == Some(SystemError))
    {
      error, k := OpenAndCopy(pid, moments, first);
      if error.None? {
        error := ExamineAgain(pid, moments, k);
        k := k + 1;
      }
      if error.None? {
        error, k := Finish(pid, moments, k);
      }
    }

    method Synchronise(pid: Pid, moments: seq<Moment>, k: nat) returns (error: Option<Reason>)
      requires Valid() && At(pid, Linked) && OthersOnly(moments, pid)
      modifies this
      ensures Valid() && old(history) <= history && SameTask(pid)
      ensures if error.None? then At(pid, Cleaning(true, true))
              else At(pid, Cleaning(false, true)) && error == Some(SystemError) && Raising(moments)
    {
      var raised := Interrupted(moments, k, pid);
      if raised { return Some(SystemError); }
      SyncDirectory(pid);
      error := None;
    }

    /** Links the final name and synchronises the directory. */
    method Finish(pid: Pid, moments: seq<Moment>, first: nat) returns (error: Option<Reason>, k: nat)
      requires Valid() && At(pid, Verified) && OthersOnly(moments, pid)
      modifies this
      ensures Valid() && old(history) <= history && SameTask(pid)
      ensures error == Some(SystemError) ==> Raising(moments)
      ensures moments == [] ==>
                error == if Final(publishers[pid].dest) in old(directory) then Some(DestinationExists) else None
      ensures error != Some(BadSource)
      ensures if error.None? then At(pid, Cleaning(true, true))
              else At(pid, Cleaning(false, false)) || (At(pid, Cleaning(false, true)) && error == Some(SystemError))
    {
      k := first + 2;
      var raised := Interrupted(moments, first, pid);
      if raised { return Some(SystemError), k; }
      LinkFinal(pid);
      if publishers[pid].phase != Linked { return Some(DestinationExists), k; }
      error := Synchronise(pid, moments, first + 1);
    }

    /** What publishing comes to when nobody interferes and nothing raises. */
    function Undisturbed(path: Path, dest: string): Outcome
      reads this
    {
      if path !in sources || sources[path] !in sourceFiles || !sourceFiles[sources[path]].regular then Failed(BadSource)
      else if Final(dest) in directory then Failed(DestinationExists)
      else var data := sourceFiles[sources[path]].data; Done(data, |data|)
    }

    /** Publishes the file at a path, or raises. Whatever the others do in between and whichever call
        raises, the disk's history goes on as a run of the protocol, and when the publication is done
        the final name holds the bytes that were hashed, all of the source. */
    method Publish(pid: Pid, path: Path, dest: string, removeSource: bool, moments: seq<Moment>)
      returns (outcome: Outcome)
      requires Valid() && pid !in publishers && OthersOnly(moments, pid)
      modifies this
      ensures Valid() && old(history) <= history
      ensures outcome == Failed(BadSource) <==> pid !in publishers
      ensures pid in publishers ==>
                var p := publishers[pid];
                && p.source == Some(path) && p.dest == dest && p.removeSource == removeSource && Ended(p.phase)
                && (outcome.Done? <==> p.phase == Returned)
                && (Published(p.phase) ==> Holds(View(), dest, p.copied) && p.copied == p.original)
      ensures outcome.Done? ==> Holds(View(), dest, outcome.sha256) && outcome.size == |outcome.sha256|
      ensures outcome == Failed(SystemError) ==> Raising(moments)
      ensures moments == [] ==> outcome == old(Undisturbed(path, dest))
      ensures outcome in {Failed(NameTaken), Failed(SourceChanged), Failed(DestinationExists)} ==>
                pid in publishers && !Published(publishers[pid].phase)
    {
      var ok := Examine(pid, path, dest, removeSource);
      if !ok { return Failed(BadSource); }
      Known(pid);
      outcome := Proceed(pid, moments);
      if Published(publishers[pid].phase) { PublishedCompletely(start, history, pid); }
    }

    /** The rest of a publication, once its source has been examined. */
    method Proceed(pid: Pid, moments: seq<Moment>) returns (outcome: Outcome)
      requires Valid() && At(pid, Started) && publishers[pid].source.Some? && OthersOnly(moments, pid)
      modifies this
      ensures Valid() && old(history) <= history && SameTask(pid) && Ended(publishers[pid].phase)
      ensures outcome == Failed(SystemError) ==> Raising(moments)
      ensures moments == [] && old(Intact(pid) && Temp(publishers[pid].dest, pid) !in directory) ==>
                if Final(publishers[pid].dest) in old(directory) then outcome == Failed(DestinationExists)
                else outcome.Done?
      ensures outcome != Failed(BadSource) && (outcome.Done? <==> At(pid, Returned))
      ensures outcome.Done? ==> outcome == Done(publishers[pid].copied, |publishers[pid].copied|)
      ensures outcome.Failed? && outcome.reason != SystemError ==> !Published(publishers[pid].phase)
    {
      var error := Prepare(pid, moments);
      if error.Some? { return Failed(error.value); }
      var k;
      error, k := Attempt(pid, moments, 2);
      outcome := CleanUp(pid, moments, k, error);
    }

    /** Creating directories and asking for free space may raise; then the temporary file is created. */
    method Prepare(pid: Pid, moments: seq<Moment>) returns (error: Option<Reason>)
      requires Valid() && At(pid, Started) && OthersOnly(moments, pid)
      modifies this
      ensures Valid() && old(history) <= history && SameTask(pid)
      ensures At(pid, if error.None? then Created else Raised(false))
      ensures error == Some(SystemError) ==> Raising(moments)
      ensures error.None? || error == Some(SystemError) || error == Some(NameTaken)
      ensures moments == [] && old(Intact(pid) && Temp(publishers[pid].dest, pid) !in directory) ==>
                error.None? && Intact(pid)
                && (Final(publishers[pid].dest) in directory <==> Final(publishers[pid].dest) in old(directory))
    {
      var raised := Interrupted(moments, 0, pid);
      if raised { return Some(SystemError); }
      raised := Interrupted(moments, 1, pid);
      if raised { return Some(SystemError); }
      CreateTemporary(pid);
      error := if publishers[pid].phase == Created then None else Some(NameTaken);
    }

    /** Closes the files and removes the temporary name; then the exception goes on, or the source is
        removed if asked. */
    method CleanUp(pid: Pid, moments: seq<Moment>, k: nat, error: Option<Reason>) returns (outcome: Outcome)
      requires Valid() && pid in publishers && publishers[pid].source.Some? && OthersOnly(moments, pid)
      requires if error.None? then At(pid, Cleaning(true, true))
               else At(pid, Cleaning(false, false)) || (At(pid, Cleaning(false, true)) && error == Some(SystemError))
      requires error != Some(BadSource)
      modifies this
      ensures Valid() && old(history) <= history && SameTask(pid) && Ended(publishers[pid].phase)
      ensures outcome == Failed(SystemError) ==> Raising(moments) || error == Some(SystemError)
      ensures moments == [] ==> if error.Some? then outcome == Failed(error.value) else outcome.Done?
      ensures outcome != Failed(BadSource) && (outcome.Done? <==> At(pid, Returned))
      ensures outcome.Done? ==> outcome == Done(publishers[pid].copied, |publishers[pid].copied|)
      ensures outcome.Failed? && outcome.reason != SystemError ==> !Published(publishers[pid].phase)
    {
      var raised := Interrupted(moments, k, pid);
      if raised { return Failed(SystemError); }
      RemoveTemporary(pid);
      if error.Some? { return Failed(error.value); }
      raised := Discard(pid, moments, k + 1);
      outcome := if raised then Failed(SystemError) else Done(publishers[pid].copied, |publishers[pid].copied|);
    }

    /** Removes the source if asked. */
    method Discard(pid: Pid, moments: seq<Moment>, k: nat) returns (raised: bool)
      requires Valid() && (At(pid, Removing) || At(pid, Returned)) && publishers[pid].source.Some?
      requires OthersOnly(moments, pid)
      modifies this
      ensures Valid() && old(history) <= history && SameTask(pid) && (raised ==> Raising(moments))
      ensures At(pid, if raised then Raised(true) else Returned)
    {
      raised := false;
      if publishers[pid].phase == Removing {
        raised := Interrupted(moments, k, pid);
        if raised { return; }
        RemoveOriginal(pid);
      }
    }
  }
}

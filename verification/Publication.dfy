/** Publishing a file into the library: copy to a temporary name in the destination directory,
    check, hard-link to the final name, remove the temporary name. Publishers race with each other
    and with writers of the source, and may fail or stop at any point. */
module Publication {
  import opened Wrappers

  type Byte = bv8
  type Inode = nat
  type Path = nat
  /** A publisher's number is also the unique part of its temporary name. */
  type Pid = nat

  /** A final name in the library, or a publisher's temporary name beside it. */
  datatype Name = Final(dest: string) | Temp(dest: string, pid: Pid)

  datatype SourceFile = SourceFile(data: seq<Byte>, mtime: nat, regular: bool)

  datatype Stat = Stat(inode: Inode, size: nat, mtime: nat)

  /** Cleaning says whether the publisher goes on to return, and whether it has linked. An abandoned
      publisher raised in its clean-up, before it removed its temporary name. */
  datatype Phase =
    | Started
    | Created
    | Copying
    | Copied
    | Verified
    | Linked
    | Cleaning(ok: bool, linked: bool)
    | Removing
    | Returned
    | Raised(published: bool)
    | Abandoned(published: bool)

  /** `source` is None for a cover, whose bytes are given. `original` is what the source held when
      its size and time were taken; `copied` is what has been hashed and written so far. */
  datatype Publisher = Publisher(
    source: Option<Path>,
    dest: string,
    removeSource: bool,
    stat: Stat,
    original: seq<Byte>,
    inode: Inode,
    copied: seq<Byte>,
    phase: Phase)

  datatype World = World(
    directory: map<Name, Inode>,
    files: map<Inode, seq<Byte>>,
    sources: map<Path, Inode>,
    sourceFiles: map<Inode, SourceFile>,
    publishers: map<Pid, Publisher>,
    nextInode: Inode)

  datatype Step =
    | Begin(pid: Pid, path: Path, dest: string, removeSource: bool)
    | BeginCover(pid: Pid, dest: string, data: seq<Byte>)
    | Create(pid: Pid)
    | OpenSource(pid: Pid)
    | CopyChunk(pid: Pid, length: nat)
    | WriteCover(pid: Pid)
    | Verify(pid: Pid)
    | Link(pid: Pid)
    | Sync(pid: Pid)
    | Fail(pid: Pid)
    | Unlink(pid: Pid)
    | RemoveSource(pid: Pid)
    | Rewrite(inode: Inode, data: seq<Byte>, later: nat)
    | Repoint(path: Path, inode: Inode)
    | Appear(dest: string, data: seq<Byte>)

  predicate Unchanged(w: World, p: Publisher) {
    && p.stat.inode in w.sourceFiles
    && |w.sourceFiles[p.stat.inode].data| == p.stat.size
    && w.sourceFiles[p.stat.inode].mtime == p.stat.mtime
  }

  /** What a publisher's step does to the names in the directory. */
  datatype Names = Keep | AddTemp | AddFinal | DropTemp

  datatype Effect = Effect(after: Publisher, names: Names, write: bool, dropSource: bool)

  function Moved(p: Publisher, phase: Phase): Effect {
    Effect(p.(phase := phase), Keep, false, false)
  }

  function Create(w: World, pid: Pid, p: Publisher): Effect {
    if p.phase != Started then Moved(p, p.phase)
    else if Temp(p.dest, pid) in w.directory then Moved(p, Raised(false))
    else Effect(p.(inode := w.nextInode, copied := [], phase := Created), AddTemp, true, false)
  }

  /** The source must still be the file whose size and time were taken. */
  function OpenSource(w: World, p: Publisher): Effect {
    if p.phase != Created || p.source.None? then Moved(p, p.phase)
    else if p.source.value in w.sources && w.sources[p.source.value] == p.stat.inode
            && p.stat.inode in w.sourceFiles && w.sourceFiles[p.stat.inode].regular
    then Moved(p, Copying)
    else Moved(p, Cleaning(false, false))
  }

  /** Reads up to `length` bytes from where the last read ended; an empty read ends the copy. */
  function CopyChunk(w: World, p: Publisher, length: nat): Effect {
    if p.phase != Copying || p.stat.inode !in w.sourceFiles || length == 0 then Moved(p, p.phase)
    else
      var data := w.sourceFiles[p.stat.inode].data;
      if |data| <= |p.copied| then Moved(p, Copied)
      else Effect(p.(copied := p.copied + data[|p.copied|..Min(|p.copied| + length, |data|)]), Keep, true, false)
  }

  function WriteCover(p: Publisher): Effect {
    if p.phase != Created || p.source.Some? then Moved(p, p.phase)
    else Effect(p.(copied := p.original, phase := Verified), Keep, true, false)
  }

  function Verify(w: World, p: Publisher): Effect {
    if p.phase != Copied then Moved(p, p.phase)
    else if |p.copied| == p.stat.size && Unchanged(w, p) then Moved(p, Verified)
    else Moved(p, Cleaning(false, false))
  }

  function Link(w: World, p: Publisher): Effect {
    if p.phase != Verified then Moved(p, p.phase)
    else if Final(p.dest) in w.directory then Moved(p, Cleaning(false, false))
    else Effect(p.(phase := Linked), AddFinal, false, false)
  }

  /** An exception at any point: synchronising the directory may fail after the link, and closing a
      file or removing the temporary name may fail in the clean-up. */
  function Thrown(p: Phase): Phase {
    if p == Started then Raised(false)
    else if p in {Created, Copying, Copied, Verified} then Cleaning(false, false)
    else if p == Linked then Cleaning(false, true)
    else if p.Cleaning? then Abandoned(p.linked)
    else if p == Removing then Raised(true)
    else p
  }

  function Fail(p: Publisher): Effect {
    Moved(p, Thrown(p.phase))
  }

  function Unlink(p: Publisher): Effect {
    if !p.phase.Cleaning? then Moved(p, p.phase)
    else
      var after := if !p.phase.ok then Raised(p.phase.linked) else if p.removeSource then Removing else Returned;
      Effect(p.(phase := after), DropTemp, false, false)
  }

  function Act(w: World, step: Step, pid: Pid, p: Publisher): Effect {
    match step
    case Create(_) => Create(w, pid, p)
    case OpenSource(_) => OpenSource(w, p)
    case CopyChunk(_, length) => CopyChunk(w, p, length)
    case WriteCover(_) => WriteCover(p)
    case Verify(_) => Verify(w, p)
    case Link(_) => Link(w, p)
    case Sync(_) => if p.phase == Linked then Moved(p, Cleaning(true, true)) else Moved(p, p.phase)
    case Fail(_) => Fail(p)
    case Unlink(_) => Unlink(p)
    case RemoveSource(_) =>
      if p.phase == Removing then Effect(p.(phase := Returned), Keep, false, true) else Moved(p, p.phase)
    case _ => Moved(p, p.phase)
  }

  function Apply(w: World, pid: Pid, e: Effect): World {
    var p := e.after;
    var directory := match e.names
      case Keep => w.directory
      case AddTemp => w.directory[Temp(p.dest, pid) := p.inode]
      case AddFinal => w.directory[Final(p.dest) := p.inode]
      case DropTemp => w.directory - {Temp(p.dest, pid)};
    w.(directory := directory,
       files := if e.write then w.files[p.inode := p.copied] else w.files,
       sources := if e.dropSource && p.source.Some? then w.sources - {p.source.value} else w.sources,
       publishers := w.publishers[pid := p],
       nextInode := if e.names == AddTemp then w.nextInode + 1 else w.nextInode)
  }

  /** Somebody else puts a finished file into the library. */
  function Appeared(w: World, dest: string, data: seq<Byte>): World {
    w.(directory := w.directory[Final(dest) := w.nextInode], files := w.files[w.nextInode := data],
       nextInode := w.nextInode + 1)
  }

  function Next(w: World, step: Step): World {
    match step
    case Begin(pid, path, dest, remove) =>
      if pid in w.publishers || path !in w.sources || w.sources[path] !in w.sourceFiles
         || !w.sourceFiles[w.sources[path]].regular then w
      else
        var inode := w.sources[path];
        var file := w.sourceFiles[inode];
        var p := Publisher(Some(path), dest, remove, Stat(inode, |file.data|, file.mtime), file.data, 0, [], Started);
        w.(publishers := w.publishers[pid := p])
    case BeginCover(pid, dest, data) =>
      if pid in w.publishers || data == [] then w
      else
        var p := Publisher(None, dest, false, Stat(0, |data|, 0), data, 0, [], Started);
        w.(publishers := w.publishers[pid := p])
    case Rewrite(inode, data, later) =>
      if inode in w.sourceFiles && later > w.sourceFiles[inode].mtime then
        w.(sourceFiles := w.sourceFiles[inode := w.sourceFiles[inode].(data := data, mtime := later)])
      else w
    case Repoint(path, inode) => w.(sources := w.sources[path := inode])
    case Appear(dest, data) =>
      if Final(dest) in w.directory then w else Appeared(w, dest, data)
    case _ => if step.pid in w.publishers then Apply(w, step.pid, Act(w, step, step.pid, w.publishers[step.pid])) else w
  }

  function Run(w: World, steps: seq<Step>): World {
    if steps == [] then w else Next(Run(w, steps[..|steps| - 1]), steps[|steps| - 1])
  }

  /** A library holding any finished files, any sources, and no publisher yet. */
  predicate Initial(w: World) {
    && w.publishers == map[]
    && (forall n :: n in w.directory ==> n.Final? && w.directory[n] in w.files)
    && (forall i :: i in w.files ==> i < w.nextInode)
  }

  // ---------- The invariant ----------

  /** The temporary name exists. */
  predicate Holding(p: Phase) {
    p in {Created, Copying, Copied, Verified, Linked} || p.Cleaning? || p.Abandoned?
  }

  /** The final name was linked. */
  predicate Published(p: Phase) {
    || p == Linked || (p.Cleaning? && p.linked) || p == Removing || p == Returned
    || p == Raised(true) || p == Abandoned(true)
  }

  predicate Ended(p: Phase) {
    p == Returned || p.Raised? || p.Abandoned?
  }

  /** Either the source has been written since, or it still holds the original and so far
      the copy is a prefix of it. */
  predicate Faithful(w: World, p: Publisher) {
    p.source.Some? ==>
      && p.stat.inode in w.sourceFiles
      && var f := w.sourceFiles[p.stat.inode];
      f.mtime >= p.stat.mtime && (f.mtime == p.stat.mtime ==> f.data == p.original && p.copied <= p.original)
  }

  /** What a publisher knows of itself and of its source. */
  predicate LocalInv(w: World, p: Publisher) {
    && |p.original| == p.stat.size
    && Faithful(w, p)
    && (p.phase == Verified || Published(p.phase) ==> p.copied == p.original)
    && (p.phase.Cleaning? && p.phase.ok ==> p.phase.linked)
    && (p.phase == Copying || p.phase == Copied || p.phase == Removing ==> p.source.Some?)
    && (p.removeSource ==> p.source.Some?)
  }

  /** Where its names and bytes are: a temporary name exactly while it is at work, its final name
      once it has linked it. */
  predicate PlacedInv(w: World, pid: Pid)
    requires pid in w.publishers
  {
    var p := w.publishers[pid];
    && (Holding(p.phase) <==> Temp(p.dest, pid) in w.directory)
    && (Holding(p.phase) ==> w.directory[Temp(p.dest, pid)] == p.inode)
    && (Published(p.phase) ==> Final(p.dest) in w.directory && w.directory[Final(p.dest)] == p.inode)
    && (HasInode(p.phase) ==> p.inode in w.files && w.files[p.inode] == p.copied)
  }

  predicate NameInv(w: World, n: Name)
    requires n in w.directory
  {
    && w.directory[n] in w.files
    && (n.Temp? ==> n.pid in w.publishers && w.publishers[n.pid].dest == n.dest && Holding(w.publishers[n.pid].phase))
  }

  /** No two publishers share an inode, and an inode has a final name only if its owner linked it. */
  predicate Apart(w: World, a: Pid, b: Pid)
    requires a in w.publishers && b in w.publishers
  {
    a != b && HasInode(w.publishers[a].phase) && HasInode(w.publishers[b].phase) ==>
      w.publishers[a].inode != w.publishers[b].inode
  }

  predicate HasInode(p: Phase) {
    Holding(p) || Published(p)
  }

  predicate Private(w: World, pid: Pid, n: Name)
    requires pid in w.publishers && n in w.directory
  {
    n.Final? && w.directory[n] == w.publishers[pid].inode && HasInode(w.publishers[pid].phase) ==>
      Published(w.publishers[pid].phase) && n.dest == w.publishers[pid].dest
  }

  ghost predicate Inv(w: World) {
    && (forall pid :: pid in w.publishers ==> LocalInv(w, w.publishers[pid]) && PlacedInv(w, pid))
    && (forall n :: n in w.directory ==> NameInv(w, n))
    && (forall a, b :: a in w.publishers && b in w.publishers ==> Apart(w, a, b))
    && (forall pid, n :: pid in w.publishers && n in w.directory ==> Private(w, pid, n))
    && (forall i :: i in w.files ==> i < w.nextInode)
  }

  // ---------- Every step keeps it ----------

  /** How any effect relates the publisher before and after. */
  predicate Sound(w: World, pid: Pid, p: Publisher, e: Effect) {
    var q := e.after;
    && q.dest == p.dest
    && LocalInv(w, q)
    && (e.write || q.copied == p.copied)
    && (e.names == AddTemp || q.inode == p.inode)
    && match e.names
       case Keep => (Holding(q.phase) == Holding(p.phase)) && Published(q.phase) == Published(p.phase)
                    && (e.write ==> Holding(p.phase) && !Published(p.phase))
       case AddTemp => p.phase == Started && Holding(q.phase) && !Published(q.phase) && q.inode == w.nextInode
                       && e.write
       case AddFinal => Final(p.dest) !in w.directory && Holding(p.phase) && Holding(q.phase) && Published(q.phase)
                         && !e.write
       case DropTemp => Holding(p.phase) && !Holding(q.phase) && Published(q.phase) == Published(p.phase) && !e.write
  }

  /** While the source is unwritten, what is read next continues a prefix of the original. */
  lemma CopyIsSound(w: World, pid: Pid, p: Publisher, length: nat)
    requires LocalInv(w, p)
    ensures Sound(w, pid, p, CopyChunk(w, p, length))
  {
    if p.phase == Copying && p.stat.inode in w.sourceFiles && length > 0 && p.source.Some? {
      var f := w.sourceFiles[p.stat.inode];
      if f.mtime == p.stat.mtime && |p.copied| < |f.data| {
        var n := Min(|p.copied| + length, |f.data|);
        assert p.copied + f.data[|p.copied|..n] == f.data[..n];
      }
    }
  }

  lemma VerifyIsSound(w: World, pid: Pid, p: Publisher)
    requires LocalInv(w, p)
    ensures Sound(w, pid, p, Verify(w, p))
  {}

  lemma CreateIsSound(w: World, pid: Pid, p: Publisher)
    requires LocalInv(w, p)
    ensures Sound(w, pid, p, Create(w, pid, p))
  {}

  lemma OpenIsSound(w: World, pid: Pid, p: Publisher)
    requires LocalInv(w, p)
    ensures Sound(w, pid, p, OpenSource(w, p))
  {}

  lemma WriteCoverIsSound(w: World, pid: Pid, p: Publisher)
    requires LocalInv(w, p)
    ensures Sound(w, pid, p, WriteCover(p))
  {}

  lemma LinkIsSound(w: World, pid: Pid, p: Publisher)
    requires LocalInv(w, p)
    ensures Sound(w, pid, p, Link(w, p))
  {}

  lemma FailIsSound(w: World, pid: Pid, p: Publisher)
    requires LocalInv(w, p)
    ensures Sound(w, pid, p, Fail(p))
  {}

  lemma UnlinkIsSound(w: World, pid: Pid, p: Publisher)
    requires LocalInv(w, p)
    ensures Sound(w, pid, p, Unlink(p))
  {}

  lemma EndingIsSound(w: World, step: Step, pid: Pid, p: Publisher)
    requires LocalInv(w, p) && (step.Sync? || step.RemoveSource?)
    ensures Sound(w, pid, p, Act(w, step, pid, p))
  {}

  lemma ActIsSound(w: World, step: Step, pid: Pid, p: Publisher)
    requires LocalInv(w, p)
    ensures Sound(w, pid, p, Act(w, step, pid, p))
  {
    match step
    case CopyChunk(_, length) => CopyIsSound(w, pid, p, length);
    case Verify(_) => VerifyIsSound(w, pid, p);
    case Sync(_) => EndingIsSound(w, step, pid, p);
    case Fail(_) => FailIsSound(w, pid, p);
    case Unlink(_) => UnlinkIsSound(w, pid, p);
    case RemoveSource(_) => EndingIsSound(w, step, pid, p);
    case Create(_) => CreateIsSound(w, pid, p);
    case OpenSource(_) => OpenIsSound(w, pid, p);
    case WriteCover(_) => WriteCoverIsSound(w, pid, p);
    case Link(_) => LinkIsSound(w, pid, p);
    case _ =>
  }

  lemma ActorStaysPlaced(w: World, pid: Pid, e: Effect, v: World)
    requires Inv(w) && pid in w.publishers && Sound(w, pid, w.publishers[pid], e) && v == Apply(w, pid, e)
    ensures PlacedInv(v, pid)
  {
    assert PlacedInv(w, pid);
  }

  lemma OthersStayPlaced(w: World, pid: Pid, e: Effect, v: World, other: Pid)
    requires Inv(w) && pid in w.publishers && Sound(w, pid, w.publishers[pid], e) && v == Apply(w, pid, e)
    requires other in w.publishers && other != pid
    ensures PlacedInv(v, other)
  {
    assert PlacedInv(w, pid) && PlacedInv(w, other) && Apart(w, pid, other);
  }

  lemma NamesStayKnown(w: World, pid: Pid, e: Effect, v: World, n: Name)
    requires Inv(w) && pid in w.publishers && Sound(w, pid, w.publishers[pid], e) && v == Apply(w, pid, e)
    requires n in v.directory
    ensures NameInv(v, n)
  {
    assert PlacedInv(w, pid);
    if n in w.directory { assert NameInv(w, n); }
  }

  lemma PublishersStayApart(w: World, pid: Pid, e: Effect, v: World, a: Pid, b: Pid)
    requires Inv(w) && pid in w.publishers && Sound(w, pid, w.publishers[pid], e) && v == Apply(w, pid, e)
    requires a in w.publishers && b in w.publishers
    ensures Apart(v, a, b)
  {
    assert Apart(w, a, b) && PlacedInv(w, a) && PlacedInv(w, b);
  }

  lemma InodesStayPrivate(w: World, pid: Pid, e: Effect, v: World, p: Pid, n: Name)
    requires Inv(w) && pid in w.publishers && Sound(w, pid, w.publishers[pid], e) && v == Apply(w, pid, e)
    requires p in w.publishers && n in v.directory
    ensures Private(v, p, n)
  {
    assert PlacedInv(w, pid) && PlacedInv(w, p) && Apart(w, p, pid);
    if n in w.directory { assert Private(w, p, n) && NameInv(w, n); }
  }

  lemma ApplyKeepsInv(w: World, pid: Pid, e: Effect, v: World)
    requires Inv(w) && pid in w.publishers && Sound(w, pid, w.publishers[pid], e) && v == Apply(w, pid, e)
    ensures Inv(v)
  {
    assert PlacedInv(w, pid);
    forall p | p in v.publishers ensures LocalInv(v, v.publishers[p]) && PlacedInv(v, p) {
      if p == pid { ActorStaysPlaced(w, pid, e, v); } else { OthersStayPlaced(w, pid, e, v, p); }
    }
    forall n | n in v.directory ensures NameInv(v, n) { NamesStayKnown(w, pid, e, v, n); }
    forall a, b | a in v.publishers && b in v.publishers ensures Apart(v, a, b) {
      PublishersStayApart(w, pid, e, v, a, b);
    }
    forall p, n | p in v.publishers && n in v.directory ensures Private(v, p, n) {
      InodesStayPrivate(w, pid, e, v, p, n);
    }
  }

  predicate ByPublisher(step: Step) {
    !step.Begin? && !step.BeginCover? && !step.Rewrite? && !step.Repoint? && !step.Appear?
  }

  lemma NewcomerKeepsInv(w: World, pid: Pid, p: Publisher, v: World)
    requires Inv(w) && pid !in w.publishers && p.phase == Started && LocalInv(w, p)
    requires v == w.(publishers := w.publishers[pid := p])
    ensures Inv(v)
  {
    assert Temp(p.dest, pid) in w.directory ==> NameInv(w, Temp(p.dest, pid));
    forall q | q in v.publishers ensures LocalInv(v, v.publishers[q]) && PlacedInv(v, q) {
      assert q in w.publishers ==> LocalInv(w, w.publishers[q]) && PlacedInv(w, q);
    }
    forall n | n in v.directory ensures NameInv(v, n) { assert NameInv(w, n); }
    forall a, b | a in v.publishers && b in v.publishers ensures Apart(v, a, b) {
      assert a in w.publishers && b in w.publishers ==> Apart(w, a, b);
    }
    forall q, n | q in v.publishers && n in v.directory ensures Private(v, q, n) {
      assert q in w.publishers ==> Private(w, q, n);
    }
  }

  lemma BeginKeepsInv(w: World, step: Step, v: World)
    requires Inv(w) && (step.Begin? || step.BeginCover?) && v == Next(w, step)
    ensures Inv(v)
  {
    if v != w { NewcomerKeepsInv(w, step.pid, v.publishers[step.pid], v); }
  }

  /** Only the sources change, and a source that is written gets a later time. */
  lemma SourcesKeepInv(w: World, v: World)
    requires Inv(w) && v == w.(sources := v.sources, sourceFiles := v.sourceFiles)
    requires w.sourceFiles.Keys <= v.sourceFiles.Keys
    requires forall i :: i in w.sourceFiles ==>
               v.sourceFiles[i] == w.sourceFiles[i] || v.sourceFiles[i].mtime > w.sourceFiles[i].mtime
    ensures Inv(v)
  {
    forall p | p in v.publishers ensures LocalInv(v, v.publishers[p]) && PlacedInv(v, p) {
      assert LocalInv(w, w.publishers[p]) && PlacedInv(w, p);
    }
    forall n | n in v.directory ensures NameInv(v, n) { assert NameInv(w, n); }
    forall a, b | a in v.publishers && b in v.publishers ensures Apart(v, a, b) { assert Apart(w, a, b); }
    forall p, n | p in v.publishers && n in v.directory ensures Private(v, p, n) { assert Private(w, p, n); }
  }

  lemma AppearKeepsInv(w: World, dest: string, data: seq<Byte>)
    requires Inv(w) && Final(dest) !in w.directory
    ensures Inv(Appeared(w, dest, data))
  {
    var v := Appeared(w, dest, data);
    forall p | p in v.publishers ensures LocalInv(v, v.publishers[p]) && PlacedInv(v, p) {
      assert LocalInv(w, w.publishers[p]) && PlacedInv(w, p);
    }
    forall n | n in v.directory ensures NameInv(v, n) {
      if n in w.directory { assert NameInv(w, n); }
    }
    forall a, b | a in v.publishers && b in v.publishers ensures Apart(v, a, b) { assert Apart(w, a, b); }
    forall p, n | p in v.publishers && n in v.directory ensures Private(v, p, n) {
      assert PlacedInv(w, p);
      if n in w.directory { assert Private(w, p, n); }
    }
  }

  lemma StepKeepsInv(w: World, step: Step)
    requires Inv(w)
    ensures Inv(Next(w, step))
  {
    if step.Begin? || step.BeginCover? {
      BeginKeepsInv(w, step, Next(w, step));
    } else if step.Appear? {
      if Final(step.dest) !in w.directory { AppearKeepsInv(w, step.dest, step.data); }
    } else if !ByPublisher(step) {
      SourcesKeepInv(w, Next(w, step));
    } else if step.pid in w.publishers {
      ActIsSound(w, step, step.pid, w.publishers[step.pid]);
      ApplyKeepsInv(w, step.pid, Act(w, step, step.pid, w.publishers[step.pid]), Next(w, step));
    }
  }

  lemma {:induction false} RunKeepsInv(w: World, steps: seq<Step>)
    requires Initial(w)
    ensures Inv(Run(w, steps))
  {
    if steps == [] {
      forall n | n in w.directory ensures NameInv(w, n) {}
    } else {
      var n := |steps| - 1;
      RunKeepsInv(w, steps[..n]);
      StepKeepsInv(Run(w, steps[..n]), steps[n]);
    }
  }

  lemma RunsOn(w: World, steps: seq<Step>, step: Step)
    ensures Run(w, steps + [step]) == Next(Run(w, steps), step)
  {
    assert (steps + [step])[..|steps|] == steps;
  }

  lemma RunSplits(w: World, steps: seq<Step>, more: seq<Step>)
    requires more != []
    ensures var n := |more| - 1; Run(w, steps + more) == Next(Run(w, steps + more[..n]), more[n])
  {
    var n := |more| - 1;
    assert steps + more == (steps + more[..n]) + [more[n]];
    RunsOn(w, steps + more[..n], more[n]);
  }

  // ---------- What holds over every interleaving ----------

  predicate Holds(w: World, dest: string, data: seq<Byte>) {
    && Final(dest) in w.directory && w.directory[Final(dest)] in w.files
    && w.files[w.directory[Final(dest)]] == data
  }

  /** A name is still there, for the same file with the same bytes. */
  predicate Stays(w: World, v: World, n: Name) {
    && n in w.directory && n in v.directory && v.directory[n] == w.directory[n]
    && w.directory[n] in w.files && w.directory[n] in v.files
    && v.files[w.directory[n]] == w.files[w.directory[n]]
  }

  lemma ApplyKeepsFinals(w: World, pid: Pid, e: Effect, dest: string, v: World)
    requires Inv(w) && pid in w.publishers && Sound(w, pid, w.publishers[pid], e) && Final(dest) in w.directory
    requires v == Apply(w, pid, e)
    ensures Stays(w, v, Final(dest))
  {
    assert NameInv(w, Final(dest)) && Private(w, pid, Final(dest));
  }

  lemma AppearingKeepsFinals(w: World, other: string, data: seq<Byte>, dest: string, v: World)
    requires Inv(w) && Final(dest) in w.directory && Final(other) !in w.directory && v == Appeared(w, other, data)
    ensures Stays(w, v, Final(dest))
  {
    assert NameInv(w, Final(dest));
  }

  lemma FinalNamesStay(w: World, step: Step, dest: string, v: World)
    requires Inv(w) && Final(dest) in w.directory && v == Next(w, step)
    ensures Stays(w, v, Final(dest))
  {
    if step.Appear? && Final(step.dest) !in w.directory {
      AppearingKeepsFinals(w, step.dest, step.data, dest, v);
    } else if ByPublisher(step) && step.pid in w.publishers {
      ActIsSound(w, step, step.pid, w.publishers[step.pid]);
      ApplyKeepsFinals(w, step.pid, Act(w, step, step.pid, w.publishers[step.pid]), dest, v);
    } else {
      QuietStep(w, step, v);
      assert NameInv(w, Final(dest));
    }
  }

  lemma QuietStep(w: World, step: Step, v: World)
    requires v == Next(w, step)
    requires !(step.Appear? && Final(step.dest) !in w.directory) && !(ByPublisher(step) && step.pid in w.publishers)
    ensures v.directory == w.directory && v.files == w.files
  {}

  /** A final name, however it came to be, is never replaced, removed or written through,
      whatever publishers do and wherever they stop. */
  lemma {:induction false} PublishedForGood(w: World, steps: seq<Step>, more: seq<Step>, dest: string)
    requires Initial(w) && Final(dest) in Run(w, steps).directory
    ensures var before, after := Run(w, steps), Run(w, steps + more);
            Stays(before, after, Final(dest)) && Holds(after, dest, before.files[before.directory[Final(dest)]])
  {
    RunKeepsInv(w, steps);
    assert NameInv(Run(w, steps), Final(dest));
    if more == [] {
      assert steps + more == steps;
    } else {
      var n := |more| - 1;
      PublishedForGood(w, steps, more[..n], dest);
      RunKeepsInv(w, steps + more[..n]);
      RunSplits(w, steps, more);
      FinalNamesStay(Run(w, steps + more[..n]), more[n], dest, Run(w, steps + more));
    }
  }

  /** Once a publisher has linked its file, and whatever becomes of it then, its final name holds
      exactly the bytes it hashed, which are all the bytes its source held when it was examined. */
  lemma PublishedCompletely(w: World, steps: seq<Step>, pid: Pid)
    requires Initial(w) && pid in Run(w, steps).publishers && Published(Run(w, steps).publishers[pid].phase)
    ensures var v := Run(w, steps); var p := v.publishers[pid];
            Holds(v, p.dest, p.copied) && p.copied == p.original && |p.copied| == p.stat.size
  {
    RunKeepsInv(w, steps);
    assert PlacedInv(Run(w, steps), pid) && LocalInv(Run(w, steps), Run(w, steps).publishers[pid]);
  }

  /** Of all the publishers that ever aim at a name, at most one links it. */
  lemma OnePublisherWins(w: World, steps: seq<Step>, a: Pid, b: Pid)
    requires Initial(w) && a in Run(w, steps).publishers && b in Run(w, steps).publishers
    requires Published(Run(w, steps).publishers[a].phase) && Published(Run(w, steps).publishers[b].phase)
    requires Run(w, steps).publishers[a].dest == Run(w, steps).publishers[b].dest
    ensures a == b
  {
    RunKeepsInv(w, steps);
    var v := Run(w, steps);
    assert PlacedInv(v, a) && PlacedInv(v, b) && Apart(v, a, b);
  }

  /** Of the publishers that have ended, exactly those leave their temporary name behind that raised in
      the clean-up; every other temporary name belongs to a publisher that is still at work or was
      stopped at work. */
  lemma NoTemporaryNamesRemain(w: World, steps: seq<Step>)
    requires Initial(w)
    ensures var v := Run(w, steps);
            && (forall pid :: pid in v.publishers && Ended(v.publishers[pid].phase) ==>
                  ((exists dest :: Temp(dest, pid) in v.directory) <==> v.publishers[pid].phase.Abandoned?))
            && (forall n :: n in v.directory && n.Temp? ==>
                  n.pid in v.publishers && v.publishers[n.pid].dest == n.dest && Holding(v.publishers[n.pid].phase))
  {
    RunKeepsInv(w, steps);
    var v := Run(w, steps);
    forall n | n in v.directory ensures NameInv(v, n) {}
    forall pid | pid in v.publishers && Ended(v.publishers[pid].phase)
      ensures (exists dest :: Temp(dest, pid) in v.directory) <==> v.publishers[pid].phase.Abandoned?
    {
      assert PlacedInv(v, pid);
      forall dest | Temp(dest, pid) in v.directory ensures v.publishers[pid].phase.Abandoned? {
        assert NameInv(v, Temp(dest, pid));
      }
    }
  }

  lemma AbandonedStays(w: World, step: Step, pid: Pid)
    requires pid in w.publishers && w.publishers[pid].phase.Abandoned?
    ensures pid in Next(w, step).publishers && Next(w, step).publishers[pid] == w.publishers[pid]
  {}

  /** Nothing ever removes a name that was left behind. */
  lemma {:induction false} LeftoversStay(w: World, steps: seq<Step>, more: seq<Step>, pid: Pid)
    requires Initial(w) && pid in Run(w, steps).publishers && Run(w, steps).publishers[pid].phase.Abandoned?
    ensures var before, after := Run(w, steps), Run(w, steps + more);
            pid in after.publishers && after.publishers[pid] == before.publishers[pid]
            && Temp(before.publishers[pid].dest, pid) in after.directory
  {
    if more == [] {
      assert steps + more == steps;
    } else {
      var n := |more| - 1;
      LeftoversStay(w, steps, more[..n], pid);
      RunSplits(w, steps, more);
      AbandonedStays(Run(w, steps + more[..n]), more[n], pid);
    }
    RunKeepsInv(w, steps + more);
    assert PlacedInv(Run(w, steps + more), pid);
  }

  lemma OneAfterAnother(w: World, a: Step, b: Step, c: Step, d: Step)
    ensures Run(w, [a, b, c, d]) == Next(Next(Next(Next(w, a), b), c), d)
  {
    RunsOn(w, [], a);
    RunsOn(w, [] + [a], b);
    RunsOn(w, [] + [a] + [b], c);
    RunsOn(w, [] + [a] + [b] + [c], d);
    assert [] + [a] + [b] + [c] + [d] == [a, b, c, d];
  }

  lemma CreatingFails(w: World, pid: Pid, a: World, b: World, c: World)
    requires pid in w.publishers && w.publishers[pid].phase == Started
             && Temp(w.publishers[pid].dest, pid) !in w.directory
    requires a == Next(w, Step.Create(pid)) && b == Next(a, Step.Fail(pid)) && c == Next(b, Step.Fail(pid))
    ensures pid in c.publishers && c.publishers[pid].phase == Abandoned(false)
    ensures Temp(w.publishers[pid].dest, pid) in c.directory
  {
    assert a.publishers[pid].phase == Created && Temp(w.publishers[pid].dest, pid) in a.directory;
    assert b.publishers[pid].phase == Cleaning(false, false) && b.directory == a.directory;
    assert c.directory == b.directory;
  }

  /** Such a run: the copy raises, and so does closing a file in the clean-up. */
  lemma LeftoversCanRemain(w: World, pid: Pid, path: Path, dest: string, v: World)
    requires Initial(w) && path in w.sources && w.sources[path] in w.sourceFiles
             && w.sourceFiles[w.sources[path]].regular
    requires v == Run(w, [Begin(pid, path, dest, false), Step.Create(pid), Step.Fail(pid), Step.Fail(pid)])
    ensures pid in v.publishers && v.publishers[pid].phase == Abandoned(false) && Temp(dest, pid) in v.directory
  {
    var begin := Begin(pid, path, dest, false);
    OneAfterAnother(w, begin, Step.Create(pid), Step.Fail(pid), Step.Fail(pid));
    var begun := Next(w, begin);
    var created := Next(begun, Step.Create(pid));
    CreatingFails(begun, pid, created, Next(created, Step.Fail(pid)), v);
  }

  lemma LinkingDecides(v: World, pid: Pid, p: Publisher, after: World)
    requires Inv(v) && pid in v.publishers && p == v.publishers[pid] && p.phase == Verified
    requires after == Next(v, Step.Link(pid))
    ensures pid in after.publishers && (Published(after.publishers[pid].phase) <==> Final(p.dest) !in v.directory)
    ensures Final(p.dest) in v.directory ==> after.directory == v.directory && after.files == v.files
    ensures Final(p.dest) !in v.directory ==> Holds(after, p.dest, p.original)
  {
    assert PlacedInv(v, pid) && LocalInv(v, p);
  }

  /** Linking fails exactly when the name is taken, and then the name keeps what it had. */
  lemma LosersChangeNothing(w: World, steps: seq<Step>, pid: Pid)
    requires Initial(w) && pid in Run(w, steps).publishers && Run(w, steps).publishers[pid].phase == Verified
    ensures var v := Run(w, steps); var p := v.publishers[pid]; var after := Next(v, Step.Link(pid));
            && pid in after.publishers && (Published(after.publishers[pid].phase) <==> Final(p.dest) !in v.directory)
            && (Final(p.dest) in v.directory ==> after.directory == v.directory && after.files == v.files)
            && (Final(p.dest) !in v.directory ==> Holds(after, p.dest, p.original))
  {
    RunKeepsInv(w, steps);
    var v := Run(w, steps);
    LinkingDecides(v, pid, v.publishers[pid], Next(v, Step.Link(pid)));
  }
}

/** The walk over the music directory: an explicit stack of directories, each listed once. */
module LibraryWalk {
  import opened Wrappers

  type Path = seq<string>

  datatype Reason =
    | VideoBearing | UnsupportedExtension | UnsupportedCodec | Unreadable | DirectoryUnreadable
    | ProbeUnavailable | ProbeResourceLimit | FileChanged | Unsafe | Malformed

  /** What reading a file's tags gives. */
  datatype Reading = Tagged(tags: string) | Rejected(reason: Reason)

  /** `stable` says whether the file is still the one that was read when its batch is written. */
  datatype Facts = Facts(opens: bool, size: nat, mtime: int, reading: Reading, stable: bool)

  /** What the tables of extensions make of a file's name. */
  datatype Kind = Supported | Ignorable | Unsupported

  /** Special is a socket, pipe or device. Broken is an entry whose type the walk cannot read, whatever
      is behind it; opening it by its path may still succeed. */
  datatype Node =
    | Dir(readable: bool, entries: seq<Entry>)
    | File(kind: Kind, facts: Facts)
    | Symlink
    | Special
    | Broken(opens: bool, behind: Node)

  datatype Entry = Entry(name: string, node: Node)

  // ---------- Names and trees ----------

  predicate Hidden(name: string) { name != "" && name[0] == '.' }

  predicate Safe(name: string) { '\\' !in name && '\0' !in name && name != "." && name != ".." }

  predicate SafePath(path: Path) { forall n :: n in path ==> Safe(n) }

  function Find(entries: seq<Entry>, name: string): Option<Node> {
    if entries == [] then None
    else if entries[0].name == name then Some(entries[0].node)
    else Find(entries[1..], name)
  }

  /** What an entry is, whether or not its type can be read. */
  function Real(node: Node): (r: Node)
    ensures !r.Broken?
  {
    if node.Broken? then Real(node.behind) else node
  }

  /** What really is at a path. */
  function Lookup(node: Node, path: Path): (r: Option<Node>)
    ensures r.Some? ==> !r.value.Broken?
    decreases |path|
  {
    var here := Real(node);
    if path == [] then Some(here)
    else if !here.Dir? then None
    else
      var child := Find(here.entries, path[0]);
      if child.Some? then Lookup(child.value, path[1..]) else None
  }

  ghost predicate Distinct(entries: seq<Entry>) {
    forall i, j :: 0 <= i < j < |entries| ==> entries[i].name != entries[j].name
  }

  /** No directory lists a name twice. */
  ghost predicate WellFormed(node: Node)
    decreases node
  {
    match node
    case Dir(_, entries) => Distinct(entries) && forall i :: 0 <= i < |entries| ==> WellFormed(entries[i].node)
    case Broken(_, behind) => WellFormed(behind)
    case _ => true
  }

  // ---------- Counts ----------

  /** The scan's counters; ClosedDirectory stands for an incomplete traversal. */
  datatype Counter =
    | Physical | SameAsBefore | NewlyIndexed | Updated | MarkedMissing | IgnoredEntry | OddExtension
    | OddCodec | CannotRead | SkippedVideo | OtherError | Unresolved | ClosedDirectory

  /** A counter's value is its multiplicity. */
  type Counts = multiset<Counter>

  function Key(reason: Reason): Counter {
    match reason
    case VideoBearing => SkippedVideo
    case UnsupportedExtension => OddExtension
    case UnsupportedCodec => OddCodec
    case Unreadable => CannotRead
    case DirectoryUnreadable => CannotRead
    case _ => OtherError
  }

  /** What an issue adds: its counter, and whether it leaves the coverage in doubt. */
  function Issue(reason: Reason): Counts {
    match reason
    case VideoBearing => multiset{SkippedVideo}
    case UnsupportedExtension => multiset{OddExtension}
    case UnsupportedCodec => multiset{OddCodec}
    case Unreadable => multiset{CannotRead, Unresolved}
    case DirectoryUnreadable => multiset{CannotRead, Unresolved, ClosedDirectory}
    case ProbeUnavailable => multiset{OtherError, Unresolved}
    case ProbeResourceLimit => multiset{OtherError, Unresolved}
    case FileChanged => multiset{OtherError, Unresolved}
    case Unsafe => multiset{OtherError}
    case Malformed => multiset{OtherError}
  }

  predicate InDoubt(reason: Reason) {
    || reason == Unreadable || reason == DirectoryUnreadable || reason == ProbeUnavailable
    || reason == ProbeResourceLimit || reason == FileChanged
  }

  /** An issue is counted in up to three steps. */
  lemma IssueParts(before: Counts, reason: Reason)
    ensures var doubt: Counts := if InDoubt(reason) then multiset{Unresolved} else multiset{};
            var closed: Counts := if reason == DirectoryUnreadable then multiset{ClosedDirectory} else multiset{};
            before + multiset{Key(reason)} + doubt + closed == before + Issue(reason)
  {}

  // ---------- What a walk should find ----------

  /** The supported files, and what was counted on the way. */
  datatype Walked = Walked(paths: multiset<Path>, counts: Counts)

  const NOTHING := Walked(multiset{}, multiset{})

  function Join(a: Walked, b: Walked): Walked {
    Walked(a.paths + b.paths, a.counts + b.counts)
  }

  predicate Opens(node: Node, at: Path) {
    node.Dir? && node.readable && SafePath(at)
  }

  function Walk(node: Node, at: Path): Walked
    requires node.Dir?
    decreases node
  {
    if Opens(node, at) then WalkEntries(node.entries, at)
    else Walked(multiset{}, Issue(DirectoryUnreadable))
  }

  function WalkEntries(entries: seq<Entry>, at: Path): Walked
    decreases entries
  {
    if entries == [] then NOTHING
    else Join(WalkEntry(entries[0], at), WalkEntries(entries[1..], at))
  }

  function WalkEntry(e: Entry, at: Path): Walked
    decreases e
  {
    if !Hidden(e.name) && e.node.Dir? then Walk(e.node, at + [e.name]) else Leaf(e, at)
  }

  /** An entry that is not descended into. */
  function Leaf(e: Entry, at: Path): Walked {
    if Hidden(e.name) || e.node.Symlink? then Walked(multiset{}, multiset{IgnoredEntry})
    else if e.node.File? then
      if e.node.kind.Supported? then Walked(multiset{at + [e.name]}, multiset{Physical})
      else if e.node.kind.Ignorable? then Walked(multiset{}, multiset{IgnoredEntry})
      else Walked(multiset{}, multiset{OddExtension})
    else if e.node.Broken? then Walked(multiset{}, Issue(Unreadable))
    else NOTHING
  }

  /** Reached through visible, openable directories, and a supported regular file itself. */
  predicate IsCandidate(node: Node, path: Path)
    decreases |path|
  {
    && path != [] && node.Dir? && node.readable && !Hidden(path[0])
    && var child := Find(node.entries, path[0]);
    && child.Some?
    && if |path| == 1 then child.value.File? && child.value.kind.Supported?
       else Safe(path[0]) && IsCandidate(child.value, path[1..])
  }

  predicate IsCandidateIn(entries: seq<Entry>, path: Path) {
    IsCandidate(Dir(true, entries), path)
  }

  lemma FindDistinct(entries: seq<Entry>, i: nat)
    requires i < |entries| && Distinct(entries)
    ensures Find(entries, entries[i].name) == Some(entries[i].node)
  {
    if i > 0 {
      assert entries[i] == entries[1..][i - 1];
      FindDistinct(entries[1..], i - 1);
    }
  }

  lemma {:induction false} FindNone(entries: seq<Entry>, name: string)
    requires forall i :: 0 <= i < |entries| ==> entries[i].name != name
    ensures Find(entries, name) == None
  {
    if entries != [] { FindNone(entries[1..], name); }
  }

  // ---------- The walk finds exactly the candidates ----------

  predicate Below(at: Path, path: Path) {
    |at| < |path| && path[..|at|] == at
  }

  lemma FindTail(entries: seq<Entry>, path: Path)
    requires entries != [] && path != [] && path[0] != entries[0].name
    ensures IsCandidateIn(entries, path) == IsCandidateIn(entries[1..], path)
  {}

  lemma CandidateInHead(entries: seq<Entry>, path: Path)
    requires entries != [] && path != [] && path[0] == entries[0].name
    ensures IsCandidateIn(entries, path) ==
            (!Hidden(path[0]) && if |path| == 1 then entries[0].node.File? && entries[0].node.kind.Supported?
                                 else Safe(path[0]) && IsCandidate(entries[0].node, path[1..]))
  {}

  /** A path is found in a directory once if it is a candidate of it, and otherwise not at all. */
  lemma {:induction false} WalkFinds(node: Node, at: Path, path: Path)
    requires WellFormed(node) && node.Dir? && SafePath(at)
    ensures Walk(node, at).paths[path] == Once(Below(at, path) && IsCandidate(node, path[|at|..]))
    decreases node, 1
  {
    if node.readable {
      WalkEntriesFinds(node.entries, at, path);
      if Below(at, path) {
        assert IsCandidate(node, path[|at|..]) == IsCandidateIn(node.entries, path[|at|..]);
      }
    }
  }

  lemma {:induction false} WalkEntriesFinds(entries: seq<Entry>, at: Path, path: Path)
    requires WellFormed(Dir(true, entries)) && SafePath(at)
    ensures WalkEntries(entries, at).paths[path] == Once(Below(at, path) && IsCandidateIn(entries, path[|at|..]))
    decreases entries, 0
  {
    if entries != [] {
      var rest := entries[1..];
      assert WellFormed(Dir(true, rest)) by {
        assert forall i :: 0 <= i < |rest| ==> rest[i] == entries[i + 1];
      }
      WalkEntryFinds(entries, at, path);
      WalkEntriesFinds(rest, at, path);
      if Below(at, path) {
        var below := path[|at|..];
        if below[0] == entries[0].name {
          FindNone(rest, below[0]);
        } else {
          FindTail(entries, below);
        }
      }
    }
  }

  lemma {:induction false} WalkEntryFinds(entries: seq<Entry>, at: Path, path: Path)
    requires entries != [] && WellFormed(Dir(true, entries)) && SafePath(at)
    ensures WalkEntry(entries[0], at).paths[path] ==
            Once(Below(at, path) && path[|at|] == entries[0].name && IsCandidateIn(entries, path[|at|..]))
    decreases entries[0], 2
  {
    var e := entries[0];
    var next := at + [e.name];
    if !Hidden(e.name) && e.node.Dir? && Safe(e.name) {
      WalkFinds(e.node, next, path);
    }
    if Below(at, path) {
      var below := path[|at|..];
      assert path == at + below;
      if below[0] == e.name {
        CandidateInHead(entries, below);
        assert |below| > 1 ==> path[..|next|] == next && path[|next|..] == below[1..];
        assert |below| == 1 ==> path == next;
      }
    }
    assert Below(next, path) ==> Below(at, path) && path[|at|] == e.name by {
      if Below(next, path) {
        assert path[..|next|][..|at|] == at && path[..|next|][|at|] == e.name;
        assert path[..|at|] == path[..|next|][..|at|];
      }
    }
  }

  // ---------- The walk as it runs ----------

  /** Moving a part from the waiting ones to the finished ones keeps the whole. */
  lemma JoinRegroups(a: Walked, b: Walked, c: Walked, d: Walked)
    ensures Join(Join(a, b), Join(c, d)) == Join(Join(Join(a, c), b), d)
    ensures Join(Join(a, b), Join(c, d)) == Join(Join(a, Join(c, b)), d)
  {}

  predicate DirAt(root: Node, path: Path) {
    Lookup(root, path).Some? && Lookup(root, path).value.Dir?
  }

  lemma {:induction false} FoundIsWellFormed(entries: seq<Entry>, name: string)
    requires forall i :: 0 <= i < |entries| ==> WellFormed(entries[i].node)
    ensures Find(entries, name).Some? ==> WellFormed(Find(entries, name).value)
  {
    if entries != [] { FoundIsWellFormed(entries[1..], name); }
  }

  lemma {:induction false} RealIsWellFormed(node: Node)
    requires WellFormed(node)
    ensures WellFormed(Real(node))
  {
    if node.Broken? { RealIsWellFormed(node.behind); }
  }

  lemma {:induction false} LookupIsWellFormed(node: Node, path: Path)
    requires WellFormed(node)
    ensures Lookup(node, path).Some? ==> WellFormed(Lookup(node, path).value)
    decreases |path|
  {
    RealIsWellFormed(node);
    var here := Real(node);
    if path != [] && here.Dir? {
      FoundIsWellFormed(here.entries, path[0]);
      var child := Find(here.entries, path[0]);
      if child.Some? { LookupIsWellFormed(child.value, path[1..]); }
    }
  }

  lemma {:induction false} LookupChild(root: Node, at: Path, name: string)
    requires Lookup(root, at).Some? && Lookup(root, at).value.Dir?
    ensures var child := Find(Lookup(root, at).value.entries, name);
            Lookup(root, at + [name]) == if child.Some? then Some(Real(child.value)) else None
    decreases |at|
  {
    if at == [] {
      assert (at + [name])[1..] == [];
    } else {
      LookupChild(Find(Real(root).entries, at[0]).value, at[1..], name);
      assert (at + [name])[1..] == at[1..] + [name];
    }
  }

  function Size(node: Node): nat
    decreases node
  {
    if node.Dir? then 1 + SizeIn(node.entries) else 1
  }

  function SizeIn(entries: seq<Entry>): nat
    decreases entries
  {
    if entries == [] then 0 else Size(entries[0].node) + SizeIn(entries[1..])
  }

  predicate AllDirs(root: Node, stack: seq<Path>) {
    forall i :: 0 <= i < |stack| ==> DirAt(root, stack[i])
  }

  /** What the directories on the stack still hold. */
  function Waiting(root: Node, stack: seq<Path>): Walked
    requires AllDirs(root, stack)
  {
    if stack == [] then NOTHING
    else
      var n := |stack| - 1;
      Join(Walk(Lookup(root, stack[n]).value, stack[n]), Waiting(root, stack[..n]))
  }

  ghost function Weight(root: Node, stack: seq<Path>): nat
    requires AllDirs(root, stack)
  {
    if stack == [] then 0
    else
      var n := |stack| - 1;
      Size(Lookup(root, stack[n]).value) + Weight(root, stack[..n])
  }

  lemma JoinNests(a: Walked, b: Walked, c: Walked)
    ensures Join(Join(a, b), c) == Join(a, Join(b, c))
  {}

  /** At first only the library itself waits. */
  lemma WaitingAtFirst(root: Node, stack: seq<Path>, top: Path)
    requires root.Dir? && stack == [top] && top == []
    ensures AllDirs(root, stack) && Join(NOTHING, Waiting(root, stack)) == Walk(root, top)
  {
    forall i | 0 <= i < |stack| ensures DirAt(root, stack[i]) {
      assert stack[i] == top && Lookup(root, top) == Some(root);
    }
    var before := stack[..0];
    assert before == [];
    var walk := Walk(root, top);
    assert Waiting(root, before) == NOTHING;
    assert Waiting(root, stack) == Join(Walk(Lookup(root, top).value, top), Waiting(root, before));
    JoinSwaps(walk, NOTHING);
  }

  lemma PushedWaits(root: Node, stack: seq<Path>, at: Path, e: Entry)
    requires AllDirs(root, stack) && DirAt(root, at) && e.node.Dir?
    requires Find(Lookup(root, at).value.entries, e.name) == Some(e.node)
    ensures var pushed := stack + [at + [e.name]];
            && AllDirs(root, pushed)
            && Waiting(root, pushed) == Join(Walk(e.node, at + [e.name]), Waiting(root, stack))
            && Weight(root, pushed) == Size(e.node) + Weight(root, stack)
  {
    var pushed := stack + [at + [e.name]];
    LookupChild(root, at, e.name);
    assert pushed[..|stack|] == stack;
    forall i | 0 <= i < |pushed| ensures DirAt(root, pushed[i]) {
      assert i < |stack| ==> pushed[i] == stack[i];
    }
  }

  lemma PoppedDirs(root: Node, stack: seq<Path>)
    requires AllDirs(root, stack) && stack != []
    ensures AllDirs(root, stack[..|stack| - 1]) && DirAt(root, stack[|stack| - 1])
  {
    var rest := stack[..|stack| - 1];
    forall i | 0 <= i < |rest| ensures DirAt(root, rest[i]) { assert rest[i] == stack[i]; }
  }

  lemma JoinSwaps(a: Walked, b: Walked)
    ensures Join(a, b) == Join(b, a)
    ensures Join(a, NOTHING) == a
  {}

  /** The first j entries of a listing are done or on the stack; the others are still to come. */
  ghost predicate Listed(root: Node, at: Path, entries: seq<Entry>, j: nat, stack: seq<Path>, done: Walked,
                         whole: Walked, bound: nat)
    requires j <= |entries|
  {
    && AllDirs(root, stack)
    && Join(Join(done, Waiting(root, stack)), WalkEntries(entries[j..], at)) == whole
    && Weight(root, stack) + SizeIn(entries[j..]) <= bound
  }

  lemma NothingListed(root: Node, at: Path, entries: seq<Entry>, rest: seq<Path>)
    requires AllDirs(root, rest)
    ensures Listed(root, at, entries, 0, rest, NOTHING, Join(WalkEntries(entries, at), Waiting(root, rest)),
                   Weight(root, rest) + SizeIn(entries))
  {
    assert entries[0..] == entries;
    JoinSwaps(Waiting(root, rest), NOTHING);
    JoinSwaps(Waiting(root, rest), WalkEntries(entries, at));
  }

  lemma AllListed(root: Node, at: Path, entries: seq<Entry>, stack: seq<Path>, done: Walked, whole: Walked, bound: nat)
    requires Listed(root, at, entries, |entries|, stack, done, whole, bound)
    ensures Join(done, Waiting(root, stack)) == whole && Weight(root, stack) <= bound
  {
    assert entries[|entries|..] == [];
    JoinSwaps(Join(done, Waiting(root, stack)), NOTHING);
  }

  predicate Descends(e: Entry) { !Hidden(e.name) && e.node.Dir? }

  function Pushed(e: Entry, at: Path, stack: seq<Path>): seq<Path> {
    if Descends(e) then stack + [at + [e.name]] else stack
  }

  function Taken(e: Entry, at: Path): Walked {
    if Descends(e) then NOTHING else Leaf(e, at)
  }

  /** One entry of a listing moves from what is still to list to the stack, or is done. */
  lemma EntryStep(root: Node, stack: seq<Path>, at: Path, entries: seq<Entry>, j: nat, done: Walked,
                  whole: Walked, bound: nat)
    requires DirAt(root, at) && entries == Lookup(root, at).value.entries && j < |entries| && Distinct(entries)
    requires Listed(root, at, entries, j, stack, done, whole, bound)
    ensures var e := entries[j];
            Listed(root, at, entries, j + 1, Pushed(e, at, stack), Join(done, Taken(e, at)), whole, bound)
  {
    var e := entries[j];
    assert entries[j..][0] == e && entries[j..][1..] == entries[j + 1..];
    JoinRegroups(done, Waiting(root, stack), WalkEntry(e, at), WalkEntries(entries[j + 1..], at));
    if Descends(e) {
      FindDistinct(entries, j);
      PushedWaits(root, stack, at, e);
      JoinSwaps(done, NOTHING);
    }
  }

  /** What `done` and the directories on the stack make together. */
  predicate Underway(root: Node, stack: seq<Path>, done: Walked, whole: Walked) {
    AllDirs(root, stack) && Join(done, Waiting(root, stack)) == whole
  }

  lemma Advances(root: Node, stack: seq<Path>, done: Walked, whole: Walked, stack': seq<Path>, here: Walked)
    requires Underway(root, stack, done, whole) && stack != []
    requires AllDirs(root, stack') && AllDirs(root, stack[..|stack| - 1]) && DirAt(root, stack[|stack| - 1])
    requires var at := stack[|stack| - 1];
             Join(here, Waiting(root, stack'))
             == Join(Walk(Lookup(root, at).value, at), Waiting(root, stack[..|stack| - 1]))
    ensures Underway(root, stack', Join(done, here), whole)
  {
    JoinNests(done, here, Waiting(root, stack'));
  }

  /** What was yielded and counted since `before` is `done`. */
  predicate Recorded(found: seq<Path>, before: Counts, counts: Counts, done: Walked) {
    multiset(found) == done.paths && counts == before + done.counts
  }

  lemma RecordsJoin(found: seq<Path>, more: seq<Path>, before: Counts, counts: Counts, after: Counts,
                    done: Walked, here: Walked)
    requires Recorded(found, before, counts, done) && Recorded(more, counts, after, here)
    ensures Recorded(found + more, before, after, Join(done, here))
  {}

  const SAMPLE_LIMIT := 100

  datatype Sample = Sample(relative: Path, reason: Reason)

  class Diagnostics {
    var counts: Counts
    var samples: seq<Sample>
    var omitted: nat

    constructor ()
      ensures counts == multiset{} && samples == [] && omitted == 0
    {
      counts, samples, omitted := multiset{}, [], 0;
    }

    method Count(c: Counter)
      modifies `counts
      ensures counts == old(counts) + multiset{c}
    {
      counts := counts[c := counts[c] + 1];
    }

    method Keep(s: Sample)
      modifies `samples, `omitted
      ensures samples == if |old(samples)| < SAMPLE_LIMIT then old(samples) + [s] else old(samples)
      ensures omitted == old(omitted) + if |old(samples)| < SAMPLE_LIMIT then 0 else 1
    {
      if |samples| < SAMPLE_LIMIT {
        samples := samples + [s];
      } else {
        omitted := omitted + 1;
      }
    }

    /** An issue is counted, and kept as a sample while there is room. */
    method Note(relative: Path, reason: Reason)
      modifies this
      ensures counts == old(counts) + Issue(reason)
      ensures samples == if |old(samples)| < SAMPLE_LIMIT then old(samples) + [Sample(relative, reason)]
                         else old(samples)
      ensures omitted == old(omitted) + if |old(samples)| < SAMPLE_LIMIT then 0 else 1
    {
      Count(Key(reason));
      if InDoubt(reason) {
        Count(Unresolved);
      }
      if reason == DirectoryUnreadable {
        Count(ClosedDirectory);
      }
      IssueParts(old(counts), reason);
      Keep(Sample(relative, reason));
    }

    /** A visible directory is pushed; any other entry is counted, and yielded if it is a supported
        file. */
    method Meet(e: Entry, at: Path, stack: seq<Path>) returns (found: seq<Path>, pushed: seq<Path>)
      modifies this
      ensures Recorded(found, old(counts), counts, Taken(e, at)) && pushed == Pushed(e, at, stack)
    {
      pushed := stack;
      found := [];
      if Hidden(e.name) || e.node.Symlink? {
        Count(IgnoredEntry);
      } else if e.node.File? {
        if e.node.kind == Supported {
          Count(Physical);
          found := [at + [e.name]];
        } else if e.node.kind == Ignorable {
          Count(IgnoredEntry);
        } else {
          Count(OddExtension);
        }
      } else if e.node.Broken? {
        Note(at + [e.name], Unreadable);
      } else if e.node.Dir? {
        pushed := stack + [at + [e.name]];
      }
    }

    /** Lists an opened directory: its files are taken, its subdirectories pushed. */
    method ListEntries(root: Node, at: Path, entries: seq<Entry>, rest: seq<Path>)
      returns (found: seq<Path>, stack: seq<Path>, ghost done: Walked)
      requires AllDirs(root, rest) && DirAt(root, at) && entries == Lookup(root, at).value.entries && Distinct(entries)
      modifies this
      ensures AllDirs(root, stack) && Recorded(found, old(counts), counts, done)
      ensures Join(done, Waiting(root, stack)) == Join(WalkEntries(entries, at), Waiting(root, rest))
      ensures Weight(root, stack) <= Weight(root, rest) + SizeIn(entries)
    {
      found, stack, done := [], rest, NOTHING;
      ghost var whole := Join(WalkEntries(entries, at), Waiting(root, rest));
      ghost var bound := Weight(root, rest) + SizeIn(entries);
      NothingListed(root, at, entries, rest);
      var j := 0;
      while j < |entries|
        invariant 0 <= j <= |entries| && Listed(root, at, entries, j, stack, done, whole, bound)
        invariant Recorded(found, old(counts), counts, done)
      {
        EntryStep(root, stack, at, entries, j, done, whole, bound);
        ghost var before := counts;
        var more;
        more, stack := Meet(entries[j], at, stack);
        RecordsJoin(found, more, old(counts), before, counts, done, Taken(entries[j], at));
        found, done := found + more, Join(done, Taken(entries[j], at));
        j := j + 1;
      }
      AllListed(root, at, entries, stack, done, whole, bound);
    }

    /** Opens and lists one directory, or notes that it cannot. */
    method List(root: Node, at: Path, rest: seq<Path>)
      returns (found: seq<Path>, stack: seq<Path>, ghost done: Walked)
      requires WellFormed(root) && AllDirs(root, rest) && DirAt(root, at)
      modifies this
      ensures AllDirs(root, stack)
      ensures Recorded(found, old(counts), counts, done)
      ensures Join(done, Waiting(root, stack)) == Join(Walk(Lookup(root, at).value, at), Waiting(root, rest))
      ensures Weight(root, stack) < Weight(root, rest) + Size(Lookup(root, at).value)
    {
      var directory := Lookup(root, at).value;
      if Opens(directory, at) {
        LookupIsWellFormed(root, at);
        found, stack, done := ListEntries(root, at, directory.entries, rest);
      } else {
        found, stack, done := [], rest, Walked(multiset{}, Issue(DirectoryUnreadable));
        Note(at, DirectoryUnreadable);
      }
    }

    /** iter_library_candidates: the directories still to list are kept on a stack of paths. */
    method Candidates(root: Node) returns (found: seq<Path>)
      requires root.Dir? && WellFormed(root)
      modifies this
      ensures multiset(found) == Walk(root, []).paths
      ensures counts == old(counts) + Walk(root, []).counts
    {
      found := [];
      var top: Path := [];
      var stack := [top];
      ghost var done, whole := NOTHING, Walk(root, top);
      WaitingAtFirst(root, stack, top);
      while stack != []
        invariant Underway(root, stack, done, whole)
        invariant Recorded(found, old(counts), counts, done)
        decreases Weight(root, stack)
      {
        var at, rest := stack[|stack| - 1], stack[..|stack| - 1];
        PoppedDirs(root, stack);
        var more, next;
        ghost var here;
        ghost var before := counts;
        more, next, here := List(root, at, rest);
        RecordsJoin(found, more, old(counts), before, counts, done, here);
        Advances(root, stack, done, whole, next, here);
        found, stack, done := found + more, next, Join(done, here);
      }
      JoinSwaps(done, NOTHING);
    }
  }

  // ---------- What a walk guarantees ----------

  ghost predicate NoDuplicates(paths: seq<Path>) {
    forall i, j :: 0 <= i < j < |paths| ==> paths[i] != paths[j]
  }

  lemma {:induction false} MultisetCounts(paths: seq<Path>, i: nat, j: nat)
    requires i < j < |paths| && paths[i] == paths[j]
    ensures multiset(paths)[paths[i]] >= 2
  {
    var n := |paths| - 1;
    assert paths == paths[..n] + [paths[n]];
    if j < n {
      MultisetCounts(paths[..n], i, j);
    } else {
      assert paths[..n][i] == paths[n];
      assert paths[n] in multiset(paths[..n]);
    }
  }

  lemma {:induction false} FilesAreCounted(node: Node, at: Path)
    requires node.Dir?
    ensures Walk(node, at).counts[Physical] == |Walk(node, at).paths|
    decreases node, 1
  {
    if Opens(node, at) { EntryFilesAreCounted(node.entries, at); }
  }

  lemma LeavesAreCounted(e: Entry, at: Path)
    ensures Leaf(e, at).counts[Physical] == |Leaf(e, at).paths|
  {}

  lemma {:induction false} EntryFilesAreCounted(entries: seq<Entry>, at: Path)
    ensures WalkEntries(entries, at).counts[Physical] == |WalkEntries(entries, at).paths|
    decreases entries, 0
  {
    if entries != [] {
      var e, rest := entries[0], entries[1..];
      EntryFilesAreCounted(rest, at);
      assert WalkEntry(e, at).counts[Physical] == |WalkEntry(e, at).paths| by {
        if !Hidden(e.name) && e.node.Dir? {
          FilesAreCounted(e.node, at + [e.name]);
        } else {
          LeavesAreCounted(e, at);
        }
      }
      assert WalkEntries(entries, at) == Join(WalkEntry(e, at), WalkEntries(rest, at));
    }
  }

  /** The counters that only reading and comparing files can move. */
  predicate Comparing(c: Counter) {
    c == SameAsBefore || c == NewlyIndexed || c == Updated || c == MarkedMissing
  }

  lemma {:induction false} WalkingCountsNone(node: Node, at: Path, c: Counter)
    requires node.Dir? && Comparing(c)
    ensures Walk(node, at).counts[c] == 0
    decreases node, 1
  {
    if Opens(node, at) { ListingCountsNone(node.entries, at, c); }
  }

  lemma LeavesCountNone(e: Entry, at: Path, c: Counter)
    requires Comparing(c)
    ensures Leaf(e, at).counts[c] == 0
  {}

  lemma {:induction false} ListingCountsNone(entries: seq<Entry>, at: Path, c: Counter)
    requires Comparing(c)
    ensures WalkEntries(entries, at).counts[c] == 0
    decreases entries, 0
  {
    if entries != [] {
      var e, rest := entries[0], entries[1..];
      ListingCountsNone(rest, at, c);
      assert WalkEntry(e, at).counts[c] == 0 by {
        if !Hidden(e.name) && e.node.Dir? {
          WalkingCountsNone(e.node, at + [e.name], c);
        } else {
          LeavesCountNone(e, at, c);
        }
      }
      assert WalkEntries(entries, at) == Join(WalkEntry(e, at), WalkEntries(rest, at));
    }
  }

  /** The stack walk yields exactly the supported files reached through visible directories that
      open, each once, and counts each of them. */
  lemma EachCandidateOnce(root: Node, found: seq<Path>)
    requires root.Dir? && WellFormed(root) && multiset(found) == Walk(root, []).paths
    ensures forall path :: path in found <==> IsCandidate(root, path)
    ensures NoDuplicates(found) && Walk(root, []).counts[Physical] == |found|
  {
    var top: Path := [];
    forall path ensures multiset(found)[path] == Once(IsCandidate(root, path)) {
      WalkFinds(root, top, path);
      assert path[|top|..] == path;
      if path != [] { assert path[..|top|] == top; }
    }
    forall path ensures path in found <==> IsCandidate(root, path) {
      assert path in found <==> path in multiset(found);
    }
    forall i, j | 0 <= i < j < |found| ensures found[i] != found[j] {
      if found[i] == found[j] { MultisetCounts(found, i, j); }
    }
    FilesAreCounted(root, top);
    assert |multiset(found)| == |found|;
  }

  /** A supported file under visible names, wherever it is. */
  predicate VisibleFile(node: Node, path: Path) {
    && path != []
    && (forall n :: n in path ==> !Hidden(n))
    && Lookup(node, path).Some? && Lookup(node, path).value.File? && Lookup(node, path).value.kind.Supported?
  }

  /** coverage_complete: every directory was listed and no entry is unresolved. */
  predicate Covered(counts: Counts) {
    counts[ClosedDirectory] == 0 && counts[Unresolved] == 0
  }

  /** The walk can read the type of every entry on the way. */
  predicate Unbroken(node: Node, path: Path)
    decreases |path|
  {
    path != [] ==>
      && node.Dir?
      && var child := Find(node.entries, path[0]);
      child.Some? && !child.value.Broken? && Unbroken(child.value, path[1..])
  }

  lemma {:induction false} ClosedInEntry(entries: seq<Entry>, at: Path, name: string)
    requires WalkEntries(entries, at).counts[ClosedDirectory] == 0 && !Hidden(name)
    requires Find(entries, name).Some? && Find(entries, name).value.Dir?
    ensures Walk(Find(entries, name).value, at + [name]).counts[ClosedDirectory] == 0
  {
    if entries[0].name != name { ClosedInEntry(entries[1..], at, name); }
  }

  lemma {:induction false} UnresolvedInEntry(entries: seq<Entry>, at: Path, name: string)
    requires WalkEntries(entries, at).counts[Unresolved] == 0 && !Hidden(name) && Find(entries, name).Some?
    ensures var child := Find(entries, name).value;
            !child.Broken? && (child.Dir? ==> Walk(child, at + [name]).counts[Unresolved] == 0)
  {
    if entries[0].name != name { UnresolvedInEntry(entries[1..], at, name); }
  }

  /** A walk with every directory listed finds a supported file under visible names exactly if it
      could read the type of every entry on the way. */
  lemma {:induction false} ListedWalkFindsTheUnbroken(node: Node, at: Path, path: Path)
    requires node.Dir? && Walk(node, at).counts[ClosedDirectory] == 0 && VisibleFile(node, path)
    ensures IsCandidate(node, path) <==> Unbroken(node, path)
    decreases |path|
  {
    assert path[0] in path;
    var child := Find(node.entries, path[0]).value;
    var rest := path[1..];
    assert Lookup(node, path) == Lookup(child, rest);
    if |path| > 1 && !child.Broken? {
      assert forall n :: n in rest ==> n in path;
      ClosedInEntry(node.entries, at, path[0]);
      assert path[0] in at + [path[0]];
      ListedWalkFindsTheUnbroken(child, at + [path[0]], rest);
    }
  }

  lemma {:induction false} CoveredWalkIsUnbroken(node: Node, at: Path, path: Path)
    requires node.Dir? && Covered(Walk(node, at).counts) && VisibleFile(node, path)
    ensures Unbroken(node, path)
    decreases |path|
  {
    assert path[0] in path;
    var child := Find(node.entries, path[0]).value;
    var rest := path[1..];
    assert Lookup(node, path) == Lookup(child, rest);
    UnresolvedInEntry(node.entries, at, path[0]);
    if |path| > 1 {
      assert forall n :: n in rest ==> n in path;
      ClosedInEntry(node.entries, at, path[0]);
      CoveredWalkIsUnbroken(child, at + [path[0]], rest);
    }
  }

  /** A walk that reports complete coverage has missed no supported file under visible names. */
  lemma CoveredWalkMissesNothing(node: Node, at: Path, path: Path)
    requires node.Dir? && Covered(Walk(node, at).counts) && VisibleFile(node, path)
    ensures IsCandidate(node, path)
  {
    CoveredWalkIsUnbroken(node, at, path);
    ListedWalkFindsTheUnbroken(node, at, path);
  }

  lemma TreeOfOne(name: string, node: Node)
    requires WellFormed(node)
    ensures WellFormed(Dir(true, [Entry(name, node)]))
  {}

  /** A complete traversal alone promises less: a directory behind an entry whose type cannot be read
      is skipped with everything in it, and only the unresolved issue tells. */
  lemma TraversalFlagMisleads(facts: Facts, opens: bool) returns (root: Node, path: Path)
    ensures root.Dir? && WellFormed(root) && VisibleFile(root, path) && !IsCandidate(root, path)
    ensures Walk(root, []).counts[ClosedDirectory] == 0 && Walk(root, []).counts[Unresolved] == 1
  {
    var file := Entry("f", File(Supported, facts));
    var hiding := Broken(opens, Dir(true, [file]));
    root, path := Dir(true, [Entry("d", hiding)]), ["d", "f"];
    assert Lookup(Dir(true, [file]), ["f"]) == Some(file.node);
    assert path[1..] == ["f"];
    assert Lookup(root, path) == Lookup(hiding, ["f"]);
    TreeOfOne("f", file.node);
    TreeOfOne("d", hiding);
    assert WalkEntries(root.entries, []) == Join(Walked(multiset{}, Issue(Unreadable)), NOTHING);
  }

  // ---------- Presence: telling absence from inaccessibility ----------

  datatype Presence = Present | Missing | Inaccessible | Irregular

  /** library_presence on the disk, one path component at a time, never following a link. */
  function PresenceOf(root: Node, path: Path): Presence
    requires root.Dir?
  {
    if path == [] || !SafePath(path) then Irregular else PresenceBelow(root, path)
  }

  function PresenceBelow(node: Node, path: Path): Presence
    requires node.Dir? && path != []
    decreases |path|
  {
    if !node.readable then Inaccessible
    else
      var child := Find(node.entries, path[0]);
      if child.None? then Missing
      else if !Openable(child.value) then Inaccessible
      else if |path| > 1 then
        match Real(child.value)
        case Dir(_, _) => PresenceBelow(Real(child.value), path[1..])
        case Symlink => Irregular
        case _ => Missing
      else
        match Real(child.value)
        case File(_, facts) => if facts.opens then Present else Inaccessible
        case Special => Irregular
        case _ => Inaccessible
  }

  predicate Openable(node: Node) {
    node.Broken? ==> node.opens && Openable(node.behind)
  }

  /** A path is reported missing only if nothing at all is there: never because a directory or a
      file on the way cannot be opened, and never because of a link. */
  lemma {:induction false} MissingIsGone(node: Node, path: Path)
    requires node.Dir? && path != [] && PresenceBelow(node, path) == Missing
    ensures Lookup(node, path).None?
    decreases |path|
  {
    var child := Find(node.entries, path[0]);
    if child.Some? && |path| > 1 && Real(child.value).Dir? {
      MissingIsGone(Real(child.value), path[1..]);
    }
  }

  lemma {:induction false} CandidatesAreFiles(node: Node, path: Path)
    requires IsCandidate(node, path)
    ensures Lookup(node, path).Some? && Lookup(node, path).value.File?
    decreases |path|
  {
    if |path| > 1 {
      CandidatesAreFiles(Find(node.entries, path[0]).value, path[1..]);
    }
  }
}

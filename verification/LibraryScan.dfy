/** One scan of the library into its index, on a disk that stays as it is and with no other
    writer: which rows it adds, updates, keeps and marks absent, and what it counts. */
module LibraryScan {
  import opened Wrappers
  import opened LibraryWalk
  import opened Sums

  const PARSER_VERSION := 3
  const BATCH_SIZE := 200

  /** A row of the index; `filepath` is its key. */
  datatype Row = Row(size: nat, mtime: int, parser: nat, generation: nat, present: bool, tags: string)

  type Rows = map<Path, Row>

  /** An entry waiting for its batch; without tags it only confirms a row. */
  datatype Pending = Pending(path: Path, size: nat, mtime: int, tags: Option<string>, isNew: bool)

  /** What the scan makes of one candidate. */
  datatype Judgement =
    | Same
    | Reread(tags: string)
    | Trouble(reason: Reason)

  function FactsAt(root: Node, path: Path): Facts {
    var node := Lookup(root, path);
    if node.Some? && node.value.File? then node.value.facts
    else Facts(false, 0, 0, Rejected(Unreadable), false)
  }

  /** What opening, reading and checking a path gives. */
  type Disk = Path -> Facts

  function DiskOf(root: Node): Disk {
    path => FactsAt(root, path)
  }

  function Judge(disk: Disk, known: Rows, full: bool, path: Path): Judgement {
    var f := disk(path);
    if !SafePath(path) || !f.opens then Trouble(Unreadable)
    else if !full && path in known && known[path].size == f.size && known[path].mtime == f.mtime
            && known[path].parser == PARSER_VERSION then Same
    else match f.reading
      case Rejected(reason) => Trouble(reason)
      case Tagged(tags) => Reread(tags)
  }

  /** The entry queued for a candidate: a file that cannot be read keeps the row it had. */
  function Queued(disk: Disk, known: Rows, full: bool, path: Path): seq<Pending> {
    var f := disk(path);
    match Judge(disk, known, full, path)
    case Same => [Pending(path, f.size, f.mtime, None, false)]
    case Reread(tags) => [Pending(path, f.size, f.mtime, Some(tags), path !in known)]
    case Trouble(_) => if path in known then [Pending(path, known[path].size, known[path].mtime, None, false)] else []
  }

  function Upserted(rows: Rows, e: Pending, generation: nat): Rows {
    if e.tags.Some? then rows[e.path := Row(e.size, e.mtime, PARSER_VERSION, generation, true, e.tags.value)]
    else if e.path in rows then rows[e.path := rows[e.path].(present := true, generation := generation)]
    else rows
  }

  /** A file that changed since it was read is left for the next scan. */
  predicate Valid(disk: Disk, e: Pending) {
    e.tags.None? || disk(e.path).stable
  }

  function Flushed(disk: Disk, rows: Rows, entries: seq<Pending>, generation: nat): Rows {
    if entries == [] then rows
    else
      var n := |entries| - 1;
      var before := Flushed(disk, rows, entries[..n], generation);
      if Valid(disk, entries[n]) then Upserted(before, entries[n], generation) else before
  }

  /** All entries queued for a list of candidates. */
  function AllQueued(disk: Disk, known: Rows, full: bool, found: seq<Path>): seq<Pending> {
    if found == [] then []
    else var n := |found| - 1; AllQueued(disk, known, full, found[..n]) + Queued(disk, known, full, found[n])
  }

  // ---------- Counting ----------

  /** What one entry of a flushed batch counts. */
  function FlushCount(disk: Disk, e: Pending): Counts {
    if !Valid(disk, e) then Issue(FileChanged)
    else if e.tags.None? then multiset{}
    else if e.isNew then multiset{NewlyIndexed}
    else multiset{Updated}
  }

  function FlushCounter(disk: Disk): Pending -> Counts {
    e => FlushCount(disk, e)
  }

  function FlushCounts(disk: Disk, entries: seq<Pending>): Counts {
    Sum(Plus(), multiset{}, FlushCounter(disk), entries)
  }

  function Plus(): (Counts, Counts) -> Counts {
    (a: Counts, b: Counts) => a + b
  }

  /** What one candidate counts when it is read. */
  function ReadCount(disk: Disk, known: Rows, full: bool, path: Path): Counts {
    match Judge(disk, known, full, path)
    case Same => multiset{SameAsBefore}
    case Reread(_) => multiset{}
    case Trouble(reason) => Issue(reason)
  }

  function ReadCounts(disk: Disk, known: Rows, full: bool, found: seq<Path>): Counts {
    if found == [] then multiset{}
    else var n := |found| - 1; ReadCounts(disk, known, full, found[..n]) + ReadCount(disk, known, full, found[n])
  }

  /** What the whole scan of a list of candidates counts. */
  function IndexCounts(disk: Disk, known: Rows, full: bool, found: seq<Path>): Counts {
    ReadCounts(disk, known, full, found) + FlushCounts(disk, AllQueued(disk, known, full, found))
  }

  /** An issue is counted once under exactly one of these. */
  function Issues(c: Counts): nat {
    c[SkippedVideo] + c[OddExtension] + c[OddCodec] + c[CannotRead] + c[OtherError]
  }

  // ---------- The index a scan should leave ----------

  function Get(rows: Rows, path: Path): Option<Row> {
    if path in rows then Some(rows[path]) else None
  }

  /** The row of a candidate after the scan. */
  function CandidateRow(disk: Disk, known: Rows, full: bool, generation: nat, path: Path): Option<Row> {
    var f := disk(path);
    match Judge(disk, known, full, path)
    case Same => Some(known[path].(present := true, generation := generation))
    case Reread(tags) =>
      if f.stable then Some(Row(f.size, f.mtime, PARSER_VERSION, generation, true, tags)) else Get(known, path)
    case Trouble(_) =>
      if path in known then Some(known[path].(present := true, generation := generation)) else None
  }

  predicate Disappeared(root: Node, known: Rows, generation: nat, path: Path)
    requires root.Dir?
  {
    path in known && PresenceOf(root, path) == Missing && known[path].generation < generation && known[path].present
  }

  function ExpectedRow(root: Node, known: Rows, full: bool, generation: nat, path: Path): Option<Row>
    requires root.Dir?
  {
    if IsCandidate(root, path) then CandidateRow(DiskOf(root), known, full, generation, path)
    else if Disappeared(root, known, generation, path) then Some(known[path].(present := false))
    else Get(known, path)
  }

  /** The rows a scan marks absent, of those it did not see. */
  function Gone(root: Node, known: Rows, generation: nat, seen: set<Path>): set<Path>
    requires root.Dir?
  {
    set path | path in known && path !in seen && Disappeared(root, known, generation, path)
  }

  function Rechecked(root: Node, known: Rows, generation: nat, seen: set<Path>, rows: Rows, path: Path): Option<Row>
    requires root.Dir?
  {
    if path in Gone(root, known, generation, seen) then Some(known[path].(present := false)) else Get(rows, path)
  }

  // ---------- Facts about batches ----------

  lemma {:induction false} FlushesJoin(disk: Disk, rows: Rows, a: seq<Pending>, b: seq<Pending>, generation: nat)
    ensures Flushed(disk, rows, a + b, generation) == Flushed(disk, Flushed(disk, rows, a, generation), b, generation)
  {
    if b == [] {
      assert a + b == a;
    } else {
      var n := |b| - 1;
      FlushesJoin(disk, rows, a, b[..n], generation);
      assert (a + b)[..|a + b| - 1] == a + b[..n];
    }
  }

  lemma CountsAdd()
    ensures Adds(Plus(), multiset{})
  {
    forall a: Counts, b: Counts, c: Counts ensures Associates(Plus(), a, b, c) {
      Regroup(a, b, c);
    }
    forall a: Counts ensures Neutral(Plus(), multiset{}, a) {
      assert a + multiset{} == a && multiset{} + a == a;
    }
  }

  lemma FlushCountsJoin(disk: Disk, a: seq<Pending>, b: seq<Pending>)
    ensures FlushCounts(disk, a + b) == FlushCounts(disk, a) + FlushCounts(disk, b)
  {
    CountsAdd();
    SumsJoin(Plus(), multiset{}, FlushCounter(disk), a, b);
  }

  lemma OneMoreFlush(disk: Disk, known: Rows, full: bool, found: seq<Path>, i: nat)
    requires i < |found|
    ensures FlushCounts(disk, AllQueued(disk, known, full, found[..i + 1]))
            == FlushCounts(disk, AllQueued(disk, known, full, found[..i]))
               + FlushCounts(disk, Queued(disk, known, full, found[i]))
  {
    var upTo := found[..i + 1];
    assert upTo[..i] == found[..i];
    FlushCountsJoin(disk, AllQueued(disk, known, full, found[..i]), Queued(disk, known, full, found[i]));
  }

  lemma OneFlushed(disk: Disk, rows: Rows, e: Pending, generation: nat)
    ensures Flushed(disk, rows, [e], generation) == if Valid(disk, e) then Upserted(rows, e, generation) else rows
    ensures Flushed(disk, rows, [], generation) == rows
  {
    assert [e][..0] == [];
  }

  lemma CandidateFlushed(disk: Disk, rows: Rows, known: Rows, full: bool, generation: nat, path: Path, other: Path)
    requires Get(rows, path) == Get(known, path)
    ensures Get(Flushed(disk, rows, Queued(disk, known, full, path), generation), other) ==
            if other == path then CandidateRow(disk, known, full, generation, path) else Get(rows, other)
  {
    var queued := Queued(disk, known, full, path);
    if queued != [] {
      assert queued == [queued[0]];
      OneFlushed(disk, rows, queued[0], generation);
    }
  }

  /** Flushing what was queued for distinct candidates gives each its own row and touches no other. */
  lemma {:induction false} FlushedRows(disk: Disk, known: Rows, full: bool, generation: nat, found: seq<Path>,
                                       path: Path)
    requires NoDuplicates(found)
    ensures Get(Flushed(disk, known, AllQueued(disk, known, full, found), generation), path) ==
            if path in found then CandidateRow(disk, known, full, generation, path) else Get(known, path)
  {
    if found != [] {
      var n := |found| - 1;
      var last := found[n];
      var before := AllQueued(disk, known, full, found[..n]);
      FlushedRows(disk, known, full, generation, found[..n], path);
      FlushedRows(disk, known, full, generation, found[..n], last);
      assert last !in found[..n];
      FlushesJoin(disk, known, before, Queued(disk, known, full, last), generation);
      CandidateFlushed(disk, Flushed(disk, known, before, generation), known, full, generation, last, path);
      assert path in found <==> path in found[..n] || path == last;
    }
  }

  /** How many candidates were unchanged, newly indexed, updated, or in an issue. */
  function Accounted(c: Counts): nat {
    c[SameAsBefore] + c[NewlyIndexed] + c[Updated] + Issues(c)
  }

  lemma AccountedJoins(a: Counts, b: Counts)
    ensures Accounted(a + b) == Accounted(a) + Accounted(b)
  {}

  lemma IssueAccountsOnce(reason: Reason)
    ensures Accounted(Issue(reason)) == 1
  {}

  lemma SinglesAccount()
    ensures Accounted(multiset{}) == 0 && Accounted(multiset{SameAsBefore}) == 1
    ensures Accounted(multiset{NewlyIndexed}) == 1 && Accounted(multiset{Updated}) == 1
  {}

  lemma FlushedAlone(disk: Disk, e: Pending)
    ensures FlushCounts(disk, [e]) == FlushCount(disk, e) && FlushCounts(disk, []) == multiset{}
  {
    CountsAdd();
    SumOfOne(Plus(), multiset{}, FlushCounter(disk), e);
  }

  lemma CandidateCounted(disk: Disk, known: Rows, full: bool, path: Path)
    ensures Accounted(ReadCount(disk, known, full, path))
            + Accounted(FlushCounts(disk, Queued(disk, known, full, path))) == 1
  {
    SinglesAccount();
    var queued := Queued(disk, known, full, path);
    if queued != [] { FlushedAlone(disk, queued[0]); }
    match Judge(disk, known, full, path)
    case Same =>
    case Reread(_) => IssueAccountsOnce(FileChanged);
    case Trouble(reason) => IssueAccountsOnce(reason);
  }

  /** Each candidate is unchanged, newly indexed, updated, or the subject of one issue. */
  lemma {:induction false} EveryCandidateCountsOnce(disk: Disk, known: Rows, full: bool, found: seq<Path>)
    ensures |found| == Accounted(IndexCounts(disk, known, full, found))
  {
    if found == [] {
      SinglesAccount();
    } else {
      var n := |found| - 1;
      EveryCandidateCountsOnce(disk, known, full, found[..n]);
      var queued := Queued(disk, known, full, found[n]);
      assert found[..n + 1] == found;
      OneMoreFlush(disk, known, full, found, n);
      CandidateCounted(disk, known, full, found[n]);
      AccountsShuffle(ReadCounts(disk, known, full, found[..n]),
                      FlushCounts(disk, AllQueued(disk, known, full, found[..n])),
                      ReadCount(disk, known, full, found[n]), FlushCounts(disk, queued));
    }
  }

  lemma AccountsShuffle(a: Counts, b: Counts, c: Counts, d: Counts)
    ensures Accounted((a + c) + (b + d)) == Accounted(a + b) + Accounted(c) + Accounted(d)
  {
    AccountedJoins(a, c);
    AccountedJoins(b, d);
    AccountedJoins(a, b);
    AccountedJoins(a + c, b + d);
  }

  /** What stays fixed while candidates are indexed. */
  datatype Setting = Setting(disk: Disk, known: Rows, full: bool, generation: nat, before: Counts)

  /** Some candidates are done: their entries are flushed or pending, and all is counted so far. */
  predicate Midway(s: Setting, done: seq<Path>, flushed: seq<Pending>, pending: seq<Pending>, rows: Rows,
                   counts: Counts) {
    && AllQueued(s.disk, s.known, s.full, done) == flushed + pending
    && rows == Flushed(s.disk, s.known, flushed, s.generation)
    && counts == (s.before + ReadCounts(s.disk, s.known, s.full, done)) + FlushCounts(s.disk, flushed)
  }

  lemma NothingDone(s: Setting, found: seq<Path>)
    ensures Midway(s, found[..0], [], [], s.known, s.before)
  {
    var none := found[..0];
    assert none == [] && AllQueued(s.disk, s.known, s.full, none) == [];
    assert ReadCounts(s.disk, s.known, s.full, none) == multiset{} && FlushCounts(s.disk, []) == multiset{};
  }

  lemma OneMoreRead(disk: Disk, known: Rows, full: bool, found: seq<Path>, i: nat)
    requires i < |found|
    ensures AllQueued(disk, known, full, found[..i + 1])
            == AllQueued(disk, known, full, found[..i]) + Queued(disk, known, full, found[i])
    ensures ReadCounts(disk, known, full, found[..i + 1])
            == ReadCounts(disk, known, full, found[..i]) + ReadCount(disk, known, full, found[i])
  {
    var upTo := found[..i + 1];
    assert upTo[..i] == found[..i];
  }

  lemma QueueStep(s: Setting, found: seq<Path>, i: nat, flushed: seq<Pending>, pending: seq<Pending>, rows: Rows,
                  counts: Counts)
    requires i < |found|
    requires Midway(s, found[..i], flushed, pending, rows, counts)
    ensures Midway(s, found[..i + 1], flushed, pending + Queued(s.disk, s.known, s.full, found[i]), rows,
                   counts + ReadCount(s.disk, s.known, s.full, found[i]))
  {
    OneMoreRead(s.disk, s.known, s.full, found, i);
    var queued := Queued(s.disk, s.known, s.full, found[i]);
    assert flushed + (pending + queued) == (flushed + pending) + queued;
    Exchange(s.before, ReadCounts(s.disk, s.known, s.full, found[..i]), FlushCounts(s.disk, flushed),
             ReadCount(s.disk, s.known, s.full, found[i]));
  }

  lemma FlushStep(s: Setting, done: seq<Path>, flushed: seq<Pending>, pending: seq<Pending>, rows: Rows, counts: Counts)
    requires Midway(s, done, flushed, pending, rows, counts)
    ensures Midway(s, done, flushed + pending, [], Flushed(s.disk, rows, pending, s.generation),
                   counts + FlushCounts(s.disk, pending))
  {
    FlushesJoin(s.disk, s.known, flushed, pending, s.generation);
    FlushCountsJoin(s.disk, flushed, pending);
    Regroup(s.before + ReadCounts(s.disk, s.known, s.full, done), FlushCounts(s.disk, flushed),
            FlushCounts(s.disk, pending));
  }

  lemma AllFlushed(s: Setting, done: seq<Path>, flushed: seq<Pending>, rows: Rows, counts: Counts)
    requires Midway(s, done, flushed, [], rows, counts)
    ensures rows == Flushed(s.disk, s.known, AllQueued(s.disk, s.known, s.full, done), s.generation)
    ensures counts == s.before + IndexCounts(s.disk, s.known, s.full, done)
  {
    assert flushed + [] == flushed;
    Regroup(s.before, ReadCounts(s.disk, s.known, s.full, done), FlushCounts(s.disk, flushed));
  }

  function RecheckCount(presence: Presence, gone: bool): Counts {
    match presence
    case Missing => if gone then multiset{MarkedMissing} else multiset{}
    case Inaccessible => Issue(Unreadable)
    case Irregular => Issue(Unsafe)
    case Present => multiset{}
  }

  /** The counters that looking for missing files never moves. */
  predicate Indexing(c: Counter) {
    c == Physical || c == SameAsBefore || c == NewlyIndexed || c == Updated
  }

  ghost predicate RecheckedUpTo(root: Node, known: Rows, generation: nat, waiting: set<Path>, before: Rows, rows: Rows)
    requires root.Dir?
  {
    forall path :: Get(rows, path) == Rechecked(root, known, generation, waiting, before, path)
  }

  /** Marking or keeping one row, as its presence says. */
  lemma RecheckStep(root: Node, known: Rows, generation: nat, seen: set<Path>, todo: set<Path>, before: Rows,
                    rows: Rows, path: Path)
    requires root.Dir? && path in todo && todo <= known.Keys - seen
    requires RecheckedUpTo(root, known, generation, seen + todo, before, rows)
    requires Get(before, path) == Get(known, path)
    ensures Get(rows, path) == Get(known, path)
    ensures var gone := Disappeared(root, known, generation, path);
            var marked := if gone then rows[path := rows[path].(present := false)] else rows;
            RecheckedUpTo(root, known, generation, seen + (todo - {path}), before, marked)
    ensures |Gone(root, known, generation, seen + (todo - {path}))|
            == |Gone(root, known, generation, seen + todo)|
               + if Disappeared(root, known, generation, path) then 1 else 0
  {
    assert Get(rows, path) == Rechecked(root, known, generation, seen + todo, before, path);
    GoneGrows(root, known, generation, seen, todo, path);
    var gone := Disappeared(root, known, generation, path);
    var marked := if gone then rows[path := rows[path].(present := false)] else rows;
    forall p ensures Get(marked, p) == Rechecked(root, known, generation, seen + (todo - {path}), before, p) {
      assert Get(rows, p) == Rechecked(root, known, generation, seen + todo, before, p);
    }
  }

  /** How rechecking changes the counters. */
  ghost predicate Marked(before: Counts, counts: Counts, gone: nat) {
    && counts[MarkedMissing] == before[MarkedMissing] + gone && before <= counts
    && forall c :: Indexing(c) ==> counts[c] == before[c]
  }

  lemma OneMoreMarked(before: Counts, counts: Counts, gone: nat, presence: Presence, more: bool)
    requires Marked(before, counts, gone) && (more ==> presence == Missing)
    ensures Marked(before, counts + RecheckCount(presence, more), gone + if more then 1 else 0)
  {
    RechecksCount(presence, more);
  }

  lemma RechecksCount(presence: Presence, gone: bool)
    requires gone ==> presence == Missing
    ensures RecheckCount(presence, gone)[MarkedMissing] == if gone then 1 else 0
    ensures forall c :: Indexing(c) ==> RecheckCount(presence, gone)[c] == 0
  {}

  ghost predicate RecheckedSoFar(root: Node, known: Rows, generation: nat, waiting: set<Path>,
                                 before: Rows, counted: Counts, rows: Rows, counts: Counts)
    requires root.Dir?
  {
    RecheckedUpTo(root, known, generation, waiting, before, rows)
    && Marked(counted, counts, |Gone(root, known, generation, waiting)|)
  }

  lemma NothingRechecked(root: Node, known: Rows, generation: nat, seen: set<Path>, rows: Rows, counts: Counts)
    requires root.Dir?
    ensures RecheckedSoFar(root, known, generation, seen + (known.Keys - seen), rows, counts, rows, counts)
  {
    assert Gone(root, known, generation, seen + (known.Keys - seen)) == {};
  }

  lemma OneMoreRechecked(root: Node, known: Rows, generation: nat, seen: set<Path>, todo: set<Path>,
                         before: Rows, counted: Counts, rows: Rows, counts: Counts, path: Path)
    requires root.Dir? && path in todo && todo <= known.Keys - seen && Get(before, path) == Get(known, path)
    requires RecheckedSoFar(root, known, generation, seen + todo, before, counted, rows, counts)
    ensures Get(rows, path) == Get(known, path)
    ensures var gone := Disappeared(root, known, generation, path);
            RecheckedSoFar(root, known, generation, seen + (todo - {path}), before, counted,
                           if gone then rows[path := rows[path].(present := false)] else rows,
                           counts + RecheckCount(PresenceOf(root, path), gone))
  {
    RecheckStep(root, known, generation, seen, todo, before, rows, path);
    OneMoreMarked(counted, counts, |Gone(root, known, generation, seen + todo)|, PresenceOf(root, path),
                  Disappeared(root, known, generation, path));
  }

  lemma Regroup(a: Counts, b: Counts, c: Counts)
    ensures (a + b) + c == a + (b + c)
  {}

  /** The first i entries of a batch are written and counted. */
  predicate FlushedUpTo(disk: Disk, known: Rows, entries: seq<Pending>, i: nat, generation: nat, before: Counts,
                        rows: Rows, counts: Counts)
    requires i <= |entries|
  {
    rows == Flushed(disk, known, entries[..i], generation) && counts == before + FlushCounts(disk, entries[..i])
  }

  lemma NothingFlushed(disk: Disk, known: Rows, entries: seq<Pending>, generation: nat, before: Counts)
    ensures FlushedUpTo(disk, known, entries, 0, generation, before, known, before)
  {
    var none := entries[..0];
    assert none == [] && FlushCounts(disk, none) == multiset{};
  }

  lemma OneMoreFlushed(disk: Disk, known: Rows, entries: seq<Pending>, i: nat, generation: nat, before: Counts,
                       rows: Rows, counts: Counts)
    requires i < |entries| && FlushedUpTo(disk, known, entries, i, generation, before, rows, counts)
    ensures FlushedUpTo(disk, known, entries, i + 1, generation, before,
                        if Valid(disk, entries[i]) then Upserted(rows, entries[i], generation) else rows,
                        counts + FlushCount(disk, entries[i]))
  {
    var upTo := entries[..i + 1];
    assert upTo[..i] == entries[..i];
    Regroup(before, FlushCounts(disk, entries[..i]), FlushCount(disk, entries[i]));
  }

  lemma Exchange(a: Counts, b: Counts, c: Counts, d: Counts)
    ensures ((a + b) + c) + d == (a + (b + d)) + c
  {}

  lemma GoneGrows(root: Node, known: Rows, generation: nat, seen: set<Path>, todo: set<Path>, path: Path)
    requires root.Dir? && path in todo && todo <= known.Keys - seen
    ensures var before := Gone(root, known, generation, seen + todo);
            var after := Gone(root, known, generation, seen + (todo - {path}));
            && after == (if Disappeared(root, known, generation, path) then before + {path} else before)
            && |after| == |before| + if Disappeared(root, known, generation, path) then 1 else 0
  {
    assert path !in Gone(root, known, generation, seen + todo);
  }

  lemma IssueCountsNone(reason: Reason, c: Counter)
    requires c == Physical || c == MarkedMissing
    ensures Issue(reason)[c] == 0
  {}

  lemma {:induction false} FlushesCountNone(disk: Disk, entries: seq<Pending>, c: Counter)
    requires c == Physical || c == MarkedMissing
    ensures FlushCounts(disk, entries)[c] == 0
  {
    if entries != [] {
      FlushesCountNone(disk, entries[..|entries| - 1], c);
      IssueCountsNone(FileChanged, c);
    }
  }

  lemma {:induction false} ReadsCountNone(disk: Disk, known: Rows, full: bool, found: seq<Path>, c: Counter)
    requires c == Physical || c == MarkedMissing
    ensures ReadCounts(disk, known, full, found)[c] == 0
  {
    if found != [] {
      var n := |found| - 1;
      ReadsCountNone(disk, known, full, found[..n], c);
      var j := Judge(disk, known, full, found[n]);
      if j.Trouble? { IssueCountsNone(j.reason, c); }
    }
  }

  lemma UnseenRowsStay(disk: Disk, known: Rows, full: bool, generation: nat, found: seq<Path>, seen: set<Path>)
    requires NoDuplicates(found) && seen == set path | path in found
    ensures var rows := Flushed(disk, known, AllQueued(disk, known, full, found), generation);
            forall path :: path in known && path !in seen ==> Get(rows, path) == Get(known, path)
  {
    var rows := Flushed(disk, known, AllQueued(disk, known, full, found), generation);
    forall path | path in known && path !in seen ensures Get(rows, path) == Get(known, path) {
      FlushedRows(disk, known, full, generation, found, path);
    }
  }

  /** Indexing the candidates and rechecking the rest gives every path its expected row. */
  lemma ScannedRows(root: Node, known: Rows, full: bool, generation: nat, found: seq<Path>, seen: set<Path>, rows: Rows)
    requires root.Dir? && NoDuplicates(found) && seen == set path | path in found
    requires forall path :: path in found <==> IsCandidate(root, path)
    requires var indexed := Flushed(DiskOf(root), known, AllQueued(DiskOf(root), known, full, found), generation);
             forall path :: Get(rows, path) == Rechecked(root, known, generation, seen, indexed, path)
    ensures forall path :: Get(rows, path) == ExpectedRow(root, known, full, generation, path)
  {
    var indexed := Flushed(DiskOf(root), known, AllQueued(DiskOf(root), known, full, found), generation);
    forall path ensures Get(rows, path) == ExpectedRow(root, known, full, generation, path) {
      FlushedRows(DiskOf(root), known, full, generation, found, path);
      assert Get(rows, path) == Rechecked(root, known, generation, seen, indexed, path);
      assert path in found <==> IsCandidate(root, path);
    }
  }

  lemma Totals(root: Node, known: Rows, full: bool, found: seq<Path>, total: Counts)
    requires root.Dir? && Walk(root, []).counts[Physical] == |found|
    requires total == Walk(root, []).counts + IndexCounts(DiskOf(root), known, full, found)
    ensures total[Physical] == |found| && total[MarkedMissing] == 0
    ensures forall c :: Comparing(c) ==> total[c] == IndexCounts(DiskOf(root), known, full, found)[c]
  {
    ReadsCountNone(DiskOf(root), known, full, found, Physical);
    ReadsCountNone(DiskOf(root), known, full, found, MarkedMissing);
    FlushesCountNone(DiskOf(root), AllQueued(DiskOf(root), known, full, found), Physical);
    FlushesCountNone(DiskOf(root), AllQueued(DiskOf(root), known, full, found), MarkedMissing);
    forall c | Comparing(c) ensures total[c] == IndexCounts(DiskOf(root), known, full, found)[c] {
      WalkingCountsNone(root, [], c);
    }
  }

  /** The candidates are the unchanged, newly indexed and updated ones and those in an issue; the
      missing are the rows marked absent. */
  predicate AddsUp(root: Node, known: Rows, full: bool, generation: nat, found: seq<Path>, counts: Counts)
    requires root.Dir?
  {
    var counted := IndexCounts(DiskOf(root), known, full, found);
    && counts[Physical] == |found|
    && counts[Physical] == counts[SameAsBefore] + counts[NewlyIndexed] + counts[Updated] + Issues(counted)
    && counts[SameAsBefore] == counted[SameAsBefore]
    && counts[NewlyIndexed] == counted[NewlyIndexed] && counts[Updated] == counted[Updated]
    && counts[MarkedMissing] == |Gone(root, known, generation, set path | path in found)|
  }

  lemma TotalsAddUp(root: Node, known: Rows, full: bool, generation: nat, found: seq<Path>, indexed: Counts,
                    total: Counts)
    requires root.Dir? && Walk(root, []).counts[Physical] == |found|
    requires indexed == Walk(root, []).counts + IndexCounts(DiskOf(root), known, full, found)
    requires Marked(indexed, total, |Gone(root, known, generation, set path | path in found)|)
    ensures AddsUp(root, known, full, generation, found, total)
  {
    Totals(root, known, full, found, indexed);
    EveryCandidateCountsOnce(DiskOf(root), known, full, found);
    assert Indexing(Physical) && Indexing(SameAsBefore) && Indexing(NewlyIndexed) && Indexing(Updated);
    assert Comparing(SameAsBefore) && Comparing(NewlyIndexed) && Comparing(Updated);
  }

  // ---------- The scan as it runs ----------

  class Index {
    var rows: Rows

    constructor (rows: Rows)
      ensures this.rows == rows
    {
      this.rows := rows;
    }

    /** Validates one entry of a batch and writes it if it is still valid. */
    method FlushOne(disk: Disk, e: Pending, generation: nat, d: Diagnostics)
      modifies this, d
      ensures rows == if Valid(disk, e) then Upserted(old(rows), e, generation) else old(rows)
      ensures d.counts == old(d.counts) + FlushCount(disk, e)
    {
      if e.tags.Some? && !disk(e.path).stable {
        d.Note(e.path, FileChanged);
      } else if e.tags.Some? {
        rows := rows[e.path := Row(e.size, e.mtime, PARSER_VERSION, generation, true, e.tags.value)];
        d.Count(if e.isNew then NewlyIndexed else Updated);
      } else if e.path in rows {
        rows := rows[e.path := rows[e.path].(present := true, generation := generation)];
      }
    }

    method Flush(disk: Disk, entries: seq<Pending>, generation: nat, d: Diagnostics)
      modifies this, d
      ensures rows == Flushed(disk, old(rows), entries, generation)
      ensures d.counts == old(d.counts) + FlushCounts(disk, entries)
    {
      ghost var known, before := rows, d.counts;
      NothingFlushed(disk, known, entries, generation, before);
      var i := 0;
      while i < |entries|
        invariant 0 <= i <= |entries|
        invariant FlushedUpTo(disk, known, entries, i, generation, before, rows, d.counts)
      {
        OneMoreFlushed(disk, known, entries, i, generation, before, rows, d.counts);
        FlushOne(disk, entries[i], generation, d);
        i := i + 1;
      }
      assert entries[..i] == entries;
    }

    /** Opens and, unless its row is up to date, reads one candidate. */
    method Consider(disk: Disk, known: Rows, full: bool, path: Path, d: Diagnostics) returns (queued: seq<Pending>)
      modifies d
      ensures queued == Queued(disk, known, full, path)
      ensures d.counts == old(d.counts) + ReadCount(disk, known, full, path)
    {
      var f := disk(path);
      if SafePath(path) && f.opens {
        if !full && path in known && known[path].size == f.size && known[path].mtime == f.mtime
           && known[path].parser == PARSER_VERSION {
          d.Count(SameAsBefore);
          return [Pending(path, f.size, f.mtime, None, false)];
        }
        if f.reading.Tagged? {
          return [Pending(path, f.size, f.mtime, Some(f.reading.tags), path !in known)];
        }
        d.Note(path, f.reading.reason);
      } else {
        d.Note(path, Unreadable);
      }
      queued := if path in known then [Pending(path, known[path].size, known[path].mtime, None, false)] else [];
    }

    /** Flushes what is pending, if there is enough of it. */
    method FlushWhenFull(ghost s: Setting, ghost done: seq<Path>, ghost flushed: seq<Pending>, pending: seq<Pending>,
                         least: nat, disk: Disk, generation: nat, d: Diagnostics)
      returns (rest: seq<Pending>, ghost written: seq<Pending>)
      requires s.disk == disk && s.generation == generation && Midway(s, done, flushed, pending, rows, d.counts)
      modifies this, d
      ensures Midway(s, done, written, rest, rows, d.counts) && (least > 0 ==> |rest| < least)
    {
      rest, written := pending, flushed;
      if |pending| >= least {
        FlushStep(s, done, flushed, pending, rows, d.counts);
        Flush(disk, pending, generation, d);
        rest, written := [], flushed + pending;
      }
    }

    /** Reads every candidate and flushes what it gives, two hundred entries at a time. */
    method IndexCandidates(disk: Disk, full: bool, generation: nat, found: seq<Path>, d: Diagnostics)
      modifies this, d
      ensures rows == Flushed(disk, old(rows), AllQueued(disk, old(rows), full, found), generation)
      ensures d.counts == old(d.counts) + IndexCounts(disk, old(rows), full, found)
    {
      var known := rows;
      var pending: seq<Pending> := [];
      ghost var s := Setting(disk, known, full, generation, d.counts);
      ghost var flushed: seq<Pending> := [];
      NothingDone(s, found);
      var i := 0;
      while i < |found|
        invariant 0 <= i <= |found|
        invariant Midway(s, found[..i], flushed, pending, rows, d.counts)
      {
        QueueStep(s, found, i, flushed, pending, rows, d.counts);
        var queued := Consider(disk, known, full, found[i], d);
        pending, flushed := FlushWhenFull(s, found[..i + 1], flushed, pending + queued, BATCH_SIZE, disk,
                                          generation, d);
        i := i + 1;
      }
      assert found[..i] == found;
      pending, flushed := FlushWhenFull(s, found, flushed, pending, 1, disk, generation, d);
      AllFlushed(s, found, flushed, rows, d.counts);
    }

    /** Looks for one row the walk did not meet, and marks it if its file is gone. */
    method Recheck(root: Node, path: Path, was: Row, generation: nat, d: Diagnostics)
      requires root.Dir?
      modifies this, d
      ensures var gone := PresenceOf(root, path) == Missing && path in old(rows)
                          && old(rows)[path].size == was.size && old(rows)[path].mtime == was.mtime
                          && old(rows)[path].generation < generation && old(rows)[path].present;
              && rows == (if gone then old(rows)[path := old(rows)[path].(present := false)] else old(rows))
              && d.counts == old(d.counts) + RecheckCount(PresenceOf(root, path), gone)
    {
      var presence := PresenceOf(root, path);
      if presence == Missing {
        if path in rows && rows[path].size == was.size && rows[path].mtime == was.mtime
           && rows[path].generation < generation && rows[path].present {
          rows := rows[path := rows[path].(present := false)];
          d.Count(MarkedMissing);
        }
      } else if presence == Inaccessible {
        d.Note(path, Unreadable);
      } else if presence == Irregular {
        d.Note(path, Unsafe);
      }
    }

    /** The rows the walk did not meet, one by one. */
    method MarkMissing(root: Node, known: Rows, generation: nat, seen: set<Path>, d: Diagnostics)
      requires root.Dir?
      requires forall path :: path in known && path !in seen ==> Get(rows, path) == Get(known, path)
      modifies this, d
      ensures forall path :: Get(rows, path) == Rechecked(root, known, generation, seen, old(rows), path)
      ensures Marked(old(d.counts), d.counts, |Gone(root, known, generation, seen)|)
    {
      var todo := known.Keys - seen;
      ghost var before, counts := rows, d.counts;
      NothingRechecked(root, known, generation, seen, rows, d.counts);
      while todo != {}
        invariant todo <= known.Keys - seen
        invariant RecheckedSoFar(root, known, generation, seen + todo, before, counts, rows, d.counts)
      {
        var path :| path in todo;
        OneMoreRechecked(root, known, generation, seen, todo, before, counts, rows, d.counts, path);
        Recheck(root, path, known[path], generation, d);
        todo := todo - {path};
      }
      assert seen + todo == seen;
    }

    /** A whole scan with nobody else at work and the disk left alone. */
    method Scan(root: Node, full: bool, generation: nat) returns (d: Diagnostics, found: seq<Path>)
      requires root.Dir? && WellFormed(root)
      modifies this
      ensures forall path :: Get(rows, path) == ExpectedRow(root, old(rows), full, generation, path)
      ensures forall path :: path in found <==> IsCandidate(root, path)
      ensures NoDuplicates(found)
      ensures AddsUp(root, old(rows), full, generation, found, d.counts)
      ensures Walk(root, []).counts + IndexCounts(DiskOf(root), old(rows), full, found) <= d.counts
    {
      d := new Diagnostics();
      var known := rows;
      found := d.Candidates(root);
      EachCandidateOnce(root, found);
      IndexCandidates(DiskOf(root), full, generation, found, d);
      ghost var indexed := d.counts;
      var seen := set path | path in found;
      UnseenRowsStay(DiskOf(root), known, full, generation, found, seen);
      MarkMissing(root, known, generation, seen, d);
      ScannedRows(root, known, full, generation, found, seen, rows);
      TotalsAddUp(root, known, full, generation, found, indexed, d.counts);
    }
  }

  // ---------- The index against the disk ----------

  predicate Describes(row: Option<Row>, f: Facts, generation: nat) {
    && row.Some? && row.value.present && row.value.generation == generation
    && row.value.size == f.size && row.value.mtime == f.mtime && row.value.parser == PARSER_VERSION
  }

  /** After a scan whose walk reports complete coverage, a supported file under visible names that
      could be read and held still has a row that is present, of this generation, and describes it. */
  lemma ReadableFilesArePresent(root: Node, known: Rows, full: bool, generation: nat, path: Path)
    requires root.Dir? && Covered(Walk(root, []).counts)
    requires VisibleFile(root, path) && !Judge(DiskOf(root), known, full, path).Trouble? && FactsAt(root, path).stable
    ensures Describes(ExpectedRow(root, known, full, generation, path), FactsAt(root, path), generation)
  {
    CoveredWalkMissesNothing(root, [], path);
  }

  predicate NoneUnresolved(c: Counts) {
    c[Unresolved] == 0
  }

  lemma NeitherUnresolved(a: Counts, b: Counts)
    requires NoneUnresolved(a + b)
    ensures NoneUnresolved(a) && NoneUnresolved(b)
  {}

  lemma {:induction false} ResolvedInRead(disk: Disk, known: Rows, full: bool, found: seq<Path>, n: nat, i: nat)
    requires i < n <= |found| && NoneUnresolved(ReadCounts(disk, known, full, found[..n]))
    ensures NoneUnresolved(ReadCount(disk, known, full, found[i]))
  {
    OneMoreRead(disk, known, full, found, n - 1);
    NeitherUnresolved(ReadCounts(disk, known, full, found[..n - 1]), ReadCount(disk, known, full, found[n - 1]));
    if i < n - 1 { ResolvedInRead(disk, known, full, found, n - 1, i); }
  }

  lemma {:induction false} ResolvedInFlush(disk: Disk, known: Rows, full: bool, found: seq<Path>, n: nat, i: nat)
    requires i < n <= |found| && NoneUnresolved(FlushCounts(disk, AllQueued(disk, known, full, found[..n])))
    ensures NoneUnresolved(FlushCounts(disk, Queued(disk, known, full, found[i])))
  {
    OneMoreFlush(disk, known, full, found, n - 1);
    NeitherUnresolved(FlushCounts(disk, AllQueued(disk, known, full, found[..n - 1])),
                      FlushCounts(disk, Queued(disk, known, full, found[n - 1])));
    if i < n - 1 { ResolvedInFlush(disk, known, full, found, n - 1, i); }
  }

  lemma StableWhenResolved(disk: Disk, known: Rows, full: bool, path: Path)
    requires NoneUnresolved(FlushCounts(disk, Queued(disk, known, full, path)))
    ensures Judge(disk, known, full, path).Reread? ==> disk(path).stable
  {
    var queued := Queued(disk, known, full, path);
    if queued != [] { FlushedAlone(disk, queued[0]); }
  }

  /** A candidate that left nothing unresolved was rejected for good or has a row that describes it. */
  predicate Settled(judged: Judgement, row: Option<Row>, f: Facts, generation: nat) {
    if judged.Trouble? then NoneUnresolved(Issue(judged.reason)) else Describes(row, f, generation)
  }

  lemma ResolvedIsSettled(disk: Disk, known: Rows, full: bool, generation: nat, path: Path)
    requires NoneUnresolved(ReadCount(disk, known, full, path))
    requires NoneUnresolved(FlushCounts(disk, Queued(disk, known, full, path)))
    ensures Settled(Judge(disk, known, full, path), CandidateRow(disk, known, full, generation, path), disk(path),
                    generation)
  {
    StableWhenResolved(disk, known, full, path);
  }

  lemma CoveredParts(walked: Counts, read: Counts, flushed: Counts, counts: Counts)
    requires walked + (read + flushed) <= counts && Covered(counts)
    ensures Covered(walked) && NoneUnresolved(read) && NoneUnresolved(flushed)
  {}

  /** After a whole scan that reports complete coverage, every supported file under visible names has
      a row that describes it, unless its content was rejected for good. */
  lemma CoveredScansAreCurrent(root: Node, known: Rows, full: bool, generation: nat, found: seq<Path>, counts: Counts,
                               path: Path)
    requires root.Dir? && (path in found <==> IsCandidate(root, path)) && VisibleFile(root, path)
    requires Walk(root, []).counts + IndexCounts(DiskOf(root), known, full, found) <= counts && Covered(counts)
    ensures Settled(Judge(DiskOf(root), known, full, path), ExpectedRow(root, known, full, generation, path),
                    FactsAt(root, path), generation)
  {
    var disk := DiskOf(root);
    CoveredParts(Walk(root, []).counts, ReadCounts(disk, known, full, found),
                 FlushCounts(disk, AllQueued(disk, known, full, found)), counts);
    CoveredWalkMissesNothing(root, [], path);
    var i :| 0 <= i < |found| && found[i] == path;
    assert found[..|found|] == found;
    ResolvedInRead(disk, known, full, found, |found|, i);
    ResolvedInFlush(disk, known, full, found, |found|, i);
    ResolvedIsSettled(disk, known, full, generation, path);
  }

  /** A row whose file is missing is marked absent by the next scan, complete or not. */
  lemma MissingFilesAreAbsent(root: Node, known: Rows, full: bool, generation: nat, path: Path)
    requires root.Dir? && path in known && known[path].generation < generation
    requires PresenceOf(root, path) == Missing
    ensures ExpectedRow(root, known, full, generation, path) == Some(known[path].(present := false))
  {
    MissingIsGone(root, path);
    if IsCandidate(root, path) { CandidatesAreFiles(root, path); }
  }

  /** A scan marks a row absent only if nothing is at its path: never because a directory or the
      file could not be read, never because of a link on the way, and never a candidate's row. */
  lemma OnlyMissingFilesAreMarked(root: Node, known: Rows, full: bool, generation: nat, path: Path)
    requires root.Dir? && path in known && known[path].present
    requires var row := ExpectedRow(root, known, full, generation, path); row.None? || !row.value.present
    ensures Lookup(root, path).None? && PresenceOf(root, path) == Missing && !IsCandidate(root, path)
  {
    MissingIsGone(root, path);
  }

  /** Scanning the same disk again changes no row but the generation of the candidates' rows,
      whichever files are unreadable. */
  lemma RescanIsQuiet(root: Node, known: Rows, full: bool, generation: nat, again: Rows, later: nat, path: Path)
    requires root.Dir? && generation < later
    requires forall p :: Get(again, p) == ExpectedRow(root, known, full, generation, p)
    requires IsCandidate(root, path) ==> FactsAt(root, path).stable
    requires path in known && PresenceOf(root, path) == Missing ==> known[path].generation < generation
    ensures ExpectedRow(root, again, false, later, path) ==
            if IsCandidate(root, path) && path in again then Some(again[path].(generation := later))
            else Get(again, path)
  {
    assert Get(again, path) == ExpectedRow(root, known, full, generation, path);
    if PresenceOf(root, path) == Missing {
      MissingIsGone(root, path);
      if IsCandidate(root, path) { CandidatesAreFiles(root, path); }
    }
  }
}

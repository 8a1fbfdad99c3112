/** The lease of a library scan, and what it protects: at most one scan runs, a scan that lost its
    lease writes nothing, and a file is marked missing only if nobody indexed it meanwhile. */
module ScanLease {
  import opened Wrappers

  type ScanId = nat
  type Token = nat
  type Path = nat

  datatype Status = Running | Completed | Failed

  datatype Scan = Scan(status: Status, generation: nat, token: Option<Token>, expiresAt: Option<int>)

  datatype Row = Row(size: nat, mtime: int, generation: nat, present: bool, tags: string)

  /** What a scanner keeps of its claim. */
  datatype Claimed = Claimed(scan: ScanId, generation: nat, token: Token)

  /** A file read for indexing. */
  datatype File = File(size: nat, mtime: int, tags: string)

  const LEASE_SECONDS := 120

  type Scans = map<ScanId, Scan>
  type Rows = map<Path, Row>

  // ---------- What each transaction does ----------

  ghost predicate IsMaximum(scans: Scans, g: nat) {
    && (forall id :: id in scans ==> scans[id].generation <= g)
    && (g == 0 || exists id :: id in scans && scans[id].generation == g)
  }

  /** The running scan that is still within its lease blocks a new one. */
  predicate Blocking(s: Scan, now: int) {
    s.status == Running && s.expiresAt.Some? && s.expiresAt.value > now
  }

  function Interrupted(s: Scan): Scan {
    if s.status == Running then s.(status := Failed) else s
  }

  /** The table with a new scan, and an interrupted one failed. */
  function Started(scans: Scans, id: ScanId, scan: Scan): Scans {
    (map a | a in scans :: Interrupted(scans[a]))[id := scan]
  }

  function NewScan(generation: nat, token: Token, now: int): Scan {
    Scan(Running, generation, Some(token), Some(now + LEASE_SECONDS))
  }

  predicate Fenced(scans: Scans, c: Claimed, now: int) {
    && c.scan in scans
    && scans[c.scan].status == Running && scans[c.scan].token == Some(c.token)
    && scans[c.scan].expiresAt.Some? && scans[c.scan].expiresAt.value > now
  }

  function Extended(scans: Scans, c: Claimed, now: int): Scans
    requires c.scan in scans
  {
    scans[c.scan := scans[c.scan].(expiresAt := Some(now + LEASE_SECONDS))]
  }

  function Ended(scans: Scans, c: Claimed, status: Status): Scans
    requires c.scan in scans
  {
    scans[c.scan := scans[c.scan].(status := status, token := None, expiresAt := None)]
  }

  function Indexed(f: File, generation: nat): Row {
    Row(f.size, f.mtime, generation, true, f.tags)
  }

  /** One batch: files that were read are written, files that are known are confirmed. */
  function Batched(rows: Rows, read: map<Path, File>, confirmed: set<Path>, generation: nat): Rows {
    map p | p in rows.Keys + read.Keys ::
      if p in read then Indexed(read[p], generation)
      else if p in confirmed then rows[p].(present := true, generation := generation)
      else rows[p]
  }

  predicate Markable(rows: Rows, known: Rows, p: Path, generation: nat) {
    && p in known && p in rows
    && rows[p].size == known[p].size && rows[p].mtime == known[p].mtime
    && rows[p].generation < generation && rows[p].present
  }

  // ---------- The tables as scanners update them in place ----------

  class Tables {
    var scans: Scans
    var rows: Rows

    constructor ()
      ensures scans == map[] && rows == map[]
    {
      scans, rows := map[], map[];
    }

    method LargestGeneration() returns (g: nat)
      ensures IsMaximum(scans, g)
    {
      g := 0;
      var todo := scans.Keys;
      while todo != {}
        invariant todo <= scans.Keys
        invariant forall id :: id in scans && id !in todo ==> scans[id].generation <= g
        invariant g == 0 || exists id :: id in scans && scans[id].generation == g
      {
        var id :| id in todo;
        if scans[id].generation > g { g := scans[id].generation; }
        todo := todo - {id};
      }
    }

    /** Refused while a scan runs within its lease; otherwise an interrupted scan is failed first. */
    method Claim(now: int, id: ScanId, token: Token) returns (claimed: Option<Claimed>)
      requires id !in scans
      requires forall a, b :: a in scans && b in scans && scans[a].status == Running && scans[b].status == Running
                 ==> a == b
      modifies `scans
      ensures claimed.None? <==> exists a :: a in old(scans) && Blocking(old(scans)[a], now)
      ensures claimed.None? ==> scans == old(scans)
      ensures claimed.Some? ==>
                var g := claimed.value.generation;
                && g > 0 && IsMaximum(old(scans), g - 1) && claimed.value == Claimed(id, g, token)
                && scans == Started(old(scans), id, NewScan(g, token, now))
    {
      if active :| active in scans && scans[active].status == Running {
        if scans[active].expiresAt.Some? && scans[active].expiresAt.value > now {
          return None;
        }
        scans := scans[active := scans[active].(status := Failed)];
      }
      assert scans == map a | a in old(scans) :: Interrupted(old(scans)[a]);
      var largest := LargestGeneration();
      assert IsMaximum(old(scans), largest) by {
        assert forall a :: a in scans ==> scans[a].generation == old(scans)[a].generation;
      }
      scans := scans[id := NewScan(largest + 1, token, now)];
      claimed := Some(Claimed(id, largest + 1, token));
    }

    method Fence(c: Claimed, now: int) returns (ok: bool)
      modifies `scans
      ensures ok == Fenced(old(scans), c, now)
      ensures scans == if ok then Extended(old(scans), c, now) else old(scans)
    {
      ok := c.scan in scans && scans[c.scan].token == Some(c.token) && scans[c.scan].status == Running
            && scans[c.scan].expiresAt.Some? && scans[c.scan].expiresAt.value > now;
      if ok {
        scans := scans[c.scan := scans[c.scan].(expiresAt := Some(now + LEASE_SECONDS))];
      }
    }

    /** Writes a batch row by row, in one fenced transaction. */
    method Flush(c: Claimed, now: int, read: map<Path, File>, confirmed: set<Path>) returns (ok: bool)
      requires read.Keys !! confirmed
      modifies this
      ensures ok == Fenced(old(scans), c, now)
      ensures scans == if ok then Extended(old(scans), c, now) else old(scans)
      ensures rows == if ok then Batched(old(rows), read, confirmed, c.generation) else old(rows)
    {
      ok := Fence(c, now);
      if ok {
        var todo := read.Keys + confirmed;
        while todo != {}
          invariant todo <= read.Keys + confirmed && scans == Extended(old(scans), c, now)
          invariant rows.Keys == old(rows).Keys + (read.Keys - todo)
          invariant forall p :: p in rows ==>
            rows[p] == if p in todo then old(rows)[p] else Batched(old(rows), read, confirmed, c.generation)[p]
        {
          var p :| p in todo;
          if p in read {
            rows := rows[p := Row(read[p].size, read[p].mtime, c.generation, true, read[p].tags)];
          } else if p in rows {
            rows := rows[p := rows[p].(present := true, generation := c.generation)];
          }
          todo := todo - {p};
        }
      }
    }

    method MarkMissing(c: Claimed, now: int, known: Rows, p: Path) returns (ok: bool)
      modifies this
      ensures ok == Fenced(old(scans), c, now)
      ensures scans == if ok then Extended(old(scans), c, now) else old(scans)
      ensures rows == if ok && Markable(old(rows), known, p, c.generation)
                      then old(rows)[p := old(rows)[p].(present := false)]
                      else old(rows)
    {
      ok := Fence(c, now);
      if ok && Markable(rows, known, p, c.generation) {
        rows := rows[p := rows[p].(present := false)];
      }
    }

    method IndexOne(p: Path, f: File)
      modifies `rows
      ensures exists g :: IsMaximum(scans, g) && rows == old(rows)[p := Indexed(f, g)]
    {
      var g := LargestGeneration();
      rows := rows[p := Row(f.size, f.mtime, g, true, f.tags)];
      assert rows == old(rows)[p := Indexed(f, g)];
    }
  }

  // ---------- Every interleaving of scanners and single-file indexers ----------

  /** `latest` is the largest generation; `written` and `claimedAt` say at which step a row was
      last indexed and a claim made; `known` is what a scanner read of the index after claiming. */
  datatype World = World(
    scans: Scans,
    rows: Rows,
    now: int,
    latest: nat,
    issued: set<Claimed>,
    claimedAt: map<Token, nat>,
    known: map<Token, Rows>,
    written: map<Path, nat>,
    clock: nat,
    nextToken: Token)

  const INIT := World(map[], map[], 0, 0, {}, map[], map[], map[], 0, 0)

  datatype Step =
    | Tick(delta: nat)
    | Claim(id: ScanId)
    | Know(claim: Claimed)
    | Beat(claim: Claimed)
    | Flush(claim: Claimed, read: map<Path, File>, confirmed: set<Path>)
    | Mark(claim: Claimed, path: Path)
    | Complete(claim: Claimed)
    | Abort(claim: Claimed)
    | IndexOne(path: Path, file: File)

  predicate Commits(w: World, c: Claimed) {
    c in w.issued && Fenced(w.scans, c, w.now)
  }

  function Touched(w: World, paths: set<Path>): map<Path, nat> {
    map p | p in w.written.Keys + paths :: if p in paths then w.clock else w.written[p]
  }

  ghost predicate Refused(w: World, id: ScanId) {
    id in w.scans || exists a :: a in w.scans && Blocking(w.scans[a], w.now)
  }

  ghost function Act(w: World, step: Step): World {
    match step
    case Tick(delta) => w.(now := w.now + delta)
    case Claim(id) =>
      if Refused(w, id) then w
      else
        var c := Claimed(id, w.latest + 1, w.nextToken);
        w.(scans := Started(w.scans, id, NewScan(c.generation, c.token, w.now)),
           latest := c.generation, issued := w.issued + {c},
           claimedAt := w.claimedAt[c.token := w.clock], nextToken := w.nextToken + 1)
    case Know(c) => if c in w.issued then w.(known := w.known[c.token := w.rows]) else w
    case Beat(c) => if Commits(w, c) then w.(scans := Extended(w.scans, c, w.now)) else w
    case Flush(c, read, confirmed) =>
      if Commits(w, c) then
        w.(scans := Extended(w.scans, c, w.now), rows := Batched(w.rows, read, confirmed, c.generation),
           written := Touched(w, read.Keys + (confirmed * w.rows.Keys)))
      else w
    case Mark(c, p) =>
      if Commits(w, c) && c.token in w.known then
        w.(scans := Extended(w.scans, c, w.now),
           rows := if Markable(w.rows, w.known[c.token], p, c.generation) then w.rows[p := w.rows[p].(present := false)]
                   else w.rows)
      else w
    case Complete(c) => if Commits(w, c) then w.(scans := Ended(w.scans, c, Completed)) else w
    case Abort(c) =>
      if c in w.issued && c.scan in w.scans && w.scans[c.scan].status == Running
         && w.scans[c.scan].token == Some(c.token)
      then w.(scans := Ended(w.scans, c, Failed))
      else w
    case IndexOne(p, f) => w.(rows := w.rows[p := Indexed(f, w.latest)], written := Touched(w, {p}))
  }

  ghost function Next(w: World, step: Step): World {
    Act(w, step).(clock := w.clock + 1)
  }

  ghost function Run(w: World, steps: seq<Step>): World {
    if steps == [] then w else Next(Run(w, steps[..|steps| - 1]), steps[|steps| - 1])
  }

  // ---------- The invariant ----------

  predicate ScanInv(w: World, id: ScanId)
    requires id in w.scans
  {
    var s := w.scans[id];
    && s.generation <= w.latest
    && (s.status == Running ==> s.generation == w.latest && s.token.Some? && s.expiresAt.Some?)
    && (s.token.Some? ==> s.token.value < w.nextToken)
  }

  ghost predicate ScansInv(w: World) {
    && (forall id :: id in w.scans ==> ScanInv(w, id))
    && (forall a, b :: a in w.scans && b in w.scans && a != b ==> w.scans[a].generation != w.scans[b].generation)
    && IsMaximum(w.scans, w.latest)
  }

  predicate ClaimInv(w: World, c: Claimed) {
    && c.scan in w.scans && c.generation == w.scans[c.scan].generation
    && c.token < w.nextToken && c.token in w.claimedAt && w.claimedAt[c.token] < w.clock
    && (w.scans[c.scan].status == Running ==> w.scans[c.scan].token == Some(c.token))
  }

  /** Whatever was indexed after the latest claim carries its generation. */
  predicate RowInv(w: World, c: Claimed, p: Path)
    requires p in w.rows
  {
    && w.rows[p].generation <= w.latest
    && p in w.written
    && (c in w.issued && c.token in w.claimedAt && c.generation == w.latest && w.written[p] >= w.claimedAt[c.token] ==>
          w.rows[p].generation == w.latest)
  }

  ghost predicate RowsInv(w: World) {
    && w.rows.Keys == w.written.Keys
    && (forall p :: p in w.written ==> w.written[p] < w.clock)
    && (forall p, c :: p in w.rows && c in w.issued ==> RowInv(w, c, p))
    && (forall p :: p in w.rows ==> w.rows[p].generation <= w.latest)
  }

  ghost predicate Inv(w: World) {
    && ScansInv(w)
    && (forall c :: c in w.issued ==> ClaimInv(w, c))
    && RowsInv(w)
  }

  // ---------- Every step keeps it ----------

  lemma StartedScan(w: World, v: World, id: ScanId, a: ScanId)
    requires ScansInv(w) && id !in w.scans && a in v.scans
    requires v.scans == Started(w.scans, id, NewScan(w.latest + 1, w.nextToken, w.now))
    requires v.latest == w.latest + 1 && v.nextToken == w.nextToken + 1
    ensures ScanInv(v, a)
    ensures v.scans[a].generation == if a == id then v.latest else w.scans[a].generation
    ensures a != id ==> v.scans[a].generation <= w.latest
  {
    if a != id { assert ScanInv(w, a); }
  }

  lemma ClaimKeepsScans(w: World, v: World, id: ScanId)
    requires ScansInv(w) && id !in w.scans
    requires v.scans == Started(w.scans, id, NewScan(w.latest + 1, w.nextToken, w.now))
    requires v.latest == w.latest + 1 && v.nextToken == w.nextToken + 1
    ensures ScansInv(v)
  {
    forall a | a in v.scans ensures ScanInv(v, a) { StartedScan(w, v, id, a); }
    forall a, b | a in v.scans && b in v.scans && a != b ensures v.scans[a].generation != v.scans[b].generation {
      StartedScan(w, v, id, a);
      StartedScan(w, v, id, b);
    }
    assert v.scans[id].generation == v.latest;
  }

  /** What a step other than a claim can make of a scan: nothing, a longer lease, or its end. */
  predicate Evolves(s: Scan, t: Scan) {
    || t == s
    || (s.status == Running && t.expiresAt.Some? && t == s.(expiresAt := t.expiresAt))
    || (t.status != Running && t == Scan(t.status, s.generation, None, None))
  }

  lemma ExtendingEvolves(scans: Scans, c: Claimed, now: int, a: ScanId)
    requires Fenced(scans, c, now) && a in scans
    ensures Evolves(scans[a], Extended(scans, c, now)[a])
  {}

  lemma EndingEvolves(scans: Scans, c: Claimed, status: Status, a: ScanId)
    requires c.scan in scans && a in scans && status != Running
    ensures Evolves(scans[a], Ended(scans, c, status)[a])
  {}

  lemma ScanChanges(w: World, step: Step, v: World, a: ScanId)
    requires !step.Claim? && v == Next(w, step) && a in w.scans
    ensures a in v.scans && Evolves(w.scans[a], v.scans[a])
  {
    if (step.Beat? || step.Flush? || step.Mark?) && Commits(w, step.claim) {
      ExtendingEvolves(w.scans, step.claim, w.now, a);
    } else if step.Complete? && Commits(w, step.claim) {
      EndingEvolves(w.scans, step.claim, Completed, a);
    } else if step.Abort? && step.claim.scan in w.scans {
      EndingEvolves(w.scans, step.claim, Failed, a);
    }
  }

  lemma SameScans(w: World, step: Step, v: World)
    requires !step.Claim? && v == Next(w, step)
    ensures v.latest == w.latest && v.nextToken == w.nextToken && v.issued == w.issued
    ensures v.claimedAt == w.claimedAt && v.clock == w.clock + 1
  {}

  lemma SameScanIds(w: World, step: Step, v: World)
    requires !step.Claim? && v == Next(w, step)
    ensures v.scans.Keys == w.scans.Keys
  {}

  lemma OtherScan(w: World, step: Step, v: World, a: ScanId)
    requires Inv(w) && !step.Claim? && v == Next(w, step) && a in w.scans
    ensures a in v.scans && ScanInv(v, a) && v.scans[a].generation == w.scans[a].generation
  {
    assert ScanInv(w, a);
    ScanChanges(w, step, v, a);
    SameScans(w, step, v);
  }

  lemma SameGenerations(w: World, v: World)
    requires ScansInv(w) && v.scans.Keys == w.scans.Keys && v.latest == w.latest
    requires forall a :: a in w.scans ==> v.scans[a].generation == w.scans[a].generation
    requires forall a :: a in v.scans ==> ScanInv(v, a)
    ensures ScansInv(v)
  {
    if v.latest != 0 {
      var a :| a in w.scans && w.scans[a].generation == w.latest;
      assert v.scans[a].generation == v.latest;
    }
    forall a | a in v.scans ensures v.scans[a].generation <= v.latest { assert ScanInv(v, a); }
  }

  lemma OthersKeepScans(w: World, step: Step, v: World)
    requires Inv(w) && !step.Claim? && v == Next(w, step)
    ensures ScansInv(v)
  {
    SameScans(w, step, v);
    SameScanIds(w, step, v);
    forall a | a in w.scans ensures ScanInv(v, a) && v.scans[a].generation == w.scans[a].generation {
      OtherScan(w, step, v, a);
    }
    SameGenerations(w, v);
  }

  lemma ClaimKeepsClaims(w: World, id: ScanId, v: World, c: Claimed)
    requires Inv(w) && !Refused(w, id) && v == Next(w, Claim(id)) && c in v.issued
    ensures ClaimInv(v, c)
  {
    if c in w.issued { assert ClaimInv(w, c) && ScanInv(w, c.scan); }
  }

  lemma StepKeepsClaims(w: World, step: Step, v: World, c: Claimed)
    requires Inv(w) && v == Next(w, step) && c in v.issued
    ensures ClaimInv(v, c)
  {
    if step.Claim? && !Refused(w, step.id) {
      ClaimKeepsClaims(w, step.id, v, c);
    } else {
      assert ClaimInv(w, c);
      if !step.Claim? {
        SameScans(w, step, v);
        ScanChanges(w, step, v, c.scan);
      }
    }
  }

  /** A new claim is younger than every row, and the rows' generations are older than its own. */
  lemma ClaimKeepsRow(w: World, id: ScanId, v: World, c: Claimed, p: Path)
    requires Inv(w) && !Refused(w, id) && v == Next(w, Claim(id)) && c in v.issued && p in v.rows
    ensures RowInv(v, c, p)
  {
    assert w.rows[p].generation <= w.latest && w.written[p] < w.clock;
    if c in w.issued { assert ClaimInv(w, c) && ScanInv(w, c.scan); }
  }

  lemma FlushKeepsRow(w: World, step: Step, v: World, c: Claimed, p: Path)
    requires Inv(w) && step.Flush? && Commits(w, step.claim) && v == Next(w, step) && c in w.issued && p in v.rows
    ensures RowInv(v, c, p)
  {
    assert ClaimInv(w, step.claim) && ScanInv(w, step.claim.scan);
    if p in w.rows { assert RowInv(w, c, p); }
  }

  lemma IndexOneKeepsRow(w: World, step: Step, v: World, c: Claimed, p: Path)
    requires Inv(w) && step.IndexOne? && v == Next(w, step) && c in w.issued && p in v.rows
    ensures RowInv(v, c, p)
  {
    if p in w.rows { assert RowInv(w, c, p); }
  }

  predicate Indexes(w: World, step: Step) {
    (step.Flush? && Commits(w, step.claim)) || step.IndexOne?
  }

  /** A step that neither claims nor indexes moves no generation. */
  lemma GenerationsStay(w: World, step: Step, v: World)
    requires !Indexes(w, step) && !(step.Claim? && !Refused(w, step.id)) && v == Next(w, step)
    ensures v.rows.Keys == w.rows.Keys && v.written == w.written && v.clock == w.clock + 1
    ensures v.latest == w.latest && v.issued == w.issued && v.claimedAt == w.claimedAt
    ensures forall p :: p in w.rows ==> v.rows[p].generation == w.rows[p].generation
  {}

  lemma StepKeepsRow(w: World, step: Step, v: World, c: Claimed, p: Path)
    requires Inv(w) && v == Next(w, step) && c in v.issued && p in v.rows
    ensures RowInv(v, c, p)
  {
    if step.Claim? && !Refused(w, step.id) {
      ClaimKeepsRow(w, step.id, v, c, p);
    } else if Indexes(w, step) {
      if step.Flush? { FlushKeepsRow(w, step, v, c, p); } else { IndexOneKeepsRow(w, step, v, c, p); }
    } else {
      GenerationsStay(w, step, v);
      assert RowInv(w, c, p);
    }
  }

  lemma IndexingKeepsGenerations(w: World, step: Step, v: World, p: Path)
    requires Inv(w) && Indexes(w, step) && v == Next(w, step) && p in v.rows
    ensures v.rows[p].generation <= v.latest
  {
    if step.Flush? {
      assert ClaimInv(w, step.claim) && ScanInv(w, step.claim.scan);
    }
  }

  lemma IndexingTouches(w: World, step: Step, v: World)
    requires Inv(w) && Indexes(w, step) && v == Next(w, step)
    ensures v.rows.Keys == v.written.Keys && forall p :: p in v.written ==> v.written[p] < v.clock
  {}

  lemma StepKeepsRows(w: World, step: Step, v: World)
    requires Inv(w) && v == Next(w, step)
    ensures RowsInv(v)
  {
    forall p, c | p in v.rows && c in v.issued ensures RowInv(v, c, p) { StepKeepsRow(w, step, v, c, p); }
    if Indexes(w, step) {
      IndexingTouches(w, step, v);
      forall p | p in v.rows ensures v.rows[p].generation <= v.latest { IndexingKeepsGenerations(w, step, v, p); }
    } else if !step.Claim? || Refused(w, step.id) {
      GenerationsStay(w, step, v);
    }
  }

  lemma StepKeepsInv(w: World, step: Step)
    requires Inv(w)
    ensures Inv(Next(w, step))
  {
    var v := Next(w, step);
    if !step.Claim? {
      OthersKeepScans(w, step, v);
    } else if Refused(w, step.id) {
      assert forall a :: a in w.scans ==> ScanInv(w, a);
    } else {
      ClaimKeepsScans(w, v, step.id);
    }
    forall c | c in v.issued ensures ClaimInv(v, c) { StepKeepsClaims(w, step, v, c); }
    StepKeepsRows(w, step, v);
  }

  lemma {:induction false} RunKeepsInv(steps: seq<Step>)
    ensures Inv(Run(INIT, steps))
  {
    if steps != [] {
      var n := |steps| - 1;
      RunKeepsInv(steps[..n]);
      StepKeepsInv(Run(INIT, steps[..n]), steps[n]);
    }
  }

  lemma RunSplits(steps: seq<Step>, more: seq<Step>)
    requires more != []
    ensures var n := |more| - 1; Run(INIT, steps + more) == Next(Run(INIT, steps + more[..n]), more[n])
  {
    var all, n := steps + more, |more| - 1;
    var before := Run(INIT, all[..|all| - 1]);
    assert Run(INIT, all) == Next(before, all[|all| - 1]);
    assert all[..|all| - 1] == steps + more[..n];
  }

  // ---------- What holds over whole runs ----------

  /** At most one scan is running, it has the largest generation of all, and no two scans ever
      share a generation. */
  lemma AtMostOneRuns(steps: seq<Step>, a: ScanId, b: ScanId)
    requires a in Run(INIT, steps).scans && b in Run(INIT, steps).scans && a != b
    ensures var scans := Run(INIT, steps).scans;
            && !(scans[a].status == Running && scans[b].status == Running)
            && scans[a].generation != scans[b].generation
            && (scans[a].status == Running ==> scans[a].generation > scans[b].generation)
  {
    RunKeepsInv(steps);
    var w := Run(INIT, steps);
    assert ScanInv(w, a) && ScanInv(w, b);
  }

  /** A new scan's generation is larger than that of every scan before it and of every row, and
      it takes over only a scan whose lease has run out. */
  lemma GenerationsIncrease(steps: seq<Step>, id: ScanId)
    requires var w := Run(INIT, steps); id !in w.scans && id in Next(w, Claim(id)).scans
    ensures var w, v := Run(INIT, steps), Next(Run(INIT, steps), Claim(id));
            && v.scans[id].status == Running
            && (forall a :: a in w.scans ==> v.scans[id].generation > w.scans[a].generation)
            && (forall p :: p in w.rows ==> v.scans[id].generation > w.rows[p].generation)
            && (forall a :: a in w.scans ==>
                  !Blocking(w.scans[a], w.now) && a in v.scans && v.scans[a].status != Running)
  {
    RunKeepsInv(steps);
    assert forall a :: a in Run(INIT, steps).scans ==> ScanInv(Run(INIT, steps), a);
  }

  /** The claim can no longer commit: its scan ended, was taken over, or let its lease run out. */
  predicate Spent(w: World, c: Claimed) {
    c in w.issued && !Fenced(w.scans, c, w.now)
  }

  lemma SpentStays(w: World, step: Step, c: Claimed)
    requires Inv(w) && Spent(w, c)
    ensures Spent(Next(w, step), c)
  {
    assert ClaimInv(w, c);
    if step.Beat? || step.Flush? || step.Mark? || step.Complete? || step.Abort? {
      if step.claim in w.issued { assert ClaimInv(w, step.claim); }
    }
  }

  /** Once its lease is lost, even if nobody has taken over, no batch, missing mark, heartbeat or
      completion of that scan commits any more, whatever happens in between. */
  lemma {:induction false} SpentScansAreInert(steps: seq<Step>, more: seq<Step>, c: Claimed, step: Step)
    requires Spent(Run(INIT, steps), c)
    requires (step.Beat? || step.Flush? || step.Mark? || step.Complete?) && step.claim == c
    ensures Spent(Run(INIT, steps + more), c)
    ensures var w := Run(INIT, steps + more); Act(w, step) == w
  {
    if more == [] {
      assert steps + more == steps;
    } else {
      var n := |more| - 1;
      SpentScansAreInert(steps, more[..n], c, step);
      RunKeepsInv(steps + more[..n]);
      RunSplits(steps, more);
      SpentStays(Run(INIT, steps + more[..n]), more[n], c);
    }
  }

  /** The claim's scan is over. */
  predicate Over(w: World, c: Claimed) {
    c in w.issued && c.scan in w.scans && w.scans[c.scan].status != Running
  }

  lemma OverStays(w: World, step: Step, v: World, c: Claimed)
    requires Over(w, c) && v == Next(w, step)
    ensures Over(v, c)
  {
    if !step.Claim? {
      SameScans(w, step, v);
      ScanChanges(w, step, v, c.scan);
    }
  }

  lemma TakeoverEnds(w: World, id: ScanId, c: Claimed)
    requires Inv(w) && c in w.issued && !Refused(w, id)
    ensures Over(Next(w, Claim(id)), c)
  {
    assert ClaimInv(w, c);
  }

  /** Once another scan was claimed, the failure handler of an earlier one changes nothing, whatever
      happens in between. */
  lemma {:induction false} TakenOverAbortIsInert(steps: seq<Step>, id: ScanId, more: seq<Step>, c: Claimed)
    requires c in Run(INIT, steps).issued && !Refused(Run(INIT, steps), id)
    ensures var w := Run(INIT, steps + [Claim(id)] + more); Over(w, c) && Act(w, Abort(c)) == w
  {
    if more == [] {
      RunKeepsInv(steps);
      RunSplits(steps, [Claim(id)]);
      assert [Claim(id)][..0] == [] && steps + [] == steps;
      TakeoverEnds(Run(INIT, steps), id, c);
      assert steps + [Claim(id)] + more == steps + [Claim(id)];
    } else {
      var n := |more| - 1;
      TakenOverAbortIsInert(steps, id, more[..n], c);
      RunSplits(steps + [Claim(id)], more);
      OverStays(Run(INIT, steps + [Claim(id)] + more[..n]), more[n], Run(INIT, steps + [Claim(id)] + more), c);
    }
  }

  /** Marking a file missing changes only a row that was present, that has not been indexed by
      anybody since the marking scan was claimed, and that still has the size and time the scan
      read; and it changes nothing of it but its presence. */
  lemma MarksHitOnlyUntouchedRows(steps: seq<Step>, c: Claimed, p: Path, q: Path)
    requires var w := Run(INIT, steps); q in w.rows
    requires var w := Run(INIT, steps); var v := Next(w, Mark(c, p)); q !in v.rows || v.rows[q] != w.rows[q]
    ensures var w, v := Run(INIT, steps), Next(Run(INIT, steps), Mark(c, p));
            && q == p && q in v.rows && v.rows[q] == w.rows[q].(present := false) && w.rows[q].present
            && c.token in w.known && q in w.known[c.token]
            && w.rows[q].size == w.known[c.token][q].size && w.rows[q].mtime == w.known[c.token][q].mtime
            && w.rows[q].generation < c.generation
            && q in w.written && c.token in w.claimedAt && w.written[q] < w.claimedAt[c.token]
  {
    RunKeepsInv(steps);
    var w := Run(INIT, steps);
    assert ClaimInv(w, c) && ScanInv(w, c.scan);
    assert RowInv(w, c, q);
  }
}

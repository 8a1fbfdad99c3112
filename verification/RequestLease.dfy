/** One natural-language request row, its proposal tracks and the download jobs that
    point at them, under every process that may touch them.

    A discovery attempt claims the row under a fresh token, then writes its attempt id in
    a second transaction. Renewals look at the token only, so an expired lease nobody has
    taken may be revived; a task that gives up marks the row failed and leaves the token
    in place. A crash is an attempt that takes no more steps. */
module RequestLease {
  import opened Wrappers

  type Token = nat
  type AttemptId = nat
  type TrackId = nat
  type JobId = nat

  datatype Status =
    | Pending | Orchestrating | Preview | AutoQueued | Queued | Degraded
    | NeedsClarification | Refused | Incomplete | Failed

  datatype Duplicate = NotDuplicate | PossibleDuplicate | Owned

  /** What two acquisitions of the same thing have in common. */
  type Key = nat

  /** A proposed track, with what the search for duplicates makes of it. */
  datatype Candidate = Candidate(duplicate: Duplicate, key: Key)

  datatype Track = Track(ordinal: nat, duplicate: Duplicate, selected: bool, key: Key)

  datatype Proposal = Proposal(tracks: seq<Candidate>, clarification: bool)

  datatype Row = Row(
    status: Status,
    leaseToken: Option<Token>,
    leaseExpiresAt: Option<int>,
    attemptId: Option<AttemptId>,
    modelRoundsUsed: Option<nat>,
    terminationReason: Option<string>,
    errorCode: Option<string>,
    discoveredCount: nat,
    selectedCount: nat,
    warningCount: nat)

  datatype Database = Database(row: Row, tracks: map<TrackId, Track>, jobs: map<TrackId, JobId>)

  // ---------- What each transaction does to the row ----------

  predicate Claimable(row: Row, now: int) {
    || row.status == Pending
    || (row.status == Orchestrating
        && (row.leaseExpiresAt.None? || row.leaseExpiresAt.value <= now))
  }

  function ClaimedRow(row: Row, token: Token, expiry: int): Row {
    row.(status := Orchestrating, leaseToken := Some(token), leaseExpiresAt := Some(expiry),
         errorCode := None)
  }

  function BegunRow(row: Row, token: Token, attempt: AttemptId): Row {
    if row.leaseToken == Some(token) then
      row.(attemptId := Some(attempt), modelRoundsUsed := Some(0), terminationReason := None)
    else row
  }

  /** The guard of a renewal, and what an attempt asserts before it goes on. */
  predicate Renewable(row: Row, token: Token) {
    row.status == Orchestrating && row.leaseToken == Some(token)
  }

  function RenewedRow(row: Row, token: Token, expiry: int): Row {
    if Renewable(row, token) then row.(leaseExpiresAt := Some(expiry)) else row
  }

  function CountedRow(row: Row, token: Token, rounds: nat): Row {
    if row.leaseToken == Some(token) then row.(modelRoundsUsed := Some(rounds)) else row
  }

  function TerminalRow(row: Row, token: Token, status: Status, code: string): Row {
    if row.leaseToken == Some(token) then
      row.(status := status, errorCode := Some(code), leaseToken := None, leaseExpiresAt := None)
    else row
  }

  predicate Finishable(row: Row, token: Token, attempt: AttemptId) {
    && row.attemptId == Some(attempt)
    && (row.leaseToken == Some(token)
        || (row.leaseToken.None? && row.status != Orchestrating))
  }

  function FinishedRow(row: Row, token: Token, attempt: AttemptId,
                       rounds: nat, reason: Option<string>): Row {
    if Finishable(row, token, attempt) then
      row.(modelRoundsUsed := Some(rounds), terminationReason := reason)
    else row
  }

  function ProposalStatus(proposal: Proposal): Status {
    if proposal.clarification then NeedsClarification
    else if proposal.tracks != [] then Preview
    else Incomplete
  }

  /** How many of the candidates satisfy a test. */
  function Count(items: seq<Candidate>, p: Candidate -> bool): nat {
    if items == [] then 0
    else Count(items[..|items| - 1], p) + if p(items[|items| - 1]) then 1 else 0
  }

  const IS_NEW: Candidate -> bool := (c: Candidate) => c.duplicate != Owned
  const IS_POSSIBLE: Candidate -> bool := (c: Candidate) => c.duplicate == PossibleDuplicate

  /** The tracks a proposal becomes, numbered from `first` on. */
  function TrackRows(items: seq<Candidate>, first: TrackId): (rows: map<TrackId, Track>)
    ensures forall id :: id in rows <==> first <= id < first + |items|
  {
    if items == [] then map[]
    else
      var n := |items| - 1;
      TrackRows(items[..n], first)[
        first + n := Track(n + 1, items[n].duplicate, items[n].duplicate != Owned, items[n].key)]
  }

  function Stored(db: Database, proposal: Proposal, first: TrackId,
                  override: Option<Status>, warning: Option<string>): Database {
    Database(
      db.row.(status := if override.Some? then override.value else ProposalStatus(proposal),
              leaseToken := None, leaseExpiresAt := None, errorCode := warning,
              discoveredCount := |proposal.tracks|,
              selectedCount := Count(proposal.tracks, IS_NEW),
              warningCount := Count(proposal.tracks, IS_POSSIBLE)),
      TrackRows(proposal.tracks, first),
      db.jobs)
  }

  predicate Storable(db: Database, token: Token, proposal: Proposal, cap: nat) {
    |proposal.tracks| <= cap && db.row.leaseToken == Some(token)
  }

  function Chosen(ids: seq<TrackId>): set<TrackId> {
    set id | id in ids
  }

  function Wanted(db: Database, ids: seq<TrackId>): set<TrackId> {
    set id | id in Chosen(ids) && id in db.tracks && db.tracks[id].duplicate != Owned
  }

  /** The wanted tracks that have no job yet. */
  function Missing(db: Database, ids: seq<TrackId>): set<TrackId> {
    Wanted(db, ids) - db.jobs.Keys
  }

  /** Every id names a track of the request, and none is named twice. */
  predicate ValidChoice(db: Database, ids: seq<TrackId>) {
    |Chosen(ids) * db.tracks.Keys| == |ids|
  }

  /** A new job would be for what an active job is already for, or another new one. */
  predicate Clashes(db: Database, ids: seq<TrackId>, active: set<Key>) {
    || (exists id :: id in Missing(db, ids) && id in db.tracks && db.tracks[id].key in active)
    || (exists a, b :: a in Missing(db, ids) && b in Missing(db, ids) && a != b
                       && a in db.tracks && b in db.tracks && db.tracks[a].key == db.tracks[b].key)
  }

  predicate Approvable(db: Database, ids: seq<TrackId>, active: set<Key>) {
    ValidChoice(db, ids) && !Clashes(db, ids, active)
  }

  function Approved(db: Database, ids: seq<TrackId>, newJobs: map<TrackId, JobId>): Database
    requires newJobs.Keys == Missing(db, ids)
  {
    db.(row := db.row.(status := Queued, selectedCount := |Wanted(db, ids)|),
        jobs := db.jobs + newJobs)
  }

  // ---------- Queueing without asking ----------

  datatype Confirmation = Untouched | Waiting | Rejected | Automatic

  /** The only track, neither owned nor possibly so; `exact` stands for the tests of its identity and
      of the request's words. */
  predicate Sole(db: Database, id: TrackId, exact: bool) {
    db.tracks.Keys == {id} && db.tracks[id].selected && db.tracks[id].duplicate == NotDuplicate && exact
  }

  predicate Confirmable(db: Database, id: TrackId, exact: bool) {
    db.row.status != AutoQueued && db.row.status != Queued && Sole(db, id, exact)
  }

  /** Queued with its one track, which has a job from then on. */
  function QueuedAlone(db: Database, id: TrackId, job: JobId): Database {
    db.(row := db.row.(status := AutoQueued, selectedCount := 1),
        jobs := if id in db.jobs then db.jobs else db.jobs[id := job])
  }

  /** What confirming comes to: only an active equivalent rejects it, and its gates only delay it. */
  function Confirmed(db: Database, id: TrackId, exact: bool, ready: bool, job: JobId, active: set<Key>)
    : (Confirmation, Database)
  {
    if !Confirmable(db, id, exact) then (Untouched, db)
    else if !ready then (Waiting, db)
    else if id !in db.jobs && db.tracks[id].key in active then (Rejected, db)
    else (Automatic, QueuedAlone(db, id, job))
  }

  lemma OneIsValid(db: Database, id: TrackId)
    requires id in db.tracks && db.tracks[id].duplicate != Owned
    ensures ValidChoice(db, [id]) && Wanted(db, [id]) == {id}
    ensures Missing(db, [id]) == if id in db.jobs then {} else {id}
  {
    assert Chosen([id]) == {id} && Chosen([id]) * db.tracks.Keys == {id};
  }

  lemma OneClashes(db: Database, id: TrackId, active: set<Key>)
    requires id in db.tracks && db.tracks[id].duplicate != Owned
    ensures Approvable(db, [id], active) <==> id in db.jobs || db.tracks[id].key !in active
  {
    OneIsValid(db, id);
    if id !in db.jobs { assert id in Missing(db, [id]); }
  }

  lemma JobsOfOne(jobs: map<TrackId, JobId>, id: TrackId, newJobs: map<TrackId, JobId>, job: JobId)
    requires newJobs == if id in jobs then map[] else map[id := job]
    ensures jobs + newJobs == if id in jobs then jobs else jobs[id := job]
  {}

  /** Approving the one track and marking the request leaves it queued alone. */
  lemma ApprovingOne(db: Database, id: TrackId, newJobs: map<TrackId, JobId>, job: JobId)
    requires Wanted(db, [id]) == {id} && newJobs.Keys == Missing(db, [id])
    requires newJobs == if id in db.jobs then map[] else map[id := job]
    ensures var queued := Approved(db, [id], newJobs);
            queued.(row := queued.row.(status := AutoQueued)) == QueuedAlone(db, id, job)
  {
    JobsOfOne(db.jobs, id, newJobs, job);
  }

  ghost predicate Distinct(ids: seq<TrackId>) {
    forall i, j :: 0 <= i < j < |ids| ==> ids[i] != ids[j]
  }

  lemma OneMoreChosen(ids: seq<TrackId>, first: seq<TrackId>, last: TrackId)
    requires ids == first + [last]
    ensures Chosen(ids) == Chosen(first) + {last}
    ensures Distinct(ids) <==> Distinct(first) && last !in Chosen(first)
  {
    assert forall i :: 0 <= i < |first| ==> ids[i] == first[i];
    assert ids[|first|] == last;
  }

  lemma {:induction false} ChosenCounts(ids: seq<TrackId>)
    ensures |Chosen(ids)| <= |ids| && (|Chosen(ids)| == |ids| <==> Distinct(ids))
  {
    if ids == [] {
      assert Chosen(ids) == {};
    } else {
      var first, last := ids[..|ids| - 1], ids[|ids| - 1];
      ChosenCounts(first);
      OneMoreChosen(ids, first, last);
    }
  }

  /** Counting the tracks that are found refuses exactly the choices that name a track twice or one that
      is not in the request. */
  lemma ValidChoicesAreDistinctTracks(db: Database, ids: seq<TrackId>)
    ensures ValidChoice(db, ids) <==> Distinct(ids) && forall id :: id in ids ==> id in db.tracks
  {
    ChosenCounts(ids);
    var found := Chosen(ids) * db.tracks.Keys;
    if found == Chosen(ids) {
      assert forall id :: id in ids ==> id in found;
    } else {
      var id :| id in Chosen(ids) && id !in found;
      Smaller(found, Chosen(ids), id);
    }
  }

  lemma Smaller(a: set<TrackId>, b: set<TrackId>, id: TrackId)
    requires a <= b && id in b && id !in a
    ensures |a| < |b|
  {
    assert a <= b - {id};
    SubsetIsNotLarger(a, b - {id});
  }

  lemma {:induction false} SubsetIsNotLarger(a: set<TrackId>, b: set<TrackId>)
    requires a <= b
    ensures |a| <= |b|
    decreases a
  {
    if a != {} {
      var id :| id in a;
      SubsetIsNotLarger(a - {id}, b - {id});
    }
  }

  // ---------- The table as the service updates it in place ----------

  class RequestTable {
    var row: Row
    var tracks: map<TrackId, Track>
    var jobs: map<TrackId, JobId>

    ghost function Db(): Database reads this { Database(row, tracks, jobs) }

    constructor ()
      ensures Db() == Fresh()
    {
      row, tracks, jobs := Fresh().row, map[], map[];
    }

    method Claim(now: int, lease: nat, token: Token) returns (claimed: Option<Token>)
      modifies this
      ensures claimed == if old(Claimable(row, now)) then Some(token) else None
      ensures Db() == old(if Claimable(row, now)
                          then Db().(row := ClaimedRow(row, token, now + lease)) else Db())
    {
      var free := row.leaseExpiresAt.None? || row.leaseExpiresAt.value <= now;
      if row.status != Pending && !(row.status == Orchestrating && free) {
        return None;
      }
      row := row.(status := Orchestrating);
      row := row.(leaseToken := Some(token), leaseExpiresAt := Some(now + lease));
      row := row.(errorCode := None);
      claimed := Some(token);
    }

    method BeginAttempt(token: Token, attempt: AttemptId)
      modifies this
      ensures Db() == old(Db().(row := BegunRow(row, token, attempt)))
    {
      if row.leaseToken == Some(token) {
        row := row.(attemptId := Some(attempt), modelRoundsUsed := Some(0));
        row := row.(terminationReason := None);
      }
    }

    method Renew(token: Token, now: int, lease: nat) returns (owned: bool)
      modifies this
      ensures owned == old(Renewable(row, token))
      ensures Db() == old(Db().(row := RenewedRow(row, token, now + lease)))
    {
      owned := row.status == Orchestrating && row.leaseToken == Some(token);
      if owned {
        row := row.(leaseExpiresAt := Some(now + lease));
      }
    }

    method StartCall(token: Token, rounds: nat)
      modifies this
      ensures Db() == old(Db().(row := CountedRow(row, token, rounds)))
    {
      if row.leaseToken == Some(token) {
        row := row.(modelRoundsUsed := Some(rounds));
      }
    }

    method MarkTerminal(token: Token, status: Status, code: string)
      modifies this
      ensures Db() == old(Db().(row := TerminalRow(row, token, status, code)))
    {
      if row.leaseToken != Some(token) {
        return;
      }
      row := row.(status := status, errorCode := Some(code));
      row := row.(leaseToken := None, leaseExpiresAt := None);
    }

    method FinishAttempt(token: Token, attempt: AttemptId, rounds: nat, reason: Option<string>)
      modifies this
      ensures Db() == old(Db().(row := FinishedRow(row, token, attempt, rounds, reason)))
    {
      var held := row.leaseToken == Some(token);
      var released := row.leaseToken.None? && row.status != Orchestrating;
      if row.attemptId == Some(attempt) && (held || released) {
        row := row.(modelRoundsUsed := Some(rounds));
        row := row.(terminationReason := reason);
      }
    }

    /** Replaces every track of the request and releases the lease, or does nothing. */
    method Store(token: Token, proposal: Proposal, cap: nat, first: TrackId,
                 override: Option<Status>, warning: Option<string>) returns (stored: bool)
      modifies this
      ensures stored == old(Storable(Db(), token, proposal, cap))
      ensures Db() == old(if Storable(Db(), token, proposal, cap)
                          then Stored(Db(), proposal, first, override, warning) else Db())
    {
      if |proposal.tracks| > cap || row.leaseToken != Some(token) {
        return false;
      }
      tracks := map[];
      var selected, warnings := 0, 0;
      for n := 0 to |proposal.tracks|
        modifies `tracks
        invariant tracks == TrackRows(proposal.tracks[..n], first)
        invariant selected == Count(proposal.tracks[..n], IS_NEW)
        invariant warnings == Count(proposal.tracks[..n], IS_POSSIBLE)
      {
        var item := proposal.tracks[n];
        assert proposal.tracks[..n + 1][..n] == proposal.tracks[..n];
        var selects := item.duplicate != Owned;
        if selects { selected := selected + 1; }
        if item.duplicate == PossibleDuplicate { warnings := warnings + 1; }
        tracks := tracks[first + n := Track(n + 1, item.duplicate, selects, item.key)];
      }
      assert proposal.tracks[..|proposal.tracks|] == proposal.tracks;
      row := row.(discoveredCount := |proposal.tracks|, selectedCount := selected,
                  warningCount := warnings, errorCode := warning);
      row := row.(status := if override.Some? then override.value else ProposalStatus(proposal));
      row := row.(leaseToken := None, leaseExpiresAt := None);
      stored := true;
    }

    /** Queues the chosen tracks, or changes nothing; the caller supplies an id for every job still
        missing, and `active` is what all active jobs are for. */
    method QueueApproved(ids: seq<TrackId>, newJobs: map<TrackId, JobId>, active: set<Key>) returns (ok: bool)
      requires newJobs.Keys == Missing(Db(), ids)
      modifies this
      ensures ok == old(Approvable(Db(), ids, active))
      ensures Db() == if ok then old(Approved(Db(), ids, newJobs)) else old(Db())
    {
      var found := set id | id in ids && id in tracks;
      assert found == Chosen(ids) * tracks.Keys;
      if |found| != |ids| {
        return false;
      }
      var db := Database(row, tracks, jobs);
      if Clashes(db, ids, active) {
        return false;
      }
      row := row.(selectedCount := |Wanted(db, ids)|, status := Queued);
      jobs := jobs + newJobs;
      ok := true;
    }

    /** A web task that gave up marks its request failed; the lease token stays. */
    method FailFromTask(code: string)
      modifies this
      ensures Db() == old(Db().(row := row.(status := Failed, errorCode := Some(code))))
    {
      row := row.(status := Failed, errorCode := Some(code));
    }

    method MarkAutoQueued()
      modifies this
      ensures Db() == old(Db().(row := row.(status := AutoQueued)))
    {
      row := row.(status := AutoQueued);
    }

    /** Queues a request with one exact track without asking, once the first scan is done and there is
        space on the disk. */
    method ApplyConfirmation(id: TrackId, exact: bool, scanned: bool, space: bool, job: JobId, active: set<Key>)
      returns (answer: Confirmation)
      modifies this
      ensures (answer, Db()) == old(Confirmed(Db(), id, exact, scanned && space, job, active))
    {
      if row.status == AutoQueued || row.status == Queued {
        return Untouched;
      }
      if !(tracks.Keys == {id} && tracks[id].selected && tracks[id].duplicate == NotDuplicate && exact) {
        return Untouched;
      }
      if !scanned || !space {
        return Waiting;
      }
      ghost var db := Db();
      OneIsValid(db, id);
      OneClashes(db, id, active);
      var newJobs := if id in jobs then map[] else map[id := job];
      var ok := QueueApproved([id], newJobs, active);
      if !ok {
        return Rejected;
      }
      ApprovingOne(db, id, newJobs, job);
      MarkAutoQueued();
      answer := Automatic;
    }
  }

  // ---------- Every interleaving of attempts, approvals and giving up ----------

  /** A process that claimed the row. `begun` once it has written its attempt id. */
  datatype Attempt = Attempt(id: AttemptId, begun: bool, roundsUsed: nat,
                             reason: Option<string>, finished: bool)

  datatype World = World(
    db: Database,
    now: int,
    lastClaim: Option<Token>,
    attempts: map<Token, Attempt>,
    commits: seq<Token>,
    nextToken: Token,
    nextTrack: TrackId)

  datatype Step =
    | Tick(delta: nat)
    | Claim(lease: nat, attemptId: AttemptId)
    | Begin(token: Token)
    | Renew(token: Token, lease: nat)
    | CountRound(token: Token)
    | StartCall(token: Token)
    | Reason(token: Token, reason: Option<string>)
    | Store(token: Token, proposal: Proposal, cap: nat, override: Option<Status>,
            warning: Option<string>)
    | MarkTerminal(token: Token, status: Status, code: string)
    | Finish(token: Token)
    | Approve(ids: seq<TrackId>, newJobs: map<TrackId, JobId>, active: set<Key>)
    | FailTask(code: string)
    | AutoQueue

  function Fresh(): Database {
    Database(Row(Pending, None, None, None, None, None, None, 0, 0, 0), map[], map[])
  }

  function Init(now: int): World {
    World(Fresh(), now, None, map[], [], 0, 0)
  }

  /** Statuses with which a proposal may be stored: a caller's override is "degraded". */
  predicate StoreStatus(override: Option<Status>) {
    override.None? || override.value == Degraded
  }

  predicate TerminalStatus(status: Status) {
    status in {Failed, Incomplete, Refused}
  }

  function Live(w: World, token: Token): bool {
    token in w.attempts && w.attempts[token].begun && !w.attempts[token].finished
  }

  predicate UsedId(w: World, id: AttemptId) {
    exists t :: t in w.attempts && w.attempts[t].id == id
  }

  /** One atomic step; a step whose process is not there does nothing. */
  ghost function Next(w: World, step: Step): World {
    match step
    case Tick(delta) => w.(now := w.now + delta)
    case Claim(lease, id) =>
      if Claimable(w.db.row, w.now) && !UsedId(w, id) then
        w.(db := w.db.(row := ClaimedRow(w.db.row, w.nextToken, w.now + lease)),
           lastClaim := Some(w.nextToken),
           attempts := w.attempts[w.nextToken := Attempt(id, false, 0, None, false)],
           nextToken := w.nextToken + 1)
      else w
    case Begin(t) =>
      if t in w.attempts && !w.attempts[t].begun then
        w.(db := w.db.(row := BegunRow(w.db.row, t, w.attempts[t].id)),
           attempts := w.attempts[t := w.attempts[t].(begun := true)])
      else w
    case Renew(t, lease) =>
      if Live(w, t) then w.(db := w.db.(row := RenewedRow(w.db.row, t, w.now + lease))) else w
    case CountRound(t) =>
      // The lease is asserted in one transaction, the count written in a later one.
      if Live(w, t) && Renewable(w.db.row, t) then
        w.(attempts := w.attempts[t := w.attempts[t].(roundsUsed := w.attempts[t].roundsUsed + 1)])
      else w
    case StartCall(t) =>
      if Live(w, t) then
        w.(db := w.db.(row := CountedRow(w.db.row, t, w.attempts[t].roundsUsed)))
      else w
    case Reason(t, why) =>
      if Live(w, t) then w.(attempts := w.attempts[t := w.attempts[t].(reason := why)]) else w
    case Store(t, proposal, cap, override, warning) =>
      if Live(w, t) && StoreStatus(override) && Storable(w.db, t, proposal, cap) then
        w.(db := Stored(w.db, proposal, w.nextTrack, override, warning),
           nextTrack := w.nextTrack + |proposal.tracks|,
           commits := w.commits + [t])
      else w
    case MarkTerminal(t, status, code) =>
      if Live(w, t) && TerminalStatus(status) then
        w.(db := w.db.(row := TerminalRow(w.db.row, t, status, code)))
      else w
    case Finish(t) =>
      if Live(w, t) then
        var a := w.attempts[t];
        w.(db := w.db.(row := FinishedRow(w.db.row, t, a.id, a.roundsUsed, a.reason)),
           attempts := w.attempts[t := a.(finished := true)])
      else w
    case Approve(ids, newJobs, active) =>
      if Approvable(w.db, ids, active) && newJobs.Keys == Missing(w.db, ids) then
        w.(db := Approved(w.db, ids, newJobs))
      else w
    case FailTask(code) =>
      w.(db := w.db.(row := w.db.row.(status := Failed, errorCode := Some(code))))
    case AutoQueue => w.(db := w.db.(row := w.db.row.(status := AutoQueued)))
  }

  ghost function Run(w: World, steps: seq<Step>): World {
    if steps == [] then w else Next(Run(w, steps[..|steps| - 1]), steps[|steps| - 1])
  }

  predicate Closed(row: Row) {
    row.leaseToken.None? && row.status != Pending && row.status != Orchestrating
  }

  ghost predicate Inv(w: World) {
    && (forall t :: t in w.attempts ==> t < w.nextToken)
    && DistinctIds(w)
    && (w.db.row.attemptId.Some? ==> UsedId(w, w.db.row.attemptId.value))
    && (if w.lastClaim.None? then UnclaimedInv(w) else HolderInv(w, w.lastClaim.value))
    && CommitInv(w)
  }

  ghost predicate DistinctIds(w: World) {
    forall t, u :: t in w.attempts && u in w.attempts && w.attempts[t].id == w.attempts[u].id ==> t == u
  }

  predicate UnclaimedInv(w: World) {
    && w.attempts == map[]
    && w.db.row.leaseToken.None?
    && w.db.row.attemptId.None?
    && w.db.row.status != Orchestrating
  }

  /** What the row owes to the latest claimant `t`: its token until it is cleared, and from
      the moment it has begun, its attempt id, rounds and reason. */
  predicate HolderInv(w: World, t: Token) {
    var row := w.db.row;
    t in w.attempts &&
    var a := w.attempts[t];
    && row.status != Pending
    && (row.leaseToken == Some(t) || (Closed(row) && a.begun))
    && (if a.begun then
          && row.attemptId == Some(a.id)
          && row.modelRoundsUsed.Some?
          && row.modelRoundsUsed.value <= a.roundsUsed
          && (if a.finished then
                row.modelRoundsUsed == Some(a.roundsUsed) && row.terminationReason == a.reason
              else row.terminationReason.None?)
        else
          && row.attemptId != Some(a.id)
          && a == Attempt(a.id, false, 0, None, false))
  }

  /** Nothing exists before the first commit, and nothing can commit after it. */
  predicate CommitInv(w: World) {
    && (w.commits == [] ==> w.db.tracks == map[] && w.db.jobs == map[])
    && (w.commits != [] ==> |w.commits| == 1 && w.lastClaim == Some(w.commits[0]) && Closed(w.db.row))
    && w.db.jobs.Keys <= w.db.tracks.Keys
  }

  lemma UsedIdsGrow(w: World, v: World)
    requires forall t :: t in w.attempts ==> t in v.attempts && v.attempts[t].id == w.attempts[t].id
    ensures forall id :: UsedId(w, id) ==> UsedId(v, id)
  {
    forall id | UsedId(w, id) ensures UsedId(v, id) {
      var t :| t in w.attempts && w.attempts[t].id == id;
      assert t in v.attempts && v.attempts[t].id == id;
    }
  }

  lemma ClaimKeepsInv(w: World, lease: nat, id: AttemptId)
    requires Inv(w)
    ensures Inv(Next(w, Claim(lease, id)))
  {
    var v := Next(w, Claim(lease, id));
    UsedIdsGrow(w, v);
  }

  lemma BeginKeepsInv(w: World, t: Token)
    requires Inv(w)
    ensures Inv(Next(w, Begin(t)))
  {
    var v := Next(w, Begin(t));
    UsedIdsGrow(w, v);
    if v != w {
      assert UsedId(v, w.attempts[t].id);
    }
  }

  lemma AttemptKeepsInv(w: World, step: Step)
    requires Inv(w)
    requires step.Renew? || step.CountRound? || step.StartCall? || step.Reason?
    ensures Inv(Next(w, step))
  {
    var v := Next(w, step);
    UsedIdsGrow(w, v);
    assert DistinctIds(v);
  }

  lemma FinishKeepsInv(w: World, t: Token)
    requires Inv(w)
    ensures Inv(Next(w, Finish(t)))
  {
    var v := Next(w, Finish(t));
    UsedIdsGrow(w, v);
    assert DistinctIds(v);
  }

  lemma ReleaseKeepsInv(w: World, step: Step)
    requires Inv(w)
    requires step.Store? || step.MarkTerminal?
    ensures Inv(Next(w, step))
  {
    UsedIdsGrow(w, Next(w, step));
  }

  lemma ApproveKeepsInv(w: World, step: Step)
    requires Inv(w) && step.Approve?
    ensures Inv(Next(w, step))
  {
    UsedIdsGrow(w, Next(w, step));
  }

  lemma OutsideKeepsInv(w: World, step: Step)
    requires Inv(w) && (step.Tick? || step.FailTask? || step.AutoQueue?)
    ensures Inv(Next(w, step))
  {
    UsedIdsGrow(w, Next(w, step));
  }

  lemma StepKeepsInv(w: World, step: Step)
    requires Inv(w)
    ensures Inv(Next(w, step))
  {
    match step
    case Claim(lease, id) => ClaimKeepsInv(w, lease, id);
    case Begin(t) => BeginKeepsInv(w, t);
    case Renew(_, _) => AttemptKeepsInv(w, step);
    case CountRound(_) => AttemptKeepsInv(w, step);
    case StartCall(_) => AttemptKeepsInv(w, step);
    case Reason(_, _) => AttemptKeepsInv(w, step);
    case Finish(t) => FinishKeepsInv(w, t);
    case Store(_, _, _, _, _) => ReleaseKeepsInv(w, step);
    case MarkTerminal(_, _, _) => ReleaseKeepsInv(w, step);
    case Approve(_, _, _) => ApproveKeepsInv(w, step);
    case _ => OutsideKeepsInv(w, step);
  }

  lemma {:induction false} RunKeepsInv(now: int, steps: seq<Step>)
    ensures Inv(Run(Init(now), steps))
  {
    if steps != [] {
      var n := |steps| - 1;
      RunKeepsInv(now, steps[..n]);
      StepKeepsInv(Run(Init(now), steps[..n]), steps[n]);
    }
  }

  // ---------- What holds over whole runs ----------

  /** Whatever the attempts, takeovers, approvals and failures do, the request commits at
      most one proposal, and once it has it can never be claimed again. */
  lemma AtMostOneCommit(now: int, steps: seq<Step>)
    ensures var w := Run(Init(now), steps);
            && |w.commits| <= 1
            && (w.commits != [] ==> forall at :: !Claimable(w.db.row, at))
  {
    RunKeepsInv(now, steps);
  }

  /** A store that goes through never deletes a track a download job refers to, because
      there was no job before it; and no other step removes a track at all. */
  lemma JobTracksSurvive(now: int, steps: seq<Step>, step: Step)
    ensures var w := Run(Init(now), steps);
            var v := Next(w, step);
            && w.db.jobs.Keys <= v.db.jobs.Keys
            && (forall id :: id in w.db.jobs ==>
                  id in w.db.tracks && id in v.db.tracks && v.db.tracks[id] == w.db.tracks[id]
                  && v.db.jobs[id] == w.db.jobs[id])
  {
    RunKeepsInv(now, steps);
    JobsStay(Run(Init(now), steps), step, Next(Run(Init(now), steps), step));
  }

  /** Storing replaces the tracks, but then there are no jobs yet. */
  lemma StoringFindsNoJobs(w: World, step: Step, v: World)
    requires Inv(w) && step.Store? && v == Next(w, step) && v != w
    ensures w.db.jobs == map[] && v.db.jobs == map[]
  {}

  lemma OtherStepsKeepTracks(w: World, step: Step, v: World)
    requires !step.Store? && !step.Approve? && v == Next(w, step)
    ensures v.db.tracks == w.db.tracks && v.db.jobs == w.db.jobs
  {}

  lemma ApprovalsKeepTracks(w: World, step: Step, v: World)
    requires step.Approve? && v == Next(w, step)
    ensures v.db.tracks == w.db.tracks && w.db.jobs.Keys <= v.db.jobs.Keys
    ensures forall id :: id in w.db.jobs ==> v.db.jobs[id] == w.db.jobs[id]
  {}

  lemma JobsStay(w: World, step: Step, v: World)
    requires Inv(w) && v == Next(w, step)
    ensures w.db.jobs.Keys <= v.db.jobs.Keys && w.db.jobs.Keys <= w.db.tracks.Keys
    ensures forall id :: id in w.db.jobs ==>
              id in v.db.tracks && v.db.tracks[id] == w.db.tracks[id] && v.db.jobs[id] == w.db.jobs[id]
  {
    if step.Store? {
      if v != w { StoringFindsNoJobs(w, step, v); }
    } else if step.Approve? {
      ApprovalsKeepTracks(w, step, v);
    } else {
      OtherStepsKeepTracks(w, step, v);
    }
  }

  predicate ActsFor(step: Step, t: Token) {
    match step
    case Begin(u) => u == t
    case Renew(u, _) => u == t
    case CountRound(u) => u == t
    case StartCall(u) => u == t
    case Reason(u, _) => u == t
    case Store(u, _, _, _, _) => u == t
    case MarkTerminal(u, _, _) => u == t
    case Finish(u) => u == t
    case _ => false
  }

  lemma RunsOn(w: World, steps: seq<Step>, step: Step)
    ensures Run(w, steps + [step]) == Next(Run(w, steps), step)
  {
    assert (steps + [step])[..|steps|] == steps;
  }

  predicate TakenOver(w: World, t: Token) {
    t in w.attempts && w.lastClaim != Some(t)
  }

  lemma TakenOverStays(w: World, step: Step, t: Token)
    requires Inv(w) && TakenOver(w, t)
    ensures TakenOver(Next(w, step), t)
  {}

  /** Once taken over, taken over for good. */
  lemma {:induction false} TakenOverForGood(now: int, steps: seq<Step>, more: seq<Step>, t: Token)
    requires TakenOver(Run(Init(now), steps), t)
    ensures TakenOver(Run(Init(now), steps + more), t)
  {
    if more == [] {
      assert steps + more == steps;
    } else {
      var n := |more| - 1;
      TakenOverForGood(now, steps, more[..n], t);
      RunKeepsInv(now, steps + more[..n]);
      RunsOn(Init(now), steps + more[..n], more[n]);
      assert (steps + more[..n]) + [more[n]] == steps + more;
      TakenOverStays(Run(Init(now), steps + more[..n]), more[n], t);
    }
  }

  /** From the moment a later attempt claims the lease of `t`, no step of `t` changes the
      database again, however far the run has gone on: not even between the new claim and
      the write of the new attempt id. */
  lemma TakenOverAttemptIsInert(now: int, steps: seq<Step>, more: seq<Step>, t: Token, step: Step)
    requires TakenOver(Run(Init(now), steps), t) && ActsFor(step, t)
    ensures var v := Run(Init(now), steps + more);
            Next(v, step).db == v.db
  {
    TakenOverForGood(now, steps, more, t);
    RunKeepsInv(now, steps + more);
  }

  /** A finished request carries the attempt id, the rounds and the reason of the attempt
      that finished it, which is the last one that claimed it. */
  lemma FinisherIsRecorded(now: int, steps: seq<Step>)
    requires var w := Run(Init(now), steps);
             w.lastClaim.Some? && w.db.row.leaseToken.None?
    ensures var w := Run(Init(now), steps);
            var row := w.db.row;
            && w.lastClaim.value in w.attempts
            && var a := w.attempts[w.lastClaim.value];
            && a.begun
            && row.attemptId == Some(a.id)
            && (a.finished ==> row.modelRoundsUsed == Some(a.roundsUsed)
                               && row.terminationReason == a.reason)
            && (w.commits != [] ==> w.commits == [w.lastClaim.value])
  {
    RunKeepsInv(now, steps);
  }
}

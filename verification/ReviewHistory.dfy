/** Whole runs of the review-decision machine: what every step keeps, when a resubmission is
    a replay, and what a later reader rebuilds from an accepted bundle. */
module ReviewHistory {
  import opened Wrappers
  import opened Payloads
  import opened ReviewDecisions

  /** The job and, as history, the bundles accepted so far. */
  datatype World = World(job: Job, accepted: seq<Bundle>)

  /** The columns of the job that the repair looks at beside its review. */
  datatype Hold = Hold(legacyError: bool, leased: bool, cancelling: bool)

  /** A source candidate as the repair finds it. `evidence` says whether the evidence it came from, if
      any, is of an executable kind. */
  datatype SourceRow = SourceRow(
    ofThisJob: bool,
    policyAllowed: bool,
    probeValid: bool,
    superseded: bool,
    failed: bool,
    evidence: Option<bool>,
    knownProvider: bool,
    extractorAgrees: bool,
    contradicted: bool,
    urlAllowed: bool)

  datatype Step =
    | Create(category: Category, options: seq<Payload>, id: DecisionId, first: OptionId)
    | Record(category: Category, candidates: seq<Payload>, payload: Stored, authority: Authority, id: DecisionId)
    | Submitted(sub: Submission, order: seq<DecisionId>)
    | Repair(hold: Hold, rows: map<string, SourceRow>, candidate: string)
    | Park(status: Status)
    | Probe(executable: set<string>)

  // ---------- The repair of an obsolete empty review ----------

  /** The source the repair keeps: the active one, or that of the latest selected source. */
  ghost predicate Retained(job: Job, candidate: string) {
    if job.source.Some? then candidate == job.source.value
    else exists d :: d in Ids(job, Selected) && LatestSource(job, d)
                     && job.decisions[d].selected.Some?
                     && Get(job.decisions[d].selected.value.fields, "source_candidate_id") == Text(candidate)
  }

  ghost predicate LatestSource(job: Job, d: DecisionId) {
    && d in Ids(job, Selected) && job.decisions[d].category == AcquisitionSource
    && forall e :: e in Ids(job, Selected) && job.decisions[e].category == AcquisitionSource ==>
         job.decisions[e].revision <= job.decisions[d].revision
  }

  predicate Retainable(r: SourceRow) {
    && r.ofThisJob && r.policyAllowed && r.probeValid && !r.superseded && !r.failed && r.evidence != Some(false)
    && r.knownProvider && r.extractorAgrees && !r.contradicted && r.urlAllowed
  }

  ghost predicate Obsolete(job: Job, hold: Hold, rows: map<string, SourceRow>, candidate: string) {
    && job.status == NeedsReview && hold.legacyError && !hold.leased && !hold.cancelling
    && Ids(job, Pending) != {}
    && (forall d :: d in Ids(job, Pending) ==> job.decisions[d].fingerprint == CandidateSet(AcquisitionSource, [])
                                               && job.decisions[d].category == AcquisitionSource
                                               && job.decisions[d].selected.None?)
    && (forall o :: o in job.options ==> job.options[o].decision !in Ids(job, Pending))
    && Retained(job, candidate) && candidate in rows && Retainable(rows[candidate])
  }

  function Repaired(job: Job, candidate: string): Job {
    job.(decisions := map d | d in job.decisions ::
           if job.decisions[d].phase == Pending then Supersede(job.decisions[d]) else job.decisions[d],
         source := Some(candidate), status := Queued)
  }

  // ---------- Steps ----------

  ghost function Next(w: World, step: Step): World {
    match step
    case Create(category, options, id, first) =>
      if FreshIds(w.job, id, first) && CreatePending(w.job, category, options, id, first).Some? then
        w.(job := CreatePending(w.job, category, options, id, first).value)
      else w
    case Record(category, candidates, payload, authority, id) =>
      if id !in w.job.decisions then
        w.(job := RecordSelected(w.job, category, candidates, payload, authority, id))
      else w
    case Submitted(sub, order) =>
      if Visits(w.job, order) && Submit(w.job, sub, order).Applied? then
        World(Submit(w.job, sub, order).job, w.accepted + [BundleFrom(sub, order)])
      else w
    case Repair(hold, rows, candidate) =>
      if Obsolete(w.job, hold, rows, candidate) then w.(job := Repaired(w.job, candidate)) else w
    case Park(status) => w.(job := w.job.(status := status))
    case Probe(executable) => w.(job := w.job.(executable := executable))
  }

  ghost function Run(w: World, steps: seq<Step>): World {
    if steps == [] then w else Next(Run(w, steps[..|steps| - 1]), steps[|steps| - 1])
  }

  // ---------- The invariant ----------

  ghost predicate HasRevision(job: Job, r: nat) {
    exists d :: d in job.decisions && job.decisions[d].revision == r
  }

  /** Decision revisions are exactly 1..revision. */
  ghost predicate RevisionsInv(job: Job) {
    && (forall d :: d in job.decisions ==> 1 <= job.decisions[d].revision <= job.revision)
    && (forall d, e | d in job.decisions && e in job.decisions && d != e ::
          job.decisions[d].revision != job.decisions[e].revision)
    && (forall r :: 1 <= r <= job.revision ==> HasRevision(job, r))
  }

  /** A pending decision is the newest of its category, hence the only pending one. */
  ghost predicate PendingInv(job: Job) {
    forall p, d :: p in job.decisions && d in job.decisions && job.decisions[p].phase == Pending
                   && job.decisions[d].category == job.decisions[p].category ==>
                     job.decisions[d].revision <= job.decisions[p].revision
  }

  predicate OptionInv(job: Job, o: OptionId)
    requires o in job.options
  {
    var option := job.options[o];
    && option.decision in job.decisions
    && option.revision == job.decisions[option.decision].revision
    && option.kind == job.decisions[option.decision].category
  }

  ghost predicate OptionsInv(job: Job) {
    forall o :: o in job.options ==> OptionInv(job, o)
  }

  ghost predicate Shape(job: Job) {
    RevisionsInv(job) && PendingInv(job) && OptionsInv(job)
  }

  /** The bundle is normalised, and carries at most one correction. */
  ghost predicate NormalBundle(b: Bundle) {
    && Normalize(b.correction) == Some(b.correction)
    && forall d :: d in b.choices ==>
         b.choices[d].correction.None? || b.choices[d].correction == b.correction
  }

  /** Decision `d` stands as bundle `b` left it. */
  ghost predicate Recorded(job: Job, b: Bundle, d: DecisionId)
    requires d in b.choices
  {
    var o := b.choices[d].option;
    && Offered(job, d, o)
    && job.options[o].chosen
    && job.decisions[d].phase == Selected
    && job.decisions[d].decidedBy == Some(User)
    && job.decisions[d].selected
       == Some(StoredSelection(b, d, job.decisions[d].category, job.options[o].payload))
  }

  ghost predicate AcceptedInv(w: World) {
    && (forall b :: b in w.accepted ==> NormalBundle(b) && b.choices != map[])
    && (forall b, d :: b in w.accepted && d in b.choices ==> Recorded(w.job, b, d))
  }

  /** Only an accepted bundle ever chooses an option. */
  ghost predicate ChosenInv(w: World) {
    forall o :: o in w.job.options && w.job.options[o].chosen ==> ChosenBy(w, o)
  }

  ghost predicate ChosenBy(w: World, o: OptionId)
    requires o in w.job.options
  {
    exists b :: b in w.accepted && w.job.options[o].decision in b.choices
                && b.choices[w.job.options[o].decision].option == o
  }

  ghost predicate Inv(w: World) {
    && Shape(w.job)
    && AcceptedInv(w) && ChosenInv(w)
  }

  // ---------- Settled rows never change ----------

  /** Decisions and options stay, and those of a decision that is not pending stay as they
      are. */
  ghost predicate Settled(was: Job, job: Job) {
    && (forall d :: d in was.decisions ==> d in job.decisions && SettledDecision(was.decisions[d], job.decisions[d]))
    && (forall o :: o in was.options ==> o in job.options && SettledOption(was, was.options[o], job.options[o]))
  }

  predicate SettledDecision(was: Decision, d: Decision) {
    && d.category == was.category && d.revision == was.revision && d.fingerprint == was.fingerprint
    && (was.phase != Pending ==> d == was)
  }

  predicate SettledOption(job: Job, was: ReviewOption, o: ReviewOption) {
    && o == was.(chosen := o.chosen)
    && (was.decision in job.decisions && job.decisions[was.decision].phase != Pending ==> o == was)
  }

  ghost predicate ChoosesNothing(was: Job, job: Job) {
    forall o :: o in job.options && job.options[o].chosen ==> o in was.options && was.options[o].chosen
  }

  lemma SettledKeepsRecorded(was: Job, job: Job, b: Bundle, d: DecisionId)
    requires d in b.choices && Recorded(was, b, d) && Settled(was, job)
    ensures Recorded(job, b, d)
  {
    assert SettledDecision(was.decisions[d], job.decisions[d]);
    assert SettledOption(was, was.options[b.choices[d].option], job.options[b.choices[d].option]);
  }

  lemma SettledKeepsHistory(w: World, job: Job)
    requires AcceptedInv(w) && ChosenInv(w) && Settled(w.job, job) && ChoosesNothing(w.job, job)
    ensures AcceptedInv(w.(job := job)) && ChosenInv(w.(job := job))
  {
    forall b, d | b in w.accepted && d in b.choices ensures Recorded(job, b, d) {
      SettledKeepsRecorded(w.job, job, b, d);
    }
    forall o | o in job.options && job.options[o].chosen ensures ChosenBy(w.(job := job), o) {
      assert ChosenBy(w, o);
    }
  }

  // ---------- Raising, recording and repairing keep the shape ----------

  ghost predicate SameRevision(was: Job, job: Job) {
    forall d :: d in was.decisions ==> d in job.decisions && job.decisions[d].revision == was.decisions[d].revision
  }

  lemma RevisionsGrow(was: Job, job: Job, r: nat)
    requires HasRevision(was, r) && SameRevision(was, job)
    ensures HasRevision(job, r)
  {
    var d :| d in was.decisions && was.decisions[d].revision == r;
    assert d in job.decisions;
  }

  lemma NewestKeepsRevisions(was: Job, job: Job, id: DecisionId)
    requires RevisionsInv(was) && id !in was.decisions && SameRevision(was, job)
    requires job.revision == was.revision + 1
    requires job.decisions.Keys == was.decisions.Keys + {id} && job.decisions[id].revision == job.revision
    ensures RevisionsInv(job)
  {
    assert id in job.decisions;
    forall r | 1 <= r <= job.revision ensures HasRevision(job, r) {
      if r <= was.revision {
        RevisionsGrow(was, job, r);
      }
    }
  }

  lemma SupersedingSettles(was: Job, category: Category)
    ensures var ds := SupersedeCategory(was.decisions, category);
            && ds.Keys == was.decisions.Keys
            && (forall d :: d in ds ==> SettledDecision(was.decisions[d], ds[d]))
            && (forall d :: d in ds && ds[d].phase == Pending ==>
                  was.decisions[d].phase == Pending && ds[d].category != category)
  {
  }

  lemma {:induction false} OptionRowAt(options: seq<Payload>, d: DecisionId, category: Category,
                                       revision: nat, first: OptionId, o: OptionId)
    requires first <= o < first + |options|
    ensures OptionRows(options, d, category, revision, first)[o]
            == OptionRow(options[o - first], o - first + 1, d, category, revision)
  {
    var n := |options| - 1;
    if o < first + n {
      OptionRowAt(options[..n], d, category, revision, first, o);
    }
  }

  lemma CreateChoosesNothing(job: Job, category: Category, options: seq<Payload>, id: DecisionId, first: OptionId,
                             next: Job)
    requires FreshIds(job, id, first) && CreatePending(job, category, options, id, first) == Some(next)
    ensures ChoosesNothing(job, next)
  {
    forall o | o in next.options && next.options[o].chosen ensures o in job.options && job.options[o].chosen {
      if o !in job.options {
        OptionRowAt(options, id, category, job.revision + 1, first, o);
      }
    }
  }

  lemma CreateSettles(job: Job, category: Category, options: seq<Payload>, id: DecisionId, first: OptionId, next: Job)
    requires FreshIds(job, id, first) && CreatePending(job, category, options, id, first) == Some(next)
    ensures Settled(job, next)
  {
    SupersedingSettles(job, category);
  }

  /** A new decision with the next revision, after its category was superseded. */
  lemma AddedKeepsShape(was: Job, job: Job, category: Category, id: DecisionId)
    requires RevisionsInv(was) && PendingInv(was) && id !in was.decisions
    requires job.revision == was.revision + 1 && id in job.decisions
    requires job.decisions[id].revision == job.revision && job.decisions[id].category == category
    requires job.decisions == SupersedeCategory(was.decisions, category)[id := job.decisions[id]]
    ensures RevisionsInv(job) && PendingInv(job)
  {
    SupersedingSettles(was, category);
    NewestKeepsRevisions(was, job, id);
  }

  /** The old options still fit their decisions, and the new ones fit the new decision. */
  lemma CreatedOptionsFit(job: Job, category: Category, options: seq<Payload>, id: DecisionId, first: OptionId,
                          next: Job)
    requires FreshIds(job, id, first) && CreatePending(job, category, options, id, first) == Some(next) && next != job
    requires OptionsInv(job)
    ensures OptionsInv(next)
  {
    forall o | o in next.options ensures OptionInv(next, o) {
      if o in job.options {
        assert OptionInv(job, o) && o < first;
      } else {
        OptionRowAt(options, id, category, next.revision, first, o);
      }
    }
  }

  lemma CreateKeepsShape(job: Job, category: Category, options: seq<Payload>, id: DecisionId, first: OptionId,
                         next: Job)
    requires FreshIds(job, id, first) && CreatePending(job, category, options, id, first) == Some(next) && Shape(job)
    ensures Shape(next)
  {
    if next != job {
      AddedKeepsShape(job, next, category, id);
      CreatedOptionsFit(job, category, options, id, first, next);
    }
  }

  lemma RecordSettles(job: Job, category: Category, candidates: seq<Payload>, payload: Stored,
                      authority: Authority, id: DecisionId)
    requires id !in job.decisions
    ensures var next := RecordSelected(job, category, candidates, payload, authority, id);
            Settled(job, next) && ChoosesNothing(job, next)
  {
    SupersedingSettles(job, category);
  }

  lemma RecordKeepsShape(job: Job, category: Category, candidates: seq<Payload>, payload: Stored,
                         authority: Authority, id: DecisionId)
    requires id !in job.decisions && Shape(job)
    ensures Shape(RecordSelected(job, category, candidates, payload, authority, id))
  {
    var next := RecordSelected(job, category, candidates, payload, authority, id);
    if next != job {
      AddedKeepsShape(job, next, category, id);
      forall o | o in next.options ensures OptionInv(next, o) {
        assert OptionInv(job, o);
      }
    }
  }

  lemma RepairSettles(job: Job, candidate: string)
    ensures Settled(job, Repaired(job, candidate)) && ChoosesNothing(job, Repaired(job, candidate))
  {
  }

  lemma RepairKeepsShape(job: Job, candidate: string)
    requires Shape(job)
    ensures Shape(Repaired(job, candidate))
  {
    var next := Repaired(job, candidate);
    forall r | 1 <= r <= job.revision ensures HasRevision(next, r) {
      RevisionsGrow(job, next, r);
    }
    forall o | o in next.options ensures OptionInv(next, o) {
      assert OptionInv(job, o);
    }
  }

  // ---------- Accepting a bundle ----------

  ghost predicate Distinct(order: seq<DecisionId>) {
    forall i, j :: 0 <= i < j < |order| ==> order[i] != order[j]
  }

  /** Option `o` is the one bundle `b` picks for a decision of `order`. */
  predicate Picked(job: Job, b: Bundle, order: seq<DecisionId>, o: OptionId)
    requires o in job.options
  {
    var d := job.options[o].decision;
    d in order && d in b.choices && b.choices[d].option == o
  }

  /** `job` after bundle `b` was applied to the decisions of `order`. */
  ghost predicate SelectedBy(was: Job, job: Job, b: Bundle, order: seq<DecisionId>) {
    && Refers(was, b, order)
    && job == was.(source := job.source, decisions := job.decisions, options := job.options)
    && job.decisions.Keys == was.decisions.Keys
    && job.options.Keys == was.options.Keys
    && (forall d :: d in was.decisions && d !in order ==> job.decisions[d] == was.decisions[d])
    && (forall d :: d in order ==> SelectedOne(was, job, b, d))
    && (forall o :: o in was.options ==>
          job.options[o] == was.options[o].(chosen := was.options[o].chosen || Picked(was, b, order, o)))
  }

  ghost predicate SelectedOne(was: Job, job: Job, b: Bundle, d: DecisionId)
    requires d in b.choices && d in was.decisions && job.decisions.Keys == was.decisions.Keys
  {
    && Offered(was, d, b.choices[d].option)
    && job.decisions[d] == was.decisions[d].(
         phase := Selected, decidedBy := Some(User),
         selected := Some(StoredSelection(b, d, was.decisions[d].category, was.options[b.choices[d].option].payload)))
  }

  lemma {:induction false} SelectAllSelects(was: Job, snapshot: Payload, b: Bundle, order: seq<DecisionId>)
    requires Refers(was, b, order) && Distinct(order)
    requires SelectAll(was, snapshot, b, order).Some?
    ensures SelectedBy(was, SelectAll(was, snapshot, b, order).value.0, b, order)
  {
    if order != [] {
      var n := |order| - 1;
      SelectAllSelects(was, snapshot, b, order[..n]);
      var (mid, s) := SelectAll(was, snapshot, b, order[..n]).value;
      var job := SelectAll(was, snapshot, b, order).value.0;
      SelectOneChanges(mid, s, b, order[n], job);
      OneMoreSelected(was, mid, job, b, order);
    }
  }

  /** Selecting decision `d` changes its own row, the row of the picked option and the source. */
  ghost predicate Changes(mid: Job, job: Job, b: Bundle, d: DecisionId)
    requires d in b.choices
  {
    var o := b.choices[d].option;
    && Offered(mid, d, o)
    && job == mid.(source := job.source, decisions := job.decisions, options := job.options)
    && job.decisions == mid.decisions[d := mid.decisions[d].(
         phase := Selected, decidedBy := Some(User),
         selected := Some(StoredSelection(b, d, mid.decisions[d].category, mid.options[o].payload)))]
    && job.options == mid.options[o := mid.options[o].(chosen := true)]
  }

  lemma SelectOneChanges(mid: Job, snapshot: Payload, b: Bundle, d: DecisionId, job: Job)
    requires d in b.choices && d in mid.decisions
    requires SelectOne(mid, snapshot, b, d).Some? && SelectOne(mid, snapshot, b, d).value.0 == job
    ensures Changes(mid, job, b, d)
  {}

  lemma PickedGrows(was: Job, b: Bundle, order: seq<DecisionId>, o: OptionId)
    requires order != [] && o in was.options
    ensures var n := |order| - 1;
            Picked(was, b, order, o) <==> Picked(was, b, order[..n], o) || Picked(was, b, [order[n]], o)
  {
    assert order == order[..|order| - 1] + [order[|order| - 1]];
  }

  /** The rows of the decisions after one more was selected. */
  lemma OneMoreDecided(was: Job, mid: Job, job: Job, b: Bundle, order: seq<DecisionId>, e: DecisionId)
    requires order != [] && Refers(was, b, order) && Distinct(order) && e in was.decisions
    requires SelectedBy(was, mid, b, order[..|order| - 1]) && Changes(mid, job, b, order[|order| - 1])
    ensures job.decisions.Keys == was.decisions.Keys
    ensures if e in order then SelectedOne(was, job, b, e) else job.decisions[e] == was.decisions[e]
  {
    var d, before := order[|order| - 1], order[..|order| - 1];
    assert d !in before && (e in order <==> e in before || e == d);
    if e in before { assert SelectedOne(was, mid, b, e); }
  }

  /** The rows of the options after one more was picked. */
  lemma OneMorePicked(was: Job, mid: Job, job: Job, b: Bundle, order: seq<DecisionId>, o: OptionId)
    requires order != [] && Refers(was, b, order) && o in was.options
    requires SelectedBy(was, mid, b, order[..|order| - 1]) && Changes(mid, job, b, order[|order| - 1])
    ensures job.options.Keys == was.options.Keys
    ensures job.options[o] == was.options[o].(chosen := was.options[o].chosen || Picked(was, b, order, o))
  {
    PickedGrows(was, b, order, o);
  }

  lemma OneMoreSelected(was: Job, mid: Job, job: Job, b: Bundle, order: seq<DecisionId>)
    requires order != [] && Refers(was, b, order) && Distinct(order)
    requires SelectedBy(was, mid, b, order[..|order| - 1]) && Changes(mid, job, b, order[|order| - 1])
    ensures SelectedBy(was, job, b, order)
  {
    assert order[|order| - 1] in order;
    OneMoreDecided(was, mid, job, b, order, order[|order| - 1]);
    forall e | e in was.decisions
      ensures if e in order then SelectedOne(was, job, b, e) else job.decisions[e] == was.decisions[e]
    {
      OneMoreDecided(was, mid, job, b, order, e);
    }
    OneMorePicked(was, mid, job, b, order, b.choices[order[|order| - 1]].option);
    forall o | o in was.options
      ensures job.options[o] == was.options[o].(chosen := was.options[o].chosen || Picked(was, b, order, o))
    {
      OneMorePicked(was, mid, job, b, order, o);
    }
  }

  lemma {:induction false} CorrectionsAre(choices: map<DecisionId, Choice>, order: seq<DecisionId>)
    requires forall d :: d in order ==> d in choices
    ensures forall d :: d in order && choices[d].correction.Some? ==>
              choices[d].correction.value in Corrections(choices, order)
    ensures forall c :: c in Corrections(choices, order) ==>
              exists d :: d in order && choices[d].correction == Some(c)
  {
    if order != [] {
      var n := |order| - 1;
      CorrectionsAre(choices, order[..n]);
    }
  }

  /** The first of at most one correction is the only one any choice has. */
  lemma OnlyCorrection(choices: map<DecisionId, Choice>, order: seq<DecisionId>, c: Option<Correction>)
    requires (forall d :: d in order <==> d in choices) && |Corrections(choices, order)| <= 1
    requires c == if Corrections(choices, order) == [] then None else Some(Corrections(choices, order)[0])
    ensures forall d :: d in choices ==> choices[d].correction.None? || choices[d].correction == c
    ensures c.Some? ==> exists d :: d in order && choices[d].correction == c
  {
    CorrectionsAre(choices, order);
    if c.Some? { assert c.value in Corrections(choices, order); }
  }

  lemma BundleIsNormal(sub: Submission, order: seq<DecisionId>)
    requires var byId := ById(sub.selections);
             && AllNormal(byId) && (forall d :: d in order <==> d in byId)
             && |Corrections(Choices(byId), order)| <= 1
    ensures NormalBundle(BundleFrom(sub, order))
  {
    var byId := ById(sub.selections);
    var b := BundleFrom(sub, order);
    OnlyCorrection(b.choices, order, b.correction);
    if b.correction.Some? {
      var d :| d in order && b.choices[d].correction == b.correction;
      NormalizeIsIdempotent(byId[d].correction);
    }
  }

  /** An accepted submission passed the checks, and all its decisions were selected. */
  lemma AcceptanceSelects(job: Job, sub: Submission, order: seq<DecisionId>, next: Job, b: Bundle)
    requires Visits(job, order) && Submit(job, sub, order) == Applied(next)
    requires Precheck(job, sub, order).None? && b == BundleFrom(sub, order)
    ensures Refers(job, b, order) && job.snapshot.Some? && SelectAll(job, job.snapshot.value, b, order).Some?
    ensures var selected := SelectAll(job, job.snapshot.value, b, order).value.0;
            next == selected.(status := Queued, snapshot := next.snapshot)
  {}

  lemma AcceptancePasses(job: Job, sub: Submission, order: seq<DecisionId>)
    requires Visits(job, order) && Submit(job, sub, order).Applied?
    ensures Ids(job, Pending) != {} && Precheck(job, sub, order).None?
    ensures |Corrections(Choices(ById(sub.selections)), order)| <= 1
  {}

  lemma AppliedFacts(job: Job, sub: Submission, order: seq<DecisionId>)
    requires Visits(job, order) && Submit(job, sub, order).Applied?
    ensures var b, next := BundleFrom(sub, order), Submit(job, sub, order).job;
            && b.choices.Keys == Ids(job, Pending) != {}
            && NormalBundle(b)
            && SelectedBy(job, next.(status := job.status, snapshot := job.snapshot), b, order)
  {
    AcceptancePasses(job, sub, order);
    BundleIsNormal(sub, order);
    var b := BundleFrom(sub, order);
    AcceptanceSelects(job, sub, order, Submit(job, sub, order).job, b);
    SelectAllSelects(job, job.snapshot.value, b, order);
  }

  lemma SelectedSettles(was: Job, job: Job, b: Bundle, order: seq<DecisionId>)
    requires Visits(was, order) && SelectedBy(was, job, b, order) && OptionsInv(was)
    ensures Settled(was, job) && forall d :: d in job.decisions ==> job.decisions[d].phase != Pending
  {
    forall d | d in was.decisions
      ensures SettledDecision(was.decisions[d], job.decisions[d]) && job.decisions[d].phase != Pending
    {
      if d in order {
        assert SelectedOne(was, job, b, d);
      }
    }
  }

  /** Rows that only settle keep their shape, when nothing is pending any more. */
  lemma SettlingKeepsShape(was: Job, job: Job)
    requires Shape(was) && Settled(was, job) && job.revision == was.revision
    requires job.decisions.Keys == was.decisions.Keys && job.options.Keys == was.options.Keys
    requires forall d :: d in job.decisions ==> job.decisions[d].phase != Pending
    ensures Shape(job)
  {
    forall r | 1 <= r <= job.revision ensures HasRevision(job, r) {
      RevisionsGrow(was, job, r);
    }
    forall o | o in job.options ensures OptionInv(job, o) {
      assert OptionInv(was, o);
    }
  }

  lemma SelectedKeepsShape(was: Job, job: Job, b: Bundle, order: seq<DecisionId>)
    requires Shape(was) && Visits(was, order) && SelectedBy(was, job, b, order)
    ensures Shape(job) && Settled(was, job)
  {
    SelectedSettles(was, job, b, order);
    SettlingKeepsShape(was, job);
  }

  lemma SelectedIsRecorded(was: Job, job: Job, b: Bundle, order: seq<DecisionId>, d: DecisionId)
    requires SelectedBy(was, job, b, order) && d in order
    ensures Recorded(job, b, d)
  {
    assert SelectedOne(was, job, b, d);
  }

  lemma AcceptedGrows(w: World, job: Job, b: Bundle, order: seq<DecisionId>)
    requires AcceptedInv(w) && NormalBundle(b) && b.choices != map[]
    requires forall d :: d in b.choices ==> d in order
    requires SelectedBy(w.job, job, b, order) && Settled(w.job, job)
    ensures AcceptedInv(World(job, w.accepted + [b]))
  {
    forall c, d | c in w.accepted + [b] && d in c.choices ensures Recorded(job, c, d) {
      if c in w.accepted {
        SettledKeepsRecorded(w.job, job, c, d);
      } else {
        SelectedIsRecorded(w.job, job, b, order, d);
      }
    }
  }

  lemma ChosenGrows(w: World, job: Job, b: Bundle, order: seq<DecisionId>)
    requires ChosenInv(w) && SelectedBy(w.job, job, b, order)
    ensures ChosenInv(World(job, w.accepted + [b]))
  {
    var v := World(job, w.accepted + [b]);
    forall o | o in job.options && job.options[o].chosen ensures ChosenBy(v, o) {
      if w.job.options[o].chosen {
        assert ChosenBy(w, o);
        var c :| c in w.accepted && w.job.options[o].decision in c.choices
                 && c.choices[w.job.options[o].decision].option == o;
        assert c in v.accepted;
      } else {
        assert b in v.accepted && Picked(w.job, b, order, o);
      }
    }
  }

  lemma ReviewKeepsInv(w: World, sub: Submission, order: seq<DecisionId>)
    requires Inv(w) && Visits(w.job, order) && Submit(w.job, sub, order).Applied?
    ensures var v := World(Submit(w.job, sub, order).job, w.accepted + [BundleFrom(sub, order)]);
            Inv(v) && Settled(w.job, v.job)
  {
    var next, b := Submit(w.job, sub, order).job, BundleFrom(sub, order);
    var job := next.(status := w.job.status, snapshot := w.job.snapshot);
    AppliedFacts(w.job, sub, order);
    SelectedKeepsShape(w.job, job, b, order);
    AcceptedGrows(w, job, b, order);
    ChosenGrows(w, job, b, order);
    SameRows(World(job, w.accepted + [b]), next);
  }

  /** Status, snapshot, source and candidates are no part of the invariant. */
  lemma SameRows(w: World, job: Job)
    requires Inv(w)
    requires job.decisions == w.job.decisions && job.options == w.job.options && job.revision == w.job.revision
    ensures Inv(w.(job := job)) && Settled(w.job, job)
  {
    forall r | 1 <= r <= job.revision ensures HasRevision(job, r) {
      RevisionsGrow(w.job, job, r);
    }
    assert Settled(w.job, job);
    SettledKeepsHistory(w, job);
    forall o | o in job.options ensures OptionInv(job, o) {
      assert OptionInv(w.job, o);
    }
  }

  /** What every step keeps. */
  ghost predicate Keeps(w: World, v: World) {
    Inv(v) && Settled(w.job, v.job)
  }

  lemma CreateKeepsInv(w: World, category: Category, options: seq<Payload>, id: DecisionId, first: OptionId, v: World)
    requires Inv(w) && FreshIds(w.job, id, first) && v == w.(job := v.job)
    requires CreatePending(w.job, category, options, id, first) == Some(v.job)
    ensures Keeps(w, v)
  {
    CreateSettles(w.job, category, options, id, first, v.job);
    CreateChoosesNothing(w.job, category, options, id, first, v.job);
    CreateKeepsShape(w.job, category, options, id, first, v.job);
    SettledKeepsHistory(w, v.job);
  }

  lemma RecordKeepsInv(w: World, category: Category, candidates: seq<Payload>, payload: Stored,
                       authority: Authority, id: DecisionId, v: World)
    requires Inv(w) && id !in w.job.decisions && v == w.(job := v.job)
    requires v.job == RecordSelected(w.job, category, candidates, payload, authority, id)
    ensures Keeps(w, v)
  {
    RecordSettles(w.job, category, candidates, payload, authority, id);
    RecordKeepsShape(w.job, category, candidates, payload, authority, id);
    SettledKeepsHistory(w, v.job);
  }

  lemma RepairKeepsInv(w: World, candidate: string, v: World)
    requires Inv(w) && v == w.(job := Repaired(w.job, candidate))
    ensures Keeps(w, v)
  {
    RepairSettles(w.job, candidate);
    RepairKeepsShape(w.job, candidate);
    SettledKeepsHistory(w, v.job);
  }

  lemma NothingKeepsInv(w: World)
    requires Inv(w)
    ensures Keeps(w, w)
  {}

  /** A step that is refused does nothing. */
  ghost predicate Refuses(w: World, step: Step) {
    match step
    case Create(category, options, id, first) =>
      !FreshIds(w.job, id, first) || CreatePending(w.job, category, options, id, first).None?
    case Record(_, _, _, _, id) => id in w.job.decisions
    case Submitted(sub, order) => !(Visits(w.job, order) && Submit(w.job, sub, order).Applied?)
    case Repair(hold, rows, candidate) => !Obsolete(w.job, hold, rows, candidate)
    case _ => false
  }

  lemma RefusedIsNothing(w: World, step: Step)
    requires Refuses(w, step)
    ensures Next(w, step) == w
  {}

  lemma StepDoneKeepsInv(w: World, step: Step, v: World)
    requires Inv(w) && !Refuses(w, step) && v == Next(w, step)
    ensures Keeps(w, v)
  {
    match step
    case Create(category, options, id, first) => CreateKeepsInv(w, category, options, id, first, v);
    case Record(category, candidates, payload, authority, id) =>
      RecordKeepsInv(w, category, candidates, payload, authority, id, v);
    case Submitted(sub, order) => ReviewKeepsInv(w, sub, order);
    case Repair(_, _, candidate) => RepairKeepsInv(w, candidate, v);
    case Park(_) => SameRows(w, v.job);
    case Probe(_) => SameRows(w, v.job);
  }

  lemma StepKeepsInv(w: World, step: Step)
    requires Inv(w)
    ensures Inv(Next(w, step)) && Settled(w.job, Next(w, step).job)
  {
    if Refuses(w, step) {
      RefusedIsNothing(w, step);
      NothingKeepsInv(w);
    } else {
      StepDoneKeepsInv(w, step, Next(w, step));
    }
  }
}

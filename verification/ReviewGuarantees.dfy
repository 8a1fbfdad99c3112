/** What the review-decision machine promises over every run. */
module ReviewGuarantees {
  import opened Wrappers
  import opened Payloads
  import opened ReviewDecisions
  import opened ReviewHistory

  // ---------- Where runs start ----------

  function NewJob(snapshot: Option<Payload>): Job {
    Job(Status.Queued, 0, 0, None, snapshot, map[], map[], {})
  }

  /** A job left behind by an older release: one pending source review without options. */
  function LegacyJob(source: string): Job {
    var empty := Decision(AcquisitionSource, CandidateSet(AcquisitionSource, []), 1, Pending, 1, None, None);
    NewJob(None).(status := NeedsReview, revision := 1, rounds := 1, source := Some(source),
                  decisions := map[0 := empty])
  }

  /** A job before anything was accepted: a new one, or one left behind by an older release. */
  ghost predicate Initial(w: World) {
    && w.accepted == []
    && ((exists snapshot :: w.job == NewJob(snapshot)) || (exists source :: w.job == LegacyJob(source)))
  }

  lemma LegacyKeepsInv(source: string)
    ensures Inv(World(LegacyJob(source), []))
  {
    assert 0 in LegacyJob(source).decisions;
    assert HasRevision(LegacyJob(source), 1);
  }

  lemma StartsKeepInv(w: World)
    requires Initial(w)
    ensures Inv(w)
  {
    if source :| w.job == LegacyJob(source) { LegacyKeepsInv(source); }
  }

  lemma {:induction false} RunKeepsInv(w: World, steps: seq<Step>)
    requires Inv(w)
    ensures Inv(Run(w, steps))
  {
    if steps != [] {
      var n := |steps| - 1;
      RunKeepsInv(w, steps[..n]);
      StepKeepsInv(Run(w, steps[..n]), steps[n]);
    }
  }

  // ---------- Revisions, pending decisions, fingerprints ----------

  /** The decision revisions are exactly 1..revision, each used once, and a category has at most one
      pending decision, its newest. */
  ghost predicate ExactRevisions(job: Job) {
    && (forall r: nat :: HasRevision(job, r) <==> 1 <= r <= job.revision)
    && (forall d, e | d in job.decisions && e in job.decisions && d != e ::
          job.decisions[d].revision != job.decisions[e].revision)
    && (forall p, d | p in Ids(job, Pending) && d in job.decisions && d != p
                      && job.decisions[d].category == job.decisions[p].category ::
          job.decisions[d].phase != Pending && job.decisions[d].revision < job.decisions[p].revision)
  }

  /** Revisions stay exact over any run. */
  lemma RevisionsAreExact(w: World, steps: seq<Step>)
    requires Inv(w)
    ensures ExactRevisions(Run(w, steps).job)
  {
    RunKeepsInv(w, steps);
  }

  /** In particular over every run of a new job or of one left behind. */
  lemma EveryRunIsExact(w: World, steps: seq<Step>)
    requires Initial(w)
    ensures ExactRevisions(Run(w, steps).job)
  {
    StartsKeepInv(w);
    RevisionsAreExact(w, steps);
  }

  lemma SettledTransitive(a: Job, b: Job, c: Job)
    requires Settled(a, b) && Settled(b, c)
    ensures Settled(a, c)
  {
    forall d | d in a.decisions
      ensures d in c.decisions && SettledDecision(a.decisions[d], c.decisions[d])
    {
      assert SettledDecision(a.decisions[d], b.decisions[d]) && SettledDecision(b.decisions[d], c.decisions[d]);
    }
    forall o | o in a.options ensures o in c.options && SettledOption(a, a.options[o], c.options[o]) {
      assert SettledOption(a, a.options[o], b.options[o]) && SettledOption(b, b.options[o], c.options[o]);
      if a.options[o].decision in a.decisions {
        assert SettledDecision(a.decisions[a.options[o].decision], b.decisions[a.options[o].decision]);
      }
    }
  }

  /** No run ever removes a decision or an option, changes a selected or superseded decision,
      or changes an option of such a decision. */
  lemma {:induction false} DecidedStaysDecided(w: World, steps: seq<Step>)
    requires Inv(w)
    ensures Settled(w.job, Run(w, steps).job)
  {
    if steps != [] {
      var n := |steps| - 1;
      RunKeepsInv(w, steps[..n]);
      DecidedStaysDecided(w, steps[..n]);
      StepKeepsInv(Run(w, steps[..n]), steps[n]);
      SettledTransitive(w.job, Run(w, steps[..n]).job, Run(w, steps).job);
    }
  }

  /** Once a set of options has been raised, raising it again in any order, however much
      later and whatever became of the decision, creates nothing. */
  lemma RaisingAgainCreatesNothing(w: World, category: Category, options: seq<Payload>, id: DecisionId,
                                   first: OptionId, steps: seq<Step>, reordered: seq<Payload>,
                                   id2: DecisionId, first2: OptionId)
    requires Inv(w) && FreshIds(w.job, id, first) && CreatePending(w.job, category, options, id, first).Some?
    requires multiset(reordered) == multiset(options)
    ensures var v := Run(Next(w, Create(category, options, id, first)), steps);
            CreatePending(v.job, category, reordered, id2, first2) == Some(v.job)
  {
    var u := Next(w, Create(category, options, id, first));
    var v := Run(u, steps);
    StepKeepsInv(w, Create(category, options, id, first));
    DecidedStaysDecided(u, steps);
    var f := CandidateSet(category, options);
    assert id !in w.job.decisions ==> Raised(w.job, f) || u.job.decisions[id].fingerprint == f;
    assert Raised(u.job, f);
    var d :| d in u.job.decisions && u.job.decisions[d].fingerprint == f;
    assert SettledDecision(u.job.decisions[d], v.job.decisions[d]);
    assert multiset(reordered)[options[0]] > 0;
  }

  // ---------- Replays ----------

  ghost predicate DistinctDecisions(selections: seq<Selection>) {
    forall i, j :: 0 <= i < j < |selections| ==> selections[i].decision != selections[j].decision
  }

  /** The submission says, after normalising corrections, what bundle `b` said. */
  ghost predicate Matches(sub: Submission, b: Bundle) {
    var byId := ById(sub.selections);
    && sub.bundle == b.fingerprint && sub.revision == b.revision
    && byId.Keys == b.choices.Keys
    && forall d :: d in byId ==>
         b.choices[d].option == byId[d].option
         && Normalize(byId[d].correction) == Some(b.choices[d].correction)
  }

  lemma {:induction false} ByIdKeys(selections: seq<Selection>)
    ensures forall d :: d in ById(selections) <==> exists i :: 0 <= i < |selections| && selections[i].decision == d
  {
    if selections != [] {
      var n := |selections| - 1;
      ByIdKeys(selections[..n]);
      assert ById(selections).Keys == ById(selections[..n]).Keys + {selections[n].decision};
    }
  }

  lemma {:induction false} ByIdCounts(selections: seq<Selection>)
    ensures forall d :: d in ById(selections) <==> exists i :: 0 <= i < |selections| && selections[i].decision == d
    ensures |ById(selections)| <= |selections|
    ensures |ById(selections)| == |selections| <==> DistinctDecisions(selections)
  {
    ByIdKeys(selections);
    if selections != [] {
      var n := |selections| - 1;
      var before := ById(selections[..n]);
      ByIdCounts(selections[..n]);
      assert ById(selections).Keys == before.Keys + {selections[n].decision};
      OneMoreDistinct(selections);
    }
  }

  lemma OneMoreDistinct(selections: seq<Selection>)
    requires selections != []
    ensures var n := |selections| - 1;
            DistinctDecisions(selections) <==>
              DistinctDecisions(selections[..n]) && selections[n].decision !in ById(selections[..n])
  {
    ByIdKeys(selections[..|selections| - 1]);
  }

  lemma RecordsAgree(job: Job, sub: Submission, b: Bundle, d: DecisionId)
    requires d in ById(sub.selections) && d in b.choices && d in job.decisions
    requires ReplaysOne(job, sub, d) && Recorded(job, b, d)
    ensures sub.bundle == b.fingerprint && sub.revision == b.revision
    ensures ById(sub.selections).Keys == b.choices.Keys
    ensures b.choices[d].option == ById(sub.selections)[d].option
    ensures Normalize(ById(sub.selections)[d].correction) == Some(b.choices[d].correction)
  {
  }

  lemma ReplayedBundleMatches(w: World, sub: Submission) returns (b: Bundle)
    requires AcceptedInv(w) && ChosenInv(w) && ExactReplay(w.job, sub)
    ensures b in w.accepted && Matches(sub, b)
  {
    var byId := ById(sub.selections);
    ByIdCounts(sub.selections);
    var d := sub.selections[0].decision;
    assert d in byId && ReplaysOne(w.job, sub, d);
    var o := byId[d].option;
    assert ChosenBy(w, o);
    b :| b in w.accepted && w.job.options[o].decision in b.choices && b.choices[w.job.options[o].decision].option == o;
    RecordsAgree(w.job, sub, b, d);
    forall e | e in byId
      ensures b.choices[e].option == byId[e].option && Normalize(byId[e].correction) == Some(b.choices[e].correction)
    {
      RecordsAgree(w.job, sub, b, e);
    }
  }

  lemma MatchingBundleReplays(w: World, sub: Submission, b: Bundle)
    requires Inv(w) && b in w.accepted && Matches(sub, b) && DistinctDecisions(sub.selections)
    ensures ExactReplay(w.job, sub)
  {
    var byId := ById(sub.selections);
    ByIdCounts(sub.selections);
    forall d | d in byId ensures d in Ids(w.job, Selected) && ReplaysOne(w.job, sub, d) {
      assert Recorded(w.job, b, d);
    }
  }

  /** With nothing pending, a submission is answered as a replay exactly when its decision
      ids are distinct and it says what some accepted bundle said; otherwise it is refused.
      Neither answer carries a changed job. */
  lemma ReplayExactlyWhenAccepted(w: World, steps: seq<Step>, sub: Submission)
    requires Inv(w)
    requires Ids(Run(w, steps).job, Pending) == {}
    ensures var v := Run(w, steps);
            Submit(v.job, sub, [])
            == if DistinctDecisions(sub.selections) && exists b :: b in v.accepted && Matches(sub, b)
               then Replayed else Refused(AlreadyDecided)
  {
    RunKeepsInv(w, steps);
    var v := Run(w, steps);
    ByIdCounts(sub.selections);
    if ExactReplay(v.job, sub) {
      var b := ReplayedBundleMatches(v, sub);
    } else if b :| b in v.accepted && Matches(sub, b) && DistinctDecisions(sub.selections) {
      MatchingBundleReplays(v, sub, b);
    }
  }

  // ---------- Replays over whole runs ----------

  /** The step submits a bundle that is accepted. */
  ghost predicate Accepts(job: Job, step: Step, b: Bundle) {
    && step.Submitted? && Visits(job, step.order) && Submit(job, step.sub, step.order).Applied?
    && b == BundleFrom(step.sub, step.order)
  }

  /** Some step of the run had the bundle accepted. */
  ghost predicate EverAccepted(w: World, steps: seq<Step>, b: Bundle) {
    steps != [] &&
    var before := steps[..|steps| - 1];
    EverAccepted(w, before, b) || Accepts(Run(w, before).job, steps[|steps| - 1], b)
  }

  lemma StepAccepts(w: World, step: Step, v: World, b: Bundle)
    requires v == Next(w, step)
    ensures b in v.accepted <==> b in w.accepted || Accepts(w.job, step, b)
  {}

  /** The history of a run is what its steps had accepted. */
  lemma {:induction false} HistoryIsAccepted(w: World, steps: seq<Step>, b: Bundle)
    requires w.accepted == []
    ensures b in Run(w, steps).accepted <==> EverAccepted(w, steps, b)
  {
    if steps != [] {
      var before := steps[..|steps| - 1];
      HistoryIsAccepted(w, before, b);
      StepAccepts(Run(w, before), steps[|steps| - 1], Run(w, steps), b);
    }
  }

  /** In every run of a new job or of one left behind, whenever nothing is pending, a submission is
      answered as a replay exactly when its ids are distinct and an earlier step of the same run had a
      bundle accepted that said the same. */
  lemma EveryRunReplaysWhatItAccepted(w: World, steps: seq<Step>, sub: Submission)
    requires Initial(w) && Ids(Run(w, steps).job, Pending) == {}
    ensures Submit(Run(w, steps).job, sub, [])
            == if DistinctDecisions(sub.selections) && exists b :: EverAccepted(w, steps, b) && Matches(sub, b)
               then Replayed else Refused(AlreadyDecided)
  {
    StartsKeepInv(w);
    ReplayExactlyWhenAccepted(w, steps, sub);
    forall b ensures b in Run(w, steps).accepted <==> EverAccepted(w, steps, b) {
      HistoryIsAccepted(w, steps, b);
    }
  }

  // ---------- The repair ----------

  /** The repair of an obsolete review supersedes everything pending, keeps the source and queues the job;
      nothing else changes. */
  lemma RepairClears(w: World, hold: Hold, rows: map<string, SourceRow>, candidate: string)
    requires Obsolete(w.job, hold, rows, candidate)
    ensures var job := Next(w, Repair(hold, rows, candidate)).job;
            && Ids(job, Pending) == {} && job.status == Status.Queued && job.source == Some(candidate)
            && Ids(job, Superseded) == Ids(w.job, Superseded) + Ids(w.job, Pending)
            && Ids(job, Selected) == Ids(w.job, Selected) && job.options == w.job.options
            && job.snapshot == w.job.snapshot
  {
  }

  lemma SupersededIsNeverAccepted(w: World, v: World, d: DecisionId, b: Bundle)
    requires Settled(w.job, v.job) && AcceptedInv(v) && d in Ids(w.job, Superseded) && b in v.accepted
    ensures d !in b.choices
  {
    assert SettledDecision(w.job.decisions[d], v.job.decisions[d]);
    assert d in b.choices ==> Recorded(v.job, b, d);
  }

  /** After the repair, and whenever nothing is pending later on, a submission is a replay of an accepted
      bundle or refused; one that names a decision the repair superseded is always refused. */
  lemma RepairedIsReplayedOrRefused(w: World, hold: Hold, rows: map<string, SourceRow>, candidate: string,
                                    steps: seq<Step>, sub: Submission)
    requires Inv(w) && Obsolete(w.job, hold, rows, candidate)
    requires Ids(Run(Next(w, Repair(hold, rows, candidate)), steps).job, Pending) == {}
    ensures var v := Run(Next(w, Repair(hold, rows, candidate)), steps);
            && Submit(v.job, sub, [])
               == (if DistinctDecisions(sub.selections) && exists b :: b in v.accepted && Matches(sub, b)
                   then Replayed else Refused(AlreadyDecided))
            && ((exists i :: 0 <= i < |sub.selections| && sub.selections[i].decision in Ids(w.job, Pending)) ==>
                  Submit(v.job, sub, []) == Refused(AlreadyDecided))
  {
    var repaired := Next(w, Repair(hold, rows, candidate));
    var v := Run(repaired, steps);
    StepKeepsInv(w, Repair(hold, rows, candidate));
    RepairClears(w, hold, rows, candidate);
    ReplayExactlyWhenAccepted(repaired, steps, sub);
    DecidedStaysDecided(repaired, steps);
    RunKeepsInv(repaired, steps);
    forall i, b | 0 <= i < |sub.selections| && sub.selections[i].decision in Ids(w.job, Pending) && b in v.accepted
      ensures !Matches(sub, b)
    {
      ByIdKeys(sub.selections);
      assert sub.selections[i].decision in ById(sub.selections);
      SupersededIsNeverAccepted(repaired, v, sub.selections[i].decision, b);
    }
  }

  /** A bundle accepted from distinct selections leaves nothing pending and is a replay when
      it is sent once more. */
  lemma AcceptedThenReplayed(w: World, sub: Submission, order: seq<DecisionId>)
    requires Inv(w) && Visits(w.job, order) && Submit(w.job, sub, order).Applied?
    requires DistinctDecisions(sub.selections)
    ensures Ids(Submit(w.job, sub, order).job, Pending) == {}
    ensures ExactReplay(Submit(w.job, sub, order).job, sub)
  {
    var b := BundleFrom(sub, order);
    var v := World(Submit(w.job, sub, order).job, w.accepted + [b]);
    ReviewKeepsInv(w, sub, order);
    AppliedFacts(w.job, sub, order);
    AppliedDecidesAll(w.job, v.job.(status := w.job.status, snapshot := w.job.snapshot), b, order);
    assert b in v.accepted && Matches(sub, b);
    MatchingBundleReplays(v, sub, b);
  }

  lemma AppliedDecidesAll(was: Job, job: Job, b: Bundle, order: seq<DecisionId>)
    requires Visits(was, order) && SelectedBy(was, job, b, order)
    ensures Ids(job, Pending) == {}
  {
    forall d | d in job.decisions ensures job.decisions[d].phase != Pending {
      if d in order {
        assert SelectedOne(was, job, b, d);
      }
    }
  }

  lemma AcceptedIsDecided(w: World, sub: Submission, order: seq<DecisionId>)
    requires Inv(w) && Visits(w.job, order) && Submit(w.job, sub, order).Applied?
    ensures Ids(Submit(w.job, sub, order).job, Pending) == {}
  {
    var next := Submit(w.job, sub, order).job;
    AppliedFacts(w.job, sub, order);
    AppliedDecidesAll(w.job, next.(status := w.job.status, snapshot := w.job.snapshot), BundleFrom(sub, order), order);
  }
}

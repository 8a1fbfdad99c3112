/** The decision rows, options and snapshot of a job as the repository updates them in place;
    a refused operation rolls back, which here means nothing is written. */
module ReviewJob {
  import opened Wrappers
  import opened Payloads
  import opened ReviewDecisions

  class JobRow {
    var status: Status
    var revision: nat
    var rounds: nat
    var source: Option<string>
    var snapshot: Option<Payload>
    var decisions: map<DecisionId, Decision>
    var options: map<OptionId, ReviewOption>
    var executable: set<string>

    function View(): Job
      reads this
    {
      Job(status, revision, rounds, source, snapshot, decisions, options, executable)
    }

    constructor (job: Job)
      ensures View() == job
    {
      status, revision, rounds, source := job.status, job.revision, job.rounds, job.source;
      snapshot, decisions, options, executable := job.snapshot, job.decisions, job.options, job.executable;
    }

    /** Marks every pending decision of the category superseded, one row at a time. */
    method SupersedePending(category: Category)
      modifies `decisions
      ensures decisions == SupersedeCategory(old(decisions), category)
    {
      var todo := set d | d in decisions && decisions[d].category == category && decisions[d].phase == Pending;
      while todo != {}
        invariant decisions.Keys == old(decisions).Keys
        invariant todo <= decisions.Keys
        invariant forall d :: d in todo ==>
          decisions[d] == old(decisions)[d] && decisions[d].category == category && decisions[d].phase == Pending
        invariant forall d :: d in decisions && d !in todo ==>
          decisions[d] == SupersedeCategory(old(decisions), category)[d]
      {
        var d :| d in todo;
        decisions := decisions[d := decisions[d].(phase := Superseded)];
        todo := todo - {d};
      }
    }

    /** One row for each option, ranked and scored. */
    method OfferedRows(category: Category, offered: seq<Payload>, id: DecisionId, revision: nat, first: OptionId)
      returns (rows: map<OptionId, ReviewOption>)
      ensures rows == OptionRows(offered, id, category, revision, first)
    {
      rows := map[];
      for n := 0 to |offered|
        invariant rows == OptionRows(offered[..n], id, category, revision, first)
      {
        assert offered[..n + 1][..n] == offered[..n];
        var option := offered[n];
        rows := rows[first + n := ReviewOption(id, category, revision, RankOf(option, n + 1), ScoreOf(option),
                                               option - {"score"}, false)];
      }
      assert offered[..|offered|] == offered;
    }

    /** Returns the decision that carries the options, new or not; None without options or when their ranks clash. */
    method CreatePendingDecision(category: Category, offered: seq<Payload>, id: DecisionId, first: OptionId)
      returns (decision: Option<DecisionId>)
      requires id !in decisions
      modifies this
      ensures var created := CreatePending(old(View()), category, offered, id, first);
              if decision.None? then created.None? && View() == old(View()) else created == Some(View())
      ensures decision.Some? ==> decision.value in decisions
                                 && decisions[decision.value].fingerprint == CandidateSet(category, offered)
    {
      if offered == [] {
        return None;
      }
      var f := CandidateSet(category, offered);
      if existing :| existing in decisions && decisions[existing].fingerprint == f {
        return Some(existing);
      }
      if RanksClash(offered) {
        return None;
      }
      AddDecision(category, offered, f, id, first);
      decision := Some(id);
    }

    /** A new decision in the place of what is pending in its category. */
    method AddDecision(category: Category, offered: seq<Payload>, f: Fingerprint, id: DecisionId, first: OptionId)
      requires id !in decisions && offered != [] && !RanksClash(offered)
      requires f == CandidateSet(category, offered) && !Raised(View(), f)
      modifies this
      ensures Some(View()) == CreatePending(old(View()), category, offered, id, first)
      ensures id in decisions && decisions[id].fingerprint == f
    {
      SupersedePending(category);
      revision, rounds := revision + 1, rounds + 1;
      decisions := decisions[id := Decision(category, f, revision, Pending, rounds, None, None)];
      var rows := OfferedRows(category, offered, id, revision, first);
      options := options + rows;
    }

    method RecordSelectedDecision(category: Category, candidates: seq<Payload>, payload: Stored,
                                  authority: Authority, id: DecisionId)
      requires id !in decisions
      modifies this
      ensures View() == RecordSelected(old(View()), category, candidates, payload, authority, id)
    {
      var f := CandidateSet(category, candidates);
      if existing :| existing in decisions && decisions[existing].fingerprint == f
                     && decisions[existing].phase == Selected {
        return;
      }
      SupersedePending(category);
      revision := revision + 1;
      decisions := decisions[id := Decision(category, f, revision, Selected, 0, Some(authority), Some(payload))];
    }

    /** The dictionary a list of selections becomes. */
    method Dictionary(selections: seq<Selection>) returns (byId: map<DecisionId, Selection>)
      ensures byId == ById(selections)
    {
      byId := map[];
      for n := 0 to |selections|
        invariant byId == ById(selections[..n])
      {
        assert selections[..n + 1][..n] == selections[..n];
        byId := byId[selections[n].decision := selections[n]];
      }
      assert selections[..|selections|] == selections;
    }

    /** Compares one selection after another with what the decision rows recorded. */
    method IsExactReplay(sub: Submission) returns (replay: bool)
      ensures replay == ExactReplay(View(), sub)
    {
      if sub.selections == [] {
        return false;
      }
      var byId := Dictionary(sub.selections);
      if |byId| != |sub.selections| || !(byId.Keys <= set d | d in decisions && decisions[d].phase == Selected) {
        return false;
      }
      var todo := byId.Keys;
      while todo != {}
        invariant todo <= byId.Keys
        invariant forall d :: d in byId && d !in todo ==> ReplaysOne(View(), sub, d)
      {
        var d :| d in todo;
        var s := byId[d];
        if decisions[d].selected.None? || decisions[d].selected.value.review.None? {
          return false;
        }
        var review := decisions[d].selected.value.review.value;
        var correction := Normalize(s.correction);
        if review.decisionIds != byId.Keys || review.bundle != sub.bundle || review.revision != sub.revision
           || review.optionId != s.option || correction != Some(review.correction) {
          return false;
        }
        if s.option !in options || options[s.option].decision != d || !options[s.option].chosen {
          return false;
        }
        todo := todo - {d};
      }
      replay := true;
    }

    /** Applies a review bundle, or answers it as a replay, or refuses it and changes nothing. */
    method ApplyReviewBundle(sub: Submission, order: seq<DecisionId>) returns (replayed: bool, conflict: bool)
      requires Visits(View(), order)
      modifies this
      ensures var outcome := Submit(old(View()), sub, order);
              && replayed == outcome.Replayed? && conflict == outcome.Refused?
              && View() == if outcome.Applied? then outcome.job else old(View())
    {
      if (set d | d in decisions && decisions[d].phase == Pending) == {} {
        replayed := IsExactReplay(sub);
        conflict := !replayed;
      } else {
        replayed := false;
        conflict := ApplyPendingBundle(sub, order);
      }
    }

    method ApplyPendingBundle(sub: Submission, order: seq<DecisionId>) returns (conflict: bool)
      requires Visits(View(), order)
      modifies this
      ensures var outcome := ApplyPending(old(View()), sub, order);
              && conflict == outcome.Refused?
              && View() == if outcome.Applied? then outcome.job else old(View())
    {
      var b := CheckBundle(sub, order);
      if b.None? {
        conflict := true;
      } else {
        conflict := CommitBundle(b.value, order);
      }
    }

    method CheckBundle(sub: Submission, order: seq<DecisionId>) returns (b: Option<Bundle>)
      requires Visits(View(), order)
      ensures b == if Precheck(View(), sub, order).None? then Some(BundleFrom(sub, order)) else None
    {
      b := None;
      var byId := Dictionary(sub.selections);
      if status != NeedsReview || sub.revision != revision || sub.bundle != BundleOf(View()) {
        return;
      }
      if byId.Keys != (set d | d in decisions && decisions[d].phase == Pending) || snapshot.None? {
        return;
      }
      if !AllNormal(byId) {
        return;
      }
      var corrections := Corrections(Choices(byId), order);
      if |corrections| > 1 {
        return;
      }
      b := Some(Bundle(sub.bundle, sub.revision, Choices(byId),
                       if corrections == [] then None else Some(corrections[0])));
    }

    method CommitBundle(b: Bundle, order: seq<DecisionId>) returns (conflict: bool)
      requires Refers(View(), b, order) && snapshot.Some?
      modifies this
      ensures var outcome := Commit(old(View()), b, order);
              && conflict == outcome.Refused?
              && View() == if outcome.Applied? then outcome.job else old(View())
    {
      var ok, work, newSource, newDecisions, newOptions := ApplyChoices(b, order);
      if !ok {
        return true;
      }
      work := ApproveCorrection(work, b.correction);
      if NonemptyString(Get(work, "artist")).None? || NonemptyString(Get(work, "title")).None? {
        return true;
      }
      source, decisions, options := newSource, newDecisions, newOptions;
      snapshot := Some(work);
      status := Queued;
      conflict := false;
    }

    /** The loop over the pending decisions, on the session's copies of the rows. */
    method ApplyChoices(b: Bundle, order: seq<DecisionId>)
      returns (ok: bool, work: Payload, newSource: Option<string>,
               newDecisions: map<DecisionId, Decision>, newOptions: map<OptionId, ReviewOption>)
      requires Refers(View(), b, order) && snapshot.Some?
      ensures SelectAll(View(), snapshot.value, b, order)
              == if ok then Some((View().(source := newSource, decisions := newDecisions, options := newOptions), work))
                 else None
    {
      work, newSource, newDecisions, newOptions := snapshot.value, source, decisions, options;
      for n := 0 to |order|
        invariant newDecisions.Keys == decisions.Keys
        invariant SelectAll(View(), snapshot.value, b, order[..n])
                  == Some((View().(source := newSource, decisions := newDecisions, options := newOptions), work))
      {
        var d := order[n];
        assert order[..n + 1][..n] == order[..n];
        ghost var step := SelectOne(View().(source := newSource, decisions := newDecisions, options := newOptions),
                                    work, b, d);
        assert SelectAll(View(), snapshot.value, b, order[..n + 1]) == step;
        var o := b.choices[d].option;
        if o !in newOptions || newOptions[o].decision != d || newOptions[o].revision != newDecisions[d].revision {
          OrderStaysNone(View(), snapshot.value, b, order, n + 1);
          ok := false;
          return;
        }
        var category, payload := newDecisions[d].category, newOptions[o].payload;
        if category == CanonicalMetadata {
          payload := ConfirmProvider(payload);
        }
        var next := ApplyOption(category, payload, work, newSource, executable);
        if next.None? {
          OrderStaysNone(View(), snapshot.value, b, order, n + 1);
          ok := false;
          return;
        }
        var authoritative := payload;
        if category == CanonicalMetadata {
          authoritative := CorrectPayload(authoritative, b.correction);
        }
        var review := Review(b.fingerprint, b.revision, b.choices.Keys, o, b.choices[d].correction, Some(b.correction));
        var applied := if category == CanonicalMetadata then Some(b.correction) else None;
        var stored := Stored(authoritative, applied, Some(review));
        newOptions := newOptions[o := newOptions[o].(chosen := true)];
        newDecisions := newDecisions[d := newDecisions[d].(phase := Selected, selected := Some(stored),
                                                           decidedBy := Some(User))];
        work, newSource := next.value.0, next.value.1;
      }
      assert order[..|order|] == order;
      ok := true;
    }
  }

  lemma OneMoreStaysNone(job: Job, snapshot: Payload, b: Bundle, order: seq<DecisionId>, before: seq<DecisionId>)
    requires order != [] && before == order[..|order| - 1] && Refers(job, b, order)
    requires SelectAll(job, snapshot, b, before).None?
    ensures SelectAll(job, snapshot, b, order).None?
  {}

  /** Once a decision cannot be selected, all of them together cannot. */
  lemma {:induction false} NoneStays(job: Job, snapshot: Payload, b: Bundle, first: seq<DecisionId>,
                                     rest: seq<DecisionId>)
    requires Refers(job, b, first + rest)
    requires SelectAll(job, snapshot, b, first).None?
    ensures SelectAll(job, snapshot, b, first + rest).None?
  {
    if rest == [] {
      assert first + rest == first;
    } else {
      var before := rest[..|rest| - 1];
      assert (first + rest)[..|first + rest| - 1] == first + before;
      NoneStays(job, snapshot, b, first, before);
      OneMoreStaysNone(job, snapshot, b, first + rest, first + before);
    }
  }

  lemma OrderStaysNone(job: Job, snapshot: Payload, b: Bundle, order: seq<DecisionId>, n: nat)
    requires n <= |order| && Refers(job, b, order) && SelectAll(job, snapshot, b, order[..n]).None?
    ensures SelectAll(job, snapshot, b, order).None?
  {
    assert order[..n] + order[n..] == order;
    NoneStays(job, snapshot, b, order[..n], order[n..]);
  }
}

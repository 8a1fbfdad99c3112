/** How a later reader rebuilds the user's metadata choice from the server's own option. */
module CanonicalSelection {
  import opened Wrappers
  import opened Payloads
  import opened ReviewDecisions
  import opened ReviewHistory
  import Guarantees = ReviewGuarantees

  const SELECTION_FIELDS := {
    "artist", "title", "album", "album_artist", "year", "duration_seconds", "recording_mbid",
    "release_mbid", "release_group_mbid", "version", "version_signature",
    "recording_candidate_id", "release_candidate_id", "artists", "metadata_authority",
    "canonical_identity_verified", "source_provider", "source_extractor", "source_id",
    "source_url", "source_uploader", "thumbnail", "metadata_provenance", "reason_code",
    "matching_policy_version" }

  predicate UserCanonical(job: Job, d: DecisionId) {
    && d in job.decisions
    && job.decisions[d].category == CanonicalMetadata
    && job.decisions[d].phase == Selected
    && job.decisions[d].decidedBy == Some(User)
  }

  ghost predicate Latest(job: Job, d: DecisionId) {
    UserCanonical(job, d)
    && forall e :: UserCanonical(job, e) ==> job.decisions[e].revision <= job.decisions[d].revision
  }

  /** The two correction layers and the applied one, each read back through normalisation;
      None where the reader gives up. */
  function ReadCorrections(stored: Stored, review: Review): Option<Option<Correction>> {
    var nested := Normalize(review.correction);
    var bundle := if review.bundleCorrection.None? then nested else Normalize(review.bundleCorrection.value);
    var applied := if stored.applied.None? then bundle else Normalize(stored.applied.value);
    if nested.None? || bundle.None? || applied.None? then None
    else if nested.value.Some? && nested.value != bundle.value then None
    else if stored.applied.Some? && (review.bundleCorrection.None? || applied.value != bundle.value) then None
    else applied
  }

  /** The payload one selected decision stands for. */
  function Rebuild(job: Job, d: DecisionId): Option<Payload>
    requires d in job.decisions
  {
    var decision := job.decisions[d];
    if decision.selected.None? || decision.selected.value.review.None? then None
    else
      var stored, review := decision.selected.value, decision.selected.value.review.value;
      var o := review.optionId;
      if d !in review.decisionIds || !Offered(job, d, o)
         || job.options[o].kind != CanonicalMetadata || !job.options[o].chosen then None
      else
        var correction := ReadCorrections(stored, review);
        if correction.None? then None
        else
          var payload := CorrectPayload(
            ConfirmProvider(Restrict(job.options[o].payload, SELECTION_FIELDS)), correction.value);
          if !HasIdentity(payload) then None
          else if stored.applied.Some? && !AgreeOn(stored.fields, payload, CORRECTABLE_FIELDS) then None
          else Some(payload)
  }

  predicate AgreeOn(a: Payload, b: Payload, keys: set<string>) {
    forall key :: key in keys ==> Get(a, key) == Get(b, key)
  }

  /** latest_user_canonical_selection. */
  ghost function LatestUserSelection(job: Job): Option<(DecisionId, Payload)> {
    if d :| Latest(job, d) then
      if Rebuild(job, d).Some? then Some((d, Rebuild(job, d).value)) else None
    else None
  }

  lemma LatestIsRead(job: Job, d: DecisionId)
    requires RevisionsInv(job) && Latest(job, d)
    ensures LatestUserSelection(job)
            == if Rebuild(job, d).Some? then Some((d, Rebuild(job, d).value)) else None
  {
    forall e | Latest(job, e) ensures e == d {
    }
  }

  // ---------- What an accepted bundle is read back as ----------

  /** The option's whitelisted fields, confirmed by the user and corrected. */
  function Expected(option: Payload, correction: Option<Correction>): Payload {
    CorrectPayload(ConfirmProvider(Restrict(option, SELECTION_FIELDS)), correction)
  }

  lemma ConfirmKeeps(p: Payload, key: string)
    requires key in CORRECTABLE_FIELDS
    ensures Get(ConfirmProvider(p), key) == Get(p, key)
    ensures Get(ConfirmProvider(Restrict(p, SELECTION_FIELDS)), key) == Get(p, key)
  {
  }

  /** The stored copy and the rebuilt payload agree on the fields a user can correct. */
  lemma StoredAgrees(option: Payload, correction: Option<Correction>, key: string)
    requires key in CORRECTABLE_FIELDS
    requires correction.Some? ==> ValidCorrection(correction.value)
    ensures Get(CorrectPayload(ConfirmProvider(option), correction), key) == Get(Expected(option, correction), key)
  {
    var a, b := ConfirmProvider(option), ConfirmProvider(Restrict(option, SELECTION_FIELDS));
    ConfirmKeeps(option, key);
    if correction.Some? && key in correction.value
       && (!correction.value[key].Cleared? || key == "album" || key == "year") {
      CorrectionWins(a, a, correction.value, key);
      CorrectionWins(b, b, correction.value, key);
    } else {
      CorrectionKeepsOthers(a, correction, key);
      CorrectionKeepsOthers(b, correction, key);
    }
  }

  lemma RecordedRebuilds(w: World, b: Bundle, d: DecisionId)
    requires Inv(w) && b in w.accepted && d in b.choices
    requires w.job.decisions[d].category == CanonicalMetadata
    ensures var o := b.choices[d].option;
            && Recorded(w.job, b, d)
            && var expected := Expected(w.job.options[o].payload, b.correction);
            Rebuild(w.job, d) == if HasIdentity(expected) then Some(expected) else None
  {
    assert Recorded(w.job, b, d) && NormalBundle(b);
    var o := b.choices[d].option;
    assert OptionInv(w.job, o);
    var stored := w.job.decisions[d].selected.value;
    assert ReadCorrections(stored, stored.review.value) == Some(b.correction);
    forall key | key in CORRECTABLE_FIELDS
      ensures Get(stored.fields, key) == Get(Expected(w.job.options[o].payload, b.correction), key)
    {
      StoredAgrees(w.job.options[o].payload, b.correction, key);
    }
  }

  lemma AcceptedIsLatest(w: World, sub: Submission, order: seq<DecisionId>, d: DecisionId)
    requires Inv(w) && Visits(w.job, order) && Submit(w.job, sub, order).Applied?
    requires d in Ids(w.job, Pending) && w.job.decisions[d].category == CanonicalMetadata
    ensures RevisionsInv(Submit(w.job, sub, order).job) && Latest(Submit(w.job, sub, order).job, d)
  {
    var b, job := BundleFrom(sub, order), Submit(w.job, sub, order).job;
    ReviewKeepsInv(w, sub, order);
    AppliedFacts(w.job, sub, order);
    assert World(job, w.accepted + [b]).accepted[|w.accepted|] == b;
    assert Recorded(job, b, d);
    assert SettledDecision(w.job.decisions[d], job.decisions[d]);
    forall e | UserCanonical(job, e) ensures job.decisions[e].revision <= job.decisions[d].revision {
      assert e in w.job.decisions && SettledDecision(w.job.decisions[e], job.decisions[e]);
    }
  }

  lemma AcceptedRebuilds(w: World, sub: Submission, order: seq<DecisionId>, d: DecisionId)
    requires Inv(w) && Visits(w.job, order) && Submit(w.job, sub, order).Applied?
    requires d in Ids(w.job, Pending) && w.job.decisions[d].category == CanonicalMetadata
    ensures var b, next := BundleFrom(sub, order), Submit(w.job, sub, order).job;
            && d in b.choices && b.choices[d].option in w.job.options && d in next.decisions
            && var expected := Expected(w.job.options[b.choices[d].option].payload, b.correction);
            Rebuild(next, d) == if HasIdentity(expected) then Some(expected) else None
  {
    var b, next := BundleFrom(sub, order), Submit(w.job, sub, order).job;
    var v := World(next, w.accepted + [b]);
    ReviewKeepsInv(w, sub, order);
    PickedIsKept(w.job, sub, order, d);
    assert b in v.accepted;
    RecordedRebuilds(v, b, d);
  }

  lemma PickedIsKept(job: Job, sub: Submission, order: seq<DecisionId>, d: DecisionId)
    requires Visits(job, order) && Submit(job, sub, order).Applied? && d in Ids(job, Pending)
    ensures var b, next := BundleFrom(sub, order), Submit(job, sub, order).job;
            && d in b.choices && d in next.decisions
            && next.decisions[d].category == job.decisions[d].category
            && var o := b.choices[d].option;
            o in job.options && o in next.options && next.options[o].payload == job.options[o].payload
  {
    var b, next := BundleFrom(sub, order), Submit(job, sub, order).job;
    AppliedFacts(job, sub, order);
    assert SelectedOne(job, next.(status := job.status, snapshot := job.snapshot), b, d);
  }

  /** Whatever the order in which the categories were applied, an accepted bundle with a
      canonical decision is read back as that decision's own option, whitelisted and
      corrected, exactly when artist and title are then nonempty. */
  lemma AcceptedChoiceIsReadBack(w: World, sub: Submission, order: seq<DecisionId>, d: DecisionId)
    requires Inv(w) && Visits(w.job, order) && Submit(w.job, sub, order).Applied?
    requires d in Ids(w.job, Pending) && w.job.decisions[d].category == CanonicalMetadata
    ensures var b, next := BundleFrom(sub, order), Submit(w.job, sub, order).job;
            && d in b.choices && b.choices[d].option in w.job.options
            && var expected := Expected(w.job.options[b.choices[d].option].payload, b.correction);
            LatestUserSelection(next) == if HasIdentity(expected) then Some((d, expected)) else None
  {
    AcceptedRebuilds(w, sub, order, d);
    AcceptedIsLatest(w, sub, order, d);
    LatestIsRead(Submit(w.job, sub, order).job, d);
  }

  /** Every field the accepted correction fills in is in the approved snapshot and in what is
      read back, whatever order the decisions were applied in. */
  lemma CorrectedFieldsAreApproved(w: World, sub: Submission, order: seq<DecisionId>, key: string)
    requires Inv(w) && Visits(w.job, order) && Submit(w.job, sub, order).Applied?
    requires var c := BundleFrom(sub, order).correction;
             c.Some? && key in c.value && !c.value[key].Cleared?
    ensures var b, next := BundleFrom(sub, order), Submit(w.job, sub, order).job;
            && next.snapshot.Some?
            && Get(next.snapshot.value, key) == EntryJson(b.correction.value[key])
            && (forall option :: Get(Expected(option, b.correction), key) == EntryJson(b.correction.value[key]))
  {
    var b := BundleFrom(sub, order);
    AppliedFacts(w.job, sub, order);
    CorrectedIsApproved(w.job, sub, order, b, key);
    forall option ensures Get(Expected(option, b.correction), key) == EntryJson(b.correction.value[key]) {
      CorrectedIsExpected(option, b.correction.value, key);
    }
  }

  lemma CorrectedIsApproved(job: Job, sub: Submission, order: seq<DecisionId>, b: Bundle, key: string)
    requires Visits(job, order) && Submit(job, sub, order).Applied? && b == BundleFrom(sub, order) && NormalBundle(b)
    requires b.correction.Some? && key in b.correction.value && !b.correction.value[key].Cleared?
    ensures var next := Submit(job, sub, order).job;
            next.snapshot.Some? && Get(next.snapshot.value, key) == EntryJson(b.correction.value[key])
  {
    AcceptancePasses(job, sub, order);
    AcceptanceSelects(job, sub, order, Submit(job, sub, order).job, b);
    var before := SelectAll(job, job.snapshot.value, b, order).value.1;
    CorrectionWins(before, before, b.correction.value, key);
  }

  lemma CorrectedIsExpected(option: Payload, c: Correction, key: string)
    requires ValidCorrection(c) && key in c && !c[key].Cleared?
    ensures Get(Expected(option, Some(c)), key) == EntryJson(c[key])
  {
    var target := ConfirmProvider(Restrict(option, SELECTION_FIELDS));
    CorrectionWins(target, target, c, key);
  }

  /** A reading stays the same through any later steps that leave the decision the latest
      user choice. */
  lemma ReadBackIsDurable(w: World, steps: seq<Step>, d: DecisionId)
    requires Inv(w) && LatestUserSelection(w.job).Some? && Latest(w.job, d) && Latest(Run(w, steps).job, d)
    ensures LatestUserSelection(Run(w, steps).job) == LatestUserSelection(w.job)
  {
    var v := Run(w, steps);
    Guarantees.RunKeepsInv(w, steps);
    Guarantees.DecidedStaysDecided(w, steps);
    assert SettledDecision(w.job.decisions[d], v.job.decisions[d]);
    LatestIsRead(w.job, d);
    LatestIsRead(v.job, d);
    RebuildIsDurable(w.job, v.job, d);
  }

  lemma RebuildIsDurable(was: Job, job: Job, d: DecisionId)
    requires Settled(was, job) && OptionsInv(job) && OptionsInv(was)
    requires d in was.decisions && was.decisions[d].phase == Selected && Rebuild(was, d).Some?
    ensures d in job.decisions && Rebuild(job, d) == Rebuild(was, d)
  {
    assert SettledDecision(was.decisions[d], job.decisions[d]);
    var o := was.decisions[d].selected.value.review.value.optionId;
    assert SettledOption(was, was.options[o], job.options[o]);
  }

  // ---------- A choice that fits is accepted ----------

  /** Fields that are copied from an option and that confirming and recording it do not write. */
  predicate CopiedOnly(key: string) {
    && key in COPIED_FIELDS && key !in SOURCE_FIELDS
    && key != "metadata_authority" && key != "canonical_identity_verified" && key != "metadata_provenance"
    && key != "recording_mbid" && key != "release_mbid" && key != "release_group_mbid"
  }

  lemma NamesAreCopiedOnly(key: string)
    requires key == "artist" || key == "title"
    ensures CopiedOnly(key)
  {}

  lemma ConfirmingKeeps(p: Payload, key: string)
    requires CopiedOnly(key)
    ensures Get(ConfirmProvider(p), key) == Get(p, key)
  {}

  lemma CopyingKeeps(option: Payload, snapshot: Payload, key: string)
    requires CopiedOnly(key) && Get(option, key).Text?
    ensures Get(snapshot + Restrict(option, COPIED_FIELDS), key) == Get(option, key)
  {}

  lemma ApplyingKeeps(option: Payload, snapshot: Payload, source: Option<string>, executable: set<string>, key: string)
    requires CopiedOnly(key) && Get(option, key).Text?
    ensures var r := ApplyOption(CanonicalMetadata, option, snapshot, source, executable);
            r.Some? && Get(r.value.0, key) == Get(option, key)
  {
    var copied := snapshot + Restrict(option, COPIED_FIELDS);
    CopyingKeeps(option, snapshot, key);
    ConfirmingKeeps(copied["metadata_authority" := Text("user_confirmed_provider_metadata")], key);
  }

  /** Confirming, copying and recording a choice keep the option's artist and title. */
  lemma ChoosingKeeps(option: Payload, snapshot: Payload, source: Option<string>, executable: set<string>, key: string)
    requires (key == "artist" || key == "title") && Get(option, key).Text?
    ensures var r := ApplyOption(CanonicalMetadata, ConfirmProvider(option), snapshot, source, executable);
            r.Some? && Get(r.value.0, key) == Get(option, key)
  {
    NamesAreCopiedOnly(key);
    ConfirmingKeeps(option, key);
    ApplyingKeeps(ConfirmProvider(option), snapshot, source, executable, key);
  }

  /** The only decision that is pending, and a selection of one of its options. */
  predicate FittingChoice(job: Job, d: DecisionId, o: OptionId) {
    && job.status == NeedsReview && job.snapshot.Some?
    && Ids(job, Pending) == {d} && d in job.decisions && job.decisions[d].category == CanonicalMetadata
    && Offered(job, d, o) && HasIdentity(job.options[o].payload)
  }

  function Choosing(job: Job, d: DecisionId, o: OptionId): Submission {
    Submission(BundleOf(job), job.revision, [Selection(d, o, None)])
  }

  lemma FittingPasses(job: Job, d: DecisionId, o: OptionId)
    requires FittingChoice(job, d, o)
    ensures Visits(job, [d]) && Precheck(job, Choosing(job, d, o), [d]).None?
    ensures var b := BundleFrom(Choosing(job, d, o), [d]);
            b.choices == map[d := Choice(o, None)] && b.correction.None?
  {
    var selection := Selection(d, o, None);
    assert [selection][..0] == [] && [d][..0] == [];
    assert ById([selection]) == map[d := selection];
    forall e ensures e in [d] <==> e in Ids(job, Pending) {}
    assert Corrections(Choices(ById([selection])), [d]) == [];
  }

  lemma FittingCommits(job: Job, b: Bundle, d: DecisionId, o: OptionId)
    requires FittingChoice(job, d, o) && b.choices == map[d := Choice(o, None)] && b.correction.None?
    ensures Refers(job, b, [d]) && Commit(job, b, [d]).Applied?
  {
    assert [d][..0] == [];
    var option := job.options[o].payload;
    ChoosingKeeps(option, job.snapshot.value, job.source, job.executable, "artist");
    ChoosingKeeps(option, job.snapshot.value, job.source, job.executable, "title");
    assert SelectAll(job, job.snapshot.value, b, [d]) == SelectOne(job, job.snapshot.value, b, d);
  }

  lemma ExpectedHasIdentity(option: Payload)
    requires HasIdentity(option)
    ensures HasIdentity(Expected(option, None))
  {
    ConfirmKeeps(option, "artist");
    ConfirmKeeps(option, "title");
  }

  lemma FittingIsAccepted(job: Job, d: DecisionId, o: OptionId, sub: Submission) returns (next: Job)
    requires FittingChoice(job, d, o) && sub == Choosing(job, d, o)
    ensures Visits(job, [d]) && Submit(job, sub, [d]) == Applied(next)
    ensures var b := BundleFrom(sub, [d]); b.choices == map[d := Choice(o, None)] && b.correction.None?
  {
    FittingPasses(job, d, o);
    FittingCommits(job, BundleFrom(sub, [d]), d, o);
    next := Submit(job, sub, [d]).job;
  }

  /** When a canonical review is all that is pending, choosing one of its offered options that
      names an artist and a title is accepted, and read back as that option. */
  lemma FittingChoicesAreAccepted(w: World, d: DecisionId, o: OptionId, sub: Submission) returns (next: Job)
    requires Inv(w) && FittingChoice(w.job, d, o) && sub == Choosing(w.job, d, o)
    ensures Visits(w.job, [d]) && Submit(w.job, sub, [d]) == Applied(next)
    ensures LatestUserSelection(next) == Some((d, Expected(w.job.options[o].payload, None)))
  {
    next := FittingIsAccepted(w.job, d, o, sub);
    AcceptedChoiceIsReadBack(w, sub, [d], d);
    ExpectedHasIdentity(w.job.options[o].payload);
  }

  // ---------- Naming a decision twice ----------

  function ChoosingTwice(job: Job, d: DecisionId, o: OptionId): Submission {
    Submission(BundleOf(job), job.revision, [Selection(d, o, None), Selection(d, o, None)])
  }

  lemma TwiceIsOnce(selections: seq<Selection>, s: Selection)
    requires selections == [s, s]
    ensures ById(selections) == map[s.decision := s] && !Guarantees.DistinctDecisions(selections)
  {
    assert selections[..1] == [s] && [s][..0] == [];
    assert ById([s]) == map[s.decision := s];
    assert selections[0].decision == selections[1].decision;
  }

  lemma TwicePasses(job: Job, d: DecisionId, o: OptionId, sub: Submission)
    requires FittingChoice(job, d, o) && sub == ChoosingTwice(job, d, o)
    ensures Visits(job, [d]) && Precheck(job, sub, [d]).None?
    ensures var b := BundleFrom(sub, [d]); b.choices == map[d := Choice(o, None)] && b.correction.None?
  {
    TwiceIsOnce(sub.selections, Selection(d, o, None));
    assert [d][..0] == [];
    forall e ensures e in [d] <==> e in Ids(job, Pending) {}
    assert Corrections(Choices(ById(sub.selections)), [d]) == [];
  }

  lemma TwiceIsAccepted(job: Job, d: DecisionId, o: OptionId, sub: Submission) returns (next: Job)
    requires FittingChoice(job, d, o) && sub == ChoosingTwice(job, d, o)
    ensures Visits(job, [d]) && Submit(job, sub, [d]) == Applied(next)
  {
    TwicePasses(job, d, o, sub);
    FittingCommits(job, BundleFrom(sub, [d]), d, o);
    next := Submit(job, sub, [d]).job;
  }

  /** A submission that names its decision twice is accepted; sent once more, it is refused as already
      decided, where one that names it once is a replay. */
  lemma NamedTwiceIsNotReplayed(w: World, d: DecisionId, o: OptionId, sub: Submission) returns (next: Job)
    requires Inv(w) && FittingChoice(w.job, d, o) && sub == ChoosingTwice(w.job, d, o)
    ensures Visits(w.job, [d]) && Submit(w.job, sub, [d]) == Applied(next)
    ensures Ids(next, Pending) == {} && Submit(next, sub, []) == Refused(AlreadyDecided)
  {
    next := TwiceIsAccepted(w.job, d, o, sub);
    TwiceIsOnce(sub.selections, Selection(d, o, None));
    Guarantees.AcceptedIsDecided(w, sub, [d]);
    ReviewKeepsInv(w, sub, [d]);
    Guarantees.ReplayExactlyWhenAccepted(World(next, w.accepted + [BundleFrom(sub, [d])]), [], sub);
  }
}

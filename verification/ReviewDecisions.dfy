/** The review decisions of one download job: raising, recording and superseding them,
    applying a review bundle atomically, and answering a resubmission as a replay. */
module ReviewDecisions {
  import opened Wrappers
  import opened Payloads

  type DecisionId = nat
  type OptionId = nat

  datatype Category = AcquisitionSource | CanonicalMetadata | PossibleDuplicate | RecordingVersion

  datatype Phase = Pending | Selected | Superseded

  datatype Authority = Deterministic | OpenAI | User | Migration

  datatype Status =
    | Queued | Active | RetryWait | NeedsReview | WaitingForSpace | CancelRequested
    | Cancelled | Failed | Completed

  /** SHA-256 over JSON text is taken as injective, so a fingerprint is what it hashes: the
      category and the options, sorted by their encoding. `SortingIsCanonical` in module
      Canonical shows that a sorted list carries exactly the multiset. */
  datatype Fingerprint = Fingerprint(category: Category, options: multiset<Payload>)

  datatype PendingRef = PendingRef(id: DecisionId, category: Category, fingerprint: Fingerprint, revision: nat)

  type BundleFingerprint = set<PendingRef>

  /** What an applied bundle writes beside the selected payload. The two correction layers
      may be absent in rows written by older releases. */
  datatype Review = Review(
    bundle: BundleFingerprint,
    revision: nat,
    decisionIds: set<DecisionId>,
    optionId: OptionId,
    correction: Option<Correction>,
    bundleCorrection: Option<Option<Correction>>)

  /** A selected payload, with the two keys the service reserves taken apart. */
  datatype Stored = Stored(fields: Payload, applied: Option<Option<Correction>>, review: Option<Review>)

  datatype Decision = Decision(
    category: Category,
    fingerprint: Fingerprint,
    revision: nat,
    phase: Phase,
    round: nat,
    decidedBy: Option<Authority>,
    selected: Option<Stored>)

  datatype ReviewOption = ReviewOption(
    decision: DecisionId,
    kind: Category,
    revision: nat,
    rank: nat,
    score: real,
    payload: Payload,
    chosen: bool)

  datatype Job = Job(
    status: Status,
    revision: nat,
    rounds: nat,
    source: Option<string>,
    snapshot: Option<Payload>,
    decisions: map<DecisionId, Decision>,
    options: map<OptionId, ReviewOption>,
    /** Ids of this job's source candidates that are allowed and validly probed now. */
    executable: set<string>)

  function Ids(job: Job, phase: Phase): set<DecisionId> {
    set id | id in job.decisions && job.decisions[id].phase == phase
  }

  // ---------- Raising and recording ----------

  function CandidateSet(category: Category, options: seq<Payload>): Fingerprint {
    Fingerprint(category, multiset(options))
  }

  predicate Raised(job: Job, f: Fingerprint) {
    exists id :: id in job.decisions && job.decisions[id].fingerprint == f
  }

  predicate SelectedAlready(job: Job, f: Fingerprint) {
    exists id :: id in job.decisions && job.decisions[id].fingerprint == f && job.decisions[id].phase == Selected
  }

  function Supersede(d: Decision): Decision {
    d.(phase := Superseded)
  }

  /** Every pending decision of the category is superseded. */
  function SupersedeCategory(ds: map<DecisionId, Decision>, category: Category): map<DecisionId, Decision> {
    map id | id in ds ::
      if ds[id].category == category && ds[id].phase == Pending then Supersede(ds[id]) else ds[id]
  }

  /** The rank an option asks for if it is positive (true counts as one), and otherwise its place. */
  function RankOf(option: Payload, ordinal: nat): (rank: nat)
    requires ordinal > 0
    ensures rank > 0
  {
    match Get(option, "rank")
    case Int(n) => if n > 0 then n else ordinal
    case Flag(b) => if b then 1 else ordinal
    case _ => ordinal
  }

  /** The score an option gives, brought into 0..1; anything but a number counts as 0. */
  function ScoreOf(option: Payload): (score: real)
    ensures 0.0 <= score <= 1.0
  {
    var given := match Get(option, "score")
      case Int(n) => n as real
      case Float(x) => x
      case _ => 0.0;
    if given < 0.0 then 0.0 else if given > 1.0 then 1.0 else given
  }

  function OptionRow(option: Payload, ordinal: nat, d: DecisionId, category: Category, revision: nat): ReviewOption
    requires ordinal > 0
  {
    ReviewOption(d, category, revision, RankOf(option, ordinal), ScoreOf(option), option - {"score"}, false)
  }

  /** The options a raised decision offers, under the ids from `first` on. */
  function OptionRows(options: seq<Payload>, d: DecisionId, category: Category, revision: nat,
                      first: OptionId): (rows: map<OptionId, ReviewOption>)
    ensures forall o :: o in rows <==> first <= o < first + |options|
  {
    if options == [] then map[]
    else
      var n := |options| - 1;
      OptionRows(options[..n], d, category, revision, first)[
        first + n := OptionRow(options[n], n + 1, d, category, revision)]
  }

  predicate FreshIds(job: Job, id: DecisionId, first: OptionId) {
    id !in job.decisions && forall o :: o in job.options ==> o < first
  }

  /** No two options of a decision may have one rank. */
  predicate RanksClash(options: seq<Payload>) {
    exists i, j :: 0 <= i < j < |options| && RankOf(options[i], i + 1) == RankOf(options[j], j + 1)
  }

  /** create_pending_decision: None when no option is offered, or when the ranks of new options clash. */
  function CreatePending(job: Job, category: Category, options: seq<Payload>,
                         id: DecisionId, first: OptionId): Option<Job>
  {
    var f := CandidateSet(category, options);
    if options == [] then None
    else if Raised(job, f) then Some(job)
    else if RanksClash(options) then None
    else
      var r := job.revision + 1;
      var d := Decision(category, f, r, Pending, job.rounds + 1, None, None);
      Some(job.(revision := r, rounds := job.rounds + 1,
                decisions := SupersedeCategory(job.decisions, category)[id := d],
                options := job.options + OptionRows(options, id, category, r, first)))
  }

  /** record_selected_decision. */
  function RecordSelected(job: Job, category: Category, candidates: seq<Payload>,
                          payload: Stored, authority: Authority, id: DecisionId): Job
  {
    var f := CandidateSet(category, candidates);
    if SelectedAlready(job, f) then job
    else
      var r := job.revision + 1;
      var d := Decision(category, f, r, Selected, 0, Some(authority), Some(payload));
      job.(revision := r, decisions := SupersedeCategory(job.decisions, category)[id := d])
  }

  // ---------- Applying a bundle ----------

  datatype Selection = Selection(decision: DecisionId, option: OptionId, correction: Option<Correction>)

  datatype Submission = Submission(bundle: BundleFingerprint, revision: nat, selections: seq<Selection>)

  datatype Conflict =
    | AlreadyDecided | NotAwaiting | StaleRevision | StaleFingerprint | NotEveryDecision
    | BadSnapshot | BadCorrection | ManyCorrections | BadOption | NoIdentity

  datatype Outcome = Replayed | Applied(job: Job) | Refused(why: Conflict)

  /** The dictionary of selections by decision: the last one wins. */
  function ById(selections: seq<Selection>): map<DecisionId, Selection> {
    if selections == [] then map[]
    else
      var n := |selections| - 1;
      ById(selections[..n])[selections[n].decision := selections[n]]
  }

  function BundleOf(job: Job): BundleFingerprint {
    set id | id in Ids(job, Pending) ::
      PendingRef(id, job.decisions[id].category, job.decisions[id].fingerprint, job.decisions[id].revision)
  }

  const ACQUISITION := {"bandcamp", "soundcloud", "youtube"}

  const PROVIDER_AUTHORITIES := {"validated_provider", "direct_user_source", "user_confirmed_provider_metadata"}

  predicate FromProvider(p: Payload) {
    Get(p, "metadata_authority").Text? && Get(p, "metadata_authority").text in PROVIDER_AUTHORITIES
  }

  /** _provider_metadata_selection for a user's choice. */
  function ConfirmProvider(p: Payload): Payload {
    if !FromProvider(p) then p
    else p["metadata_authority" := Text("user_confirmed_provider_metadata")][
           "canonical_identity_verified" := Flag(false)][
           "recording_mbid" := Null]["release_mbid" := Null]["release_group_mbid" := Null]
  }

  function ProviderValues(value: Json): set<string> {
    if value.List? then
      set item | item in value.items && item.Text? && item.text in ACQUISITION :: item.text
    else {}
  }

  function Requested(p: Payload): set<string> {
    var legacy := NonemptyString(Get(p, "requested_provider"));
    ProviderValues(Get(p, "requested_providers"))
    + (if legacy.Some? && legacy.value in ACQUISITION then {legacy.value} else {})
    - ProviderValues(Get(p, "excluded_providers"))
  }

  function Excluded(p: Payload): set<string> {
    ProviderValues(Get(p, "excluded_providers"))
  }

  /** The providers the approved snapshot lets a search start from. */
  function InitialScope(p: Payload): set<string> {
    (if Requested(p) == {} then ACQUISITION else Requested(p)) - Excluded(p)
  }

  function Dedup(items: seq<Json>): seq<Json> {
    if items == [] then []
    else
      var n := |items| - 1;
      if items[n] in items[..n] then Dedup(items[..n]) else Dedup(items[..n]) + [items[n]]
  }

  predicate ValidFallback(option: Payload, snapshot: Payload) {
    && (Requested(snapshot) != {} || Excluded(snapshot) != {})
    && Requested(option) == Requested(snapshot)
    && Excluded(option) == Excluded(snapshot)
    && Get(option, "fallback_providers").List?
    && Get(option, "fallback_providers").items != []
    && forall item :: item in Get(option, "fallback_providers").items ==>
         item.Text? && item.text in ACQUISITION && item.text !in InitialScope(snapshot)
  }

  const COPIED_FIELDS := {
    "artist", "title", "album", "album_artist", "year", "recording_mbid", "release_mbid",
    "release_group_mbid", "version_signature", "duplicate_track_id", "duration_seconds", "artists" }

  const SOURCE_FIELDS := {
    "source_provider", "source_extractor", "source_id", "source_url", "source_uploader", "thumbnail" }

  function Restrict(p: Payload, keys: set<string>): Payload {
    map key | key in p && key in keys :: p[key]
  }

  function Resolution(snapshot: Payload, provider: bool): Payload {
    var resolution := Fields(Fields(snapshot, "metadata_provenance"), "canonical_metadata_resolution")[
      "automatic_association" := Flag(false)][
      "source" := Text(if provider then "user_confirmed_provider_metadata" else "user_confirmed_server_candidate")][
      "decided_by" := Text("user")];
    var provenance := Fields(snapshot, "metadata_provenance")["canonical_metadata_resolution" := Object(resolution)];
    snapshot["metadata_provenance" := Object(provenance)]
  }

  predicate Truthy(value: Json) {
    match value
    case Null => false
    case Flag(b) => b
    case Int(n) => n != 0
    case Float(x) => x != 0.0
    case Text(t) => t != []
    case List(items) => items != []
    case Object(fields) => fields != map[]
  }

  /** _apply_option: the new snapshot and active source, or None on a conflict. */
  function ApplyOption(category: Category, option: Payload, snapshot: Payload,
                       source: Option<string>, executable: set<string>)
    : Option<(Payload, Option<string>)>
  {
    if category == AcquisitionSource then
      if Get(option, "allow_provider_fallback") == Flag(true) then
        if ValidFallback(option, snapshot) then
          Some((snapshot["provider_fallback_allowed" := Flag(true)][
                  "provider_fallback_providers" := List(Dedup(option["fallback_providers"].items))], None))
        else None
      else
        var candidate := NonemptyString(Get(option, "source_candidate_id"));
        if candidate.Some? && candidate.value in executable then Some((snapshot, candidate)) else None
    else
      var copied := snapshot + Restrict(option, COPIED_FIELDS);
      if category != CanonicalMetadata then Some((copied, source))
      else
        var confirmed :=
          if FromProvider(option) then
            ConfirmProvider(copied["metadata_authority" := Text("user_confirmed_provider_metadata")])
              + Restrict(option, SOURCE_FIELDS)
          else if Truthy(Get(option, "recording_mbid")) then
            copied["canonical_identity_verified" := Flag(true)]
          else copied;
        Some((Resolution(confirmed, FromProvider(option)), source))
  }

  /** One choice of a bundle, its correction normalised. */
  datatype Choice = Choice(option: OptionId, correction: Option<Correction>)

  datatype Bundle = Bundle(
    fingerprint: BundleFingerprint,
    revision: nat,
    choices: map<DecisionId, Choice>,
    correction: Option<Correction>)

  predicate Offered(job: Job, d: DecisionId, o: OptionId) {
    && d in job.decisions && o in job.options
    && job.options[o].decision == d
    && job.options[o].revision == job.decisions[d].revision
  }

  /** The option's own payload, as a selection of this category reads it. */
  function ReadOption(category: Category, payload: Payload): Payload {
    if category == CanonicalMetadata then ConfirmProvider(payload) else payload
  }

  function StoredSelection(b: Bundle, d: DecisionId, category: Category, payload: Payload): Stored
    requires d in b.choices
  {
    var review := Review(b.fingerprint, b.revision, b.choices.Keys, b.choices[d].option,
                         b.choices[d].correction, Some(b.correction));
    if category == CanonicalMetadata then
      Stored(CorrectPayload(ReadOption(category, payload), b.correction), Some(b.correction), Some(review))
    else Stored(payload, None, Some(review))
  }

  /** Selects one pending decision inside the transaction; None rolls everything back. */
  function SelectOne(job: Job, snapshot: Payload, b: Bundle, d: DecisionId): (r: Option<(Job, Payload)>)
    requires d in b.choices && d in job.decisions
    ensures r.Some? ==> r.value.0.decisions.Keys == job.decisions.Keys
  {
    var o := b.choices[d].option;
    if !Offered(job, d, o) then None
    else
      var category := job.decisions[d].category;
      var payload := ReadOption(category, job.options[o].payload);
      var next := ApplyOption(category, payload, snapshot, job.source, job.executable);
      if next.None? then None
      else
        var chosen := job.decisions[d].(
          phase := Selected, decidedBy := Some(User),
          selected := Some(StoredSelection(b, d, category, job.options[o].payload)));
        Some((job.(source := next.value.1,
                   decisions := job.decisions[d := chosen],
                   options := job.options[o := job.options[o].(chosen := true)]),
              next.value.0))
  }

  predicate Refers(job: Job, b: Bundle, order: seq<DecisionId>) {
    forall d :: d in order ==> d in b.choices && d in job.decisions
  }

  function SelectAll(job: Job, snapshot: Payload, b: Bundle, order: seq<DecisionId>): (r: Option<(Job, Payload)>)
    requires Refers(job, b, order)
    ensures r.Some? ==> r.value.0.decisions.Keys == job.decisions.Keys
  {
    if order == [] then Some((job, snapshot))
    else
      var n := |order| - 1;
      var before := SelectAll(job, snapshot, b, order[..n]);
      if before.None? then None else SelectOne(before.value.0, before.value.1, b, order[n])
  }

  /** The normalised corrections along the order of the pending decisions. */
  function Corrections(choices: map<DecisionId, Choice>, order: seq<DecisionId>): seq<Correction>
    requires forall d :: d in order ==> d in choices
  {
    if order == [] then []
    else
      var n := |order| - 1;
      Corrections(choices, order[..n])
      + if choices[order[n]].correction.Some? then [choices[order[n]].correction.value] else []
  }

  predicate AllNormal(byId: map<DecisionId, Selection>) {
    forall d :: d in byId ==> Normalize(byId[d].correction).Some?
  }

  function Choices(byId: map<DecisionId, Selection>): map<DecisionId, Choice>
    requires AllNormal(byId)
  {
    map d | d in byId :: Choice(byId[d].option, Normalize(byId[d].correction).value)
  }

  /** An order in which the pending decisions may be visited; the source sorts them by
      category and id, and every claim below holds for all of them. */
  ghost predicate Visits(job: Job, order: seq<DecisionId>) {
    && (forall d :: d in order <==> d in Ids(job, Pending))
    && (forall i, j :: 0 <= i < j < |order| ==> order[i] != order[j])
  }

  predicate HasIdentity(p: Payload) {
    NonemptyString(Get(p, "artist")).Some? && NonemptyString(Get(p, "title")).Some?
  }

  function BundleFrom(sub: Submission, order: seq<DecisionId>): Bundle
    requires var byId := ById(sub.selections);
             AllNormal(byId) && forall d :: d in order ==> d in byId
  {
    var choices := Choices(ById(sub.selections));
    var corrections := Corrections(choices, order);
    Bundle(sub.bundle, sub.revision, choices, if corrections == [] then None else Some(corrections[0]))
  }

  /** The checks before any decision is touched. */
  function Precheck(job: Job, sub: Submission, order: seq<DecisionId>): (conflict: Option<Conflict>)
    requires Visits(job, order)
    ensures conflict.None? ==>
      job.snapshot.Some? && ById(sub.selections).Keys == Ids(job, Pending) && AllNormal(ById(sub.selections))
  {
    var byId := ById(sub.selections);
    if job.status != NeedsReview then Some(NotAwaiting)
    else if sub.revision != job.revision then Some(StaleRevision)
    else if sub.bundle != BundleOf(job) then Some(StaleFingerprint)
    else if byId.Keys != Ids(job, Pending) then Some(NotEveryDecision)
    else if job.snapshot.None? then Some(BadSnapshot)
    else if !AllNormal(byId) then Some(BadCorrection)
    else if |Corrections(Choices(byId), order)| > 1 then Some(ManyCorrections)
    else None
  }

  /** Selects every decision, corrects the snapshot and queues the job, or refuses. */
  function Commit(job: Job, b: Bundle, order: seq<DecisionId>): Outcome
    requires Refers(job, b, order) && job.snapshot.Some?
  {
    var done := SelectAll(job, job.snapshot.value, b, order);
    if done.None? then Refused(BadOption)
    else
      var snapshot := ApproveCorrection(done.value.1, b.correction);
      if !HasIdentity(snapshot) then Refused(NoIdentity)
      else Applied(done.value.0.(snapshot := Some(snapshot), status := Queued))
  }

  /** apply_review_bundle once something is pending. */
  function ApplyPending(job: Job, sub: Submission, order: seq<DecisionId>): Outcome
    requires Visits(job, order)
  {
    var conflict := Precheck(job, sub, order);
    if conflict.Some? then Refused(conflict.value)
    else Commit(job, BundleFrom(sub, order), order)
  }

  /** _is_exact_replay. A correction that does not normalise raises, which refuses too. */
  predicate ExactReplay(job: Job, sub: Submission) {
    var byId := ById(sub.selections);
    && sub.selections != []
    && |byId| == |sub.selections|
    && byId.Keys <= Ids(job, Selected)
    && forall d :: d in byId ==> ReplaysOne(job, sub, d)
  }

  predicate ReplaysOne(job: Job, sub: Submission, d: DecisionId)
    requires d in ById(sub.selections) && d in job.decisions
  {
    var s := ById(sub.selections)[d];
    && job.decisions[d].selected.Some?
    && job.decisions[d].selected.value.review.Some?
    && var review := job.decisions[d].selected.value.review.value;
    && review.decisionIds == ById(sub.selections).Keys
    && review.bundle == sub.bundle
    && review.revision == sub.revision
    && review.optionId == s.option
    && Normalize(s.correction) == Some(review.correction)
    && s.option in job.options
    && job.options[s.option].decision == d
    && job.options[s.option].chosen
  }

  function Submit(job: Job, sub: Submission, order: seq<DecisionId>): Outcome
    requires Visits(job, order)
  {
    if Ids(job, Pending) == {} then
      if ExactReplay(job, sub) then Replayed else Refused(AlreadyDecided)
    else ApplyPending(job, sub, order)
  }
}

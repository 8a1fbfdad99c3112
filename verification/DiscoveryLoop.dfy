/** The bounded discovery loop of an attempt: at each round the model answers with tool calls, an
    invalid text or a proposal, and the loop retries, replenishes, falls back to the web or ends. */
module DiscoveryLoop {
  import opened Wrappers

  /** A proposed track by its identity; confidence in thousandths. */
  datatype Track = Track(identity: string, confidence: nat)

  /** `available` is how many retained candidates are not yet owned once this proposal is merged. */
  datatype Proposal = Proposal(clarification: bool, tracks: seq<Track>, exhausted: bool, available: nat)

  datatype Response =
    | LeaseGone
    | ProviderError(unsupported: bool)
    | Unusable
    | ToolCalls(stuck: bool)
    | ToolsInterrupted
    | Invalid
    | Valid(proposal: Proposal)

  /** `late` says whether the attempt is short of time when the round starts. */
  datatype Turn = Turn(late: bool, response: Response)

  datatype Settings = Settings(rounds: nat, cap: nat, webEnabled: bool, requested: Option<nat>)

  datatype Reason = NormalSynthesis | ForcedFinal | NoProgress | RoundExhaustion

  datatype Degraded = WebUnsupported | WebExhausted | PartialDiscovery

  datatype Failure = LeaseLost | ProviderFailure | ResponseUnusable | InvalidProposal | StepLimit

  datatype Outcome = Returned(tracks: seq<Track>, degraded: Option<Degraded>) | Raised(why: Failure)

  /** One discovery call to the model. */
  datatype Call = Call(web: bool, synthesis: bool)

  /** What the loop has spent and what it will force or ask for next. */
  datatype Budget = Budget(
    retryUsed: bool,
    webUsed: bool,
    webNext: bool,
    replenishments: nat,
    force: Option<Reason>,
    recovery: bool,
    calls: seq<Call>)

  /** The candidates, every partial retained so far, and what a failed web search falls back to. */
  datatype Finds = Finds(collected: seq<Track>, partials: seq<seq<Track>>, base: Option<seq<Track>>)

  datatype Loop = Loop(
    budget: Budget,
    finds: Finds,
    degraded: Option<Degraded>,
    termination: Option<Reason>,
    outcome: Option<Outcome>)

  const START := Loop(Budget(false, false, false, 0, None, false, []), Finds([], [], None), None, None, None)

  /** The attempt's retained partial. */
  function Partial(f: Finds): Option<seq<Track>> {
    if f.partials == [] then None else Some(f.partials[|f.partials| - 1])
  }

  // ---------- Candidates ----------

  function OversampleTarget(requested: Option<nat>, cap: nat): Option<nat> {
    if requested.None? || requested.value == 0 then None
    else if requested.value == 1 then Some(1)
    else Some(Min(cap, Max(requested.value, (requested.value * 5 + 3) / 4)))
  }

  function Position(tracks: seq<Track>, identity: string): (i: nat)
    ensures i <= |tracks|
    ensures i < |tracks| ==> tracks[i].identity == identity
    ensures forall j :: 0 <= j < i ==> tracks[j].identity != identity
  {
    if tracks == [] then 0
    else if tracks[0].identity == identity then 0
    else 1 + Position(tracks[1..], identity)
  }

  /** An insertion-ordered dictionary: a new identity is appended, a known one is replaced in
      place, and only by a more confident track. */
  function Collect(collected: seq<Track>, t: Track): seq<Track> {
    var i := Position(collected, t.identity);
    if i == |collected| then collected + [t]
    else if t.confidence > collected[i].confidence then collected[i := t]
    else collected
  }

  /** Stops altogether once the cap is reached. */
  function Merge(collected: seq<Track>, tracks: seq<Track>, cap: nat): seq<Track>
    decreases |tracks|
  {
    if tracks == [] || |collected| >= cap then collected
    else Merge(Collect(collected, tracks[0]), tracks[1..], cap)
  }

  lemma MergeStep(collected: seq<Track>, tracks: seq<Track>, i: nat, cap: nat)
    requires i < |tracks| && |collected| < cap
    ensures Merge(collected, tracks[i..], cap) == Merge(Collect(collected, tracks[i]), tracks[i + 1..], cap)
  {
    assert tracks[i..][1..] == tracks[i + 1..];
  }

  lemma MergeEnds(collected: seq<Track>, tracks: seq<Track>, cap: nat)
    requires tracks == [] || |collected| >= cap
    ensures Merge(collected, tracks, cap) == collected
  {}

  // ---------- One round ----------

  predicate Replenish(cfg: Settings, b: Budget, collected: seq<Track>, p: Proposal, synthesis: bool) {
    var target := OversampleTarget(cfg.requested, cfg.cap);
    && target.Some?
    && (|collected| < target.value || (cfg.requested.Some? && p.available < cfg.requested.value))
    && !p.exhausted && b.replenishments < 3 && !synthesis
  }

  function Or<T>(a: Option<T>, b: Option<T>): Option<T> {
    if a.Some? then a else b
  }

  function Finish(s: Loop, outcome: Outcome): Loop {
    s.(outcome := Some(outcome))
  }

  function Terminated(s: Loop, otherwise: Reason): Loop {
    s.(termination := Or(s.budget.force, Some(otherwise)))
  }

  function FinalDegraded(cfg: Settings, s: Loop, p: Proposal): Option<Degraded> {
    var exhausted :=
      if s.budget.webUsed && s.finds.collected == [] then Or(s.degraded, Some(WebExhausted)) else s.degraded;
    if cfg.requested.Some? && p.available < cfg.requested.value && s.finds.collected != []
    then Or(exhausted, Some(PartialDiscovery)) else exhausted
  }

  /** A valid proposal that asks nothing: `s` already holds the merged candidates. */
  function Proposed(cfg: Settings, s: Loop, p: Proposal, synthesis: bool, recovery: bool): Loop {
    var b, collected := s.budget, s.finds.collected;
    if recovery then Finish(Terminated(s, ForcedFinal), Returned(collected, s.degraded))
    else if Replenish(cfg, b, collected, p, synthesis) then s.(budget := b.(replenishments := b.replenishments + 1))
    else if collected == [] && cfg.webEnabled && !b.webUsed && !synthesis then
      s.(finds := s.finds.(base := Some(collected)), budget := b.(webNext := true))
    else Finish(Terminated(s, NormalSynthesis), Returned(collected, FinalDegraded(cfg, s, p)))
  }

  function Clarified(s: Loop, p: Proposal): Loop {
    var partial := Partial(s.finds);
    Finish(Terminated(s, NormalSynthesis),
           if partial.Some? && partial.value != [] then Returned(partial.value, Some(PartialDiscovery))
           else Returned(p.tracks, s.degraded))
  }

  /** Returns the fallback if there is one and otherwise fails. */
  function FallBack(s: Loop, allowed: bool, why: Failure): Loop {
    if allowed && s.finds.base.Some? then Finish(s, Returned(s.finds.base.value, s.degraded))
    else Finish(s, Raised(why))
  }

  function Merged(f: Finds, tracks: seq<Track>, cap: nat): Finds {
    var merged := Merge(f.collected, tracks, cap);
    f.(collected := merged, partials := f.partials + [merged])
  }

  /** The answer to a call that the provider accepted. */
  function Answered(cfg: Settings, s: Loop, response: Response, synthesis: bool, recovery: bool): Loop {
    match response
    case Unusable => FallBack(s, recovery, ResponseUnusable)
    case ToolCalls(stuck) =>
      if synthesis then
        if s.finds.base.Some? then FallBack(s, true, InvalidProposal)
        else Finish(s.(termination := Some(RoundExhaustion)), Raised(InvalidProposal))
      else if stuck then s.(budget := s.budget.(force := Some(NoProgress)))
      else s
    case ToolsInterrupted => Finish(s, Raised(LeaseLost))
    case Invalid =>
      if (recovery && s.finds.base.Some?) || s.budget.retryUsed then FallBack(s, recovery, InvalidProposal)
      else s.(budget := s.budget.(retryUsed := true))
    case Valid(p) =>
      if p.clarification then Clarified(s, p)
      else Proposed(cfg, s.(finds := Merged(s.finds, p.tracks, cfg.cap)), p, synthesis, recovery)
    case _ => Finish(s, Raised(ProviderFailure))
  }

  /** The last round, and any round short of time, may only synthesise. */
  function Forced(cfg: Settings, b: Budget, k: nat, late: bool): Option<Reason> {
    if k + 1 == cfg.rounds || late then Or(b.force, Some(ForcedFinal)) else b.force
  }

  function Spent(cfg: Settings, b: Budget, k: nat, late: bool): Budget {
    var force := Forced(cfg, b, k, late);
    var web := b.webNext && force.None?;
    b.(force := force, calls := b.calls + [Call(web, force.Some?)], webNext := false, webUsed := b.webUsed || web)
  }

  function Round(cfg: Settings, s: Loop, k: nat, t: Turn): Loop {
    if t.response.LeaseGone? then Finish(s, Raised(LeaseLost))
    else
      var b := Spent(cfg, s.budget, k, t.late);
      var called := s.(budget := b, termination := if b.force.Some? then b.force else s.termination);
      if t.response.ProviderError? then
        if s.budget.webNext && b.force.None? && t.response.unsupported then
          called.(degraded := Some(WebUnsupported), budget := b.(recovery := true, force := Some(ForcedFinal)))
        else Finish(called, Raised(ProviderFailure))
      else
        Answered(cfg, called, t.response, b.force.Some?, s.budget.recovery)
  }

  /** The first n rounds; nothing happens after an outcome. */
  function Rounds(cfg: Settings, turns: seq<Turn>, n: nat): Loop
    requires n <= |turns|
  {
    if n == 0 then START
    else
      var s := Rounds(cfg, turns, n - 1);
      if s.outcome.Some? then s else Round(cfg, s, n - 1, turns[n - 1])
  }

  function Discover(cfg: Settings, turns: seq<Turn>): Loop
    requires cfg.rounds <= |turns|
  {
    var s := Rounds(cfg, turns, cfg.rounds);
    if s.outcome.Some? then s else Finish(s, Raised(StepLimit))
  }

  // ---------- Candidates only improve ----------

  ghost predicate Distinct(tracks: seq<Track>) {
    forall i, j :: 0 <= i < j < |tracks| ==> tracks[i].identity != tracks[j].identity
  }

  /** Every candidate is still there, in its place, and not less confident. */
  ghost predicate Grows(a: seq<Track>, b: seq<Track>) {
    && |a| <= |b|
    && forall i :: 0 <= i < |a| ==> b[i].identity == a[i].identity && b[i].confidence >= a[i].confidence
  }

  lemma {:induction false} MergeGrows(collected: seq<Track>, tracks: seq<Track>, cap: nat)
    requires Distinct(collected)
    ensures Grows(collected, Merge(collected, tracks, cap)) && Distinct(Merge(collected, tracks, cap))
    ensures |collected| <= cap ==> |Merge(collected, tracks, cap)| <= cap
    decreases |tracks|
  {
    if tracks != [] && |collected| < cap {
      MergeGrows(Collect(collected, tracks[0]), tracks[1..], cap);
    }
  }

  lemma CollectedIsThere(collected: seq<Track>, t: Track)
    requires Distinct(collected)
    ensures var next := Collect(collected, t); var i := Position(next, t.identity);
            Distinct(next) && i < |next| && next[i].confidence >= t.confidence
  {
    var next, at := Collect(collected, t), Position(collected, t.identity);
    assert at < |next| && next[at].identity == t.identity && next[at].confidence >= t.confidence;
  }

  lemma GrowthKeepsPosition(a: seq<Track>, b: seq<Track>, identity: string)
    requires Grows(a, b) && Distinct(b) && Position(a, identity) < |a|
    ensures Position(b, identity) == Position(a, identity)
  {
    var i := Position(a, identity);
    assert b[i].identity == identity;
  }

  /** An asked-for candidate that fits is there afterwards, at least as confident as proposed. */
  lemma {:induction false} MergeCollects(collected: seq<Track>, tracks: seq<Track>, cap: nat, k: nat)
    requires Distinct(collected) && k < |tracks| && |Merge(collected, tracks, cap)| < cap
    ensures var merged := Merge(collected, tracks, cap); var i := Position(merged, tracks[k].identity);
            i < |merged| && merged[i].confidence >= tracks[k].confidence
    decreases |tracks|
  {
    MergeGrows(collected, tracks, cap);
    var next := Collect(collected, tracks[0]);
    CollectedIsThere(collected, tracks[0]);
    if k > 0 {
      MergeCollects(next, tracks[1..], cap, k - 1);
    } else {
      MergeGrows(next, tracks[1..], cap);
      GrowthKeepsPosition(next, Merge(next, tracks[1..], cap), tracks[0].identity);
    }
  }

  // ---------- The loop's invariant ----------

  function Webs(calls: seq<Call>): nat {
    if calls == [] then 0
    else var n := |calls| - 1; Webs(calls[..n]) + (if calls[n].web then 1 else 0)
  }

  function Syntheses(calls: seq<Call>): nat {
    if calls == [] then 0
    else var n := |calls| - 1; Syntheses(calls[..n]) + (if calls[n].synthesis then 1 else 0)
  }

  ghost predicate BudgetInv(b: Budget, n: nat, ended: bool) {
    && |b.calls| <= n
    && Webs(b.calls) <= (if b.webUsed then 1 else 0)
    && (b.webNext ==> !b.webUsed)
    && (b.force.None? ==> Syntheses(b.calls) == 0)
    && Syntheses(b.calls) <= (if b.retryUsed then 1 else 0) + (if ended then 1 else 0)
    && (b.recovery ==> b.force.Some?)
    && b.replenishments <= 3
  }

  ghost predicate FindsInv(cfg: Settings, f: Finds) {
    && |f.collected| <= cfg.cap && Distinct(f.collected)
    && f.collected == (if f.partials == [] then [] else f.partials[|f.partials| - 1])
    && (forall i, j :: 0 <= i < j < |f.partials| ==> Grows(f.partials[i], f.partials[j]))
    && (f.base.Some? ==> f.base.value == [])
  }

  lemma OneMoreCall(calls: seq<Call>, c: Call)
    ensures Webs(calls + [c]) == Webs(calls) + (if c.web then 1 else 0)
    ensures Syntheses(calls + [c]) == Syntheses(calls) + (if c.synthesis then 1 else 0)
  {
    assert (calls + [c])[..|calls|] == calls;
  }

  /** A call counts as a synthesis on top of the one that the retry accounts for. */
  lemma SpentKeepsBudget(cfg: Settings, b: Budget, k: nat, late: bool)
    requires BudgetInv(b, k, false)
    ensures var c := Spent(cfg, b, k, late);
            BudgetInv(c, k + 1, true) && !c.webNext && (c.force.None? ==> BudgetInv(c, k + 1, false))
  {
    var force := Forced(cfg, b, k, late);
    OneMoreCall(b.calls, Call(b.webNext && force.None?, force.Some?));
  }

  lemma AnswerKeepsBudget(cfg: Settings, s: Loop, n: nat, response: Response, recovery: bool)
    requires BudgetInv(s.budget, n, true) && !s.budget.webNext && s.outcome.None?
    requires s.budget.force.None? ==> BudgetInv(s.budget, n, false)
    ensures var next := Answered(cfg, s, response, s.budget.force.Some?, recovery);
            BudgetInv(next.budget, n, next.outcome.Some?)
  {}

  lemma RoundKeepsBudget(cfg: Settings, s: Loop, k: nat, t: Turn)
    requires BudgetInv(s.budget, k, false) && s.outcome.None?
    ensures var next := Round(cfg, s, k, t); BudgetInv(next.budget, k + 1, next.outcome.Some?)
  {
    SpentKeepsBudget(cfg, s.budget, k, t.late);
    if !t.response.LeaseGone? && !t.response.ProviderError? {
      var b := Spent(cfg, s.budget, k, t.late);
      AnswerKeepsBudget(cfg, s.(budget := b, termination := if b.force.Some? then b.force else s.termination), k + 1,
                        t.response, s.budget.recovery);
    }
  }

  lemma PartialsStayOrdered(partials: seq<seq<Track>>, merged: seq<Track>)
    requires forall i, j :: 0 <= i < j < |partials| ==> Grows(partials[i], partials[j])
    requires partials != [] ==> Grows(partials[|partials| - 1], merged)
    ensures var longer := partials + [merged]; forall i, j :: 0 <= i < j < |longer| ==> Grows(longer[i], longer[j])
  {
    var longer := partials + [merged];
    forall i, j | 0 <= i < j < |longer| ensures Grows(longer[i], longer[j]) {
      if j == |partials| && i < j - 1 { assert Grows(partials[i], partials[j - 1]); }
    }
  }

  lemma MergedKeepsFinds(cfg: Settings, f: Finds, tracks: seq<Track>)
    requires FindsInv(cfg, f)
    ensures FindsInv(cfg, Merged(f, tracks, cfg.cap))
  {
    MergeGrows(f.collected, tracks, cfg.cap);
    PartialsStayOrdered(f.partials, Merge(f.collected, tracks, cfg.cap));
  }

  lemma RoundKeepsFinds(cfg: Settings, s: Loop, k: nat, t: Turn)
    requires FindsInv(cfg, s.finds)
    ensures FindsInv(cfg, Round(cfg, s, k, t).finds)
  {
    if t.response.Valid? { MergedKeepsFinds(cfg, s.finds, t.response.proposal.tracks); }
  }

  /** One more round, or none after an outcome. */
  lemma OneMoreRound(cfg: Settings, turns: seq<Turn>, n: nat)
    requires n < |turns|
    ensures var s, next := Rounds(cfg, turns, n), Rounds(cfg, turns, n + 1);
            next == if s.outcome.Some? then s else Round(cfg, s, n, turns[n])
  {}

  lemma BudgetGoesOn(cfg: Settings, s: Loop, k: nat, t: Turn, next: Loop)
    requires BudgetInv(s.budget, k, s.outcome.Some?)
    requires next == if s.outcome.Some? then s else Round(cfg, s, k, t)
    ensures BudgetInv(next.budget, k + 1, next.outcome.Some?)
  {
    if s.outcome.Some? { MoreRounds(s.budget, k, true); } else { RoundKeepsBudget(cfg, s, k, t); }
  }

  lemma NoCallsYet()
    ensures BudgetInv(START.budget, 0, false)
  {}

  lemma MoreRounds(b: Budget, n: nat, ended: bool)
    requires BudgetInv(b, n, ended)
    ensures BudgetInv(b, n + 1, ended)
  {}

  lemma {:induction false} RoundsKeepBudget(cfg: Settings, turns: seq<Turn>, n: nat)
    requires n <= |turns|
    ensures var s := Rounds(cfg, turns, n); BudgetInv(s.budget, n, s.outcome.Some?)
  {
    if n == 0 {
      NoCallsYet();
    } else {
      RoundsKeepBudget(cfg, turns, n - 1);
      OneMoreRound(cfg, turns, n - 1);
      BudgetGoesOn(cfg, Rounds(cfg, turns, n - 1), n - 1, turns[n - 1], Rounds(cfg, turns, n));
    }
  }

  lemma {:induction false} RoundsKeepFinds(cfg: Settings, turns: seq<Turn>, n: nat)
    requires n <= |turns|
    ensures FindsInv(cfg, Rounds(cfg, turns, n).finds)
  {
    if n > 0 {
      RoundsKeepFinds(cfg, turns, n - 1);
      var s := Rounds(cfg, turns, n - 1);
      if s.outcome.None? { RoundKeepsFinds(cfg, s, n - 1, turns[n - 1]); }
    }
  }

  // ---------- What every attempt keeps to ----------

  /** Whatever the model, its tools and the provider answer, the loop ends within its budgets. */
  lemma BudgetsHold(cfg: Settings, turns: seq<Turn>)
    requires cfg.rounds <= |turns|
    ensures var s := Discover(cfg, turns);
            && |s.budget.calls| <= cfg.rounds
            && Webs(s.budget.calls) <= 1
            && Syntheses(s.budget.calls) <= 2
            && s.budget.replenishments <= 3
            && s.outcome.Some?
  {
    RoundsKeepBudget(cfg, turns, cfg.rounds);
  }

  /** The retained partial never exceeds the cap, never loses a candidate, and never replaces one
      by a less confident one of the same identity. */
  lemma RetainedOnlyImproves(cfg: Settings, turns: seq<Turn>)
    requires cfg.rounds <= |turns|
    ensures var f := Discover(cfg, turns).finds;
            && (forall i, j :: 0 <= i < j < |f.partials| ==> Grows(f.partials[i], f.partials[j]))
            && |f.collected| <= cfg.cap && Distinct(f.collected)
            && (Partial(f).Some? ==> Partial(f).value == f.collected)
            && (Partial(f).None? ==> f.collected == [])
  {
    RoundsKeepFinds(cfg, turns, cfg.rounds);
  }

  /** The oversampling target is one for a single request; for larger ones it is never more than the
      cap, at least what was requested as far as the cap allows, and at most a quarter more, rounded up. */
  lemma TargetIsBounded(requested: Option<nat>, cap: nat)
    ensures var t := OversampleTarget(requested, cap);
            && (t.Some? <==> requested.Some? && requested.value > 0)
            && (t.Some? && requested.value == 1 ==> t.value == 1)
            && (t.Some? && requested.value > 1 ==>
                  t.value <= cap && (t.value == cap || requested.value <= t.value)
                  && 4 * t.value <= 5 * requested.value + 3)
  {}

  /** Once forced, every call is synthesis-only, and no synthesis-only call searches the web. */
  ghost predicate ForcedForGood(b: Budget) {
    && (forall i, j :: 0 <= i < j < |b.calls| && b.calls[i].synthesis ==> b.calls[j].synthesis)
    && (forall i :: 0 <= i < |b.calls| && b.calls[i].synthesis ==> !b.calls[i].web && b.force.Some?)
  }

  /** A round makes no call, or one that is synthesis-only if and only if it is forced by then. */
  ghost predicate CallsOnce(cfg: Settings, b: Budget, k: nat, c: Budget) {
    && (b.force.Some? ==> c.force.Some?)
    && (c.calls == b.calls
        || exists last :: c.calls == b.calls + [last] && (last.synthesis ==> !last.web && c.force.Some?)
                          && (b.force.Some? || k + 1 == cfg.rounds ==> last.synthesis))
  }

  lemma RoundCallsOnce(cfg: Settings, s: Loop, k: nat, t: Turn)
    ensures CallsOnce(cfg, s.budget, k, Round(cfg, s, k, t).budget)
  {
    var b, c := s.budget, Round(cfg, s, k, t).budget;
    var force := Forced(cfg, b, k, t.late);
    assert c.calls == b.calls || c.calls == b.calls + [Call(b.webNext && force.None?, force.Some?)];
  }

  lemma CallingStaysForced(cfg: Settings, b: Budget, k: nat, c: Budget)
    requires ForcedForGood(b) && CallsOnce(cfg, b, k, c)
    ensures ForcedForGood(c)
  {}

  lemma ForcingGoesOn(cfg: Settings, s: Loop, k: nat, t: Turn, next: Loop)
    requires ForcedForGood(s.budget) && next == if s.outcome.Some? then s else Round(cfg, s, k, t)
    ensures ForcedForGood(next.budget)
  {
    if s.outcome.None? {
      RoundCallsOnce(cfg, s, k, t);
      CallingStaysForced(cfg, s.budget, k, next.budget);
    }
  }

  lemma NoneForcedYet()
    ensures ForcedForGood(START.budget)
  {}

  lemma {:induction false} RoundsStayForced(cfg: Settings, turns: seq<Turn>, n: nat)
    requires n <= |turns|
    ensures ForcedForGood(Rounds(cfg, turns, n).budget)
  {
    if n == 0 {
      NoneForcedYet();
    } else {
      RoundsStayForced(cfg, turns, n - 1);
      OneMoreRound(cfg, turns, n - 1);
      ForcingGoesOn(cfg, Rounds(cfg, turns, n - 1), n - 1, turns[n - 1], Rounds(cfg, turns, n));
    }
  }

  lemma LastCallIsForced(cfg: Settings, s: Loop, k: nat, t: Turn, next: Loop)
    requires k + 1 == cfg.rounds && |s.budget.calls| <= k && next == if s.outcome.Some? then s else Round(cfg, s, k, t)
    ensures var calls := next.budget.calls; |calls| == cfg.rounds ==> calls[|calls| - 1].synthesis
  {
    if s.outcome.None? { RoundCallsOnce(cfg, s, k, t); }
  }

  /** Once a call is synthesis-only every later one is, without tools or web search; and if all the
      rounds of the settings are used, the last one was. */
  lemma ForcingIsForGood(cfg: Settings, turns: seq<Turn>)
    requires 0 < cfg.rounds <= |turns|
    ensures var calls := Discover(cfg, turns).budget.calls;
            && (forall i, j :: 0 <= i < j < |calls| && calls[i].synthesis ==> calls[j].synthesis)
            && (forall i :: 0 <= i < |calls| && calls[i].synthesis ==> !calls[i].web)
            && (|calls| == cfg.rounds ==> calls[|calls| - 1].synthesis)
  {
    var k := cfg.rounds - 1;
    RoundsStayForced(cfg, turns, cfg.rounds);
    RoundsKeepBudget(cfg, turns, k);
    OneMoreRound(cfg, turns, k);
    LastCallIsForced(cfg, Rounds(cfg, turns, k), k, turns[k], Rounds(cfg, turns, cfg.rounds));
  }

  /** The loop runs out of rounds exactly when the very last answer is the first invalid one and the
      round does not recover from a failed web search. */
  lemma StepLimitExactlyOnFirstInvalidAnswer(cfg: Settings, turns: seq<Turn>)
    requires 0 < cfg.rounds <= |turns|
    ensures var s := Rounds(cfg, turns, cfg.rounds - 1);
            Discover(cfg, turns).outcome == Some(Raised(StepLimit)) <==>
              s.outcome.None? && turns[cfg.rounds - 1].response.Invalid? && !s.budget.retryUsed && !s.budget.recovery
  {
    var k := cfg.rounds - 1;
    var s := Rounds(cfg, turns, k);
    RoundsKeepWeb(cfg, turns, k);
    OneMoreRound(cfg, turns, k);
    if s.outcome.None? {
      LastRoundEnds(cfg, s, k, turns[k]);
    } else {
      NeverStepLimit(cfg, turns, k);
    }
  }

  lemma LastRoundEnds(cfg: Settings, s: Loop, k: nat, t: Turn)
    requires k + 1 == cfg.rounds && s.outcome.None? && WebInv(s)
    ensures var next := Round(cfg, s, k, t);
            && (next.outcome.None? <==> t.response.Invalid? && !s.budget.retryUsed && !s.budget.recovery)
            && next.outcome != Some(Raised(StepLimit))
  {}

  lemma RoundRaisesNoLimit(cfg: Settings, s: Loop, k: nat, t: Turn)
    requires s.outcome.None?
    ensures Round(cfg, s, k, t).outcome != Some(Raised(StepLimit))
  {}

  lemma {:induction false} NeverStepLimit(cfg: Settings, turns: seq<Turn>, n: nat)
    requires n <= |turns|
    ensures Rounds(cfg, turns, n).outcome != Some(Raised(StepLimit))
  {
    if n > 0 {
      NeverStepLimit(cfg, turns, n - 1);
      var s := Rounds(cfg, turns, n - 1);
      if s.outcome.None? { RoundRaisesNoLimit(cfg, s, n - 1, turns[n - 1]); }
    }
  }

  /** The round answers a final synthesis with tool calls although a fallback stands by. */
  predicate FallsBackLate(cfg: Settings, s: Loop, k: nat, t: Turn) {
    t.response.ToolCalls? && Forced(cfg, s.budget, k, t.late).Some? && s.finds.base.Some?
  }

  /** The web is asked, and its failure recovered from, only while nothing has been found. */
  predicate WebInv(s: Loop) {
    && ((s.budget.webNext || s.budget.recovery) && s.outcome.None? ==>
          s.finds.collected == [] && s.finds.base == Some([]))
    && (s.budget.recovery ==> s.budget.force.Some?)
  }

  lemma AnswerKeepsWeb(cfg: Settings, s: Loop, response: Response, synthesis: bool)
    requires WebInv(s) && s.outcome.None? && !s.budget.webNext
    ensures WebInv(Answered(cfg, s, response, synthesis, s.budget.recovery))
  {}

  lemma RoundKeepsWeb(cfg: Settings, s: Loop, k: nat, t: Turn)
    requires WebInv(s) && s.outcome.None?
    ensures WebInv(Round(cfg, s, k, t))
  {
    var b := Spent(cfg, s.budget, k, t.late);
    var called := s.(budget := b, termination := if b.force.Some? then b.force else s.termination);
    AnswerKeepsWeb(cfg, called, t.response, b.force.Some?);
  }

  lemma WebGoesOn(cfg: Settings, s: Loop, k: nat, t: Turn, next: Loop)
    requires WebInv(s) && next == if s.outcome.Some? then s else Round(cfg, s, k, t)
    ensures WebInv(next)
  {
    if s.outcome.None? { RoundKeepsWeb(cfg, s, k, t); }
  }

  lemma {:induction false} RoundsKeepWeb(cfg: Settings, turns: seq<Turn>, n: nat)
    requires n <= |turns|
    ensures WebInv(Rounds(cfg, turns, n))
  {
    if n == 0 {
      assert WebInv(START);
    } else {
      RoundsKeepWeb(cfg, turns, n - 1);
      OneMoreRound(cfg, turns, n - 1);
      WebGoesOn(cfg, Rounds(cfg, turns, n - 1), n - 1, turns[n - 1], Rounds(cfg, turns, n));
    }
  }

  /** A valid proposal that ends the attempt returns what is retained. */
  lemma ValidReturns(cfg: Settings, s: Loop, p: Proposal, synthesis: bool, recovery: bool, next: Loop)
    requires FindsInv(cfg, s.finds) && next == Answered(cfg, s, Valid(p), synthesis, recovery)
    requires s.outcome.None? && next.outcome.Some? && next.outcome.value.Returned?
    ensures next.finds.collected != [] ==> next.outcome.value.tracks == next.finds.collected
  {}

  /** What else ends it falls back, to nothing, with the candidates as they were. */
  lemma FallingBackReturns(cfg: Settings, s: Loop, response: Response, synthesis: bool, recovery: bool, next: Loop)
    requires !response.Valid? && next == Answered(cfg, s, response, synthesis, recovery)
    requires s.outcome.None? && next.outcome.Some? && next.outcome.value.Returned?
    ensures s.finds.base == Some(next.outcome.value.tracks) && next.finds == s.finds
    ensures recovery || (response.ToolCalls? && synthesis)
  {}

  lemma ReturnsWhatIsRetained(cfg: Settings, s: Loop, k: nat, t: Turn, next: Loop)
    requires FindsInv(cfg, s.finds) && WebInv(s) && s.outcome.None?
    requires next == Round(cfg, s, k, t) && next.outcome.Some? && next.outcome.value.Returned?
    ensures (next.finds.collected != [] && next.outcome.value.tracks != next.finds.collected)
            <==> (FallsBackLate(cfg, s, k, t) && s.finds.collected != [])
  {
    var b := Spent(cfg, s.budget, k, t.late);
    var called := s.(budget := b, termination := if b.force.Some? then b.force else s.termination);
    if t.response.Valid? {
      ValidReturns(cfg, called, t.response.proposal, b.force.Some?, s.budget.recovery, next);
    } else {
      FallingBackReturns(cfg, called, t.response, b.force.Some?, s.budget.recovery, next);
    }
  }

  /** An attempt that returns gives back the candidates it retained, except exactly when tool calls
      answer a final synthesis while a fallback from an earlier empty proposal stands by. */
  lemma DropsCandidatesExactlyWhenFallingBackLate(cfg: Settings, turns: seq<Turn>, n: nat)
    requires n < cfg.rounds <= |turns|
    requires Rounds(cfg, turns, n).outcome.None?
    requires var next := Rounds(cfg, turns, n + 1); next.outcome.Some? && next.outcome.value.Returned?
    ensures var s, next := Rounds(cfg, turns, n), Rounds(cfg, turns, n + 1);
            (next.finds.collected != [] && next.outcome.value.tracks != next.finds.collected)
            <==> (FallsBackLate(cfg, s, n, turns[n]) && s.finds.collected != [])
  {
    RoundsKeepFinds(cfg, turns, n);
    RoundsKeepWeb(cfg, turns, n);
    ReturnsWhatIsRetained(cfg, Rounds(cfg, turns, n), n, turns[n], Rounds(cfg, turns, n + 1));
  }

  const FOUND := Track("artist:title", 900)

  /** Such a run: an empty proposal sends the loop to the web; the web call asks for tools first,
      then a candidate is found and more are requested; the last round asks for tools again. */
  const LOSING_TURNS := [
    Turn(false, Valid(Proposal(false, [], true, 0))),
    Turn(false, ToolCalls(false)),
    Turn(false, Valid(Proposal(false, [FOUND], false, 1))),
    Turn(false, ToolCalls(false))]

  /** A fallback stands by, nothing is forced yet, and these candidates are retained. */
  predicate StandsBy(s: Loop, collected: seq<Track>) {
    && s.outcome.None? && s.budget.force.None? && !s.budget.recovery && s.degraded.None?
    && s.finds.base == Some([]) && s.finds.collected == collected && s.budget.replenishments <= 1
    && s.finds.partials != [] && s.finds.partials[|s.finds.partials| - 1] == collected
  }

  lemma EmptyProposalTurnsToWeb(cfg: Settings, s: Loop, t: Turn)
    requires cfg.rounds > 1 && cfg.webEnabled && cfg.requested.Some?
    requires s == START && t == Turn(false, Valid(Proposal(false, [], true, 0)))
    ensures StandsBy(Round(cfg, s, 0, t), []) && Round(cfg, s, 0, t).budget.replenishments == 0
  {
    assert Merge([], [], cfg.cap) == [];
  }

  lemma ToolsKeepStandingBy(cfg: Settings, s: Loop, k: nat, t: Turn)
    requires k + 1 < cfg.rounds && StandsBy(s, []) && s.budget.replenishments == 0 && t == Turn(false, ToolCalls(false))
    ensures StandsBy(Round(cfg, s, k, t), []) && Round(cfg, s, k, t).budget.replenishments == 0
  {}

  lemma CandidateKeepsStandingBy(cfg: Settings, s: Loop, k: nat, t: Turn, found: Track)
    requires k + 1 < cfg.rounds && cfg.cap > 0 && cfg.requested == Some(2) && StandsBy(s, [])
             && s.budget.replenishments == 0
    requires t == Turn(false, Valid(Proposal(false, [found], false, 1)))
    ensures StandsBy(Round(cfg, s, k, t), [found])
  {
    assert Merge([], [found], cfg.cap) == Merge(Collect([], found), [], cfg.cap) == [found];
  }

  lemma LateToolsFallBack(cfg: Settings, s: Loop, k: nat, t: Turn, found: Track)
    requires k + 1 == cfg.rounds && StandsBy(s, [found]) && t == Turn(false, ToolCalls(false))
    ensures var next := Round(cfg, s, k, t);
            next.outcome == Some(Returned([], None)) && Partial(next.finds) == Some([found])
  {}

  /** It returns no candidate although one is retained, so a caller that wants what was retained
      has to look at the attempt's partial. */
  lemma FallbackCanDropCandidates(cfg: Settings, turns: seq<Turn>)
    requires cfg == Settings(4, 10, true, Some(2)) && turns == LOSING_TURNS
    ensures var s := Discover(cfg, turns); s.outcome == Some(Returned([], None)) && Partial(s.finds) == Some([FOUND])
  {
    EmptyProposalTurnsToWeb(cfg, Rounds(cfg, turns, 0), turns[0]);
    OneMoreRound(cfg, turns, 0);
    ToolsKeepStandingBy(cfg, Rounds(cfg, turns, 1), 1, turns[1]);
    OneMoreRound(cfg, turns, 1);
    CandidateKeepsStandingBy(cfg, Rounds(cfg, turns, 2), 2, turns[2], FOUND);
    OneMoreRound(cfg, turns, 2);
    LateToolsFallBack(cfg, Rounds(cfg, turns, 3), 3, turns[3], FOUND);
    OneMoreRound(cfg, turns, 3);
  }

  // ---------- The loop as it runs ----------

  /** The loop's variables, and the attempt's partial and termination reason. */
  class Discovery {
    const cfg: Settings
    var retryUsed: bool
    var webUsed: bool
    var webNext: bool
    var degraded: Option<Degraded>
    var base: Option<seq<Track>>
    var replenishments: nat
    var collected: seq<Track>
    var force: Option<Reason>
    var recovery: bool
    var partial: Option<seq<Track>>
    var termination: Option<Reason>
    var roundsUsed: nat
    ghost var calls: seq<Call>
    ghost var partials: seq<seq<Track>>

    ghost function View(outcome: Option<Outcome>): Loop
      reads this
    {
      Loop(Budget(retryUsed, webUsed, webNext, replenishments, force, recovery, calls),
           Finds(collected, partials, base), degraded, termination, outcome)
    }

    ghost predicate Valid()
      reads this
    {
      roundsUsed == |calls| && partial == Partial(Finds(collected, partials, base))
    }

    constructor (cfg: Settings)
      ensures Valid() && View(None) == START && this.cfg == cfg
    {
      this.cfg := cfg;
      retryUsed, webUsed, webNext, recovery := false, false, false, false;
      degraded, base, force, partial, termination := None, None, None, None, None;
      replenishments, collected, roundsUsed := 0, [], 0;
      calls, partials := [], [];
    }

    method GatherOne(t: Track)
      modifies `collected
      ensures collected == Collect(old(collected), t)
    {
      var at := Position(collected, t.identity);
      if at == |collected| {
        collected := collected + [t];
      } else if t.confidence > collected[at].confidence {
        collected := collected[at := t];
      }
    }

    /** Adds the proposal's tracks one by one until the cap is reached. */
    method Gather(tracks: seq<Track>)
      modifies `collected
      ensures collected == Merge(old(collected), tracks, cfg.cap)
    {
      ghost var merged := Merge(collected, tracks, cfg.cap);
      assert tracks[0..] == tracks;
      var i := 0;
      while i < |tracks| && |collected| < cfg.cap
        invariant 0 <= i <= |tracks|
        invariant Merge(collected, tracks[i..], cfg.cap) == merged
      {
        MergeStep(collected, tracks, i, cfg.cap);
        GatherOne(tracks[i]);
        i := i + 1;
      }
      MergeEnds(collected, tracks[i..], cfg.cap);
    }

    /** Keeps the merged candidates as the attempt's partial. */
    method Retain(tracks: seq<Track>)
      requires Valid()
      modifies `collected, `partial, `partials
      ensures Valid() && View(None) == old(View(None)).(finds := Merged(old(View(None)).finds, tracks, cfg.cap))
    {
      Gather(tracks);
      partial := Some(collected);
      partials := partials + [collected];
    }

    /** Returns, asks for more candidates, or turns to the web. */
    method Decide(p: Proposal, synthesis: bool, recovering: bool) returns (outcome: Option<Outcome>)
      requires Valid()
      modifies `termination, `replenishments, `base, `webNext
      ensures Valid() && View(outcome) == Proposed(cfg, old(View(None)), p, synthesis, recovering)
    {
      if recovering {
        termination := Or(force, Some(ForcedFinal));
        return Some(Returned(collected, degraded));
      }
      var target := OversampleTarget(cfg.requested, cfg.cap);
      if target.Some?
         && (|collected| < target.value || (cfg.requested.Some? && p.available < cfg.requested.value))
         && !p.exhausted && replenishments < 3 && !synthesis {
        replenishments := replenishments + 1;
        return None;
      }
      if collected == [] && cfg.webEnabled && !webUsed && !synthesis {
        base := Some(collected);
        webNext := true;
        return None;
      }
      var reason := Conclude(p);
      outcome := Some(Returned(collected, reason));
    }

    /** Why the result is degraded, if it is. */
    method Conclude(p: Proposal) returns (reason: Option<Degraded>)
      modifies `termination
      ensures reason == FinalDegraded(cfg, old(View(None)), p) && termination == Or(force, Some(NormalSynthesis))
    {
      reason := degraded;
      if webUsed && collected == [] {
        reason := Or(reason, Some(WebExhausted));
      }
      if cfg.requested.Some? && p.available < cfg.requested.value && collected != [] {
        reason := Or(reason, Some(PartialDiscovery));
      }
      termination := Or(force, Some(NormalSynthesis));
    }

    method TakeAnswer(response: Response, synthesis: bool, recovering: bool) returns (outcome: Option<Outcome>)
      requires Valid() && !response.LeaseGone? && !response.ProviderError?
      modifies this
      ensures Valid() && roundsUsed == old(roundsUsed)
      ensures View(outcome) == Answered(cfg, old(View(None)), response, synthesis, recovering)
    {
      match response {
        case Unusable =>
          return if recovering && base.Some? then Some(Returned(base.value, degraded))
                 else Some(Raised(ResponseUnusable));
        case ToolCalls(stuck) =>
          if synthesis {
            if base.Some? { return Some(Returned(base.value, degraded)); }
            termination := Some(RoundExhaustion);
            return Some(Raised(InvalidProposal));
          }
          if stuck { force := Some(NoProgress); }
          return None;
        case ToolsInterrupted =>
          return Some(Raised(LeaseLost));
        case Invalid =>
          if recovering && base.Some? { return Some(Returned(base.value, degraded)); }
          if retryUsed { return Some(Raised(InvalidProposal)); }
          retryUsed := true;
          return None;
        case Valid(p) =>
          if p.clarification {
            termination := Or(force, Some(NormalSynthesis));
            if partial.Some? && partial.value != [] { return Some(Returned(partial.value, Some(PartialDiscovery))); }
            return Some(Returned(p.tracks, degraded));
          }
          Retain(p.tracks);
          outcome := Decide(p, synthesis, recovering);
      }
    }

    /** Accounts for one call and decides whether it may use tools and the web. */
    method Spend(k: nat, late: bool) returns (web: bool)
      requires Valid()
      modifies `force, `roundsUsed, `calls, `termination, `webNext, `webUsed
      ensures Valid() && web == (old(webNext) && force.None?)
      ensures var b := Spent(cfg, old(View(None)).budget, k, late);
              View(None) == old(View(None)).(budget := b,
                                             termination := if b.force.Some? then b.force else old(termination))
    {
      if k + 1 == cfg.rounds || late {
        force := Or(force, Some(ForcedFinal));
      }
      web := webNext && force.None?;
      roundsUsed := roundsUsed + 1;
      calls := calls + [Call(web, force.Some?)];
      if force.Some? { termination := force; }
      webNext := false;
      if web { webUsed := true; }
    }

    method TakeRound(k: nat, turn: Turn) returns (outcome: Option<Outcome>)
      requires Valid()
      modifies this
      ensures Valid()
      ensures View(outcome) == Round(cfg, old(View(None)), k, turn)
    {
      if turn.response.LeaseGone? {
        return Some(Raised(LeaseLost));
      }
      var recovering := recovery;
      var web := Spend(k, turn.late);
      if turn.response.ProviderError? {
        if !web || !turn.response.unsupported {
          return Some(Raised(ProviderFailure));
        }
        degraded := Some(WebUnsupported);
        recovery := true;
        force := Some(ForcedFinal);
        return None;
      }
      outcome := TakeAnswer(turn.response, force.Some?, recovering);
    }

    /** Ends with the outcome, the partial and the number of calls that the rules of the loop give. */
    method Run(turns: seq<Turn>) returns (outcome: Outcome)
      requires Valid() && View(None) == START && cfg.rounds <= |turns|
      modifies this
      ensures var s := Discover(cfg, turns);
              && Some(outcome) == s.outcome && partial == Partial(s.finds) && termination == s.termination
              && roundsUsed == |s.budget.calls| <= cfg.rounds
    {
      RoundsKeepBudget(cfg, turns, cfg.rounds);
      for k := 0 to cfg.rounds
        invariant Valid() && View(None) == Rounds(cfg, turns, k)
      {
        var ended := TakeRound(k, turns[k]);
        if ended.Some? {
          AnOutcomeIsFinal(cfg, turns, k + 1, cfg.rounds);
          return ended.value;
        }
      }
      outcome := Raised(StepLimit);
    }
  }

  lemma OutcomeStays(cfg: Settings, turns: seq<Turn>, n: nat)
    requires n < |turns| && Rounds(cfg, turns, n).outcome.Some?
    ensures Rounds(cfg, turns, n + 1) == Rounds(cfg, turns, n)
  {}

  lemma {:induction false} AnOutcomeIsFinal(cfg: Settings, turns: seq<Turn>, n: nat, m: nat)
    requires n <= m <= |turns| && Rounds(cfg, turns, n).outcome.Some?
    ensures Rounds(cfg, turns, m) == Rounds(cfg, turns, n)
    decreases m - n
  {
    if n < m {
      OutcomeStays(cfg, turns, n);
      AnOutcomeIsFinal(cfg, turns, n + 1, m);
    }
  }
}

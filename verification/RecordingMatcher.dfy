/** Ranking recording candidates and deciding on an automatic match. Scores are reals. */
module RecordingMatcher {
  import opened Wrappers
  import opened Canonical

  datatype Label = Compilation | Deluxe | Remaster | Reissue | Soundtrack | Tribute | LiveEvent

  /** The order and the amounts in which edition wording is penalised. */
  const EDITIONS: seq<(Label, real)> := [
    (Compilation, 12.0), (Deluxe, 8.0), (Remaster, 6.0), (Reissue, 6.0), (Soundtrack, 8.0),
    (Tribute, 15.0), (LiveEvent, 8.0)]

  datatype Query = Query(
    hasAlbum: bool,
    albumExplicit: bool,
    versionExplicit: bool,
    version: int,
    year: Option<int>,
    duration: Option<real>,
    editions: set<Label>)

  const STUDIO := 0

  /** A candidate as the query sees it: similarities are fractions, `albumEqual` compares
      normalised names, and `tieKey` stands for the MBID, artist and title that break ties. */
  datatype Candidate = Candidate(
    tieKey: int,
    titleSimilarity: real,
    artistSimilarity: real,
    hasAlbum: bool,
    albumSimilarity: real,
    albumEqual: bool,
    version: int,
    year: Option<int>,
    duration: Option<real>,
    editions: set<Label>)

  datatype Decision = Auto | Review | Reject

  datatype Result = Result(
    candidate: Candidate,
    score: real,
    contradictory: bool,
    decision: Decision,
    lead: Option<real>)

  function Abs(x: real): real { if x < 0.0 then -x else x }

  function DurationScore(left: Option<real>, right: Option<real>): real {
    if left.None? || right.None? then 0.5
    else
      var difference := Abs(left.value - right.value);
      if difference <= 2.0 then 1.0
      else if difference <= 8.0 then 0.8
      else if difference <= 20.0 then 0.4
      else 0.0
  }

  function YearScore(requested: int, candidate: Option<int>): real {
    if candidate.None? then 0.5
    else
      var year := candidate.value;
      var difference := if requested < year then year - requested else requested - year;
      if difference == 0 then 1.0 else if difference == 1 then 0.8 else if difference <= 3 then 0.4 else 0.0
  }

  function AlbumScore(q: Query, c: Candidate): real {
    if q.hasAlbum && c.hasAlbum then c.albumSimilarity
    else if q.hasAlbum || c.hasAlbum then 0.5
    else 1.0
  }

  function VersionDateScore(q: Query, c: Candidate): real {
    var version := if q.version == c.version then 1.0 else 0.0;
    if q.year.Some? then (version + YearScore(q.year.value, c.year)) / 2.0 else version
  }

  function EditionPenalty(requested: set<Label>, candidate: set<Label>, n: nat): real
    requires n <= |EDITIONS|
  {
    if n == 0 then 0.0
    else
      var (edition, amount) := EDITIONS[n - 1];
      EditionPenalty(requested, candidate, n - 1)
      + if edition in candidate && edition !in requested then amount else 0.0
  }

  function VersionPenalty(q: Query, c: Candidate): real {
    if q.version != c.version && (q.versionExplicit || c.version != STUDIO) then 12.0 else 0.0
  }

  function Clamp(x: real): real {
    if x < 0.0 then 0.0 else if x > 100.0 then 100.0 else x
  }

  function Score(q: Query, c: Candidate): real {
    Clamp(c.titleSimilarity * 35.0 + c.artistSimilarity * 35.0 + DurationScore(q.duration, c.duration) * 15.0
          + AlbumScore(q, c) * 10.0 + VersionDateScore(q, c) * 5.0
          - EditionPenalty(q.editions, c.editions, |EDITIONS|) - VersionPenalty(q, c))
  }

  predicate Contradictory(q: Query, c: Candidate) {
    || c.artistSimilarity < 0.95
    || (q.versionExplicit && q.version != c.version)
    || (q.albumExplicit && (!c.hasAlbum || !c.albumEqual))
  }

  function Scored(q: Query, c: Candidate): Result {
    Result(c, Score(q, c), Contradictory(q, c), Reject, None)
  }

  function ScoredAll(q: Query, cs: seq<Candidate>): seq<Result> {
    Map(c => Scored(q, c), cs)
  }

  /** The sort key: compatible first, then the better score, then the tie key. */
  predicate Before(a: Result, b: Result) {
    if a.contradictory != b.contradictory then b.contradictory
    else if a.score != b.score then a.score > b.score
    else a.candidate.tieKey <= b.candidate.tieKey
  }

  ghost predicate Ranked(results: seq<Result>) {
    forall i, j :: 0 <= i < j < |results| ==> Before(results[i], results[j])
  }

  /** The first compatible result after the top one. */
  function NextCompatible(results: seq<Result>, from: nat): Option<Result>
    requires from <= |results|
    decreases |results| - from
  {
    if from == |results| then None
    else if !results[from].contradictory then Some(results[from])
    else NextCompatible(results, from + 1)
  }

  function Lead(results: seq<Result>): Option<real>
    requires results != []
  {
    var next := NextCompatible(results, 1);
    if next.None? then None else Some(results[0].score - next.value.score)
  }

  function TopDecision(top: Result, lead: Option<real>): Decision {
    if top.score >= 88.0 && (lead.None? || lead.value >= 8.0) && !top.contradictory then Auto
    else if top.score >= 70.0 then Review
    else Reject
  }

  function OtherDecision(r: Result): Decision {
    if r.score >= 70.0 then Review else Reject
  }

  /** _classify_recordings. */
  function Classify(results: seq<Result>): seq<Result> {
    if results == [] then []
    else
      [results[0].(decision := TopDecision(results[0], Lead(results)), lead := Lead(results))]
      + seq(|results| - 1, i requires 0 <= i < |results| - 1 =>
              results[i + 1].(decision := OtherDecision(results[i + 1])))
  }

  // ---------- rank ----------

  method EditionPenaltyLoop(requested: set<Label>, candidate: set<Label>) returns (penalty: real)
    ensures penalty == EditionPenalty(requested, candidate, |EDITIONS|)
  {
    penalty := 0.0;
    for n := 0 to |EDITIONS|
      invariant penalty == EditionPenalty(requested, candidate, n)
    {
      var (edition, amount) := EDITIONS[n];
      if edition in candidate && edition !in requested {
        penalty := penalty + amount;
      }
    }
  }

  method ScoreCandidate(q: Query, c: Candidate) returns (r: Result)
    ensures r == Scored(q, c)
  {
    var contradictory := c.artistSimilarity < 0.95;
    var version := if q.version == c.version then 1.0 else 0.0;
    if q.versionExplicit && q.version != c.version {
      contradictory := true;
    }
    if q.albumExplicit {
      if !c.hasAlbum {
        contradictory := true;
      } else if !c.albumEqual {
        contradictory := true;
      }
    }
    var versionDate := if q.year.Some? then (version + YearScore(q.year.value, c.year)) / 2.0 else version;
    var score := c.titleSimilarity * 35.0 + c.artistSimilarity * 35.0
      + DurationScore(q.duration, c.duration) * 15.0 + AlbumScore(q, c) * 10.0 + versionDate * 5.0;
    var penalty := EditionPenaltyLoop(q.editions, c.editions);
    if q.version != c.version && q.versionExplicit {
      penalty := penalty + 12.0;
    } else if q.version != c.version && c.version != STUDIO {
      penalty := penalty + 12.0;
    }
    score := Clamp(score - penalty);
    r := Result(c, score, contradictory, Reject, None);
  }

  /** Sorts in place. */
  method Sort(a: array<Result>)
    modifies a
    ensures Ranked(a[..])
    ensures multiset(a[..]) == multiset(old(a[..]))
  {
    for n := 0 to a.Length
      invariant Ranked(a[..n])
      invariant multiset(a[..]) == multiset(old(a[..]))
    {
      SinkLast(a, n);
    }
    assert a[..a.Length] == a[..];
  }

  /** The first n + 1 elements are ranked but for the one at k, which may belong further down. */
  ghost predicate RankedApart(s: seq<Result>, n: nat, k: nat) {
    k <= n < |s| && forall i, j :: 0 <= i < j <= n && j != k ==> Before(s[i], s[j])
  }

  lemma SwapDown(s: seq<Result>, t: seq<Result>, n: nat, k: nat)
    requires RankedApart(s, n, k) && k > 0 && !Before(s[k - 1], s[k])
    requires t == s[k - 1 := s[k]][k := s[k - 1]]
    ensures RankedApart(t, n, k - 1)
  {
    assert Before(s[k], s[k - 1]);
    forall i, j | 0 <= i < j <= n && j != k - 1 ensures Before(t[i], t[j]) {
      if i == k - 1 && j > k { assert Before(s[k], s[j]); }
      if i == k { assert Before(s[k - 1], s[j]); }
      if j == k && i < k - 1 { assert Before(s[i], s[k - 1]); }
    }
  }

  lemma SwapKeepsElements(s: seq<Result>, t: seq<Result>, k: nat)
    requires 0 < k < |s| && t == s[k - 1 := s[k]][k := s[k - 1]]
    ensures multiset(t) == multiset(s)
  {}

  /** Moves the element at `n` down to its place in the ranked part before it. */
  method SinkLast(a: array<Result>, n: nat)
    requires n < a.Length && Ranked(a[..n])
    modifies a
    ensures Ranked(a[..n + 1])
    ensures multiset(a[..]) == multiset(old(a[..]))
  {
    var k := n;
    assert RankedApart(a[..], n, k) by {
      assert forall i :: 0 <= i < n ==> a[..n][i] == a[..][i];
    }
    while k > 0 && !Before(a[k - 1], a[k])
      invariant k >= 0 && RankedApart(a[..], n, k)
      invariant multiset(a[..]) == multiset(old(a[..]))
    {
      ghost var s := a[..];
      a[k - 1], a[k] := a[k], a[k - 1];
      SwapDown(s, a[..], n, k);
      SwapKeepsElements(s, a[..], k);
      k := k - 1;
    }
    SunkIsRanked(a[..], n, k);
  }

  lemma SunkIsRanked(s: seq<Result>, n: nat, k: nat)
    requires RankedApart(s, n, k) && (k > 0 ==> Before(s[k - 1], s[k]))
    ensures Ranked(s[..n + 1])
  {
    forall i | 0 <= i < k ensures Before(s[i], s[k]) {
      if i < k - 1 { assert Before(s[i], s[k - 1]); }
    }
  }

  // ---------- What the ranking promises ----------

  /** `r` is the automatic match of a collection of results whatever their order: once there,
      free of contradictions, at least 88, and at least 8 ahead of every other compatible
      result. */
  ghost predicate Dominant(results: multiset<Result>, r: Result) {
    && results[r] == 1
    && !r.contradictory
    && r.score >= 88.0
    && forall other :: other in results && other != r && !other.contradictory ==> other.score + 8.0 <= r.score
  }

  /** The outcome of a ranking. */
  function AutoMatch(ranked: seq<Result>): Option<Candidate> {
    if ranked != [] && ranked[0].decision == Auto then Some(ranked[0].candidate) else None
  }

  lemma NextIsBestOther(order: seq<Result>, limit: nat)
    requires Ranked(order) && order != [] && limit >= 2 && !order[0].contradictory
    ensures var next := NextCompatible(Take(order, limit), 1);
            next == if |order| > 1 && !order[1].contradictory then Some(order[1]) else None
  {
    var taken := Take(order, limit);
    if |order| > 1 && order[1].contradictory {
      NoneCompatible(taken, 1);
    }
  }

  lemma {:induction false} NoneCompatible(results: seq<Result>, from: nat)
    requires from <= |results| && forall i :: from <= i < |results| ==> results[i].contradictory
    ensures NextCompatible(results, from).None?
    decreases |results| - from
  {
    if from < |results| {
      NoneCompatible(results, from + 1);
    }
  }

  lemma OnceIsOneIndex(order: seq<Result>, r: Result, i: nat)
    requires i < |order| && order[i] == r
    ensures multiset(order)[r] == 1 <==> forall j :: 0 <= j < |order| && order[j] == r ==> j == i
  {
    assert order == order[..i] + [r] + order[i + 1..];
    if multiset(order)[r] == 1 {
      assert r !in multiset(order[..i]) && r !in multiset(order[i + 1..]);
    }
    if forall j :: 0 <= j < |order| && order[j] == r ==> j == i {
      assert r !in order[..i] && r !in order[i + 1..];
    }
  }

  lemma AutoIsDominant(order: seq<Result>, limit: nat)
    requires Ranked(order) && limit >= 2
    requires var ranked := Classify(Take(order, limit)); ranked != [] && ranked[0].decision == Auto
    ensures order != [] && Dominant(multiset(order), order[0])
  {
    var r := order[0];
    NextIsBestOther(order, limit);
    forall j | 0 < j < |order| ensures order[j] != r && (order[j].contradictory || order[j].score + 8.0 <= r.score) {
      assert Before(order[0], order[j]) && (j > 1 ==> Before(order[1], order[j]));
    }
    OnceIsOneIndex(order, r, 0);
  }

  lemma DominantIsAuto(order: seq<Result>, limit: nat, r: Result)
    requires Ranked(order) && limit >= 2 && Dominant(multiset(order), r)
    ensures var ranked := Classify(Take(order, limit));
            ranked != [] && ranked[0].decision == Auto && ranked[0].candidate == r.candidate && order[0] == r
  {
    var i := IndexOf(order, r);
    assert order[0] in multiset(order);
    assert i > 0 ==> Before(order[0], order[i]);
    OnceIsOneIndex(order, r, 0);
    NextIsBestOther(order, limit);
    if |order| > 1 {
      assert order[1] in multiset(order);
    }
  }

  /** An outcome is the decision over all the results: the dominant one's candidate, if there is one. */
  ghost predicate DecidedByAll(outcome: Option<Candidate>, results: multiset<Result>) {
    && (outcome.Some? <==> exists r :: Dominant(results, r))
    && forall r :: Dominant(results, r) ==> outcome == Some(r.candidate)
  }

  /** With a limit of at least two, the ranking yields an automatic match exactly when some
      candidate of the whole input dominates, and then it is that candidate. */
  lemma AutoExactlyWhenDominant(q: Query, cs: seq<Candidate>, order: seq<Result>, limit: nat)
    requires limit >= 2 && Ranked(order) && multiset(order) == multiset(ScoredAll(q, cs))
    ensures DecidedByAll(AutoMatch(Classify(Take(order, limit))), multiset(ScoredAll(q, cs)))
  {
    if AutoMatch(Classify(Take(order, limit))).Some? {
      AutoIsDominant(order, limit);
    }
    forall r | Dominant(multiset(order), r)
      ensures AutoMatch(Classify(Take(order, limit))) == Some(r.candidate)
    {
      DominantIsAuto(order, limit, r);
    }
  }

  /** Neither the presence of an automatic match nor its candidate depends on the order of
      the input or on how ties were broken. */
  lemma AutoIgnoresInputOrder(q: Query, cs: seq<Candidate>, ds: seq<Candidate>,
                              csOrder: seq<Result>, dsOrder: seq<Result>, limit: nat)
    requires limit >= 2 && multiset(cs) == multiset(ds)
    requires Ranked(csOrder) && multiset(csOrder) == multiset(ScoredAll(q, cs))
    requires Ranked(dsOrder) && multiset(dsOrder) == multiset(ScoredAll(q, ds))
    ensures AutoMatch(Classify(Take(csOrder, limit))) == AutoMatch(Classify(Take(dsOrder, limit)))
  {
    MapKeepsMultiset(c => Scored(q, c), cs, ds);
    AutoExactlyWhenDominant(q, cs, csOrder, limit);
    AutoExactlyWhenDominant(q, ds, dsOrder, limit);
  }

  /** Only the top result can be automatic, and every score is within 0..100. */
  lemma OneAutomaticMatch(q: Query, cs: seq<Candidate>, order: seq<Result>, limit: int)
    requires multiset(order) == multiset(ScoredAll(q, cs))
    ensures var ranked := Classify(Take(order, limit));
            forall i :: 0 <= i < |ranked| ==>
              (i > 0 ==> ranked[i].decision != Auto) && 0.0 <= ranked[i].score <= 100.0
  {
    forall i | 0 <= i < |order| ensures 0.0 <= order[i].score <= 100.0 {
      assert order[i] in multiset(ScoredAll(q, cs));
      var j := IndexOf(ScoredAll(q, cs), order[i]);
    }
  }

  /** A compatible runner-up within eight of the top result. */
  predicate CloseRunnerUp(order: seq<Result>) {
    |order| > 1 && !order[1].contradictory && order[0].score - order[1].score < 8.0
  }

  /** A limit of one cuts the runner-up off before the lead is measured: the match is automatic exactly
      if the top result is compatible and scores 88, and that differs from the decision over all the
      results exactly if the runner-up is compatible and within eight. */
  lemma LimitOneIgnoresTheRunnerUp(order: seq<Result>)
    requires Ranked(order)
    ensures var outcome := AutoMatch(Classify(Take(order, 1)));
            && (outcome.Some? <==> order != [] && !order[0].contradictory && order[0].score >= 88.0)
            && (outcome.Some? ==> outcome.value == order[0].candidate)
            && (!DecidedByAll(outcome, multiset(order)) <==> outcome.Some? && CloseRunnerUp(order))
  {
    if order != [] {
      assert Take(order, 1) == [order[0]] && NextCompatible([order[0]], 1).None?;
    }
    var whole := AutoMatch(Classify(Take(order, 2)));
    LimitTwoMeasuresTheLead(order);
    assert DecidedByAll(whole, multiset(order)) by {
      if whole.Some? { AutoIsDominant(order, 2); }
      forall r | Dominant(multiset(order), r) ensures whole == Some(r.candidate) { DominantIsAuto(order, 2, r); }
    }
  }

  lemma LimitTwoMeasuresTheLead(order: seq<Result>)
    requires Ranked(order)
    ensures var outcome := AutoMatch(Classify(Take(order, 2)));
            && (outcome.Some? <==>
                  order != [] && !order[0].contradictory && order[0].score >= 88.0 && !CloseRunnerUp(order))
            && (outcome.Some? ==> outcome.value == order[0].candidate)
  {
    if order != [] && !order[0].contradictory { NextIsBestOther(order, 2); }
  }

  /** Whatever is asked and found, and however ties are broken, the automatic match is the decision over
      all the results. */
  ghost predicate AlwaysDecidedByAll(limit: int) {
    forall q, cs, order | Ranked(order) && multiset(order) == multiset(ScoredAll(q, cs)) ::
      DecidedByAll(AutoMatch(Classify(Take(order, limit))), multiset(ScoredAll(q, cs)))
  }

  lemma DecidedByAllFromTwoOn(limit: int)
    ensures AlwaysDecidedByAll(limit) <==> limit >= 2
  {
    if limit >= 2 {
      forall q, cs, order | Ranked(order) && multiset(order) == multiset(ScoredAll(q, cs))
        ensures DecidedByAll(AutoMatch(Classify(Take(order, limit))), multiset(ScoredAll(q, cs)))
      {
        AutoExactlyWhenDominant(q, cs, order, limit);
      }
    } else if limit == 1 {
      var q, cs, order := EquallyGood();
      LimitOneIgnoresTheRunnerUp(order);
    } else {
      var q, cs, order := OnlyOne();
      DominantIsAuto(order, 2, order[0]);
    }
  }

  /** Two equally good candidates. */
  lemma EquallyGood() returns (q: Query, cs: seq<Candidate>, order: seq<Result>)
    ensures Ranked(order) && multiset(order) == multiset(ScoredAll(q, cs))
    ensures |order| == 2 && !order[0].contradictory && order[0].score >= 88.0 && CloseRunnerUp(order)
  {
    q := Query(false, false, false, STUDIO, None, None, {});
    var c := Candidate(1, 1.0, 1.0, false, 0.0, false, STUDIO, None, None, {});
    cs := [c, c.(tieKey := 2)];
    order := ScoredAll(q, cs);
    NoEditions(|EDITIONS|);
    assert order == [Scored(q, cs[0]), Scored(q, cs[1])];
    assert Score(q, c) == 92.5 && Score(q, cs[1]) == 92.5;
  }

  /** One good candidate and no other. */
  lemma OnlyOne() returns (q: Query, cs: seq<Candidate>, order: seq<Result>)
    ensures Ranked(order) && multiset(order) == multiset(ScoredAll(q, cs))
    ensures |order| == 1 && Dominant(multiset(order), order[0])
  {
    q := Query(false, false, false, STUDIO, None, None, {});
    var c := Candidate(1, 1.0, 1.0, false, 0.0, false, STUDIO, None, None, {});
    cs := [c];
    order := ScoredAll(q, cs);
    NoEditions(|EDITIONS|);
    assert order == [Scored(q, c)];
    assert Score(q, c) == 92.5;
  }

  lemma {:induction false} NoEditions(n: nat)
    requires n <= |EDITIONS|
    ensures EditionPenalty({}, {}, n) == 0.0
  {
    if n > 0 {
      NoEditions(n - 1);
    }
  }

  /** The ranking is a sorted permutation of the scored input, cut to the limit and classified.
      From a limit of two on its automatic match is the dominant candidate of the whole input. */
  method Rank(q: Query, candidates: seq<Candidate>, limit: int) returns (ranked: seq<Result>)
    ensures exists order :: Ranked(order) && multiset(order) == multiset(ScoredAll(q, candidates))
                            && ranked == Classify(Take(order, limit))
    ensures limit >= 2 ==> DecidedByAll(AutoMatch(ranked), multiset(ScoredAll(q, candidates)))
  {
    var results: seq<Result> := [];
    for n := 0 to |candidates|
      invariant results == ScoredAll(q, candidates[..n])
    {
      var r := ScoreCandidate(q, candidates[n]);
      results := results + [r];
    }
    assert candidates[..|candidates|] == candidates;
    var a := new Result[|results|](i requires 0 <= i < |results| => results[i]);
    assert a[..] == results;
    Sort(a);
    ghost var order := a[..];
    if limit >= 2 { AutoExactlyWhenDominant(q, candidates, order, limit); }
    ranked := Classify(Take(a[..], limit));
  }
}

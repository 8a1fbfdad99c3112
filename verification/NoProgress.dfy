/** The no-progress detector of discovery: results normalised so that volatile fields and
    list order do not matter, and a streak counted over model rounds. */
module NoProgress {
  import opened Wrappers
  import opened Canonical

  /** Decoded JSON; a float is its text. */
  datatype Value =
    | Null
    | Flag(flag: bool)
    | Int(number: int)
    | Float(repr: string)
    | Text(text: string)
    | List(items: seq<Value>)
    | Object(fields: map<string, Value>)

  /** What is not modelled of text: case folding and spacing, and the JSON encoding by which
      lists are sorted, as a number. */
  datatype Env = Env(fold: string -> string, encode: Value -> int)

  ghost predicate Faithful(env: Env) {
    forall a, b :: env.encode(a) == env.encode(b) ==> a == b
  }

  const VOLATILE := {"cached", "duration_ms", "view_count", "accessed_at", "fetched_at"}

  predicate EndsWith(s: string, suffix: string) {
    |suffix| <= |s| && s[|s| - |suffix|..] == suffix
  }

  predicate Identifying(field: string) {
    || field in {"id", "ids", "url", "uri"}
    || EndsWith(field, "_id") || EndsWith(field, "_ids")
    || EndsWith(field, "_mbid") || EndsWith(field, "_mbids") || EndsWith(field, "_url")
  }

  /** _normalized. */
  function Normal(v: Value, result: bool, field: string, env: Env): Value
    decreases v
  {
    match v
    case Text(t) => Text(if Identifying(field) then t else env.fold(t))
    case Object(fields) =>
      Object(map key | key in fields && !(result && key in VOLATILE) :: Normal(fields[key], result, key, env))
    case List(items) =>
      var normal := NormalAll(items, result, field, env);
      List(if result then SortBy(normal, env.encode) else normal)
    case _ => v
  }

  function NormalAll(items: seq<Value>, result: bool, field: string, env: Env): (all: seq<Value>)
    ensures |all| == |items|
    ensures forall i :: 0 <= i < |items| ==> all[i] == Normal(items[i], result, field, env)
    decreases items
  {
    if items == [] then []
    else [Normal(items[0], result, field, env)] + NormalAll(items[1..], result, field, env)
  }

  /** What a result says once list order and volatile fields are forgotten at every depth. */
  datatype Meaning =
    | Atom(value: Value)
    | Bag(items: multiset<Meaning>)
    | Record(fields: map<string, Meaning>)

  ghost function Meant(v: Value, field: string, fold: string -> string): Meaning
    decreases v
  {
    match v
    case Text(t) => Atom(Text(if Identifying(field) then t else fold(t)))
    case Object(fields) => Record(map key | key in fields && key !in VOLATILE :: Meant(fields[key], key, fold))
    case List(items) => Bag(multiset(MeantAll(items, field, fold)))
    case _ => Atom(v)
  }

  ghost function MeantAll(items: seq<Value>, field: string, fold: string -> string): (all: seq<Meaning>)
    ensures |all| == |items|
    ensures forall i :: 0 <= i < |items| ==> all[i] == Meant(items[i], field, fold)
    decreases items
  {
    if items == [] then [] else [Meant(items[0], field, fold)] + MeantAll(items[1..], field, fold)
  }

  /** Two results normalise alike exactly when they differ in nothing but list order, at any
      depth, and volatile fields. */
  lemma {:induction false} EqualUpToOrder(a: Value, b: Value, field: string, env: Env)
    requires Faithful(env)
    ensures Normal(a, true, field, env) == Normal(b, true, field, env)
            <==> Meant(a, field, env.fold) == Meant(b, field, env.fold)
    decreases a
  {
    if a.List? && b.List? {
      forall x, y | x in a.items && y in b.items
        ensures AlikeUpToOrder(x, y, field, env)
      {
        EqualUpToOrder(x, y, field, env);
      }
      ListsUpToOrder(a.items, b.items, field, env);
    } else if a.Object? && b.Object? {
      forall key | key in a.fields && key in b.fields
        ensures AlikeUpToOrder(a.fields[key], b.fields[key], key, env)
      {
        EqualUpToOrder(a.fields[key], b.fields[key], key, env);
      }
      ObjectsUpToOrder(a, b, field, env);
    }
  }

  ghost predicate AlikeUpToOrder(x: Value, y: Value, field: string, env: Env) {
    Normal(x, true, field, env) == Normal(y, true, field, env)
    <==> Meant(x, field, env.fold) == Meant(y, field, env.fold)
  }

  lemma ItemsMatch(a: seq<Value>, b: seq<Value>, field: string, env: Env)
    requires forall x, y :: x in a && y in b ==> AlikeUpToOrder(x, y, field, env)
    ensures var na, nb := NormalAll(a, true, field, env), NormalAll(b, true, field, env);
            var ma, mb := MeantAll(a, field, env.fold), MeantAll(b, field, env.fold);
            Entails(na, nb, ma, mb) && Entails(ma, mb, na, nb)
  {
    var na, nb := NormalAll(a, true, field, env), NormalAll(b, true, field, env);
    var ma, mb := MeantAll(a, field, env.fold), MeantAll(b, field, env.fold);
    forall i, j | 0 <= i < |a| && 0 <= j < |b| ensures na[i] == nb[j] <==> ma[i] == mb[j] {
      assert AlikeUpToOrder(a[i], b[j], field, env);
    }
  }

  lemma EncodingSeparates(xs: seq<Value>, ys: seq<Value>, env: Env)
    requires Faithful(env)
    ensures SeparatedBy(env.encode, xs, ys)
  {
  }

  lemma ListsMean(items: seq<Value>, field: string, env: Env)
    ensures Normal(List(items), true, field, env) == List(SortBy(NormalAll(items, true, field, env), env.encode))
    ensures Meant(List(items), field, env.fold) == Bag(multiset(MeantAll(items, field, env.fold)))
  {}

  lemma ListsUpToOrder(a: seq<Value>, b: seq<Value>, field: string, env: Env)
    requires Faithful(env)
    requires forall x, y :: x in a && y in b ==> AlikeUpToOrder(x, y, field, env)
    ensures AlikeUpToOrder(List(a), List(b), field, env)
  {
    var na, nb := NormalAll(a, true, field, env), NormalAll(b, true, field, env);
    ItemsMatch(a, b, field, env);
    EncodingSeparates(na, nb, env);
    SortedAlike(na, nb, MeantAll(a, field, env.fold), MeantAll(b, field, env.fold), env.encode);
    ListsMean(a, field, env);
    ListsMean(b, field, env);
  }

  lemma ObjectsUpToOrder(a: Value, b: Value, field: string, env: Env)
    requires a.Object? && b.Object?
    requires forall key :: key in a.fields && key in b.fields ==>
      AlikeUpToOrder(a.fields[key], b.fields[key], key, env)
    ensures AlikeUpToOrder(a, b, field, env)
  {
    var na, nb := Normal(a, true, field, env).fields, Normal(b, true, field, env).fields;
    var ma, mb := Meant(a, field, env.fold).fields, Meant(b, field, env.fold).fields;
    assert na.Keys == ma.Keys && nb.Keys == mb.Keys;
    if na == nb {
      forall key | key in ma ensures key in mb && ma[key] == mb[key] {
        assert key in na && na[key] == nb[key];
      }
      assert ma == mb;
    }
    if ma == mb {
      forall key | key in na ensures key in nb && na[key] == nb[key] {
        assert key in ma && ma[key] == mb[key];
      }
      assert na == nb;
    }
  }

  // ---------- Observations and the streak ----------

  /** _has_candidates. */
  predicate HasCandidates(v: Value)
    decreases v
  {
    match v
    case List(items) => items != []
    case Object(fields) => exists key :: key in fields && HasCandidates(fields[key])
    case _ => false
  }

  /** One tool execution; `envelope` is its output when that is JSON. */
  datatype Execution = Execution(tool: string, arguments: map<string, Value>, envelope: Option<Value>, status: string)

  /** SHA-256 over JSON is taken as injective: a fingerprint is what it hashes. */
  datatype Scope = Scope(tool: string, arguments: map<string, Value>)

  datatype Result = Result(tool: string, result: Value)

  datatype Observation = Observation(scope: Scope, result: Result, nonempty: bool, round: int)

  function Envelope(e: Execution): Value {
    if e.envelope.Some? then e.envelope.value else Object(map["status" := Text(e.status)])
  }

  function Observed(e: Execution, round: int, env: Env): Observation {
    var arguments := Normal(Object(e.arguments), false, "", env).fields;
    var envelope := Envelope(e);
    Observation(
      Scope(e.tool, arguments - {"limit"}),
      Result(e.tool, Normal(envelope, true, "", env)),
      envelope.Object? && "result" in envelope.fields && HasCandidates(envelope.fields["result"]),
      round)
  }

  predicate Equivalent(previous: Observation, next: Observation) {
    previous.result == next.result && (previous.scope == next.scope || next.nonempty)
  }

  /** Where the longest suffix of pairwise equivalent observations begins. */
  function StreakStart(history: seq<Observation>): (start: nat)
    requires history != []
    ensures start < |history|
  {
    var n := |history| - 1;
    if n > 0 && Equivalent(history[n - 1], history[n]) then StreakStart(history[..n]) else n
  }

  /** The counter the detector keeps, one observation at a time. */
  function Counter(history: seq<Observation>): nat {
    if history == [] then 0
    else
      var n := |history| - 1;
      if n == 0 || !Equivalent(history[n - 1], history[n]) then 1
      else if history[n - 1].round != history[n].round then Counter(history[..n]) + 1
      else Counter(history[..n])
  }

  function Rounds(history: seq<Observation>, start: nat): set<int> {
    set i | start <= i < |history| :: history[i].round
  }

  ghost predicate NonDecreasing(history: seq<Observation>) {
    forall i, j :: 0 <= i < j < |history| ==> history[i].round <= history[j].round
  }

  lemma {:induction false} StreakIsLongest(history: seq<Observation>)
    requires history != []
    ensures var start := StreakStart(history);
            && (forall i :: start < i < |history| ==> Equivalent(history[i - 1], history[i]))
            && (start > 0 ==> !Equivalent(history[start - 1], history[start]))
            && (forall i :: start <= i < |history| ==> history[i].result == history[|history| - 1].result)
  {
    var n := |history| - 1;
    if n > 0 && Equivalent(history[n - 1], history[n]) {
      StreakIsLongest(history[..n]);
    }
  }

  /** With non-decreasing rounds the counter is the number of distinct model rounds in the
      longest suffix of equivalent observations. */
  lemma {:induction false} CounterCountsRounds(history: seq<Observation>)
    requires history != [] && NonDecreasing(history)
    ensures Counter(history) == |Rounds(history, StreakStart(history))|
  {
    var n := |history| - 1;
    if n > 0 && Equivalent(history[n - 1], history[n]) {
      var before, start := history[..n], StreakStart(history[..n]);
      CounterCountsRounds(before);
      RoundsGrow(history, start);
    } else {
      assert Rounds(history, n) == {history[n].round};
    }
  }

  /** The last observation adds its round to a suffix unless the one before had it. */
  lemma RoundsGrow(history: seq<Observation>, start: nat)
    requires |history| > 1 && start < |history| - 1 && NonDecreasing(history)
    ensures var n := |history| - 1;
            |Rounds(history, start)|
            == |Rounds(history[..n], start)| + if history[n - 1].round != history[n].round then 1 else 0
  {
    var n := |history| - 1;
    var before := Rounds(history[..n], start);
    OneMoreRound(history, start);
    if history[n - 1].round != history[n].round {
      RoundsBelow(history[..n], start, history[n].round);
    } else {
      assert history[..n][n - 1].round in before;
      assert before + {history[n].round} == before;
    }
  }

  lemma OneMoreRound(history: seq<Observation>, start: nat)
    requires start < |history|
    ensures var n := |history| - 1; Rounds(history, start) == Rounds(history[..n], start) + {history[n].round}
  {}

  lemma RoundsBelow(history: seq<Observation>, start: nat, round: int)
    requires history != [] && NonDecreasing(history) && history[|history| - 1].round < round
    ensures round !in Rounds(history, start)
  {
    assert forall i :: start <= i < |history| ==> history[i].round <= history[|history| - 1].round;
  }

  const THRESHOLD := 3

  /** Reaching the threshold takes at least three rounds that all saw the same result, so
      alternating results never reach it. */
  lemma {:induction false} ThresholdNeedsARepeatedResult(history: seq<Observation>)
    requires NonDecreasing(history) && Counter(history) >= THRESHOLD
    ensures |history| >= THRESHOLD
    ensures forall i :: |history| - THRESHOLD <= i < |history| ==> history[i].result == history[|history| - 1].result
  {
    CounterCountsRounds(history);
    StreakIsLongest(history);
    var start := StreakStart(history);
    RoundsAtMost(history, start);
  }

  lemma {:induction false} RoundsAtMost(history: seq<Observation>, start: nat)
    requires start <= |history|
    ensures |Rounds(history, start)| <= |history| - start
    decreases |history| - start
  {
    if start == |history| {
      assert Rounds(history, start) == {};
    } else {
      RoundsAtMost(history, start + 1);
      assert Rounds(history, start) == Rounds(history, start + 1) + {history[start].round};
    }
  }

  /** Asking for more of the same, or rewording a query that found candidates, is equivalent
      exactly when the results mean the same. */
  lemma EquivalentByMeaning(e: Execution, f: Execution, r: int, t: int, env: Env)
    requires Faithful(env) && e.tool == f.tool
    ensures Equivalent(Observed(e, r, env), Observed(f, t, env))
            <==> Meant(Envelope(e), "", env.fold) == Meant(Envelope(f), "", env.fold)
                 && (Observed(e, r, env).scope == Observed(f, t, env).scope || Observed(f, t, env).nonempty)
  {
    EqualUpToOrder(Envelope(e), Envelope(f), "", env);
  }

  // ---------- The detector as discovery updates it ----------

  class Detector {
    var lastScope: Option<Scope>
    var lastResult: Option<Result>
    var lastRound: Option<int>
    var consecutiveRepeats: nat
    var observations: nat
    ghost var history: seq<Observation>

    ghost predicate Valid()
      reads this
    {
      && observations == |history|
      && consecutiveRepeats == Counter(history)
      && Remembers()
    }

    /** The three fields hold the latest observation. */
    ghost predicate Remembers()
      reads this
    {
      if history == [] then lastScope.None? && lastResult.None? && lastRound.None?
      else
        var last := history[|history| - 1];
        lastScope == Some(last.scope) && lastResult == Some(last.result) && lastRound == Some(last.round)
    }

    constructor ()
      ensures Valid() && history == []
    {
      lastScope, lastResult, lastRound := None, None, None;
      consecutiveRepeats, observations, history := 0, 0, [];
    }

    /** Without a round, the number of observations stands in for it. */
    method Observe(e: Execution, round: Option<int>, env: Env) returns (stuck: bool)
      requires Valid()
      modifies this
      ensures Valid()
      ensures history == old(history)
                + [Observed(e, if round.Some? then round.value else |old(history)| + 1, env)]
      ensures stuck <==> Counter(history) >= THRESHOLD
    {
      observations := observations + 1;
      var number := if round.Some? then round.value else observations;
      var seen := Observed(e, number, env);
      Count(seen);
      stuck := consecutiveRepeats >= THRESHOLD;
    }

    method Count(seen: Observation)
      requires observations == |history| + 1
      requires consecutiveRepeats == Counter(history) && Remembers()
      modifies this
      ensures Valid() && history == old(history) + [seen]
    {
      var equivalent := lastResult == Some(seen.result) && (lastScope == Some(seen.scope) || seen.nonempty);
      if !equivalent {
        consecutiveRepeats := 1;
      } else if lastRound != Some(seen.round) {
        consecutiveRepeats := consecutiveRepeats + 1;
      }
      lastScope, lastResult, lastRound := Some(seen.scope), Some(seen.result), Some(seen.round);
      assert (history + [seen])[..|history|] == history;
      history := history + [seen];
    }
  }
}

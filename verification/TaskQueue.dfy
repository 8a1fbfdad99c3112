/** The web half of the service-task queue: tasks claimed, extended, completed and failed
    under a token and an expiry, by supervisors that may crash or write late. */
module TaskQueue {
  import opened Wrappers

  type TaskId = nat
  type Token = nat

  datatype Target = Web | Worker

  datatype State = Queued | Running | Completed | RetryWait | Failed

  datatype Kind = OrchestrateRequest | ConfirmRequest | SelectSource | MatchCanonical

  /** How executing a task went wrong: two recoverable gates, a bad value, anything else. */
  datatype Failure = LeaseBusy | GatePending | BadValue | Ordinary

  datatype Task = Task(
    target: Target,
    kind: Kind,
    state: State,
    createdAt: int,
    availableAt: int,
    token: Option<Token>,
    expiresAt: Option<int>,
    attempts: nat,
    result: Option<string>)

  /** What a supervisor keeps of a claim; it may act on it long after losing the lease. */
  datatype Claimed = Claimed(id: TaskId, kind: Kind, token: Token, attempts: nat)

  // ---------- What each transaction does to a task ----------

  predicate Claimable(t: Task, now: int) {
    && t.target == Web
    && t.availableAt <= now
    && (t.state == Queued || t.state == RetryWait
        || (t.state == Running && t.expiresAt.Some? && t.expiresAt.value < now))
  }

  /** `id` is the task the ORDER BY created_at LIMIT 1 may pick. */
  ghost predicate Oldest(tasks: map<TaskId, Task>, now: int, id: TaskId) {
    && id in tasks && Claimable(tasks[id], now)
    && forall other :: other in tasks && Claimable(tasks[other], now) ==>
                         tasks[id].createdAt <= tasks[other].createdAt
  }

  function ClaimedTask(t: Task, token: Token, expiry: int): Task {
    t.(state := Running, token := Some(token), expiresAt := Some(expiry), attempts := t.attempts + 1)
  }

  function CompletedTask(t: Task, result: Option<string>): Task {
    t.(state := Completed, result := result, token := None, expiresAt := None)
  }

  predicate Recoverable(why: Failure) {
    why == LeaseBusy || why == GatePending
  }

  predicate Terminal(attempts: nat, why: Failure) {
    !Recoverable(why) && (attempts >= 5 || why == BadValue)
  }

  function Power2(n: nat): nat {
    if n == 0 then 1 else 2 * Power2(n - 1)
  }

  function Delay(attempts: nat, why: Failure, lease: nat): int {
    if Recoverable(why) then Max(5, lease / 2)
    else Min(300, Power2(Min(attempts, 8)))
  }

  function RetryKind(kind: Kind, why: Failure): Kind {
    if why == GatePending && kind == OrchestrateRequest then ConfirmRequest else kind
  }

  function FailedTask(t: Task, c: Claimed, why: Failure, now: int, lease: nat): Task {
    t.(state := if Terminal(c.attempts, why) then Failed else RetryWait,
       kind := RetryKind(c.kind, why),
       availableAt := now + Delay(c.attempts, why, lease),
       token := None, expiresAt := None)
  }

  predicate Owns(tasks: map<TaskId, Task>, c: Claimed) {
    c.id in tasks && tasks[c.id].token == Some(c.token)
  }

  lemma OldestExists(tasks: map<TaskId, Task>, now: int, id: TaskId) returns (oldest: TaskId)
    requires id in tasks && Claimable(tasks[id], now)
    ensures Oldest(tasks, now, oldest)
    decreases tasks.Keys
  {
    var rest := tasks - {id};
    if other :| other in rest && Claimable(rest[other], now) {
      var candidate := OldestExists(rest, now, other);
      oldest := if tasks[id].createdAt <= tasks[candidate].createdAt then id else candidate;
      assert forall k :: k in tasks && k != id ==> k in rest && rest[k] == tasks[k];
    } else {
      oldest := id;
      assert forall k :: k in tasks && k != id ==> k in rest && rest[k] == tasks[k];
    }
  }

  // ---------- The queue as supervisors update it in place ----------

  class Queue {
    var tasks: map<TaskId, Task>

    constructor (tasks: map<TaskId, Task>)
      ensures this.tasks == tasks
    {
      this.tasks := tasks;
    }

    method Claim(now: int, lease: nat, token: Token) returns (claimed: Option<Claimed>)
      modifies this
      ensures claimed.None? ==> tasks == old(tasks)
                                && forall id :: id in tasks ==> !Claimable(tasks[id], now)
      ensures claimed.Some? ==>
                var c := claimed.value;
                && Oldest(old(tasks), now, c.id)
                && c == Claimed(c.id, old(tasks)[c.id].kind, token, old(tasks)[c.id].attempts + 1)
                && tasks == old(tasks)[c.id := ClaimedTask(old(tasks)[c.id], token, now + lease)]
    {
      if !exists id :: id in tasks && Claimable(tasks[id], now) {
        return None;
      }
      ghost var some :| some in tasks && Claimable(tasks[some], now);
      ghost var witness' := OldestExists(tasks, now, some);
      var id :| id in tasks && Claimable(tasks[id], now)
                && forall other :: other in tasks && Claimable(tasks[other], now) ==>
                                     tasks[id].createdAt <= tasks[other].createdAt;
      var t := tasks[id];
      t := t.(state := Running, token := Some(token), expiresAt := Some(now + lease));
      t := t.(attempts := t.attempts + 1);
      tasks := tasks[id := t];
      claimed := Some(Claimed(id, t.kind, token, t.attempts));
    }

    method Complete(c: Claimed, result: Option<string>) returns (owned: bool)
      modifies this
      ensures owned == old(Owns(tasks, c))
      ensures tasks == if owned then old(tasks)[c.id := CompletedTask(old(tasks)[c.id], result)]
                       else old(tasks)
    {
      owned := c.id in tasks && tasks[c.id].token == Some(c.token);
      if owned {
        var t := tasks[c.id].(state := Completed, result := result);
        tasks := tasks[c.id := t.(token := None, expiresAt := None)];
      }
    }

    /** Returns whether the failure was recorded and is final. */
    method Fail(c: Claimed, why: Failure, now: int, lease: nat) returns (owned: bool, terminal: bool)
      modifies this
      ensures owned == old(Owns(tasks, c)) && terminal == Terminal(c.attempts, why)
      ensures tasks == if owned then old(tasks)[c.id := FailedTask(old(tasks)[c.id], c, why, now, lease)]
                       else old(tasks)
    {
      var busy, gate := why == LeaseBusy, why == GatePending;
      terminal := !(busy || gate) && (c.attempts >= 5 || why == BadValue);
      var delay := if busy || gate then Max(5, lease / 2) else Min(300, Power2(Min(c.attempts, 8)));
      var kind := if gate && c.kind == OrchestrateRequest then ConfirmRequest else c.kind;
      owned := c.id in tasks && tasks[c.id].token == Some(c.token);
      if owned {
        var t := tasks[c.id].(state := if terminal then Failed else RetryWait, kind := kind);
        t := t.(availableAt := now + delay);
        tasks := tasks[c.id := t.(token := None, expiresAt := None)];
      }
    }

    method Extend(c: Claimed, now: int, lease: nat) returns (owned: bool)
      modifies this
      ensures owned == old(Owns(tasks, c) && tasks[c.id].state == Running)
      ensures tasks == if owned then old(tasks)[c.id := old(tasks)[c.id].(expiresAt := Some(now + lease))]
                       else old(tasks)
    {
      owned := c.id in tasks && tasks[c.id].state == Running && tasks[c.id].token == Some(c.token);
      if owned {
        tasks := tasks[c.id := tasks[c.id].(expiresAt := Some(now + lease))];
      }
    }
  }

  // ---------- Every interleaving of supervisors ----------

  /** What has happened to one task so far. */
  datatype History = History(claims: nat, ordinaryRetries: nat, results: seq<Token>)

  datatype World = World(
    tasks: map<TaskId, Task>,
    now: int,
    issued: set<Claimed>,
    history: map<TaskId, History>,
    nextToken: Token)

  datatype Step =
    | Tick(delta: nat)
    | Enqueue(id: TaskId, target: Target, kind: Kind)
    | Claim(id: TaskId, lease: nat)
    | Extend(claim: Claimed, lease: nat)
    | Complete(claim: Claimed, result: Option<string>)
    | Fail(claim: Claimed, why: Failure, lease: nat)

  const INIT := World(map[], 0, {}, map[], 0)

  function NewTask(target: Target, kind: Kind, now: int): Task {
    Task(target, kind, Queued, now, now, None, None, 0, None)
  }

  /** One atomic step. Any claim ever issued may act at any time: a stopped, slow or
      crashed supervisor is one whose claim acts late or never. */
  ghost function Next(w: World, step: Step): World {
    match step
    case Tick(delta) => w.(now := w.now + delta)
    case Enqueue(id, target, kind) =>
      if id in w.tasks then w else
        w.(tasks := w.tasks[id := NewTask(target, kind, w.now)],
           history := w.history[id := History(0, 0, [])])
    case Claim(id, lease) =>
      if id in w.history && Oldest(w.tasks, w.now, id) then
        var t, h := w.tasks[id], w.history[id];
        w.(tasks := w.tasks[id := ClaimedTask(t, w.nextToken, w.now + lease)],
           issued := w.issued + {Claimed(id, t.kind, w.nextToken, t.attempts + 1)},
           history := w.history[id := h.(claims := h.claims + 1)],
           nextToken := w.nextToken + 1)
      else w
    case Extend(c, lease) =>
      if c in w.issued && Owns(w.tasks, c) && w.tasks[c.id].state == Running then
        w.(tasks := w.tasks[c.id := w.tasks[c.id].(expiresAt := Some(w.now + lease))])
      else w
    case Complete(c, result) =>
      if c in w.issued && c.id in w.history && Owns(w.tasks, c) then
        var h := w.history[c.id];
        w.(tasks := w.tasks[c.id := CompletedTask(w.tasks[c.id], result)],
           history := w.history[c.id := h.(results := h.results + [c.token])])
      else w
    case Fail(c, why, lease) =>
      if c in w.issued && c.id in w.history && Owns(w.tasks, c) then
        var h := w.history[c.id];
        var retried := !Recoverable(why) && !Terminal(c.attempts, why);
        w.(tasks := w.tasks[c.id := FailedTask(w.tasks[c.id], c, why, w.now, lease)],
           history := w.history[c.id := if retried then h.(ordinaryRetries := h.ordinaryRetries + 1) else h])
      else w
  }

  ghost function Run(w: World, steps: seq<Step>): World {
    if steps == [] then w else Next(Run(w, steps[..|steps| - 1]), steps[|steps| - 1])
  }

  predicate TaskInv(t: Task, h: History) {
    && (t.state == Running <==> t.token.Some?)
    && (t.token.Some? <==> t.expiresAt.Some?)
    && t.attempts == h.claims
    && h.ordinaryRetries <= (if t.state == Running && t.attempts > 0 then t.attempts - 1 else t.attempts)
    && h.ordinaryRetries <= 4
    && (t.state == Running ==> t.attempts > 0)
    && (t.target == Worker ==> t.attempts == 0)
    && (if t.state == Completed then |h.results| == 1 else h.results == [] && t.result.None?)
  }

  ghost predicate Inv(w: World) {
    && w.history.Keys == w.tasks.Keys
    && (forall id :: id in w.tasks ==> TaskInv(w.tasks[id], w.history[id]))
    && (forall id :: id in w.tasks && w.tasks[id].token.Some? ==> w.tasks[id].token.value < w.nextToken)
    && (forall c :: c in w.issued ==> ClaimInv(w, c))
  }

  predicate ClaimInv(w: World, c: Claimed) {
    && c.token < w.nextToken
    && c.id in w.tasks
    && (w.tasks[c.id].token == Some(c.token) ==> w.tasks[c.id].attempts == c.attempts)
  }

  lemma ClaimKeepsInv(w: World, id: TaskId, lease: nat)
    requires Inv(w)
    ensures Inv(Next(w, Claim(id, lease)))
  {
    var v := Next(w, Claim(id, lease));
    if v != w {
      assert TaskInv(w.tasks[id], w.history[id]);
      forall c | c in v.issued ensures ClaimInv(v, c) {
        assert c in w.issued ==> ClaimInv(w, c);
      }
    }
  }

  /** A step by a holder touches its one task, and never hands out a token. */
  lemma HolderTouchesOneTask(w: World, step: Step)
    requires Inv(w)
    requires step.Extend? || step.Complete? || step.Fail?
    ensures var v, id := Next(w, step), step.claim.id;
            && v.issued == w.issued && v.nextToken == w.nextToken && v.tasks.Keys == w.tasks.Keys
            && v.history.Keys == w.history.Keys
            && (forall k :: k in w.tasks && k != id ==> v.tasks[k] == w.tasks[k] && v.history[k] == w.history[k])
            && (v != w ==> id in w.tasks && TaskInv(v.tasks[id], v.history[id])
                           && (v.tasks[id].token.None? || v.tasks[id].token == w.tasks[id].token)
                           && v.tasks[id].attempts == w.tasks[id].attempts)
  {
    if Next(w, step) != w {
      assert TaskInv(w.tasks[step.claim.id], w.history[step.claim.id]) && ClaimInv(w, step.claim);
    }
  }

  lemma OneTaskKeepsInv(w: World, v: World, id: TaskId)
    requires Inv(w) && id in w.tasks
    requires v.issued == w.issued && v.nextToken == w.nextToken && v.tasks.Keys == w.tasks.Keys
    requires v.history.Keys == w.history.Keys
    requires forall k :: k in w.tasks && k != id ==> v.tasks[k] == w.tasks[k] && v.history[k] == w.history[k]
    requires TaskInv(v.tasks[id], v.history[id]) && v.tasks[id].attempts == w.tasks[id].attempts
    requires v.tasks[id].token.None? || v.tasks[id].token == w.tasks[id].token
    ensures Inv(v)
  {
    forall c | c in v.issued ensures ClaimInv(v, c) {
      assert ClaimInv(w, c);
    }
  }

  lemma HolderKeepsInv(w: World, step: Step)
    requires Inv(w)
    requires step.Extend? || step.Complete? || step.Fail?
    ensures Inv(Next(w, step))
  {
    HolderTouchesOneTask(w, step);
    if Next(w, step) != w { OneTaskKeepsInv(w, Next(w, step), step.claim.id); }
  }

  lemma StepKeepsInv(w: World, step: Step)
    requires Inv(w)
    ensures Inv(Next(w, step))
  {
    match step
    case Claim(id, lease) => ClaimKeepsInv(w, id, lease);
    case Extend(_, _) => HolderKeepsInv(w, step);
    case Complete(_, _) => HolderKeepsInv(w, step);
    case Fail(_, _, _) => HolderKeepsInv(w, step);
    case _ =>
      forall c | c in w.issued ensures ClaimInv(Next(w, step), c) {
        assert ClaimInv(w, c);
      }
  }

  lemma {:induction false} RunKeepsInv(steps: seq<Step>)
    ensures Inv(Run(INIT, steps))
  {
    if steps != [] {
      var n := |steps| - 1;
      RunKeepsInv(steps[..n]);
      StepKeepsInv(Run(INIT, steps[..n]), steps[n]);
    }
  }

  // ---------- What holds over whole runs ----------

  /** In every run a task is running exactly while it has a token, its attempt counter is the
      number of times it was claimed, it had at most four retries from ordinary failures,
      and it has one recorded result if it completed and none otherwise. */
  lemma EveryTaskIsAccountedFor(steps: seq<Step>, id: TaskId)
    requires id in Run(INIT, steps).tasks
    ensures var w := Run(INIT, steps);
            && id in w.history
            && var t, h := w.tasks[id], w.history[id];
            && (t.state == Running <==> t.token.Some?)
            && t.attempts == h.claims
            && h.ordinaryRetries <= 4 && h.ordinaryRetries <= h.claims
            && |h.results| == (if t.state == Completed then 1 else 0)
  {
    RunKeepsInv(steps);
    var w := Run(INIT, steps);
    assert TaskInv(w.tasks[id], w.history[id]);
  }

  /** No step changes a completed or a failed task, and only the holder of the current token
      of a running task can write a result. */
  lemma {:induction false} FinalTasksAreFinal(steps: seq<Step>, step: Step, id: TaskId)
    requires id in Run(INIT, steps).tasks
    ensures var w, v := Run(INIT, steps), Next(Run(INIT, steps), step);
            && id in v.tasks
            && (w.tasks[id].state in {Completed, Failed} ==> v.tasks[id] == w.tasks[id])
            && (v.tasks[id].result != w.tasks[id].result ==>
                  && step.Complete? && step.claim.id == id
                  && w.tasks[id].state == Running && w.tasks[id].token == Some(step.claim.token)
                  && v.tasks[id].state == Completed && v.tasks[id].result == step.result)
  {
    RunKeepsInv(steps);
    var w := Run(INIT, steps);
    assert TaskInv(w.tasks[id], w.history[id]);
  }

  predicate Superseded(w: World, c: Claimed) {
    c in w.issued && c.id in w.tasks && w.tasks[c.id].token != Some(c.token)
  }

  lemma SupersededStays(w: World, step: Step, c: Claimed)
    requires Inv(w) && Superseded(w, c)
    ensures Superseded(Next(w, step), c)
  {
    assert ClaimInv(w, c);
  }

  /** A supervisor whose claim has been completed, failed or taken over can never again
      extend, complete or fail the task, whatever happens in between. */
  lemma {:induction false} LateWritersAreInert(steps: seq<Step>, more: seq<Step>, c: Claimed, step: Step)
    requires Superseded(Run(INIT, steps), c)
    requires (step.Extend? || step.Complete? || step.Fail?) && step.claim == c
    ensures Superseded(Run(INIT, steps + more), c)
    ensures Next(Run(INIT, steps + more), step) == Run(INIT, steps + more)
  {
    if more == [] {
      assert steps + more == steps;
    } else {
      var n := |more| - 1;
      LateWritersAreInert(steps, more[..n], c, step);
      RunKeepsInv(steps + more[..n]);
      var all := steps + more;
      assert all[..|all| - 1] == steps + more[..n] && all[|all| - 1] == more[n];
      SupersededStays(Run(INIT, steps + more[..n]), more[n], c);
    }
  }
}

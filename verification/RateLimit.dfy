/** The host-wide rate limiter: processes share one small file, hold its lock while they wait, and
    write when they started. Times are in microseconds. */
module RateLimit {
  import opened Wrappers

  // ---------- The file's text ----------

  function Digit(d: nat): char
    requires d < 10
  {
    '0' + d as char
  }

  function Decimal(n: nat): string {
    if n < 10 then [Digit(n)] else Decimal(n / 10) + [Digit(n % 10)]
  }

  /** Exactly k digits. */
  function Padded(n: nat, k: nat): string {
    if k == 0 then "" else Padded(n / 10, k - 1) + [Digit(n % 10)]
  }

  /** Seconds with six decimals and a newline. */
  function Print(micros: nat): string {
    Decimal(micros / 1000000) + "." + Padded(micros % 1000000, 6) + "\n"
  }

  predicate AllDigits(s: string) {
    forall i :: 0 <= i < |s| ==> '0' <= s[i] <= '9'
  }

  function Number(s: string): nat
    requires AllDigits(s)
  {
    if s == "" then 0 else var n := |s| - 1; 10 * Number(s[..n]) + (s[n] - '0') as nat
  }

  /** Reads back what Print writes; any other text is not one of the limiter's. */
  function Parse(s: string): Option<nat> {
    var n := |s|;
    if n < 9 || s[n - 1] != '\n' || s[n - 8] != '.' || !AllDigits(s[..n - 8]) || !AllDigits(s[n - 7..n - 1]) then None
    else Some(1000000 * Number(s[..n - 8]) + Number(s[n - 7..n - 1]))
  }

  /** Writing at the start of the file keeps what is beyond the payload. */
  function Overwrite(content: string, payload: string): string {
    payload + if |payload| < |content| then content[|payload|..] else ""
  }

  function Power10(k: nat): nat {
    if k == 0 then 1 else 10 * Power10(k - 1)
  }

  /** The first 64 bytes of the file still hold the whole text of such a time. */
  const HORIZON := Power10(56) * 1000000

  lemma {:induction false} DecimalReadsBack(n: nat)
    ensures AllDigits(Decimal(n)) && Number(Decimal(n)) == n
  {
    if n < 10 {
      assert Decimal(n)[..0] == "";
    } else {
      DecimalReadsBack(n / 10);
      var s := Decimal(n);
      assert s[..|s| - 1] == Decimal(n / 10);
    }
  }

  lemma {:induction false} PaddedReadsBack(n: nat, k: nat)
    requires n < Power10(k)
    ensures |Padded(n, k)| == k && AllDigits(Padded(n, k)) && Number(Padded(n, k)) == n
  {
    if k > 0 {
      PaddedReadsBack(n / 10, k - 1);
      var s := Padded(n, k);
      assert s[..k - 1] == Padded(n / 10, k - 1);
    }
  }

  lemma {:induction false} DecimalLength(n: nat, k: nat)
    requires k > 0
    ensures |Decimal(n)| <= k <==> n < Power10(k)
  {
    if n >= 10 {
      if k > 1 { DecimalLength(n / 10, k - 1); } else { assert Power10(1) == 10; }
    } else {
      PowersGrow(k);
    }
  }

  lemma {:induction false} PowersGrow(k: nat)
    requires k > 0
    ensures Power10(k) >= 10
  {
    if k > 1 { PowersGrow(k - 1); }
  }

  lemma SixDigits()
    ensures Power10(6) == 1000000
  {
    assert Power10(3) == 1000 && Power10(6) == 1000 * Power10(3);
  }

  /** Every time that is written is read back exactly. */
  lemma PrintReadsBack(micros: nat)
    ensures Parse(Print(micros)) == Some(micros)
  {
    var a, b := Decimal(micros / 1000000), Padded(micros % 1000000, 6);
    SixDigits();
    DecimalReadsBack(micros / 1000000);
    PaddedReadsBack(micros % 1000000, 6);
    var s := Print(micros);
    assert s == a + ("." + b + "\n");
    assert s[..|s| - 8] == a && s[|s| - 7..|s| - 1] == b;
    DecimalIsNotEmpty(micros / 1000000);
  }

  lemma DecimalIsNotEmpty(n: nat)
    ensures Decimal(n) != ""
  {}

  lemma PrintFits(micros: nat)
    requires micros < HORIZON
    ensures |Print(micros)| <= 64
  {
    assert micros / 1000000 < Power10(56);
    DecimalLength(micros / 1000000, 56);
    SixDigits();
    PaddedReadsBack(micros % 1000000, 6);
  }

  /** A later time is never shorter. */
  lemma {:induction false} DecimalGrows(a: nat, b: nat)
    requires a <= b
    ensures |Decimal(a)| <= |Decimal(b)|
  {
    if b >= 10 && a >= 10 { DecimalGrows(a / 10, b / 10); }
    DecimalIsNotEmpty(b);
  }

  lemma PrintGrows(a: nat, b: nat)
    requires a <= b
    ensures |Print(a)| <= |Print(b)|
  {
    DecimalGrows(a / 1000000, b / 1000000);
    SixDigits();
    PaddedReadsBack(a % 1000000, 6);
    PaddedReadsBack(b % 1000000, 6);
  }

  // ---------- Rounding to whole microseconds ----------

  /** To the nearest, ties to even. */
  function Round(t: real): int {
    var f := t.Floor;
    var rest := t - f as real;
    if rest < 0.5 || (rest == 0.5 && f % 2 == 0) then f else f + 1
  }

  lemma RoundIsNear(t: real)
    ensures t - 0.5 <= Round(t) as real <= t + 0.5
  {}

  lemma RoundIsMonotone(a: real, b: real)
    requires a <= b
    ensures Round(a) <= Round(b)
  {
    assert a.Floor <= b.Floor;
  }

  lemma RoundKeepsWholes(n: int)
    ensures Round(n as real) == n
  {}

  function Stamp(t: real): nat
  {
    var r := Round(if t < 0.0 then 0.0 else t);
    RoundIsNotNegative(t);
    r
  }

  lemma RoundIsNotNegative(t: real)
    ensures Round(if t < 0.0 then 0.0 else t) >= 0
  {
    RoundKeepsWholes(0);
    RoundIsMonotone(0.0, if t < 0.0 then 0.0 else t);
  }

  // ---------- One wait ----------

  /** The largest delay that is believed: ten seconds or ten intervals. */
  function Patience(interval: real): real {
    if interval * 10.0 > 10000000.0 then interval * 10.0 else 10000000.0
  }

  /** What a reader makes of the file; `foreign` is the value of a text that no limiter wrote. */
  function ReadTime(content: string, foreign: real): real {
    var raw := if |content| <= 64 then content else content[..64];
    if raw == "" then 0.0
    else
      var t := Parse(raw);
      if t.Some? then t.value as real else if foreign >= 0.0 then foreign else 0.0
  }

  function Pause(last: real, interval: real, now: real): real {
    var delay := last + interval - now;
    if 0.0 < delay <= Patience(interval) then delay else 0.0
  }

  class HostRateLimiter {
    const interval: real
    var content: string

    constructor (interval: real, content: string)
      ensures this.interval == interval && this.content == content
    {
      this.interval, this.content := interval, content;
    }

    method Write(value: real)
      modifies `content
      ensures content == Print(Stamp(value))
    {
      var payload := Print(Stamp(value));
      content := Overwrite(content, payload);
      content := content[..|payload|];
    }

    /** The section under the lock: `now` is read first, and waking takes `over` longer than asked. */
    method Wait(now: real, over: real, foreign: real) returns (slept: real)
      modifies `content
      ensures slept == Pause(ReadTime(old(content), foreign), interval, now)
      ensures content == Print(Stamp(now + slept + over))
    {
      var last := ReadTime(content, foreign);
      var delay := last + interval - now;
      slept := 0.0;
      if 0.0 < delay <= Patience(interval) {
        slept := delay;
      }
      Write(now + slept + over);
    }
  }

  // ---------- All the processes of a host ----------

  datatype World = World(content: string, clock: real, reserved: seq<nat>)

  /** Each step is one process's turn with the lock. A process may stop while it holds it, before
      it writes or after it has written and before it truncates the file. */
  datatype Step =
    | Elapse(time: real)
    | Turn(before: real, over: real, foreign: real)
    | StopBeforeWrite(before: real, over: real, foreign: real)
    | StopBeforeTruncate(before: real, over: real, foreign: real)

  predicate Forward(step: Step) {
    match step
    case Elapse(time) => time >= 0.0
    case Turn(before, over, _) => before >= 0.0 && over >= 0.0
    case StopBeforeWrite(before, over, _) => before >= 0.0 && over >= 0.0
    case StopBeforeTruncate(before, over, _) => before >= 0.0 && over >= 0.0
  }

  function Woken(w: World, interval: real, before: real, over: real, foreign: real): real {
    var now := w.clock + before;
    now + Pause(ReadTime(w.content, foreign), interval, now) + over
  }

  function Next(w: World, interval: real, step: Step): World {
    match step
    case Elapse(time) => w.(clock := w.clock + time)
    case StopBeforeWrite(before, over, foreign) => w.(clock := Woken(w, interval, before, over, foreign))
    case Turn(before, over, foreign) =>
      var t := Woken(w, interval, before, over, foreign);
      World(Print(Stamp(t)), t, w.reserved + [Stamp(t)])
    case StopBeforeTruncate(before, over, foreign) =>
      var t := Woken(w, interval, before, over, foreign);
      World(Overwrite(w.content, Print(Stamp(t))), t, w.reserved + [Stamp(t)])
  }

  function Run(w: World, interval: real, steps: seq<Step>): World {
    if steps == [] then w else Next(Run(w, interval, steps[..|steps| - 1]), interval, steps[|steps| - 1])
  }

  function Last(reserved: seq<nat>): nat
    requires reserved != []
  {
    reserved[|reserved| - 1]
  }

  /** A new file, or one that a limiter wrote last. */
  predicate Inv(w: World) {
    && w.clock >= 0.0
    && (if w.reserved == [] then w.content == ""
        else w.content == Print(Last(w.reserved)) && Last(w.reserved) <= Stamp(w.clock))
  }

  /** The clock stays where 64 bytes can hold it. */
  predicate InTime(w: World) {
    w.clock + 1.0 < HORIZON as real
  }

  lemma StampIsNear(t: real)
    requires t >= 0.0
    ensures t - 0.5 <= Stamp(t) as real <= t + 0.5
  {
    RoundIsNear(t);
  }

  lemma StampIsMonotone(a: real, b: real)
    requires a <= b
    ensures Stamp(a) <= Stamp(b)
  {
    RoundIsMonotone(if a < 0.0 then 0.0 else a, if b < 0.0 then 0.0 else b);
  }

  /** A reader sees exactly the last time that was written. */
  lemma ReaderSeesTheLast(w: World, foreign: real)
    requires Inv(w) && InTime(w)
    ensures ReadTime(w.content, foreign) == if w.reserved == [] then 0.0 else Last(w.reserved) as real
  {
    if w.reserved != [] {
      StampIsNear(w.clock);
      var r := Last(w.reserved);
      assert (r as real) < HORIZON as real;
      PrintFits(r);
      PrintReadsBack(r);
    }
  }

  /** The last time is never so far ahead that it is taken for a jump of the clock. */
  lemma NeverOutOfPatience(w: World, interval: real, now: real, foreign: real)
    requires Inv(w) && InTime(w) && interval >= 0.0 && now >= w.clock
    ensures ReadTime(w.content, foreign) + interval - now <= Patience(interval)
  {
    ReaderSeesTheLast(w, foreign);
    if w.reserved != [] { StampIsNear(w.clock); }
  }

  lemma WokenIsLate(w: World, interval: real, before: real, over: real, foreign: real)
    requires Inv(w) && InTime(w) && interval >= 0.0 && before >= 0.0 && over >= 0.0
    ensures var t := Woken(w, interval, before, over, foreign);
            t >= w.clock && (w.reserved != [] ==> t >= Last(w.reserved) as real + interval)
  {
    NeverOutOfPatience(w, interval, w.clock + before, foreign);
    ReaderSeesTheLast(w, foreign);
  }

  /** Overwriting an earlier time leaves no tail, so a stop before truncating does no harm. */
  lemma OverwritingLeavesNoTail(w: World, t: real)
    requires Inv(w) && t >= w.clock
    ensures Overwrite(w.content, Print(Stamp(t))) == Print(Stamp(t))
  {
    StampIsMonotone(w.clock, t);
    if w.reserved != [] { PrintGrows(Last(w.reserved), Stamp(t)); }
  }

  lemma StepKeepsInv(w: World, interval: real, step: Step)
    requires Inv(w) && InTime(w) && interval >= 0.0 && Forward(step)
    ensures Inv(Next(w, interval, step)) && Next(w, interval, step).clock >= w.clock
  {
    match step
    case Elapse(time) =>
      StampIsMonotone(w.clock, w.clock + time);
    case StopBeforeWrite(before, over, foreign) =>
      WokenIsLate(w, interval, before, over, foreign);
      StampIsMonotone(w.clock, Woken(w, interval, before, over, foreign));
    case Turn(before, over, foreign) =>
      WokenIsLate(w, interval, before, over, foreign);
    case StopBeforeTruncate(before, over, foreign) =>
      WokenIsLate(w, interval, before, over, foreign);
      OverwritingLeavesNoTail(w, Woken(w, interval, before, over, foreign));
  }

  lemma {:induction false} RunKeepsInv(w: World, interval: real, steps: seq<Step>)
    requires Inv(w) && interval >= 0.0 && forall i :: 0 <= i < |steps| ==> Forward(steps[i])
    requires InTime(Run(w, interval, steps))
    ensures Inv(Run(w, interval, steps))
    ensures forall n :: 0 <= n <= |steps| ==> InTime(Run(w, interval, steps[..n])) && Inv(Run(w, interval, steps[..n]))
  {
    var m := |steps|;
    if m > 0 {
      ClockNeverRunsBack(w, interval, steps, m - 1);
      RunKeepsInv(w, interval, steps[..m - 1]);
      StepKeepsInv(Run(w, interval, steps[..m - 1]), interval, steps[m - 1]);
    }
    forall n | 0 <= n <= m ensures InTime(Run(w, interval, steps[..n])) && Inv(Run(w, interval, steps[..n])) {
      if n == m { assert steps[..n] == steps; } else { assert steps[..m - 1][..n] == steps[..n]; }
    }
  }

  lemma PausesAreNotNegative(w: World, interval: real, step: Step)
    requires Forward(step)
    ensures Next(w, interval, step).clock >= w.clock
  {}

  lemma {:induction false} ClockNeverRunsBack(w: World, interval: real, steps: seq<Step>, n: nat)
    requires n <= |steps| && forall i :: 0 <= i < |steps| ==> Forward(steps[i])
    ensures Run(w, interval, steps[..n]).clock <= Run(w, interval, steps).clock
    decreases |steps| - n
  {
    if n == |steps| {
      assert steps[..n] == steps;
    } else {
      ClockNeverRunsBack(w, interval, steps, n + 1);
      assert steps[..n + 1][..n] == steps[..n];
      PausesAreNotNegative(Run(w, interval, steps[..n]), interval, steps[n]);
    }
  }

  // ---------- How far apart reservations are ----------

  /** Whole microseconds, or a fraction that rounds up. */
  predicate Roundable(interval: real) {
    var rest := interval - interval.Floor as real;
    rest == 0.0 || rest > 0.5
  }

  /** A time at least an interval after a reservation is written at least an interval after it. */
  lemma RoundingKeepsTheInterval(last: nat, interval: real, t: real)
    requires interval >= 0.0 && Roundable(interval) && t >= last as real + interval
    ensures Stamp(t) as real >= last as real + interval
  {
    var sum := last as real + interval;
    assert sum.Floor == last + interval.Floor;
    StampIsMonotone(sum, t);
  }

  lemma NextReservation(w: World, interval: real, step: Step)
    requires Inv(w) && InTime(w) && interval >= 0.0 && Roundable(interval) && Forward(step)
    ensures var v := Next(w, interval, step);
            && w.reserved <= v.reserved && |v.reserved| <= |w.reserved| + 1
            && (w.reserved != [] && v.reserved != w.reserved ==>
                  Last(v.reserved) as real >= Last(w.reserved) as real + interval)
  {
    if step.Turn? || step.StopBeforeTruncate? {
      WokenIsLate(w, interval, step.before, step.over, step.foreign);
      if w.reserved != [] {
        RoundingKeepsTheInterval(Last(w.reserved), interval, Woken(w, interval, step.before, step.over, step.foreign));
      }
    }
  }

  predicate Spaced(reserved: seq<nat>, interval: real) {
    forall i :: 0 <= i < |reserved| - 1 ==> reserved[i + 1] as real >= reserved[i] as real + interval
  }

  lemma {:induction false} RunIsSpaced(w: World, interval: real, steps: seq<Step>)
    requires Inv(w) && interval >= 0.0 && Roundable(interval) && Spaced(w.reserved, interval)
    requires forall i :: 0 <= i < |steps| ==> Forward(steps[i])
    requires InTime(Run(w, interval, steps))
    ensures Spaced(Run(w, interval, steps).reserved, interval)
  {
    if steps != [] {
      var n := |steps| - 1;
      RunKeepsInv(w, interval, steps);
      RunIsSpaced(w, interval, steps[..n]);
      NextReservation(Run(w, interval, steps[..n]), interval, steps[n]);
      SpacingExtends(Run(w, interval, steps[..n]).reserved, Run(w, interval, steps).reserved, interval);
    }
  }

  lemma SpacingExtends(a: seq<nat>, b: seq<nat>, interval: real)
    requires Spaced(a, interval) && a <= b && |b| <= |a| + 1
    requires a != [] && b != a ==> Last(b) as real >= Last(a) as real + interval
    ensures Spaced(b, interval)
  {
    forall i | 0 <= i < |b| - 1 ensures b[i + 1] as real >= b[i] as real + interval {
      if i + 1 < |a| { assert a[i + 1] == b[i + 1] && a[i] == b[i]; }
    }
  }

  lemma {:induction false} SpacingAdds(reserved: seq<nat>, interval: real, i: nat, j: nat)
    requires Spaced(reserved, interval) && i <= j < |reserved|
    ensures reserved[j] as real >= reserved[i] as real + (j - i) as real * interval
    decreases j
  {
    if i < j {
      SpacingAdds(reserved, interval, i, j - 1);
      assert reserved[(j - 1) + 1] as real >= reserved[j - 1] as real + interval;
      assert (j - i) as real * interval == (j - 1 - i) as real * interval + interval;
    }
  }

  /** Whatever processes share the file, wherever they stop, and however late they wake, the i-th
      and the j-th reservation are at least j - i intervals apart. */
  lemma ReservationsAreSpaced(interval: real, steps: seq<Step>, i: nat, j: nat)
    requires interval >= 0.0 && Roundable(interval) && forall k :: 0 <= k < |steps| ==> Forward(steps[k])
    requires InTime(Run(World("", 0.0, []), interval, steps))
    requires i <= j < |Run(World("", 0.0, []), interval, steps).reserved|
    ensures var r := Run(World("", 0.0, []), interval, steps).reserved;
            r[j] as real >= r[i] as real + (j - i) as real * interval
  {
    var w := World("", 0.0, []);
    RunIsSpaced(w, interval, steps);
    SpacingAdds(Run(w, interval, steps).reserved, interval, i, j);
  }

  /** The reset for a clock that jumped never fires, and every reader sees the last reservation. */
  lemma ResetNeverFires(interval: real, steps: seq<Step>, now: real, foreign: real)
    requires interval >= 0.0 && forall k :: 0 <= k < |steps| ==> Forward(steps[k])
    requires InTime(Run(World("", 0.0, []), interval, steps)) && now >= Run(World("", 0.0, []), interval, steps).clock
    ensures var w := Run(World("", 0.0, []), interval, steps);
            && ReadTime(w.content, foreign) + interval - now <= Patience(interval)
            && ReadTime(w.content, foreign) == (if w.reserved == [] then 0.0 else Last(w.reserved) as real)
  {
    RunKeepsInv(World("", 0.0, []), interval, steps);
    NeverOutOfPatience(Run(World("", 0.0, []), interval, steps), interval, now, foreign);
    ReaderSeesTheLast(Run(World("", 0.0, []), interval, steps), foreign);
  }

  /** A whole time after which the end of such an interval is written too early. */
  function EarlyStart(interval: real): (start: nat)
    requires interval >= 0.0
    ensures start as real > interval && start as real <= interval + 2.0 && (start + interval.Floor) % 2 == 0
  {
    interval.Floor + 2
  }

  lemma RoundsDown(start: nat, interval: real)
    requires interval >= 0.0 && !Roundable(interval) && (start + interval.Floor) % 2 == 0
    ensures (Stamp(start as real + interval) as real) < start as real + interval
  {
    var t := start as real + interval;
    assert t.Floor == start + interval.Floor;
  }

  lemma WholeTimesAreKept(start: nat)
    ensures Stamp(start as real) == start
  {
    RoundKeepsWholes(start);
  }

  /** Time passes, and then two processes take their turns at once: the first does not sleep, the
      second sleeps to the end of the interval and writes the whole microsecond below it. */
  function FallingShort(interval: real): seq<Step>
    requires interval >= 0.0
  {
    [Elapse(EarlyStart(interval) as real), Turn(0.0, 0.0, 0.0), Turn(0.0, 0.0, 0.0)]
  }

  /** On a new file, after more than an interval, the first process does not sleep. */
  lemma FirstTurn(w: World, interval: real, start: nat, v: World)
    requires interval >= 0.0 && w.content == "" && w.reserved == [] && w.clock == start as real && w.clock > interval
    requires v == Next(w, interval, Turn(0.0, 0.0, 0.0))
    ensures Inv(v) && v.clock == w.clock && v.reserved == [start]
  {
    WholeTimesAreKept(start);
  }

  /** The next one sleeps to the end of the interval. */
  lemma SecondTurn(w: World, start: nat, interval: real, t: real, v: World)
    requires Inv(w) && interval >= 0.0 && w.clock == start as real && w.reserved == [start] && InTime(w)
    requires v == Next(w, interval, Turn(0.0, 0.0, 0.0)) && t == start as real + interval
    ensures v.clock == t && v.reserved == [start, Stamp(t)]
  {
    ReaderSeesTheLast(w, 0.0);
    NeverOutOfPatience(w, interval, w.clock, 0.0);
    assert Woken(w, interval, 0.0, 0.0, 0.0) == t;
  }

  lemma {:induction false} RunsOn(w: World, interval: real, steps: seq<Step>, step: Step)
    ensures Run(w, interval, steps + [step]) == Next(Run(w, interval, steps), interval, step)
  {
    assert (steps + [step])[..|steps|] == steps;
  }

  lemma ThreeSteps(w: World, interval: real, a: Step, b: Step)
    ensures Run(w, interval, [a, b, b]) == Next(Next(Next(w, interval, a), interval, b), interval, b)
  {
    RunsOn(w, interval, [], a);
    RunsOn(w, interval, [] + [a], b);
    RunsOn(w, interval, [] + [a] + [b], b);
    assert [] + [a] + [b] + [b] == [a, b, b];
  }

  lemma FallingShortRuns(w: World, interval: real, start: nat, t: real, v: World)
    requires w == World("", 0.0, []) && interval >= 0.0 && start == EarlyStart(interval)
             && t == start as real + interval
    requires InTime(w.(clock := start as real)) && v == Run(w, interval, FallingShort(interval))
    ensures v.clock == t && v.reserved == [start, Stamp(t)]
  {
    var turn := Turn(0.0, 0.0, 0.0);
    ThreeSteps(w, interval, Elapse(start as real), turn);
    var waited := Next(w, interval, Elapse(start as real));
    var first := Next(waited, interval, turn);
    FirstTurn(waited, interval, start, first);
    SecondTurn(first, start, interval, t, v);
  }

  /** From a new file, such an interval is not kept. */
  lemma OtherIntervalsFallShort(w: World, interval: real, v: World)
    requires w == World("", 0.0, []) && interval >= 0.0 && v == Run(w, interval, FallingShort(interval))
    requires !Roundable(interval) && InTime(w.(clock := 2.0 * interval + 2.0))
    ensures InTime(v) && |v.reserved| == 2 && (v.reserved[1] as real) < v.reserved[0] as real + interval
  {
    var start := EarlyStart(interval);
    FallingShortRuns(w, interval, start, start as real + interval, v);
    SecondIsEarly(start, interval, v);
  }

  lemma SecondIsEarly(start: nat, interval: real, v: World)
    requires interval >= 0.0 && !Roundable(interval) && start == EarlyStart(interval)
    requires v.reserved == [start, Stamp(start as real + interval)]
    ensures |v.reserved| == 2 && (v.reserved[1] as real) < v.reserved[0] as real + interval
  {
    RoundsDown(start, interval);
  }

  /** A run of processes that share a file, while the clock stays in range. */
  ghost predicate Proper(w: World, interval: real, steps: seq<Step>) {
    (forall k :: 0 <= k < |steps| ==> Forward(steps[k])) && InTime(Run(w, interval, steps))
  }

  /** However processes share the file, their reservations are an interval apart. */
  ghost predicate AlwaysSpaced(w: World, interval: real) {
    forall steps: seq<Step> :: Proper(w, interval, steps) ==> Spaced(Run(w, interval, steps).reserved, interval)
  }

  /** A new file always keeps the interval exactly if it is whole microseconds or rounds up. */
  lemma KeptExactlyWhenRoundable(w: World, interval: real)
    requires w == World("", 0.0, [])
    requires interval >= 0.0 && InTime(w.(clock := 2.0 * interval + 2.0))
    ensures AlwaysSpaced(w, interval) <==> Roundable(interval)
  {
    if Roundable(interval) {
      forall steps: seq<Step> | Proper(w, interval, steps)
        ensures Spaced(Run(w, interval, steps).reserved, interval)
      {
        RunIsSpaced(w, interval, steps);
      }
    } else {
      var steps := FallingShort(interval);
      var v := Run(w, interval, steps);
      OtherIntervalsFallShort(w, interval, v);
      FallingShortIsForward(interval);
      NotSpaced(v.reserved, interval);
      assert Proper(w, interval, steps);
    }
  }

  lemma FallingShortIsForward(interval: real)
    requires interval >= 0.0
    ensures forall k :: 0 <= k < |FallingShort(interval)| ==> Forward(FallingShort(interval)[k])
  {}

  lemma NotSpaced(reserved: seq<nat>, interval: real)
    requires |reserved| == 2 && (reserved[1] as real) < reserved[0] as real + interval
    ensures !Spaced(reserved, interval)
  {
    assert (reserved[0 + 1] as real) < reserved[0] as real + interval;
  }
}

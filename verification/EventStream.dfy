/** The event stream: a cursor over an append-only log, moved in batches while the log grows. */
module EventStream {
  import opened Wrappers

  type UserId = nat

  const BATCH_SIZE := 100
  const HEARTBEAT_TICKS := 15
  const MAX_EVENT_ID := 9223372036854775807

  datatype Audience = OneUser | AllAuthenticated | Admins

  datatype Event = Event(id: nat, audience: Audience, owner: Option<UserId>, message: string)

  datatype Viewer = Viewer(user: UserId, isAdmin: bool)

  datatype Frame = Reset | Update(event: Event) | Checkpoint(id: nat) | Heartbeat | SignedOut

  // ---------- The log and what a viewer may read of it ----------

  ghost predicate Ordered(log: seq<Event>) {
    && (forall i :: 0 <= i < |log| ==> log[i].id > 0)
    && (forall i, j :: 0 <= i < j < |log| ==> log[i].id < log[j].id)
  }

  predicate Readable(e: Event, v: Viewer) {
    || (e.audience == OneUser && e.owner == Some(v.user))
    || e.audience == AllAuthenticated
    || (v.isAdmin && e.audience == Admins)
  }

  function Maximum(log: seq<Event>): nat {
    if log == [] then 0 else log[|log| - 1].id
  }

  /** The readable events with after < id <= through, in order. */
  function Readables(log: seq<Event>, v: Viewer, after: nat, through: nat): seq<Event> {
    if log == [] then []
    else
      var n := |log| - 1;
      var before := Readables(log[..n], v, after, through);
      if after < log[n].id <= through && Readable(log[n], v) then before + [log[n]] else before
  }

  function VisibleAfter(log: seq<Event>, v: Viewer, after: nat, through: nat): seq<Event> {
    Take(Readables(log, v, after, through), BATCH_SIZE)
  }

  // ---------- Where a stream starts ----------

  datatype Header = Missing | Malformed | Number(value: int)

  function LastEventId(header: Header): Option<nat> {
    match header
    case Number(n) => if n > MAX_EVENT_ID then None else Some(if n < 0 then 0 else n)
    case _ => None
  }

  function InitialEventId(header: Header, after: Option<nat>): Option<nat> {
    var id := LastEventId(header);
    if id.Some? then id else after
  }

  /** The stream so far: what was sent, the cursor, and the rounds since anything was found. */
  datatype Stream = Stream(frames: seq<Frame>, lastId: nat, quiet: nat)

  predicate Expired(log: seq<Event>, lastId: nat) {
    lastId != 0 && log != [] && lastId < log[0].id - 1
  }

  function Start(log: seq<Event>, lastId: Option<nat>): Stream {
    var cursor := if lastId.Some? then lastId.value else Maximum(log);
    if Expired(log, cursor) then Stream([Reset], Maximum(log), 0) else Stream([], cursor, 0)
  }

  // ---------- One round, and a whole stream ----------

  /** One turn of the loop: whether the client and its session are still there, how much of the log
      existed when the tail was read, and how much when the rows were. */
  datatype Moment = Moment(connected: bool, signedIn: bool, tail: nat, read: nat)

  ghost predicate InOrder(log: seq<Event>, start: nat, moments: seq<Moment>) {
    && (forall i :: 0 <= i < |moments| ==> start <= moments[i].tail <= moments[i].read <= |log|)
    && (forall i, j :: 0 <= i < j < |moments| ==> moments[i].read <= moments[j].tail)
  }

  function Sent(frames: seq<Frame>, rows: seq<Event>): seq<Frame> {
    if rows == [] then frames
    else var n := |rows| - 1; Sent(frames, rows[..n]) + [Update(rows[n])]
  }

  function Found(s: Stream, rows: seq<Event>, through: nat): Stream
    requires rows != []
  {
    var last, frames := rows[|rows| - 1].id, Sent(s.frames, rows);
    if |rows| < BATCH_SIZE && through > last then Stream(frames + [Checkpoint(through)], through, 0)
    else Stream(frames, last, 0)
  }

  function Quiet(s: Stream, through: nat): Stream {
    var moved := if through > s.lastId then s.(frames := s.frames + [Checkpoint(through)], lastId := through) else s;
    if s.quiet + 1 >= HEARTBEAT_TICKS then moved.(frames := moved.frames + [Heartbeat], quiet := 0)
    else moved.(quiet := s.quiet + 1)
  }

  function Round(log: seq<Event>, v: Viewer, s: Stream, m: Moment): Stream
    requires m.tail <= |log| && m.read <= |log|
  {
    var through := Maximum(log[..m.tail]);
    var rows := VisibleAfter(log[..m.read], v, s.lastId, through);
    if rows != [] then Found(s, rows, through) else Quiet(s, through)
  }

  function Streamed(log: seq<Event>, v: Viewer, s: Stream, moments: seq<Moment>): Stream
    requires forall i :: 0 <= i < |moments| ==> moments[i].tail <= |log| && moments[i].read <= |log|
    decreases |moments|
  {
    if moments == [] || !moments[0].connected then s
    else if !moments[0].signedIn then s.(frames := s.frames + [SignedOut])
    else Streamed(log, v, Round(log, v, s, moments[0]), moments[1..])
  }

  // ---------- Facts about reading a log ----------

  lemma {:induction false} NoneBeyond(log: seq<Event>, v: Viewer, after: nat, through: nat)
    requires after >= through || (Ordered(log) && after >= Maximum(log))
    ensures Readables(log, v, after, through) == []
  {
    if log != [] {
      var n := |log| - 1;
      NoneBeyond(log[..n], v, after, through);
    }
  }

  lemma {:induction false} CappedAtTheEnd(log: seq<Event>, v: Viewer, after: nat, through: nat, cap: nat)
    requires Ordered(log) && Maximum(log) <= cap <= through
    ensures Readables(log, v, after, through) == Readables(log, v, after, cap)
  {
    if log != [] {
      CappedAtTheEnd(log[..|log| - 1], v, after, through, cap);
    }
  }

  lemma {:induction false} RangesJoin(log: seq<Event>, v: Viewer, a: nat, b: nat, c: nat)
    requires Ordered(log) && a <= b <= c
    ensures Readables(log, v, a, c) == Readables(log, v, a, b) + Readables(log, v, b, c)
  {
    if log != [] {
      var n := |log| - 1;
      var rest := log[..n];
      RangesJoin(rest, v, a, b, c);
      if log[n].id <= b {
        assert n > 0 ==> rest[n - 1] == log[n - 1];
        NoneBeyond(rest, v, b, c);
        assert Readables(log, v, b, c) == [];
      } else {
        assert Readables(log, v, a, b) == Readables(rest, v, a, b);
      }
    }
  }

  /** What is appended later has larger ids, so a range up to a known id never changes. */
  lemma {:induction false} AppendingKeepsRanges(log: seq<Event>, n: nat, v: Viewer, after: nat, through: nat)
    requires Ordered(log) && n <= |log| && (through <= Maximum(log[..n]) || after >= through)
    ensures Readables(log, v, after, through) == Readables(log[..n], v, after, through)
  {
    if n == |log| {
      assert log[..n] == log;
    } else {
      var m := |log| - 1;
      AppendingKeepsRanges(log[..m], n, v, after, through);
      assert log[..m][..n] == log[..n];
      assert n > 0 ==> log[..n][n - 1] == log[n - 1];
    }
  }

  /** The first k events of a range are themselves a range: up to the k-th event's id. */
  lemma {:induction false} TakenIsARange(log: seq<Event>, v: Viewer, after: nat, through: nat, k: nat)
    requires Ordered(log) && 0 < k <= |Readables(log, v, after, through)|
    ensures var rows := Readables(log, v, after, through);
            after < rows[k - 1].id <= through && log[0].id <= rows[k - 1].id <= Maximum(log)
            && rows[..k] == Readables(log, v, after, rows[k - 1].id)
  {
    var n, rows := |log| - 1, Readables(log, v, after, through);
    var before := Readables(log[..n], v, after, through);
    assert n > 0 ==> log[..n][n - 1] == log[n - 1];
    if k <= |before| {
      TakenIsARange(log[..n], v, after, through, k);
      assert rows[..k] == before[..k] && rows[k - 1] == before[k - 1];
    } else {
      assert rows == before + [log[n]];
      CappedAtTheEnd(log[..n], v, after, through, log[n].id);
    }
  }

  lemma {:induction false} ReadablesAscend(log: seq<Event>, v: Viewer, after: nat, through: nat, k: nat)
    requires Ordered(log) && k + 1 < |Readables(log, v, after, through)|
    ensures var rows := Readables(log, v, after, through); rows[k].id < rows[k + 1].id
  {
    var n := |log| - 1;
    var before := Readables(log[..n], v, after, through);
    if k + 1 < |before| {
      ReadablesAscend(log[..n], v, after, through, k);
    } else {
      TakenIsARange(log[..n], v, after, through, k + 1);
      assert n > 0 ==> log[..n][n - 1] == log[n - 1];
    }
  }

  // ---------- What a stream has delivered ----------

  function Updates(frames: seq<Frame>): seq<Event> {
    if frames == [] then []
    else
      var n := |frames| - 1;
      if frames[n].Update? then Updates(frames[..n]) + [frames[n].event] else Updates(frames[..n])
  }

  /** The id a client would reconnect with after this frame. */
  function Cursor(f: Frame): Option<nat> {
    match f
    case Update(e) => Some(e.id)
    case Checkpoint(id) => Some(id)
    case _ => None
  }

  /** At frame k the client has received exactly what it may read between `from` and the cursor. */
  predicate ExactAt(log: seq<Event>, v: Viewer, from: nat, frames: seq<Frame>, k: nat)
    requires k < |frames|
  {
    var id := Cursor(frames[k]);
    id.Some? ==> log != [] && log[0].id <= id.value && from <= id.value <= Maximum(log)
                 && Updates(frames[..k + 1]) == Readables(log, v, from, id.value)
  }

  ghost predicate Exact(log: seq<Event>, v: Viewer, from: nat, s: Stream) {
    && from <= s.lastId && (s.lastId == from || s.lastId <= Maximum(log))
    && Updates(s.frames) == Readables(log, v, from, s.lastId)
    && ExactThroughout(log, v, from, s.frames)
  }

  ghost predicate ExactThroughout(log: seq<Event>, v: Viewer, from: nat, frames: seq<Frame>) {
    forall k :: 0 <= k < |frames| ==> ExactAt(log, v, from, frames, k)
  }

  lemma EarlierStaysExact(log: seq<Event>, v: Viewer, from: nat, frames: seq<Frame>, f: Frame, k: nat)
    requires k < |frames| && ExactAt(log, v, from, frames, k)
    ensures ExactAt(log, v, from, frames + [f], k)
  {
    assert (frames + [f])[..k + 1] == frames[..k + 1];
  }

  function UpdateOf(f: Frame): seq<Event> {
    if f.Update? then [f.event] else []
  }

  lemma FrameUpdates(frames: seq<Frame>, f: Frame)
    ensures Updates(frames + [f]) == Updates(frames) + UpdateOf(f)
  {
    assert (frames + [f])[..|frames|] == frames;
  }

  lemma LastIsExact(log: seq<Event>, v: Viewer, from: nat, frames: seq<Frame>, f: Frame, lastId: nat)
    requires Cursor(f).Some? ==> Cursor(f) == Some(lastId) && log != []
                                 && log[0].id <= lastId && from <= lastId <= Maximum(log)
    requires Updates(frames + [f]) == Readables(log, v, from, lastId)
    ensures ExactAt(log, v, from, frames + [f], |frames|)
  {
    assert (frames + [f])[..|frames| + 1] == frames + [f];
  }

  lemma FramesStayExact(log: seq<Event>, v: Viewer, from: nat, frames: seq<Frame>, f: Frame)
    requires ExactThroughout(log, v, from, frames) && ExactAt(log, v, from, frames + [f], |frames|)
    ensures ExactThroughout(log, v, from, frames + [f])
  {
    forall k | 0 <= k < |frames + [f]| ensures ExactAt(log, v, from, frames + [f], k) {
      if k < |frames| { EarlierStaysExact(log, v, from, frames, f, k); }
    }
  }

  lemma FrameKeepsExact(log: seq<Event>, v: Viewer, from: nat, s: Stream, f: Frame, lastId: nat, quiet: nat)
    requires Exact(log, v, from, s)
    requires if f.Update? || f.Checkpoint? then Cursor(f) == Some(lastId) && s.lastId <= lastId <= Maximum(log)
                                               && log != [] && log[0].id <= lastId
             else lastId == s.lastId
    requires Readables(log, v, from, lastId)
             == Readables(log, v, from, s.lastId) + UpdateOf(f)
    ensures Exact(log, v, from, Stream(s.frames + [f], lastId, quiet))
  {
    FrameUpdates(s.frames, f);
    LastIsExact(log, v, from, s.frames, f, lastId);
    FramesStayExact(log, v, from, s.frames, f);
  }

  /** The k-th row of a batch extends what was delivered by that row. */
  lemma RowExtends(log: seq<Event>, v: Viewer, from: nat, after: nat, through: nat, k: nat)
    requires Ordered(log) && from <= after && 0 < k <= |Readables(log, v, after, through)|
    ensures var rows := Readables(log, v, after, through);
            var last := if k == 1 then after else rows[k - 2].id;
            log[0].id <= rows[k - 1].id && last <= rows[k - 1].id <= Maximum(log)
            && Readables(log, v, from, rows[k - 1].id) == Readables(log, v, from, last) + [rows[k - 1]]
  {
    var rows := Readables(log, v, after, through);
    TakenIsARange(log, v, after, through, k);
    RangesJoin(log, v, from, after, rows[k - 1].id);
    assert rows[..k] == rows[..k - 1] + [rows[k - 1]];
    if k > 1 {
      ReadablesAscend(log, v, after, through, k - 2);
      TakenIsARange(log, v, after, through, k - 1);
      RangesJoin(log, v, from, after, rows[k - 2].id);
    }
  }

  lemma {:induction false} RowsKeepExact(log: seq<Event>, v: Viewer, from: nat, s: Stream, through: nat, k: nat)
    requires Ordered(log) && Exact(log, v, from, s) && k <= |Readables(log, v, s.lastId, through)|
    ensures var rows := Readables(log, v, s.lastId, through);
            Exact(log, v, from, Stream(Sent(s.frames, rows[..k]), if k == 0 then s.lastId else rows[k - 1].id, 0))
  {
    var rows := Readables(log, v, s.lastId, through);
    if k > 0 {
      RowsKeepExact(log, v, from, s, through, k - 1);
      var frames := Sent(s.frames, rows[..k - 1]);
      var last := if k == 1 then s.lastId else rows[k - 2].id;
      RowExtends(log, v, from, s.lastId, through, k);
      assert rows[..k][..k - 1] == rows[..k - 1];
      FrameKeepsExact(log, v, from, Stream(frames, last, 0), Update(rows[k - 1]), rows[k - 1].id, 0);
    }
  }

  /** Moving the cursor over a stretch with nothing to read loses nothing. */
  lemma SkippingKeepsExact(log: seq<Event>, v: Viewer, from: nat, s: Stream, through: nat, quiet: nat)
    requires Ordered(log) && Exact(log, v, from, s) && s.lastId < through <= Maximum(log)
    requires log != [] && log[0].id <= through
    requires Readables(log, v, s.lastId, through) == []
    ensures Exact(log, v, from, Stream(s.frames + [Checkpoint(through)], through, quiet))
  {
    RangesJoin(log, v, from, s.lastId, through);
    FrameKeepsExact(log, v, from, s, Checkpoint(through), through, quiet);
  }

  /** Rows are read later than the tail, from a log that may have grown, yet they are the rows
      of the whole log up to that tail. */
  lemma RowsAreTheRange(log: seq<Event>, v: Viewer, after: nat, m: Moment)
    requires Ordered(log) && m.tail <= m.read <= |log|
    ensures var through := Maximum(log[..m.tail]);
            Readables(log[..m.read], v, after, through) == Readables(log, v, after, through)
            && through <= Maximum(log)
            && (through > 0 ==> log[0].id <= through)
  {
    var through := Maximum(log[..m.tail]);
    assert m.tail > 0 ==> through == log[m.tail - 1].id && m.read > 0
                          && log[..m.read][m.read - 1].id == log[m.read - 1].id;
    assert through <= Maximum(log[..m.read]);
    AppendingKeepsRanges(log, m.read, v, after, through);
  }

  lemma FoundKeepsExact(log: seq<Event>, v: Viewer, from: nat, s: Stream, through: nat, rows: seq<Event>)
    requires Ordered(log) && Exact(log, v, from, s) && through <= Maximum(log)
    requires rows == Take(Readables(log, v, s.lastId, through), BATCH_SIZE) && rows != []
    ensures Exact(log, v, from, Found(s, rows, through))
  {
    var k := |rows|;
    assert rows == Readables(log, v, s.lastId, through)[..k];
    RowsKeepExact(log, v, from, s, through, k);
    TakenIsARange(log, v, s.lastId, through, k);
    var mid := Stream(Sent(s.frames, rows), rows[k - 1].id, 0);
    if k < BATCH_SIZE && through > mid.lastId {
      RangesJoin(log, v, s.lastId, mid.lastId, through);
      SkippingKeepsExact(log, v, from, mid, through, 0);
    }
  }

  lemma QuietKeepsExact(log: seq<Event>, v: Viewer, from: nat, s: Stream, through: nat)
    requires Ordered(log) && Exact(log, v, from, s) && through <= Maximum(log)
    requires Readables(log, v, s.lastId, through) == [] && (through > 0 ==> log[0].id <= through)
    ensures Exact(log, v, from, Quiet(s, through))
  {
    var moved := if through > s.lastId then s.(frames := s.frames + [Checkpoint(through)], lastId := through) else s;
    if through > s.lastId { SkippingKeepsExact(log, v, from, s, through, s.quiet); }
    FrameKeepsExact(log, v, from, moved, Heartbeat, moved.lastId, 0);
  }

  lemma RoundKeepsExact(log: seq<Event>, v: Viewer, from: nat, s: Stream, m: Moment)
    requires Ordered(log) && Exact(log, v, from, s) && m.tail <= m.read <= |log|
    ensures Exact(log, v, from, Round(log, v, s, m))
  {
    var through := Maximum(log[..m.tail]);
    RowsAreTheRange(log, v, s.lastId, m);
    var rows := Take(Readables(log, v, s.lastId, through), BATCH_SIZE);
    if rows != [] {
      FoundKeepsExact(log, v, from, s, through, rows);
    } else {
      QuietKeepsExact(log, v, from, s, through);
    }
  }

  lemma {:induction false} StreamingKeepsExact(log: seq<Event>, v: Viewer, from: nat, s: Stream, start: nat,
                                               moments: seq<Moment>)
    requires Ordered(log) && Exact(log, v, from, s) && InOrder(log, start, moments)
    ensures Exact(log, v, from, Streamed(log, v, s, moments))
    decreases |moments|
  {
    if moments != [] && moments[0].connected {
      if moments[0].signedIn {
        RoundKeepsExact(log, v, from, s, moments[0]);
        StreamingKeepsExact(log, v, from, Round(log, v, s, moments[0]), start, moments[1..]);
      } else {
        FrameKeepsExact(log, v, from, s, SignedOut, s.lastId, s.quiet);
      }
    }
  }

  lemma StartIsExact(log: seq<Event>, start: nat, v: Viewer, lastId: Option<nat>)
    requires Ordered(log) && start <= |log|
    ensures var s := Start(log[..start], lastId); Exact(log, v, s.lastId, s)
  {
    var s := Start(log[..start], lastId);
    NoneBeyond(log, v, s.lastId, s.lastId);
    assert Updates([]) == [];
    if s.frames != [] { assert s.frames[..0] == []; }
  }

  // ---------- What a client can rely on ----------

  /** However the log grows and however full the batches are, the updates sent after the starting
      cursor are exactly the readable events up to the final cursor, in order and once each. */
  lemma DeliveredExactly(log: seq<Event>, v: Viewer, start: nat, lastId: Option<nat>, moments: seq<Moment>)
    requires Ordered(log) && start <= |log| && InOrder(log, start, moments)
    ensures var s := Start(log[..start], lastId);
            var end := Streamed(log, v, s, moments);
            s.lastId <= end.lastId && Updates(end.frames) == Readables(log, v, s.lastId, end.lastId)
  {
    StartIsExact(log, start, v, lastId);
    StreamingKeepsExact(log, v, Start(log[..start], lastId).lastId, Start(log[..start], lastId), start, moments);
  }

  /** A client that stops after any update or checkpoint and reconnects with that id, to a log that
      has grown since, is not reset and gets the same sequence as one that never stopped. */
  lemma ReconnectingContinues(log: seq<Event>, v: Viewer, start: nat, lastId: Option<nat>, moments: seq<Moment>,
                              k: nat, seen: nat, again: nat, later: seq<Moment>)
    requires Ordered(log) && start <= seen <= again <= |log|
    requires InOrder(log[..seen], start, moments) && InOrder(log, again, later)
    requires k < |Streamed(log[..seen], v, Start(log[..start], lastId), moments).frames|
    requires Cursor(Streamed(log[..seen], v, Start(log[..start], lastId), moments).frames[k]).Some?
    ensures var s := Start(log[..start], lastId);
            var first := Streamed(log[..seen], v, s, moments).frames[..k + 1];
            var id := Cursor(first[k]);
            var second := Streamed(log, v, Start(log[..again], id), later);
            id.Some? && Start(log[..again], id) == Stream([], id.value, 0)
            && Updates(first) + Updates(second.frames) == Readables(log, v, s.lastId, second.lastId)
  {
    var s := Start(log[..start], lastId);
    assert log[..seen][..start] == log[..start];
    StartIsExact(log[..seen], start, v, lastId);
    StreamingKeepsExact(log[..seen], v, s.lastId, s, start, moments);
    var frames := Streamed(log[..seen], v, s, moments).frames;
    assert ExactAt(log[..seen], v, s.lastId, frames, k);
    var id := Cursor(frames[k]);
    AppendingKeepsRanges(log, seen, v, s.lastId, id.value);
    assert !Expired(log[..again], id.value);
    DeliveredExactly(log, v, again, id, later);
    RangesJoin(log, v, s.lastId, id.value, Streamed(log, v, Start(log[..again], id), later).lastId);
  }

  lemma {:induction false} CursorNeverMovesBack(log: seq<Event>, v: Viewer, s: Stream, start: nat, moments: seq<Moment>)
    requires Ordered(log) && InOrder(log, start, moments)
    ensures s.lastId <= Streamed(log, v, s, moments).lastId
    decreases |moments|
  {
    if moments != [] && moments[0].connected && moments[0].signedIn {
      RowsAreTheRange(log, v, s.lastId, moments[0]);
      var through := Maximum(log[..moments[0].tail]);
      var all := Readables(log, v, s.lastId, through);
      if all != [] {
        TakenIsARange(log, v, s.lastId, through, |Take(all, BATCH_SIZE)|);
      }
      CursorNeverMovesBack(log, v, Round(log, v, s, moments[0]), start, moments[1..]);
    }
  }

  /** Once the log is quiet, one round per hundred unread events and one more reach its end. */
  lemma {:induction false} QuietLogIsDrained(log: seq<Event>, v: Viewer, s: Stream, moments: seq<Moment>)
    requires Ordered(log)
    requires forall i :: 0 <= i < |moments| ==> moments[i] == Moment(true, true, |log|, |log|)
    requires |moments| > |Readables(log, v, s.lastId, Maximum(log))| / BATCH_SIZE
    ensures Streamed(log, v, s, moments).lastId >= Maximum(log)
    decreases |moments|
  {
    var m, through := moments[0], Maximum(log);
    assert log[..|log|] == log;
    var all := Readables(log, v, s.lastId, through);
    var next := Round(log, v, s, m);
    if |all| < BATCH_SIZE {
      if all != [] { TakenIsARange(log, v, s.lastId, through, |all|); }
      assert next.lastId >= through;
      CursorNeverMovesBack(log, v, next, |log|, moments[1..]);
    } else {
      TakenIsARange(log, v, s.lastId, through, BATCH_SIZE);
      assert next.lastId == all[BATCH_SIZE - 1].id;
      RangesJoin(log, v, s.lastId, next.lastId, through);
      assert |all| == BATCH_SIZE + |Readables(log, v, next.lastId, through)|;
      QuietLogIsDrained(log, v, next, moments[1..]);
    }
  }

  /** A cursor from any header or page parameter can be bound as a signed 64-bit integer, and a
      usable header wins over the page. */
  lemma CursorsAreBindable(header: Header, after: Option<nat>)
    requires after.Some? ==> after.value <= MAX_EVENT_ID
    ensures var id := InitialEventId(header, after);
            && (id.Some? ==> id.value <= MAX_EVENT_ID)
            && (header.Number? && 0 <= header.value <= MAX_EVENT_ID ==> id == Some(header.value))
            && (header.Number? && header.value > MAX_EVENT_ID ==> id == after)
            && (!header.Number? ==> id == after)
  {}

  // ---------- The stream as it runs ----------

  /** One turn: rows are sent one by one while the cursor is updated in place. */
  method Turn(log: seq<Event>, viewer: Viewer, m: Moment, sent: seq<Frame>, cursor: nat, ticks: nat)
    returns (frames: seq<Frame>, lastId: nat, quiet: nat)
    requires m.tail <= |log| && m.read <= |log|
    ensures Stream(frames, lastId, quiet) == Round(log, viewer, Stream(sent, cursor, ticks), m)
  {
    frames, lastId, quiet := sent, cursor, ticks;
    var through := Maximum(log[..m.tail]);
    var rows := VisibleAfter(log[..m.read], viewer, lastId, through);
    if rows != [] {
      quiet := 0;
      for j := 0 to |rows|
        invariant frames == Sent(sent, rows[..j])
        invariant lastId == if j == 0 then cursor else rows[j - 1].id
      {
        frames := frames + [Update(rows[j])];
        lastId := rows[j].id;
        assert rows[..j + 1][..j] == rows[..j];
      }
      assert rows[..|rows|] == rows;
      if |rows| < BATCH_SIZE && through > lastId {
        lastId := through;
        frames := frames + [Checkpoint(lastId)];
      }
    } else {
      if through > lastId {
        lastId := through;
        frames := frames + [Checkpoint(lastId)];
      }
      quiet := quiet + 1;
      if quiet >= HEARTBEAT_TICKS {
        frames := frames + [Heartbeat];
        quiet := 0;
      }
    }
  }

  lemma StreamGoesOn(log: seq<Event>, v: Viewer, s: Stream, moments: seq<Moment>, i: nat)
    requires i < |moments|
    requires forall j :: 0 <= j < |moments| ==> moments[j].tail <= |log| && moments[j].read <= |log|
    ensures Streamed(log, v, s, moments[i..]) ==
            if !moments[i].connected then s
            else if !moments[i].signedIn then s.(frames := s.frames + [SignedOut])
            else Streamed(log, v, Round(log, v, s, moments[i]), moments[i + 1..])
  {
    assert moments[i..][1..] == moments[i + 1..];
  }

  /** The rounds of a stream, until the client or its session is gone. */
  method ServeRounds(log: seq<Event>, viewer: Viewer, moments: seq<Moment>, first: Stream)
    returns (frames: seq<Frame>, lastId: nat)
    requires forall i :: 0 <= i < |moments| ==> moments[i].tail <= moments[i].read <= |log|
    ensures var s := Streamed(log, viewer, first, moments); frames == s.frames && lastId == s.lastId
  {
    var quiet;
    frames, lastId, quiet := first.frames, first.lastId, first.quiet;
    ghost var whole := Streamed(log, viewer, first, moments);
    assert moments[0..] == moments;
    var i := 0;
    while i < |moments|
      invariant 0 <= i <= |moments|
      invariant whole == Streamed(log, viewer, Stream(frames, lastId, quiet), moments[i..])
    {
      StreamGoesOn(log, viewer, Stream(frames, lastId, quiet), moments, i);
      if !moments[i].connected {
        return;
      }
      if !moments[i].signedIn {
        frames := frames + [SignedOut];
        return;
      }
      frames, lastId, quiet := Turn(log, viewer, moments[i], frames, lastId, quiet);
      i := i + 1;
    }
  }

  method Serve(log: seq<Event>, viewer: Viewer, start: nat, initial: Option<nat>, moments: seq<Moment>)
    returns (frames: seq<Frame>, lastId: nat)
    requires Ordered(log) && start <= |log| && InOrder(log, start, moments)
    ensures var s := Streamed(log, viewer, Start(log[..start], initial), moments);
            frames == s.frames && lastId == s.lastId
    ensures Updates(frames) == Readables(log, viewer, Start(log[..start], initial).lastId, lastId)
  {
    var first := log[..start];
    frames := [];
    lastId := if initial.Some? then initial.value else Maximum(first);
    if lastId != 0 && first != [] && lastId < first[0].id - 1 {
      frames := [Reset];
      lastId := Maximum(first);
    }
    DeliveredExactly(log, viewer, start, initial, moments);
    frames, lastId := ServeRounds(log, viewer, moments, Stream(frames, lastId, 0));
  }
}

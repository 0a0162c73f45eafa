/**
 A response body read ahead into a gate's release queue: each chunk, and the end or error, passes on
 only once its hold resolved, in order, and the bytes read ahead of the reader stay bounded.
 */
module GatedBody {
  import opened Common
  import Gate

  const READ_AHEAD: nat := 65536

  /** How the source ends: closed, or with an error (its own, or a chunk that is not bytes). */
  datatype Ending = Closes | Breaks(error: int)

  /** The source: the byte length of each of its chunks, and how it ends after them. */
  datatype Source = Source(chunks: seq<nat>, ending: Ending)

  /** The read loop: at its head, parked there until it is woken, in a read of the source, or over. */
  datatype Phase = Awake | Parked | Reading | Over

  /**
   The stream's calls of `pull`, as section 4.5 of the Streams standard has them: one at a time, with
   another to follow its end if one was asked for meanwhile. The stream's start counts as the first.
   */
  datatype Pull = Idle | Pulling(again: bool)

  /**
   The body's closure. Chunk `k` is hold `base + k`, the end or error hold `base + |chunks|`. `seen`
   is how many settled holds had their callback run, `passed` how many of those were released chunks,
   `emitted` every chunk passed on and `unread` those the reader has not taken.
   */
  datatype Body = Body(queue: Gate.Queue, base: nat, seen: nat, read: nat, final: bool, phase: Phase, pull: Pull,
                       held: int, passed: nat, unread: seq<nat>, emitted: seq<nat>, ended: bool, closed: bool)

  /** A body over a gate whose own holds all settled. */
  function Opened(queue: Gate.Queue): (b: Body) {
    Body(queue, |queue.held|, |queue.held|, 0, false, Awake, Pulling(true), 0, 0, [], [],
         false, false)
  }

  function Bytes(s: Source, unread: seq<nat>): (n: nat)
    decreases |unread|
  {
    if unread == [] then 0
    else
      var last := unread[|unread| - 1];
      Bytes(s, unread[..|unread| - 1]) + (if last < |s.chunks| then s.chunks[last] else 0)
  }

  datatype Event =
    /** The read loop looks whether the read-ahead has room. */
    | Check
    /** A read of the source came back. */
    | ReadBack
    /** A database answered the gate's call in flight, or failed it. */
    | Answered(db: Gate.Db)
    | CallFailed(error: int)
    /** The callback of the next settled hold. */
    | Callback
    /** A call of `pull` ended, or the stream's start. */
    | Pulled
    /** The reader takes a chunk, or waits for one, or cancels the body. */
    | Take
    | Cancel(reason: int)

  predicate Possible(s: Source, b: Body, e: Event) {
    match e
    case Check => b.phase.Awake?
    case ReadBack => b.phase.Reading?
    case Answered(db) => Gate.Possible(b.queue, Gate.Synced(db))
    case CallFailed(error) => Gate.Possible(b.queue, Gate.CallFailed(error))
    case Callback => b.seen < |b.queue.log|
    case Pulled => b.pull.Pulling?
    case Take => true
    case Cancel(_) => true
  }

  /** A parked loop woken. */
  function Woken(phase: Phase): (r: Phase) {
    if phase.Parked? then Awake else phase
  }

  /** The stream asks for more while it is open and what the reader left is below the read-ahead. */
  predicate AsksMore(s: Source, unread: seq<nat>, ended: bool) {
    !ended && Bytes(s, unread) < READ_AHEAD
  }

  /** The stream calls `pull`, or has it called again. */
  function PullAfter(pull: Pull, asks: bool): (r: Pull) {
    if asks then Pulling(pull.Pulling?) else pull
  }

  /** A call of `pull` nudges the loop. */
  function CallPull(s: Source, b: Body): (r: Body) {
    var asks := AsksMore(s, b.unread, b.ended);
    b.(phase := if asks && b.pull.Idle? then Woken(b.phase) else b.phase, pull := PullAfter(b.pull, asks))
  }

  /** The body is over: nothing more passes on, what was unread is dropped, and the gate stops. */
  function Dropped(b: Body, error: int): (r: Body) {
    b.(ended := true, unread := [], queue := Gate.Step(b.queue, Gate.Stopped(error)), phase := Woken(b.phase))
  }

  function Failed(b: Body, error: int): (r: Body) {
    if b.ended then b else Dropped(b, error)
  }

  /** Chunk `k` is no longer held: it is passed on, unless the body is over. */
  function Unheld(s: Source, b: Body, k: nat): (r: Body)
    requires k < |s.chunks|
  {
    if b.ended then b.(held := b.held - s.chunks[k], passed := b.passed + 1)
    else
      b.(held := b.held - s.chunks[k], passed := b.passed + 1, unread := b.unread + [k], emitted := b.emitted + [k])
  }

  /** The new chunk makes the stream ask for more, and the loop is nudged in any case. */
  function ChunkReleased(s: Source, b: Body, k: nat): (r: Body)
    requires k < |s.chunks|
  {
    var b1 := Unheld(s, b, k);
    if b.ended then b1
    else b1.(phase := Woken(b.phase), pull := PullAfter(b.pull, AsksMore(s, b1.unread, false)))
  }

  function EndReleased(s: Source, b: Body): (r: Body) {
    if s.ending.Breaks? then Failed(b, s.ending.error)
    else if b.ended then b else b.(ended := true, closed := true)
  }

  function CallbackOf(s: Source, b: Body, settled: Gate.Settled): (r: Body) {
    var k := settled.hold - b.base;
    match settled.outcome
    case Rejected(error) => Failed(b, error)
    case Resolved(_) => if 0 <= k < |s.chunks| then ChunkReleased(s, b, k) else EndReleased(s, b)
  }

  function NextCallback(s: Source, b: Body): (r: Body)
    requires b.seen < |b.queue.log|
  {
    CallbackOf(s, b.(seen := b.seen + 1), b.queue.log[b.seen])
  }

  function Step(s: Source, b: Body, e: Event): (r: Body)
    requires Possible(s, b, e)
  {
    match e
    case Check =>
      if b.ended then b.(phase := Over)
      else if b.held < READ_AHEAD - Bytes(s, b.unread) then b.(phase := Reading)
      else b.(phase := Parked)
    case ReadBack =>
      if b.read < |s.chunks| then
        if b.ended then b.(phase := Over)
        else b.(held := b.held + s.chunks[b.read], read := b.read + 1, phase := Awake, queue := Gate.Hold(b.queue))
      else if b.ended && s.ending.Closes? then b.(phase := Over)
      else b.(phase := Over, final := true, queue := Gate.Hold(b.queue))
    case Answered(db) => b.(queue := Gate.Step(b.queue, Gate.Synced(db)))
    case CallFailed(error) => b.(queue := Gate.Step(b.queue, Gate.CallFailed(error)))
    case Callback => NextCallback(s, b)
    case Pulled => if b.pull.again then CallPull(s, b.(pull := Idle)) else b.(pull := Idle)
    case Take => CallPull(s, if b.unread == [] then b else b.(unread := b.unread[1..]))
    case Cancel(reason) => Dropped(b, reason)
  }

  // ---------------------------------------------------------------------------------------------
  // What every event keeps.
  // ---------------------------------------------------------------------------------------------

  /** The bytes of chunks `lo` up to `hi`. */
  function Between(s: Source, lo: nat, hi: nat): (n: nat)
    requires lo <= hi <= |s.chunks|
    decreases hi
  {
    if lo == hi then 0 else Between(s, lo, hi - 1) + s.chunks[hi - 1]
  }

  lemma {:induction false} BetweenFirst(s: Source, lo: nat, hi: nat)
    requires lo < hi <= |s.chunks|
    ensures Between(s, lo, hi) == s.chunks[lo] + Between(s, lo + 1, hi)
    decreases hi
  {
    if lo + 1 < hi {
      BetweenFirst(s, lo, hi - 1);
    }
  }

  /** The callbacks run so far were all of released holds. */
  predicate AllReleased(b: Body) {
    forall j :: b.base <= j < b.seen <= |b.queue.log| ==> b.queue.log[j].outcome.Resolved?
  }

  function LastRead(s: Source, b: Body): (n: nat) {
    if 0 < b.read <= |s.chunks| then s.chunks[b.read - 1] else 0
  }

  predicate Counts(s: Source, b: Body) {
    && b.base <= b.seen <= |b.queue.log|
    && b.read <= |s.chunks|
    && (b.final ==> b.read == |s.chunks| && b.phase.Over?)
    && |b.queue.held| == b.base + b.read + (if b.final then 1 else 0)
    && b.passed <= b.read
    && (AllReleased(b) ==> b.passed == Min(b.seen - b.base, |s.chunks|))
    && b.held == Between(s, b.passed, b.read)
  }

  predicate Prefix(s: Source, b: Body) {
    && |b.emitted| <= b.passed
    && (forall i :: 0 <= i < |b.emitted| ==> b.emitted[i] == i)
    && b.base + |b.emitted| <= b.seen <= |b.queue.log|
    && (forall j :: b.base <= j < b.base + |b.emitted| ==> b.queue.log[j].outcome.Resolved?)
    && (!b.ended ==> |b.emitted| == b.passed && AllReleased(b))
    && (b.closed ==> b.ended && |b.emitted| == |s.chunks|)
  }

  predicate Bounded(s: Source, b: Body) {
    && b.held + Bytes(s, b.unread) < READ_AHEAD + LastRead(s, b)
    && (b.phase.Reading? ==> b.held + Bytes(s, b.unread) < READ_AHEAD)
  }

  predicate Sound(s: Source, b: Body) {
    Gate.Sound(b.queue) && Counts(s, b) && Prefix(s, b) && Bounded(s, b)
  }

  /** The queue's log only grows, so the callbacks that ran stay what they were. */
  lemma QueueMoves(q: Gate.Queue, e: Gate.Event)
    requires Gate.Sound(q) && Gate.Possible(q, e)
    ensures Gate.Sound(Gate.Step(q, e))
    ensures |q.log| <= |Gate.Step(q, e).log| && forall j :: 0 <= j < |q.log| ==> Gate.Step(q, e).log[j] == q.log[j]
    ensures |Gate.Step(q, e).held| == |q.held| + if e.Held? then 1 else 0
  {
    Gate.StepKeeps(q, e);
  }

  /** A step of the queue alone changes nothing the body counts. */
  lemma QueueStepKeeps(s: Source, b: Body, e: Gate.Event)
    requires Sound(s, b) && Gate.Possible(b.queue, e) && !e.Held?
    ensures Sound(s, b.(queue := Gate.Step(b.queue, e)))
  {
    QueueMoves(b.queue, e);
    var r := b.(queue := Gate.Step(b.queue, e));
    assert AllReleased(r) <==> AllReleased(b) by {
      forall j | b.base <= j < b.seen ensures r.queue.log[j] == b.queue.log[j] {
      }
    }
  }

  /** `q` is the body's queue with one hold more. */
  predicate OneMore(b: Body, q: Gate.Queue) {
    && Gate.Sound(q) && |q.held| == |b.queue.held| + 1 && |b.queue.log| <= |q.log|
    && forall j :: 0 <= j < |b.queue.log| ==> q.log[j] == b.queue.log[j]
  }

  lemma ChunkHeldKeeps(s: Source, b: Body, q: Gate.Queue)
    requires Sound(s, b) && b.phase.Reading? && b.read < |s.chunks| && !b.ended && OneMore(b, q)
    ensures Sound(s, b.(held := b.held + s.chunks[b.read], read := b.read + 1, phase := Awake, queue := q))
  {
    var r := b.(held := b.held + s.chunks[b.read], read := b.read + 1, phase := Awake, queue := q);
    assert AllReleased(r) <==> AllReleased(b);
    assert Between(s, b.passed, b.read + 1) == Between(s, b.passed, b.read) + s.chunks[b.read];
  }

  lemma EndHeldKeeps(s: Source, b: Body, q: Gate.Queue)
    requires Sound(s, b) && b.phase.Reading? && b.read == |s.chunks| && OneMore(b, q)
    ensures Sound(s, b.(phase := Over, final := true, queue := q))
  {
    var r := b.(phase := Over, final := true, queue := q);
    assert AllReleased(r) <==> AllReleased(b);
  }

  lemma ReadBackKeeps(s: Source, b: Body)
    requires Sound(s, b) && b.phase.Reading?
    ensures Sound(s, Step(s, b, ReadBack))
  {
    QueueMoves(b.queue, Gate.Held);
    var q := Gate.Hold(b.queue);
    if b.read < |s.chunks| {
      if b.ended {
        SameBodyKeeps(s, b, b.(phase := Over));
      } else {
        ChunkHeldKeeps(s, b, q);
      }
    } else if b.ended && s.ending.Closes? {
      SameBodyKeeps(s, b, b.(phase := Over));
    } else {
      EndHeldKeeps(s, b, q);
    }
  }

  /** Where the loop is and whether the stream pulls count for nothing but the bound on a read. */
  lemma SameBodyKeeps(s: Source, b: Body, r: Body)
    requires Sound(s, b) && r == b.(phase := r.phase, pull := r.pull)
    requires (r.phase.Reading? ==> b.held + Bytes(s, b.unread) < READ_AHEAD) && (b.final ==> r.phase.Over?)
    ensures Sound(s, r)
  {
    assert AllReleased(r) <==> AllReleased(b);
  }

  lemma NoneUnreadKeeps(s: Source, b: Body, r: Body)
    requires Sound(s, b) && r == b.(unread := [])
    ensures Sound(s, r)
  {
    assert AllReleased(r) <==> AllReleased(b);
  }

  lemma DroppedKeeps(s: Source, b: Body, error: int, r: Body)
    requires Sound(s, b.(ended := true)) && r == Dropped(b, error)
    ensures Sound(s, r)
  {
    var b1 := b.(ended := true, unread := []);
    NoneUnreadKeeps(s, b.(ended := true), b1);
    QueueStepKeeps(s, b1, Gate.Stopped(error));
    SameBodyKeeps(s, b1.(queue := Gate.Step(b.queue, Gate.Stopped(error))), r);
  }

  lemma FailedKeeps(s: Source, b: Body, error: int, r: Body)
    requires Sound(s, b.(ended := true)) && r == Failed(b, error)
    ensures Sound(s, r)
  {
    if b.ended {
      assert b.(ended := true) == r;
    } else {
      DroppedKeeps(s, b, error, r);
    }
  }

  /** The callback of a released chunk passes it on, in order, unless the body is over. */
  lemma ReleasedKeeps(s: Source, b: Body, b1: Body, r: Body)
    requires Sound(s, b) && b.seen < |b.queue.log| && b.queue.log[b.seen].outcome.Resolved?
    requires b1 == b.(seen := b.seen + 1)
    requires b.seen - b.base < |s.chunks| && r == ChunkReleased(s, b1, b.seen - b.base)
    ensures Sound(s, r)
  {
    var b2 := Unheld(s, b1, b.seen - b.base);
    UnheldKeeps(s, b, b.seen - b.base, b2);
    SameBodyKeeps(s, b2, r);
  }

  lemma UnheldKeeps(s: Source, b: Body, k: nat, r: Body)
    requires Sound(s, b) && b.seen < |b.queue.log| && b.queue.log[b.seen].outcome.Resolved?
    requires k == b.seen - b.base < |s.chunks| && r == Unheld(s, b.(seen := b.seen + 1), k)
    ensures Sound(s, r)
  {
    ReleasedSoFar(b, r);
    ReleasedHold(b);
    BetweenFirst(s, k, b.read);
    UnheldPrefix(s, b, k, r);
    UnheldBounded(s, b, k, r);
  }

  lemma UnheldPrefix(s: Source, b: Body, k: nat, r: Body)
    requires Counts(s, b) && Prefix(s, b) && AllReleased(b) && AllReleased(r) && b.seen < |b.queue.log|
    requires k == b.seen - b.base < |s.chunks| && r == Unheld(s, b.(seen := b.seen + 1), k)
    ensures Prefix(s, r)
  {
  }

  lemma UnheldBounded(s: Source, b: Body, k: nat, r: Body)
    requires Bounded(s, b) && k < |s.chunks| && r == Unheld(s, b.(seen := b.seen + 1), k)
    ensures Bounded(s, r)
  {
    assert (b.unread + [k])[..|b.unread|] == b.unread;
  }

  /** A release follows releases only. */
  lemma ReleasedSoFar(b: Body, r: Body)
    requires Gate.Sound(b.queue) && b.seen < |b.queue.log| && b.queue.log[b.seen].outcome.Resolved?
    requires r.queue == b.queue && r.base == b.base && r.seen == b.seen + 1
    ensures AllReleased(b) && AllReleased(r)
  {
    forall j | b.base <= j < b.seen ensures b.queue.log[j].outcome.Resolved? {
    }
  }

  lemma RejectedKeeps(s: Source, b: Body, b1: Body, r: Body)
    requires Sound(s, b) && b.seen < |b.queue.log| && b.queue.log[b.seen].outcome.Rejected?
    requires b1 == b.(seen := b.seen + 1) && r == Failed(b1, b.queue.log[b.seen].outcome.error)
    ensures Sound(s, r)
  {
    RejectedSeen(s, b);
    FailedKeeps(s, b1, b.queue.log[b.seen].outcome.error, r);
  }

  lemma EndKeeps(s: Source, b: Body, b1: Body, r: Body)
    requires Sound(s, b) && b.seen < |b.queue.log| && b.queue.log[b.seen].outcome.Resolved?
    requires b1 == b.(seen := b.seen + 1) && b.seen - b.base >= |s.chunks| && r == EndReleased(s, b1)
    ensures Sound(s, r)
  {
    ReleasedHold(b);
    EndSeen(s, b);
    if s.ending.Breaks? {
      FailedKeeps(s, b1, s.ending.error, r);
    } else if b.ended {
      assert b1.(ended := true) == r;
    } else {
      ClosedKeeps(s, b1.(ended := true));
    }
  }

  /** A released hold's callback is that of its place. */
  lemma ReleasedHold(b: Body)
    requires Gate.Sound(b.queue) && b.seen < |b.queue.log| && b.queue.log[b.seen].outcome.Resolved?
    ensures b.queue.log[b.seen].hold == b.seen < |b.queue.held|
  {
    assert Gate.Covered(b.queue, b.queue.log[b.seen]);
  }

  lemma ClosedKeeps(s: Source, b: Body)
    requires Sound(s, b) && b.ended && |b.emitted| == |s.chunks|
    ensures Sound(s, b.(closed := true))
  {
    assert AllReleased(b.(closed := true)) <==> AllReleased(b);
  }

  lemma RejectedSeen(s: Source, b: Body)
    requires Sound(s, b) && b.seen < |b.queue.log| && b.queue.log[b.seen].outcome.Rejected?
    ensures Sound(s, b.(seen := b.seen + 1, ended := true))
  {
  }

  /** When the end's callback runs every chunk was passed on, or the body was over before. */
  lemma EndSeen(s: Source, b: Body)
    requires Sound(s, b) && b.seen < |b.queue.log| && b.queue.log[b.seen].outcome.Resolved?
    requires b.seen - b.base >= |s.chunks| && b.queue.log[b.seen].hold == b.seen < |b.queue.held|
    ensures Sound(s, b.(seen := b.seen + 1, ended := true))
    ensures !b.ended ==> |b.emitted| == |s.chunks|
  {
  }

  lemma {:induction false} TakeLessens(s: Source, unread: seq<nat>)
    requires unread != []
    ensures Bytes(s, unread[1..]) <= Bytes(s, unread)
    decreases |unread|
  {
    if |unread| > 1 {
      var before := unread[..|unread| - 1];
      TakeLessens(s, before);
      assert unread[1..][..|unread| - 2] == before[1..];
    }
  }

  lemma TakeKeeps(s: Source, b: Body, r: Body)
    requires Sound(s, b) && r == Step(s, b, Take)
    ensures Sound(s, r)
  {
    if b.unread == [] {
      SameBodyKeeps(s, b, r);
    } else {
      var b1 := b.(unread := b.unread[1..]);
      TakenKeeps(s, b, b1);
      SameBodyKeeps(s, b1, r);
    }
  }

  lemma TakenKeeps(s: Source, b: Body, r: Body)
    requires Sound(s, b) && b.unread != [] && r == b.(unread := b.unread[1..])
    ensures Sound(s, r)
  {
    TakeLessens(s, b.unread);
    assert AllReleased(r) <==> AllReleased(b);
  }

  lemma OverKeeps(s: Source, b: Body)
    requires Sound(s, b)
    ensures Sound(s, b.(ended := true))
  {
    assert AllReleased(b.(ended := true)) <==> AllReleased(b);
  }

  lemma CancelKeeps(s: Source, b: Body, reason: int, r: Body)
    requires Sound(s, b) && r == Dropped(b, reason)
    ensures Sound(s, r)
  {
    OverKeeps(s, b);
    DroppedKeeps(s, b, reason, r);
  }

  /** What the callback of the next hold does, by how that settled. */
  lemma CallbackIs(s: Source, b: Body, settled: Gate.Settled, k: int, r: Body)
    requires r == CallbackOf(s, b, settled) && (settled.outcome.Resolved? ==> settled.hold - b.base == k >= 0)
    ensures settled.outcome.Rejected? ==> r == Failed(b, settled.outcome.error)
    ensures settled.outcome.Resolved? && k < |s.chunks| ==> r == ChunkReleased(s, b, k)
    ensures settled.outcome.Resolved? && k >= |s.chunks| ==> r == EndReleased(s, b)
  {
  }

  lemma CallbackKeeps(s: Source, b: Body, b1: Body, r: Body)
    requires Sound(s, b) && b.seen < |b.queue.log|
    requires b1 == b.(seen := b.seen + 1) && r == CallbackOf(s, b1, b.queue.log[b.seen])
    ensures Sound(s, r)
  {
    var settled := b.queue.log[b.seen];
    if settled.outcome.Rejected? {
      CallbackIs(s, b1, settled, 0, r);
      RejectedKeeps(s, b, b1, r);
    } else {
      ReleasedHold(b);
      CallbackIs(s, b1, settled, b.seen - b.base, r);
      if b.seen - b.base < |s.chunks| {
        ReleasedKeeps(s, b, b1, r);
      } else {
        EndKeeps(s, b, b1, r);
      }
    }
  }

  /** The events that move the gate, the loop, the stream or the reader alone. */
  lemma OtherKeeps(s: Source, b: Body, e: Event, r: Body)
    requires Sound(s, b) && Possible(s, b, e) && r == Step(s, b, e)
    requires !e.ReadBack? && !e.Callback? && !e.Cancel?
    ensures Sound(s, r)
  {
    match e {
      case Answered(db) => QueueStepKeeps(s, b, Gate.Synced(db));
      case CallFailed(error) => QueueStepKeeps(s, b, Gate.CallFailed(error));
      case Take => TakeKeeps(s, b, r);
      case _ => SameBodyKeeps(s, b, r);
    }
  }

  lemma StepKeeps(s: Source, b: Body, e: Event)
    requires Sound(s, b) && Possible(s, b, e)
    ensures Sound(s, Step(s, b, e))
  {
    var r := Step(s, b, e);
    match e {
      case ReadBack => ReadBackKeeps(s, b);
      case Callback => CallbackKeeps(s, b, b.(seen := b.seen + 1), r);
      case Cancel(reason) => CancelKeeps(s, b, reason, r);
      case _ => OtherKeeps(s, b, e, r);
    }
  }

  // ---------------------------------------------------------------------------------------------
  // No wake-up is lost.
  // ---------------------------------------------------------------------------------------------

  /** Nothing more may be read ahead. */
  predicate Full(s: Source, b: Body) {
    b.held + Bytes(s, b.unread) >= READ_AHEAD
  }

  /**
   A parked loop has nothing to do, or a call of `pull` that wakes it is due. It is over only with
   the body, or once the end is held; and the end's callback ends the body.
   */
  predicate Attended(s: Source, b: Body) {
    && (b.phase.Parked? ==> !b.ended && (Full(s, b) || b.pull == Pulling(true)))
    && (b.phase.Over? ==> b.ended || b.final)
    && (b.seen - b.base > |s.chunks| ==> b.ended)
  }

  lemma CallPullAttends(s: Source, b: Body)
    requires b.held >= 0 && Attended(s, b.(phase := if b.phase.Parked? then Awake else b.phase))
    requires b.phase.Parked? ==> !b.ended
    ensures Attended(s, CallPull(s, b))
  {
  }

  lemma CallbackAttends(s: Source, b: Body)
    requires Sound(s, b) && Attended(s, b) && b.seen < |b.queue.log|
    ensures Attended(s, Step(s, b, Callback))
  {
    var settled := b.queue.log[b.seen];
    if settled.outcome.Resolved? {
      assert settled.hold == b.seen;
      assert Gate.Covered(b.queue, settled);
      if b.seen - b.base >= |s.chunks| {
        assert b.final;
      }
    }
  }

  lemma StepAttends(s: Source, b: Body, e: Event)
    requires Sound(s, b) && Attended(s, b) && Possible(s, b, e)
    ensures Attended(s, Step(s, b, e))
  {
    match e {
      case Callback => CallbackAttends(s, b);
      case Pulled => CallPullAttends(s, b.(pull := Idle));
      case Take => CallPullAttends(s, if b.unread == [] then b else b.(unread := b.unread[1..]));
      case _ =>
    }
  }

  /** Something is due that moves the body on: the loop's, the stream's, the reader's or the gate's. */
  predicate Due(b: Body) {
    || b.phase.Awake? || b.phase.Reading? || b.pull == Pulling(true)
    || b.unread != [] || b.seen < |b.queue.log| || b.queue.flight.Some?
  }

  /** A hold whose callback did not run is settled, or in flight. */
  lemma HoldsMove(q: Gate.Queue)
    requires Gate.Sound(q) && |q.log| < |q.held|
    ensures q.flight.Some?
  {
  }

  lemma OpenIsDue(s: Source, b: Body)
    requires Sound(s, b) && Attended(s, b) && !b.ended
    ensures Due(b)
  {
    if b.seen == |b.queue.log| < |b.queue.held| {
      HoldsMove(b.queue);
    }
  }

  // ---------------------------------------------------------------------------------------------
  // Runs.
  // ---------------------------------------------------------------------------------------------

  predicate Legal(s: Source, b: Body, run: seq<Event>)
    decreases |run|
  {
    run == [] || (Possible(s, b, run[0]) && Legal(s, Step(s, b, run[0]), run[1..]))
  }

  function After(s: Source, b: Body, run: seq<Event>): (r: Body)
    requires Legal(s, b, run)
    decreases |run|
  {
    if run == [] then b else After(s, Step(s, b, run[0]), run[1..])
  }

  lemma {:induction false} RunKeeps(s: Source, b: Body, run: seq<Event>)
    requires Sound(s, b) && Attended(s, b) && Legal(s, b, run)
    ensures Sound(s, After(s, b, run)) && Attended(s, After(s, b, run))
    decreases |run|
  {
    if run != [] {
      StepKeeps(s, b, run[0]);
      StepAttends(s, b, run[0]);
      RunKeeps(s, Step(s, b, run[0]), run[1..]);
    }
  }

  /**
   Over any interleaving of reads, answers, callbacks, takes and a cancel: what the body passed on is
   a prefix of the source's chunks in order, each released by the first `synced()` call started after
   it was read; it closes only after all of them; and the bytes held or passed on but unread stay
   below the read-ahead plus the last chunk read.
   */
  lemma BodyIsAPrefix(s: Source, queue: Gate.Queue, run: seq<Event>)
    requires Gate.Sound(queue) && queue.failure.None? && |queue.log| == |queue.held|
    requires Legal(s, Opened(queue), run)
    ensures var b := After(s, Opened(queue), run);
            && |b.emitted| <= |s.chunks|
            && (forall i :: 0 <= i < |b.emitted| ==> b.emitted[i] == i)
            && b.base + |b.emitted| <= |b.queue.log|
            && (forall j :: b.base <= j < b.base + |b.emitted| ==>
                              b.queue.log[j].hold == j && b.queue.log[j].outcome.Resolved?
                                && Gate.Covered(b.queue, b.queue.log[j]))
            && (b.closed ==> |b.emitted| == |s.chunks|)
            && b.held >= 0 && b.held + Bytes(s, b.unread) < READ_AHEAD + LastRead(s, b)
  {
    RunKeeps(s, Opened(queue), run);
  }

  /**
   Over any interleaving no wake-up is lost: a parked loop has a full read-ahead and an open body, or
   a call of `pull` that wakes it is due, and a body that is open always has something due.
   */
  lemma NeverStuck(s: Source, queue: Gate.Queue, run: seq<Event>)
    requires Gate.Sound(queue) && queue.failure.None? && |queue.log| == |queue.held|
    requires Legal(s, Opened(queue), run)
    ensures var b := After(s, Opened(queue), run);
            && (b.phase.Parked? ==> !b.ended && (Full(s, b) || b.pull == Pulling(true)))
            && (!b.ended ==> Due(b))
  {
    RunKeeps(s, Opened(queue), run);
    var b := After(s, Opened(queue), run);
    if !b.ended {
      OpenIsDue(s, b);
    }
  }

  /** The body's closure variables, changed by its read loop and its callbacks. */
  class GatedStream {
    const source: Source
    const release: Gate.Release
    const base: nat
    var seen: nat
    var read: nat
    var final: bool
    var phase: Phase
    var pull: Pull
    var held: int
    var passed: nat
    var unread: seq<nat>
    var emitted: seq<nat>
    var ended: bool
    var closed: bool

    function View(): (b: Body)
      reads this, release
    {
      Body(release.View(), base, seen, read, final, phase, pull, held, passed, unread, emitted, ended, closed)
    }

    constructor (source: Source, release: Gate.Release)
      ensures View() == Opened(release.View())
      ensures this.source == source && this.release == release
    {
      this.source, this.release := source, release;
      base, seen := |release.held|, |release.held|;
      read, final, phase, pull, held, passed := 0, false, Awake, Pulling(true), 0, 0;
      unread, emitted, ended, closed := [], [], false, false;
    }

    /** The head of the read loop. */
    method Loop()
      requires Possible(source, View(), Check)
      modifies this
      ensures View() == Step(source, old(View()), Check)
    {
      if ended {
        phase := Over;
      } else if held < READ_AHEAD - Bytes(source, unread) {
        phase := Reading;
      } else {
        phase := Parked;
      }
    }

    /** The read of the source came back with its next chunk, its end or its error. */
    method OnRead()
      requires Possible(source, View(), ReadBack)
      modifies this, release
      ensures View() == Step(source, old(View()), ReadBack)
    {
      if read < |source.chunks| {
        if ended {
          phase := Over;
          return;
        }
        held := held + source.chunks[read];
        read := read + 1;
        phase := Awake;
        var _ := release.HoldOutput();
      } else if ended && source.ending.Closes? {
        phase := Over;
      } else {
        phase := Over;
        final := true;
        var _ := release.HoldOutput();
      }
    }

    /** Wakes the read loop if it waits. */
    method Nudge()
      modifies this`phase
      ensures phase == Woken(old(phase))
    {
      if phase.Parked? {
        phase := Awake;
      }
    }

    /** What the stream does when a chunk came or went: calls `pull`, or has it called again. */
    method PullIfNeeded()
      modifies this`phase, this`pull
      ensures var asks := AsksMore(source, unread, ended);
              && pull == PullAfter(old(pull), asks)
              && phase == if asks && old(pull).Idle? then Woken(old(phase)) else old(phase)
    {
      if AsksMore(source, unread, ended) {
        if pull.Idle? {
          pull := Pulling(false);
          Nudge();
        } else {
          pull := Pulling(true);
        }
      }
    }

    method Fail(error: int)
      modifies this`ended, this`unread, this`phase, release
      ensures View() == Failed(old(View()), error)
    {
      if ended {
        return;
      }
      ended := true;
      unread := [];
      release.Stop(error);
      Nudge();
    }

    /** The hold of chunk `k` resolved. */
    method OnChunk(k: nat)
      requires k < |source.chunks|
      modifies this`held, this`passed, this`unread, this`emitted, this`phase, this`pull
      ensures View() == ChunkReleased(source, old(View()), k)
    {
      held := held - source.chunks[k];
      passed := passed + 1;
      if ended {
        return;
      }
      unread := unread + [k];
      emitted := emitted + [k];
      assert View() == Unheld(source, old(View()), k);
      PullIfNeeded();
      Nudge();
    }

    /** The hold of the source's end or error resolved. */
    method OnEnd()
      modifies this`ended, this`closed, this`unread, this`phase, release
      ensures View() == EndReleased(source, old(View()))
    {
      if source.ending.Breaks? {
        Fail(source.ending.error);
      } else if !ended {
        ended := true;
        closed := true;
      }
    }

    /** The callback of the next settled hold. */
    method OnSettled()
      requires Possible(source, View(), Callback)
      modifies this, release
      ensures View() == NextCallback(source, old(View()))
    {
      var settled := release.log[seen];
      seen := seen + 1;
      assert View() == old(View()).(seen := seen);
      var k := settled.hold - base;
      if settled.outcome.Rejected? {
        Fail(settled.outcome.error);
      } else if 0 <= k < |source.chunks| {
        OnChunk(k);
      } else {
        OnEnd();
      }
    }

    /** The reader takes the next chunk, or waits for one. */
    method OnTake()
      modifies this
      ensures View() == Step(source, old(View()), Take)
    {
      if unread != [] {
        unread := unread[1..];
      }
      PullIfNeeded();
    }

    method OnPulled()
      requires Possible(source, View(), Pulled)
      modifies this
      ensures View() == Step(source, old(View()), Pulled)
    {
      var again := pull.again;
      pull := Idle;
      if again {
        PullIfNeeded();
      }
    }

    method OnCancel(reason: int)
      modifies this`ended, this`unread, this`phase, release
      ensures View() == Step(source, old(View()), Cancel(reason))
    {
      ended := true;
      unread := [];
      release.Stop(reason);
      Nudge();
    }
  }
}

/**
 The release queue of an output gate: outputs wait in the order they were produced, each released by
 the first `synced()` call on every database that started after it was held.
 */
module Gate {
  import opened Common

  type Db = int

  /** What a held output's promise settled with: the call that released it, or the gate's failure. */
  datatype Outcome = Resolved(call: nat) | Rejected(error: int)

  datatype Settled = Settled(hold: nat, outcome: Outcome)

  /**
   The queue and its promises. Holds are numbered as made, calls as started. `flight` is the batch
   of the call in flight, `held[h]` how many calls had started when hold `h` was made, `synced[c]`
   the databases on which call `c` resolved, `log` the settled holds in the order they settled.
   */
  datatype Queue = Queue(dbs: set<Db>, next: seq<nat>, flight: Option<seq<nat>>, failure: Option<int>,
                         held: seq<nat>, synced: seq<set<Db>>, log: seq<Settled>)

  function NewQueue(dbs: set<Db>): (q: Queue) {
    Queue(dbs, [], None, None, [], [], [])
  }

  /** The holds of `batch` settled with `outcome`, in order. */
  function SettleAll(batch: seq<nat>, outcome: Outcome): (r: seq<Settled>)
    ensures |r| == |batch|
    ensures forall i :: 0 <= i < |r| ==> r[i] == Settled(batch[i], outcome)
  {
    seq(|batch|, i requires 0 <= i < |batch| => Settled(batch[i], outcome))
  }

  /** A call on every database: every output held so far is in its batch, none held later. */
  function StartCall(q: Queue): (r: Queue) {
    q.(flight := Some(q.next), next := [], synced := q.synced + [{}])
  }

  function Hold(q: Queue): (r: Queue) {
    var h := |q.held|;
    var q1 := q.(held := q.held + [|q.synced|]);
    if q.failure.Some? then q1.(log := q.log + [Settled(h, Rejected(q.failure.value))])
    else
      var q2 := q1.(next := q.next + [h]);
      if q.flight.None? then StartCall(q2) else q2
  }

  /** The first failure stands: it rejects the batch and what is held, in order. */
  function Fail(q: Queue, error: int, batch: seq<nat>): (r: Queue) {
    var first := if q.failure.Some? then q.failure.value else error;
    q.(failure := Some(first), log := q.log + SettleAll(batch + q.next, Rejected(first)), next := [])
  }

  /** The call in flight resolved on every database. */
  function Land(q: Queue): (r: Queue)
    requires q.flight.Some? && q.synced != []
  {
    var batch := q.flight.value;
    var q1 := q.(flight := None);
    if q.failure.Some? then q1.(log := q.log + SettleAll(batch, Rejected(q.failure.value)))
    else
      var q2 := q1.(log := q.log + SettleAll(batch, Resolved(|q.synced| - 1)));
      if q.next != [] then StartCall(q2) else q2
  }

  /** What happens to a queue, in any order: holds, a database's answer to the call in flight, its failure, a stop. */
  datatype Event = Held | Synced(db: Db) | CallFailed(error: int) | Stopped(reason: int)

  predicate Possible(q: Queue, e: Event) {
    match e
    case Held => true
    case Synced(db) => q.flight.Some? && q.synced != [] && db in q.dbs && db !in q.synced[|q.synced| - 1]
    case CallFailed(_) => q.flight.Some?
    case Stopped(_) => true
  }

  function Step(q: Queue, e: Event): (r: Queue)
    requires Possible(q, e)
  {
    match e
    case Held => Hold(q)
    case Synced(db) =>
      var last := |q.synced| - 1;
      var q1 := q.(synced := q.synced[last := q.synced[last] + {db}]);
      if q1.synced[last] == q.dbs then Land(q1) else q1
    case CallFailed(error) => Fail(q.(flight := None), error, q.flight.value)
    case Stopped(reason) => Fail(q, reason, [])
  }

  // ---------------------------------------------------------------------------------------------
  // What every event keeps.
  // ---------------------------------------------------------------------------------------------

  function InFlight(q: Queue): (r: seq<nat>) {
    if q.flight.Some? then q.flight.value else []
  }

  function Ids(log: seq<Settled>): (r: seq<nat>)
    ensures |r| == |log|
    ensures forall i :: 0 <= i < |r| ==> r[i] == log[i].hold
  {
    seq(|log|, i requires 0 <= i < |log| => log[i].hold)
  }

  /** Every hold is in one place: settled, in the batch in flight, or waiting for the next call. */
  function Places(q: Queue): (r: seq<nat>) {
    Ids(q.log) + InFlight(q) + q.next
  }

  /** Each of the first `n` holds occurs exactly once in `s`. */
  predicate EachOnce(s: seq<nat>, n: nat) {
    && |s| == n
    && (forall i :: 0 <= i < |s| ==> s[i] < n)
    && (forall i, j :: 0 <= i < j < |s| ==> s[i] != s[j])
  }

  predicate InOrder(s: seq<nat>) {
    forall i :: 0 <= i < |s| ==> s[i] == i
  }

  /** A released hold was released by the first call started after it was held, which resolved on every database. */
  predicate Covered(q: Queue, s: Settled) {
    s.outcome.Resolved? ==>
      && s.hold < |q.held| && s.outcome.call == q.held[s.hold]
      && s.outcome.call < |q.synced| && q.synced[s.outcome.call] == q.dbs
  }

  predicate Shape(q: Queue) {
    && q.dbs != {}
    && (q.flight.None? ==> q.next == [])
    && (q.flight.Some? ==> q.synced != [] && q.synced[|q.synced| - 1] < q.dbs)
    && (forall i :: 0 <= i < |InFlight(q)| ==> InFlight(q)[i] < |q.held| && q.held[InFlight(q)[i]] == |q.synced| - 1)
    && (forall i :: 0 <= i < |q.next| ==> q.next[i] < |q.held| && q.held[q.next[i]] == |q.synced|)
  }

  /**
   Until the first failure the places are in order, all settled holds released; after it nothing
   waits and releases come before rejections.
   */
  predicate Fifo(q: Queue) {
    && (q.failure.None? ==> InOrder(Places(q)) && forall i :: 0 <= i < |q.log| ==> q.log[i].outcome.Resolved?)
    && (q.failure.Some? ==> q.next == [])
    && (forall i :: 0 <= i < |q.log| && q.log[i].outcome.Resolved? ==> q.log[i].hold == i)
    && (forall i, j :: 0 <= i < j < |q.log| && q.log[i].outcome.Rejected? ==> q.log[j].outcome.Rejected?)
    && (forall i :: 0 <= i < |q.log| && q.log[i].outcome.Rejected? ==> q.failure == Some(q.log[i].outcome.error))
  }

  predicate Sound(q: Queue) {
    && Shape(q)
    && EachOnce(Places(q), |q.held|)
    && Fifo(q)
    && (forall i :: 0 <= i < |q.log| ==> Covered(q, q.log[i]))
  }

  lemma EachOnceSwap(a: seq<nat>, b: seq<nat>, c: seq<nat>, n: nat)
    requires EachOnce(a + b + c, n)
    ensures EachOnce(a + c + b, n)
  {
    var s, t := a + b + c, a + c + b;
    forall i | 0 <= i < |t| ensures t[i] < n {
      assert t[i] == s[Swapped(|a|, |b|, |c|, i)];
    }
    forall i, j | 0 <= i < j < |t| ensures t[i] != t[j] {
      assert t[i] == s[Swapped(|a|, |b|, |c|, i)] && t[j] == s[Swapped(|a|, |b|, |c|, j)];
    }
  }

  /** Where index `i` of `a + c + b` is in `a + b + c`. */
  function Swapped(a: nat, b: nat, c: nat, i: nat): (j: nat)
    requires i < a + b + c
    ensures j < a + b + c
  {
    if i < a then i else if i < a + c then i + b else i - c
  }

  lemma EachOnceNext(s: seq<nat>, n: nat)
    requires EachOnce(s, n)
    ensures EachOnce(s + [n], n + 1)
  {
  }

  /** What a longer `held` or `synced` leaves covered stays covered. */
  lemma CoveredStays(q: Queue, r: Queue)
    requires forall i :: 0 <= i < |q.log| ==> Covered(q, q.log[i])
    requires r.dbs == q.dbs && q.held <= r.held && q.synced <= r.synced
    ensures forall i :: 0 <= i < |q.log| ==> Covered(r, q.log[i])
  {
    forall i | 0 <= i < |q.log| ensures Covered(r, q.log[i]) {
      assert Covered(q, q.log[i]);
    }
  }

  lemma HoldAfterFailure(q: Queue)
    requires Sound(q) && q.failure.Some?
    ensures Sound(Hold(q))
  {
    var r := Hold(q);
    var h := |q.held|;
    EachOnceNext(Places(q), h);
    assert Ids(r.log) == Ids(q.log) + [h];
    assert Places(r) == Ids(q.log) + [h] + InFlight(q);
    assert Places(q) + [h] == Ids(q.log) + InFlight(q) + [h];
    EachOnceSwap(Ids(q.log), InFlight(q), [h], h + 1);
    CoveredStays(q, r);
  }

  lemma HoldWaits(q: Queue)
    requires Sound(q) && q.failure.None?
    ensures Sound(Hold(q))
  {
    var r := Hold(q);
    var h := |q.held|;
    EachOnceNext(Places(q), h);
    assert Places(r) == Places(q) + [h];
    CoveredStays(q, r);
    assert InOrder(Places(r));
  }

  /** A hold joins the batch of the next call, which starts at once when none is in flight. */
  lemma HoldKeeps(q: Queue)
    requires Sound(q)
    ensures Sound(Hold(q))
  {
    if q.failure.Some? {
      HoldAfterFailure(q);
    } else {
      HoldWaits(q);
    }
  }

  lemma LandAfterFailure(q: Queue, before: Queue)
    requires q.flight.Some? && q.synced != [] && q.synced[|q.synced| - 1] == q.dbs && q.failure.Some?
    requires before == q.(synced := q.synced[|q.synced| - 1 := {}]) && Sound(before)
    ensures Sound(Land(q))
  {
    var r := Land(q);
    assert Ids(r.log) == Ids(q.log) + q.flight.value;
    assert Places(r) == Places(before);
    forall i | 0 <= i < |q.log| ensures Covered(r, q.log[i]) {
      assert Covered(before, before.log[i]);
    }
  }

  lemma LandReleases(q: Queue, before: Queue)
    requires q.flight.Some? && q.synced != [] && q.synced[|q.synced| - 1] == q.dbs && q.failure.None?
    requires before == q.(synced := q.synced[|q.synced| - 1 := {}]) && Sound(before)
    ensures Sound(Land(q))
  {
    var r := Land(q);
    assert Ids(r.log) == Ids(q.log) + q.flight.value;
    assert Places(r) == Places(before);
    forall i | 0 <= i < |r.log| ensures Covered(r, r.log[i]) && r.log[i].hold == i {
      assert Places(before)[i] == i;
      if i < |q.log| {
        assert Covered(before, before.log[i]);
      }
    }
  }

  /**
   The whole batch of a call that resolved on every database is released, and what was held
   meanwhile is the next batch.
   */
  lemma LandKeeps(q: Queue, before: Queue)
    requires q.flight.Some? && q.synced != [] && q.synced[|q.synced| - 1] == q.dbs
    requires before == q.(synced := q.synced[|q.synced| - 1 := {}]) && Sound(before)
    ensures Sound(Land(q))
  {
    if q.failure.Some? {
      LandAfterFailure(q, before);
    } else {
      LandReleases(q, before);
    }
  }

  lemma FailPlaces(q: Queue, error: int)
    requires Sound(q)
    ensures EachOnce(Places(Fail(q, error, [])), |q.held|)
  {
    var r := Fail(q, error, []);
    assert Ids(r.log) == Ids(q.log) + q.next;
    assert Places(r) == Ids(q.log) + q.next + InFlight(q);
    EachOnceSwap(Ids(q.log), InFlight(q), q.next, |q.held|);
  }

  /** A stop rejects what waits; the batch in flight is rejected when its call settles. */
  lemma FailKeeps(q: Queue, error: int)
    requires Sound(q)
    ensures Sound(Fail(q, error, []))
  {
    var r := Fail(q, error, []);
    FailPlaces(q, error);
    forall i | 0 <= i < |q.log| ensures Covered(r, q.log[i]) {
      assert Covered(q, q.log[i]);
    }
  }

  lemma CallFailedKeeps(q: Queue, error: int)
    requires Sound(q) && q.flight.Some?
    ensures Sound(Step(q, CallFailed(error)))
  {
    var r := Step(q, CallFailed(error));
    assert Ids(r.log) == Ids(q.log) + (q.flight.value + q.next);
    assert Places(r) == Places(q);
    forall i | 0 <= i < |r.log| ensures Covered(r, r.log[i]) {
      if i < |q.log| {
        assert Covered(q, q.log[i]);
      }
    }
  }

  /** Nothing was released by the call in flight yet: it has not resolved everywhere. */
  lemma NotByTheCallInFlight(q: Queue)
    requires Sound(q) && q.flight.Some?
    ensures forall i :: 0 <= i < |q.log| && q.log[i].outcome.Resolved? ==> q.log[i].outcome.call != |q.synced| - 1
  {
    forall i | 0 <= i < |q.log| && q.log[i].outcome.Resolved? ensures q.log[i].outcome.call != |q.synced| - 1 {
      assert Covered(q, q.log[i]);
    }
  }

  lemma SyncedLands(q: Queue, db: Db)
    requires Sound(q) && Possible(q, Synced(db)) && q.synced[|q.synced| - 1] + {db} == q.dbs
    ensures Sound(Step(q, Synced(db)))
  {
    NotByTheCallInFlight(q);
    OtherCalls(q, {});
    var last := |q.synced| - 1;
    var q1 := q.(synced := q.synced[last := q.synced[last] + {db}]);
    assert q1.synced[last := {}] == q.synced[last := {}];
    LandKeeps(q1, q.(synced := q.synced[last := {}]));
  }

  lemma SyncedKeeps(q: Queue, db: Db)
    requires Sound(q) && Possible(q, Synced(db))
    ensures Sound(Step(q, Synced(db)))
  {
    var last := |q.synced| - 1;
    if q.synced[last] + {db} == q.dbs {
      SyncedLands(q, db);
    } else {
      NotByTheCallInFlight(q);
      OtherCalls(q, q.synced[last] + {db});
    }
  }

  /** How far the call in flight got on its databases is no other call's business. */
  lemma OtherCalls(q: Queue, done: set<Db>)
    requires Sound(q) && q.flight.Some? && q.synced != [] && done < q.dbs
    requires forall i :: 0 <= i < |q.log| && q.log[i].outcome.Resolved? ==> q.log[i].outcome.call != |q.synced| - 1
    ensures Sound(q.(synced := q.synced[|q.synced| - 1 := done]))
  {
    var r := q.(synced := q.synced[|q.synced| - 1 := done]);
    assert Places(r) == Places(q);
    forall i | 0 <= i < |r.log| ensures Covered(r, r.log[i]) {
      assert Covered(q, q.log[i]);
    }
  }

  lemma StepKeeps(q: Queue, e: Event)
    requires Sound(q) && Possible(q, e)
    ensures Sound(Step(q, e))
  {
    match e {
      case Held => HoldKeeps(q);
      case Synced(db) => SyncedKeeps(q, db);
      case CallFailed(error) => CallFailedKeeps(q, error);
      case Stopped(reason) => FailKeeps(q, reason);
    }
  }

  predicate Legal(q: Queue, run: seq<Event>)
    decreases |run|
  {
    run == [] || (Possible(q, run[0]) && Legal(Step(q, run[0]), run[1..]))
  }

  function After(q: Queue, run: seq<Event>): (r: Queue)
    requires Legal(q, run)
    decreases |run|
  {
    if run == [] then q else After(Step(q, run[0]), run[1..])
  }

  lemma {:induction false} RunKeeps(q: Queue, run: seq<Event>)
    requires Sound(q) && Legal(q, run)
    ensures Sound(After(q, run))
    decreases |run|
  {
    if run != [] {
      StepKeeps(q, run[0]);
      RunKeeps(Step(q, run[0]), run[1..]);
    }
  }

  /**
   Over any run of a gate's queue: each hold is in exactly one place; a released one was released by
   the first `synced()` call started after it was held, once that call resolved on every database;
   releases come in the order the holds were made and before every rejection; an idle queue is empty.
   */
  lemma ReleaseIsSound(dbs: set<Db>, run: seq<Event>)
    requires dbs != {} && Legal(NewQueue(dbs), run)
    ensures var q := After(NewQueue(dbs), run);
            && EachOnce(Places(q), |q.held|)
            && (q.flight.None? ==> q.next == [])
            && (forall i :: 0 <= i < |q.log| && q.log[i].outcome.Resolved? ==>
                              && q.log[i].hold == i && i < |q.held|
                              && q.log[i].outcome.call == q.held[i]
                              && q.held[i] < |q.synced| && q.synced[q.held[i]] == dbs)
            && (forall i, j :: 0 <= i < j < |q.log| && q.log[i].outcome.Rejected? ==> q.log[j].outcome.Rejected?)
  {
    RunKeeps(NewQueue(dbs), run);
    SameDbs(NewQueue(dbs), run);
    var q := After(NewQueue(dbs), run);
    forall i | 0 <= i < |q.log| && q.log[i].outcome.Resolved?
      ensures i < |q.held| && q.log[i].outcome.call == q.held[i]
      ensures q.held[i] < |q.synced| && q.synced[q.held[i]] == dbs
    {
      assert Covered(q, q.log[i]);
    }
  }

  lemma {:induction false} SameDbs(q: Queue, run: seq<Event>)
    requires Legal(q, run)
    ensures After(q, run).dbs == q.dbs
    decreases |run|
  {
    if run != [] {
      SameDbs(Step(q, run[0]), run[1..]);
    }
  }

  lemma RejectedOnceFailed(q: Queue, e: Event)
    requires Sound(q) && q.failure.Some? && Possible(q, e)
    ensures var r := Step(q, e);
            && r.failure == q.failure && q.log <= r.log
            && forall i :: |q.log| <= i < |r.log| ==> r.log[i].outcome == Rejected(q.failure.value)
  {
  }

  /**
   Nothing is released once a call failed or the gate stopped: whatever settles from then on, in
   any run, is rejected with that failure.
   */
  lemma {:induction false} NothingReleasedAfterFailure(q: Queue, run: seq<Event>)
    requires Sound(q) && q.failure.Some? && Legal(q, run)
    ensures var r := After(q, run);
            && r.failure == q.failure && q.log <= r.log
            && forall i :: |q.log| <= i < |r.log| ==> r.log[i].outcome == Rejected(q.failure.value)
    decreases |run|
  {
    if run != [] {
      RejectedOnceFailed(q, run[0]);
      StepKeeps(q, run[0]);
      NothingReleasedAfterFailure(Step(q, run[0]), run[1..]);
    }
  }

  lemma {:induction false} HeldStays(q: Queue, run: seq<Event>)
    requires Legal(q, run)
    ensures q.held <= After(q, run).held
    decreases |run|
  {
    if run != [] {
      HeldStays(Step(q, run[0]), run[1..]);
    }
  }

  /** Where a hold is while nothing failed, by the calls started since it was made. */
  lemma PlaceOf(q: Queue, h: nat)
    requires Sound(q) && q.failure.None? && h < |q.held|
    ensures var c := q.held[h];
            if |q.synced| == c then h in q.next
            else if |q.synced| == c + 1 && q.flight.Some? then h in q.flight.value
            else h < |q.log| && q.log[h] == Settled(h, Resolved(c))
  {
    var places := Places(q);
    assert places[h] == h;
    if h < |q.log| {
      assert q.log[h].hold == h && Covered(q, q.log[h]);
    } else if h < |q.log| + |InFlight(q)| {
      assert InFlight(q)[h - |q.log|] == h;
    } else {
      assert q.next[h - |q.log| - |InFlight(q)|] == h;
    }
  }

  /**
   A hold made while a call is in flight is in the batch of the very next one: in any run without a
   failure it waits until that call starts, is in its batch while it is in flight, and is released
   by it.
   */
  lemma HeldMeanwhileIsNext(q: Queue, run: seq<Event>)
    requires Sound(q) && q.failure.None? && q.flight.Some? && Legal(Hold(q), run) && After(Hold(q), run).failure.None?
    ensures var r := After(Hold(q), run);
            var h, next := |q.held|, |q.synced|;
            if |r.synced| == next then h in r.next
            else if |r.synced| == next + 1 && r.flight.Some? then h in r.flight.value
            else h < |r.log| && r.log[h] == Settled(h, Resolved(next))
  {
    HoldKeeps(q);
    RunKeeps(Hold(q), run);
    HeldStays(Hold(q), run);
    var r := After(Hold(q), run);
    assert Hold(q).held[|q.held|] == |q.synced| == r.held[|q.held|];
    PlaceOf(r, |q.held|);
  }

  /** The queue of one gate, changed in place by its holds and by the calls it starts. */
  class Release {
    var dbs: set<Db>
    var next: seq<nat>
    var busy: bool
    var failure: Option<int>
    /** The promises: the batch the call in flight closes over, and how each hold settled. */
    var batch: seq<nat>
    var held: seq<nat>
    var synced: seq<set<Db>>
    var log: seq<Settled>

    function View(): (q: Queue)
      reads this
    {
      Queue(dbs, next, if busy then Some(batch) else None, failure, held, synced, log)
    }

    constructor (dbs: set<Db>)
      ensures View() == NewQueue(dbs)
    {
      this.dbs, next, busy, failure := dbs, [], false, None;
      batch, held, synced, log := [], [], [], [];
    }

    /** Holds an output. */
    method HoldOutput() returns (h: nat)
      modifies this
      ensures View() == Hold(old(View())) && h == |old(held)|
    {
      h := |held|;
      held := held + [|synced|];
      if failure.Some? {
        log := log + [Settled(h, Rejected(failure.value))];
        return;
      }
      next := next + [h];
      if !busy {
        Call();
      }
    }

    /** Rejects what is held and every later hold, and ends the call in flight. */
    method Stop(reason: int)
      modifies this
      ensures View() == Step(old(View()), Stopped(reason))
    {
      FailWith(reason, []);
    }

    method Call()
      requires !busy
      modifies this`batch, this`next, this`busy, this`synced
      ensures View() == StartCall(old(View()))
    {
      batch := next;
      next := [];
      busy := true;
      synced := synced + [{}];
    }

    /** Database `db` answered the call in flight; the last answer settles the call. */
    method Answered(db: Db)
      requires Possible(View(), Synced(db))
      modifies this
      ensures View() == Step(old(View()), Synced(db))
    {
      var last := |synced| - 1;
      synced := synced[last := synced[last] + {db}];
      if synced[last] == dbs {
        busy := false;
        if failure.Some? {
          log := log + SettleAll(batch, Rejected(failure.value));
          return;
        }
        log := log + SettleAll(batch, Resolved(last));
        if next != [] {
          Call();
        }
      }
    }

    /** A database's wait failed: the call in flight rejects. */
    method Broke(error: int)
      requires busy
      modifies this
      ensures View() == Step(old(View()), CallFailed(error))
    {
      busy := false;
      FailWith(error, batch);
    }

    method FailWith(error: int, rejected: seq<nat>)
      modifies this`failure, this`log, this`next
      ensures View() == Fail(old(View()), error, rejected)
    {
      if failure.None? {
        failure := Some(error);
      }
      log := log + SettleAll(rejected + next, Rejected(failure.value));
      next := [];
    }
  }
}

/**
 Whether a `synced()` call resolves only once its own ticket did. A reset fails its binding's tickets
 with one event; read after the binding left the registry, the event names no path. It then rejects
 the tickets of the databases that report a reset, and a ticket it misses waits on, to be taken for
 resolved once its path is bound again.
 */
module PumpResets {
  import opened Common
  import opened Pump
  import opened PumpSafety

  /** A failed ticket's rejection, or a new ticket for its call, comes before anything that covers it. */
  predicate Secure(s: State, id: Ticket)
    requires id in s.tickets && id in s.ext.issued
  {
    s.ext.issued[id].standing.Failed? ==> Safe(s.stream, WhoIs(s, id))
  }

  predicate SecureBut(s: State, loose: set<Ticket>) {
    forall id {:trigger Secure(s, id)} :: id in s.tickets && id in s.ext.issued && id !in loose ==> Secure(s, id)
  }

  /** No failed ticket is left behind. */
  predicate NoneMissed(s: State) {
    SecureBut(s, {})
  }

  /** A resolved call's own ticket was resolved. */
  predicate OwnSynced(s: State, p: Promise)
    requires p in s.calls
  {
    s.calls[p].state.Resolved? ==> SyncedFor(s.ext, s.calls[p].state.under, s.calls[p].path)
  }

  predicate Truthful(s: State) {
    forall p {:trigger OwnSynced(s, p)} :: p in s.calls ==> OwnSynced(s, p)
  }

  /**
   A reset that names no path is handled, and a ticket it failed is not among those it rejects,
   with nothing else to save it.
   */
  predicate Misses(s: State, step: Step) {
    && step.Deliver? && 0 < s.posted <= |s.stream|
    && s.stream[0].Reset? && s.stream[0].seen.Nameless?
    && exists id :: id in s.tickets && id in s.ext.issued && Missed(s, step.hit, id)
  }

  predicate Missed(s: State, hit: set<Path>, id: Ticket)
    requires id in s.tickets && id in s.ext.issued && s.stream != [] && s.stream[0].Reset?
  {
    && s.ext.issued[id] == Issued(s.stream[0].binding, Failed) && s.tickets[id].path !in hit
    && !Safe(s.stream[1..], WhoIs(s, id))
  }

  // ---------------------------------------------------------------------------------------------
  // Settling and asking again.
  // ---------------------------------------------------------------------------------------------

  /** Settling removes the tickets listed and nothing else. */
  lemma {:induction false} SettleEachOnly(s: State, ids: seq<Ticket>, top: Option<Ticket>)
    requires Paired(s)
    ensures var r := SettleEach(s, ids, top);
            && Paired(r) && r == s.(tickets := r.tickets, calls := r.calls, waiting := r.waiting)
            && (forall id :: id in r.tickets <==> id in s.tickets && id !in ids)
            && (forall id :: id in r.tickets ==> r.tickets[id] == s.tickets[id])
    decreases |ids|
  {
    if ids != [] {
      var id := ids[0];
      assert id in s.tickets ==> HasCall(s, id);
      var s1 := if id in s.tickets then Settle(s, id, Outcome(id, top)) else s;
      if id in s.tickets {
        SettlePaired(s, id, s1);
      }
      SettleEachOnly(s1, ids[1..], top);
      assert ids == [id] + ids[1..];
    }
  }

  lemma SettleTruth(s: State, id: Ticket, top: Option<Ticket>)
    requires Truthful(s) && id in s.tickets && HasCall(s, id) && OfItsPath(s, id)
    requires top.Some? ==> s.ext.issued[id].standing.Synced?
    ensures Truthful(Settle(s, id, Outcome(id, top)))
  {
    var r := Settle(s, id, Outcome(id, top));
    forall p | p in r.calls ensures OwnSynced(r, p) {
      assert OwnSynced(s, p);
    }
  }

  /** Resolving tickets that were resolved, or rejecting any, keeps the truth. */
  lemma {:induction false} SettleEachTruth(s: State, ids: seq<Ticket>, top: Option<Ticket>)
    requires Truthful(s) && Paired(s)
    requires forall k :: 0 <= k < |ids| && ids[k] in s.tickets ==>
                           OfItsPath(s, ids[k]) && (top.Some? ==> s.ext.issued[ids[k]].standing.Synced?)
    ensures Truthful(SettleEach(s, ids, top))
    decreases |ids|
  {
    if ids != [] {
      var id := ids[0];
      assert id in s.tickets ==> HasCall(s, id);
      var s1 := if id in s.tickets then Settle(s, id, Outcome(id, top)) else s;
      if id in s.tickets {
        SettlePaired(s, id, s1);
        SettleTruth(s, id, top);
      }
      forall k | 0 <= k < |ids[1..]| && ids[1..][k] in s1.tickets
        ensures OfItsPath(s1, ids[1..][k]) && (top.Some? ==> s1.ext.issued[ids[1..][k]].standing.Synced?)
      {
        assert ids[1..][k] == ids[k + 1];
        assert OfItsPath(s, ids[k + 1]);
      }
      SettleEachTruth(s1, ids[1..], top);
    }
  }

  /** Rejecting keeps the truth. */
  lemma RejectTruth(s: State, ids: seq<Ticket>, loose: set<Ticket>)
    requires SoundBut(s, loose) && Truthful(s)
    ensures Truthful(SettleEach(s, ids, None))
  {
    forall k | 0 <= k < |ids| && ids[k] in s.tickets ensures OfItsPath(s, ids[k]) {
    }
    SettleEachTruth(s, ids, None);
  }

  /** The tickets beside a new one are as secure as they were; the new one is. */
  lemma IssueSecure(s: State, r: State, path: Path, loose: set<Ticket>, id: Ticket)
    requires SoundBut(s, loose) && CanIssue(s.ext, path) && r.ext == Issue(s.ext, path)
    requires r.stream == s.stream + IssueEvents(s.ext, path)
    requires id in r.tickets && id in r.ext.issued
    requires id == s.ext.next ==> r.tickets[id].path == path
    requires id != s.ext.next ==>
               id in s.tickets
                 && r.tickets[id] == s.tickets[id] && (id !in loose ==> id in s.ext.issued && Secure(s, id))
    ensures id == s.ext.next || id !in loose ==> Secure(r, id)
  {
    NewTicketStream(s, path);
    if id == s.ext.next {
      if IssueEvents(s.ext, path) != [] {
        var k := WhoIs(r, id);
        forall i | 0 <= i < |s.stream| && s.stream[i].Watermark? ensures s.stream[i].through < s.ext.next {
          assert EventWell(s.ext, s.stream[i]);
        }
        NewIsNeverFalse(s.stream, k);
        Appended(s.stream, SyncFailed(id), k);
      }
    } else if id !in loose {
      if IssueEvents(s.ext, path) == [] {
        assert r.stream == s.stream;
      } else {
        Appended(s.stream, SyncFailed(s.ext.next), WhoIs(s, id));
      }
    }
  }

  lemma CallsStayTrue(s: State, r: State)
    requires Truthful(s) && Later(s.ext, r.ext)
    requires forall p :: p in r.calls ==> r.calls[p].state.Resolved? ==> p in s.calls && r.calls[p] == s.calls[p]
    ensures Truthful(r)
  {
    forall p | p in r.calls ensures OwnSynced(r, p) {
      if r.calls[p].state.Resolved? {
        assert OwnSynced(s, p);
      }
    }
  }

  lemma ReissueOneTruth(s: State, id: Ticket, refused: set<Path>, loose: set<Ticket>)
    requires SoundBut(s, loose) && Truthful(s) && SecureBut(s, loose) && id in s.tickets
    ensures Truthful(ReissueOne(s, id, refused)) && SecureBut(ReissueOne(s, id, refused), loose - {id})
  {
    assert HasCall(s, id) && OfItsPath(s, id);
    var path := s.tickets[id].path;
    var r := ReissueOne(s, id, refused);
    if path in refused || !CanIssue(s.ext, path) {
      SettleTruth(s, id, None);
      forall t | t in r.tickets && t in r.ext.issued && t !in loose - {id} ensures Secure(r, t) {
        assert Secure(s, t);
      }
    } else {
      IssueLater(s.ext, path);
      CallsStayTrue(s, r);
      forall t | t in r.tickets && t in r.ext.issued && t !in loose - {id} ensures Secure(r, t) {
        assert t != s.ext.next ==> OfItsPath(s, t);
        IssueSecure(s, r, path, loose, t);
      }
    }
  }

  lemma {:induction false} ReissueTruth(s: State, ids: seq<Ticket>, refused: set<Path>, loose: set<Ticket>)
    requires SoundBut(s, loose) && Truthful(s) && SecureBut(s, loose)
    requires forall k :: 0 <= k < |ids| ==> ids[k] in s.tickets
    requires forall j, k :: 0 <= j < k < |ids| ==> ids[j] != ids[k]
    ensures Truthful(Reissue(s, ids, refused)) && SecureBut(Reissue(s, ids, refused), Without(loose, ids))
    decreases |ids|
  {
    if ids != [] {
      var id := ids[0];
      ReissueOneTruth(s, id, refused, loose);
      ReissueOneKeeps(s, id, refused, loose);
      var s1 := ReissueOne(s, id, refused);
      forall k | 0 <= k < |ids[1..]| ensures ids[1..][k] in s1.tickets {
        assert ids[1..][k] == ids[k + 1];
      }
      ReissueTruth(s1, ids[1..], refused, loose - {id});
    }
  }

  lemma AllReissuedTruth(s: State, refused: set<Path>)
    requires SoundBut(s, s.tickets.Keys) && Truthful(s)
    ensures var r := Reissue(s, Ascending(s.tickets.Keys), refused); Truthful(r) && NoneMissed(r)
  {
    var ids := Ascending(s.tickets.Keys);
    ReissueTruth(s, ids, refused, s.tickets.Keys);
    NoInts(Without(s.tickets.Keys, ids));
  }

  // ---------------------------------------------------------------------------------------------
  // The extension's steps miss nothing.
  // ---------------------------------------------------------------------------------------------

  /** A ticket secure before a step is secure after it. */
  predicate Carried(s: State, r: State, id: Ticket)
    requires id in s.tickets && id in s.ext.issued && id in r.tickets && id in r.ext.issued
  {
    TicketWell(s, id) && Secure(s, id) ==> Secure(r, id)
  }

  /** A step of the extension that leaves every ticket's guard in place, and fails one only with a guard. */
  lemma CarriedTruth(s: State, r: State)
    requires Sound(s) && NoneMissed(s) && Truthful(s) && Later(s.ext, r.ext) && r.tickets == s.tickets
    requires r.calls == s.calls
    requires forall id {:trigger Carried(s, r, id)} :: id in s.tickets && id in s.ext.issued ==> Carried(s, r, id)
    ensures NoneMissed(r) && Truthful(r)
  {
    CallsStayTrue(s, r);
    forall id | id in r.tickets && id in r.ext.issued ensures Secure(r, id) {
      assert OfItsPath(s, id);
      assert Secure(s, id) && TicketWell(s, id) && Carried(s, r, id);
    }
  }

  /** A ticket fails only as `e` says. */
  predicate FailsWith(s: State, r: State, e: Event, id: Ticket)
    requires id in s.tickets && id in s.ext.issued && id in r.ext.issued
  {
    s.ext.issued[id].standing.Pending? && r.ext.issued[id].standing.Failed? ==> Guards(e, WhoIs(s, id))
  }

  lemma AppendTruth(s: State, r: State, e: Event)
    requires Sound(s) && NoneMissed(s) && Truthful(s) && Later(s.ext, r.ext) && r.tickets == s.tickets
    requires r.calls == s.calls
    requires r.stream == s.stream + [e]
    requires forall id :: id in s.tickets && id in s.ext.issued ==> FailsWith(s, r, e, id)
    ensures NoneMissed(r) && Truthful(r)
  {
    forall id | id in s.tickets && id in s.ext.issued ensures Carried(s, r, id) {
      Appended(s.stream, e, WhoIs(s, id));
    }
    CarriedTruth(s, r);
  }

  lemma IssueElsewhereTruth(s: State, path: Path)
    requires Sound(s) && NoneMissed(s) && Truthful(s) && CanIssue(s.ext, path)
    ensures NoneMissed(IssuesElsewhere(s, path)) && Truthful(IssuesElsewhere(s, path))
  {
    var r := IssuesElsewhere(s, path);
    IssueLater(s.ext, path);
    if IssueEvents(s.ext, path) == [] {
      assert r.stream == s.stream;
      CarriedTruth(s, r);
    } else {
      AppendTruth(s, r, SyncFailed(s.ext.next));
    }
  }

  lemma ResetTruth(s: State, b: BindingId)
    requires Sound(s) && NoneMissed(s) && Truthful(s) && b in s.ext.bindings
    ensures NoneMissed(Resets(s, b)) && Truthful(Resets(s, b))
  {
    var path := s.ext.bindings[b].path;
    AppendTruth(s, Resets(s, b), Reset(b, path, SeenNow(s.ext, b, path)));
  }

  lemma FailTruth(s: State, t: Ticket)
    requires Sound(s) && NoneMissed(s) && Truthful(s) && IsPending(s.ext, t)
    ensures NoneMissed(TicketFails(s, t)) && Truthful(TicketFails(s, t))
  {
    AppendTruth(s, TicketFails(s, t), SyncFailed(t));
  }

  lemma LeaveTruth(s: State, path: Path)
    requires Sound(s) && NoneMissed(s) && Truthful(s) && path in s.ext.registered
    ensures NoneMissed(Leaves(s, path)) && Truthful(Leaves(s, path))
  {
    var r := Leaves(s, path);
    forall id | id in s.tickets && id in s.ext.issued ensures Carried(s, r, id) {
      HushedNoWorse(s.stream, s.ext.registered[path], WhoIs(s, id));
    }
    CarriedTruth(s, r);
  }

  lemma PollTruth(s: State)
    requires Sound(s) && NoneMissed(s) && Truthful(s) && s.posted < |s.stream|
    ensures NoneMissed(Polled(s)) && Truthful(Polled(s))
  {
    var r := Polled(s);
    forall id | id in s.tickets && id in s.ext.issued ensures Carried(s, r, id) {
      ReadNoWorse(s.stream, s.posted, WhoIs(s, id));
    }
    CarriedTruth(s, r);
  }

  lemma EvictTruth(s: State, count: nat)
    requires Sound(s) && NoneMissed(s) && Truthful(s) && s.posted + count <= |s.stream|
    ensures NoneMissed(Evicts(s, count)) && Truthful(Evicts(s, count))
  {
    var r := Evicts(s, count);
    forall id | id in s.tickets && id in s.ext.issued ensures Carried(s, r, id) {
      GapNoWorse(s.stream, s.posted, s.stream[s.posted + count..], WhoIs(s, id));
    }
    CarriedTruth(s, r);
  }

  lemma ResolveTruth(s: State, t: Ticket)
    requires Sound(s) && NoneMissed(s) && Truthful(s) && IsPending(s.ext, t)
    ensures NoneMissed(TicketResolves(s, t)) && Truthful(TicketResolves(s, t))
  {
    var r := TicketResolves(s, t);
    var b := s.ext.issued[t].binding;
    ResolvedExt(s.ext, t);
    var front, rest := s.stream[..s.posted], s.stream[s.posted..];
    assert front + rest == s.stream;
    forall id | id in s.tickets && id in s.ext.issued ensures Carried(s, r, id) {
      if r.stream != s.stream {
        CoalescedNoWorse(front, rest, b, WhoIs(s, id));
        Appended(front + Coalesced(rest, b), r.stream[|r.stream| - 1], WhoIs(s, id));
      }
    }
    CarriedTruth(s, r);
  }

  // ---------------------------------------------------------------------------------------------
  // The pump's steps.
  // ---------------------------------------------------------------------------------------------

  lemma CallTruth(s: State, path: Path, promise: Promise)
    requires Sound(s) && NoneMissed(s) && Truthful(s) && promise !in s.calls && CanIssue(s.ext, path)
    ensures var r := Called(Started(s), path, promise); NoneMissed(r) && Truthful(r)
  {
    StartedKeeps(s);
    var s1 := Started(s);
    CallsStayTrue(s, s1);
    assert NoneMissed(s1) by {
      forall id | id in s1.tickets && id in s1.ext.issued ensures Secure(s1, id) {
        assert Secure(s, id);
      }
    }
    var r := Called(s1, path, promise);
    IssueLater(s1.ext, path);
    CallsStayTrue(s1, r);
    forall t | t in r.tickets && t in r.ext.issued ensures Secure(r, t) {
      assert t != s1.ext.next ==> OfItsPath(s1, t);
      IssueSecure(s1, r, path, {}, t);
    }
  }

  lemma AbortTruth(s: State, ids: seq<Ticket>)
    requires Sound(s) && NoneMissed(s) && Truthful(s)
    ensures NoneMissed(SettleEach(s, ids, None)) && Truthful(SettleEach(s, ids, None))
  {
    RejectTruth(s, ids, {});
    SettleEachOnly(s, ids, None);
    var r := SettleEach(s, ids, None);
    forall id | id in r.tickets && id in r.ext.issued ensures Secure(r, id) {
      assert Secure(s, id);
    }
  }

  lemma WorkerTruth(s: State, kept: nat, watched: bool, refused: set<Path>)
    requires Sound(s) && Truthful(s) && kept <= s.posted
    ensures var r := Restart(Gone(s, kept), watched, refused); NoneMissed(r) && Truthful(r)
  {
    var s1 := Gone(s, kept);
    WorkerGone(s, kept);
    CallsStayTrue(s, s1);
    var ids := Ascending(s1.tickets.Keys);
    if ids == [] && !watched {
      assert forall id :: id !in s1.tickets;
    } else if s1.failures >= MAX_FAILURES {
      forall k | 0 <= k < |ids| && ids[k] in s1.tickets ensures OfItsPath(s1, ids[k]) {
      }
      SettleEachTruth(s1, ids, None);
      SettleEachOnly(s1, ids, None);
    } else {
      UnsureButRunning(s1);
      CallsStayTrue(s1, s1.(running := true));
      AllReissuedTruth(s1.(running := true), refused);
    }
  }

  // ---------------------------------------------------------------------------------------------
  // An event handled.
  // ---------------------------------------------------------------------------------------------

  /** What a watermark covers was resolved, while no failed ticket is left behind. */
  lemma CoveredIsSynced(s: State, id: Ticket)
    requires Sound(s) && NoneMissed(s) && s.stream != [] && id in s.tickets && id in s.ext.issued
    requires s.stream[0].Watermark? && Covers(s.stream[0], WhoIs(s, id))
    ensures s.ext.issued[id].standing.Synced?
  {
    assert Secure(s, id) && TicketWell(s, id);
  }

  /** A ticket that stays, and that the event did not guard, is as secure as it was. */
  lemma TailSecure(s: State, r: State, id: Ticket)
    requires s.stream != [] && r.stream == s.stream[1..] && r.ext == s.ext
    requires id in s.tickets && id in r.tickets && id in s.ext.issued && r.tickets[id] == s.tickets[id] && Secure(s, id)
    requires !Guards(s.stream[0], WhoIs(s, id))
    ensures Secure(r, id)
  {
  }

  lemma WatermarkTruth(s: State)
    requires Sound(s) && NoneMissed(s) && Truthful(s) && 0 < s.posted <= |s.stream| && s.stream[0].Watermark?
    ensures var r := Handle(Popped(s), s.stream[0], {}, {}); NoneMissed(r) && Truthful(r)
  {
    var e, s1 := s.stream[0], Popped(s);
    var r := Handle(s1, e, {}, {});
    CallsStayTrue(s, s1);
    PairsStay(s, s1);
    var ids := Ascending(CoveredBy(s1.tickets, e.path, e.through));
    if !e.seen.Nameless? {
      forall k | 0 <= k < |ids| && ids[k] in s1.tickets
        ensures OfItsPath(s1, ids[k]) && s1.ext.issued[ids[k]].standing.Synced?
      {
        assert OfItsPath(s, ids[k]);
        assert ids[k] in CoveredBy(s1.tickets, e.path, e.through);
        CoveredIsSynced(s, ids[k]);
      }
      SettleEachTruth(s1, ids, Some(e.top));
      SettleEachOnly(s1, ids, Some(e.top));
    }
    forall id | id in r.tickets && id in r.ext.issued ensures Secure(r, id) {
      assert Secure(s, id);
      TailSecure(s, r, id);
    }
  }

  lemma SyncFailedTruth(s: State)
    requires Sound(s) && NoneMissed(s) && Truthful(s) && 0 < s.posted <= |s.stream| && s.stream[0].SyncFailed?
    ensures var r := SettleEach(Popped(s), [s.stream[0].ticket], None); NoneMissed(r) && Truthful(r)
  {
    var t, s1 := s.stream[0].ticket, Popped(s);
    PoppedKeeps(s, {t});
    CallsStayTrue(s, s1);
    RejectTruth(s1, [t], {t});
    SettleEachOnly(s1, [t], None);
    var r := SettleEach(s1, [t], None);
    forall id | id in r.tickets && id in r.ext.issued ensures Secure(r, id) {
      assert Secure(s, id);
      TailSecure(s, r, id);
    }
  }

  /** The state once a reset is handled. */
  function AfterReset(s: State, hit: set<Path>): (r: State)
    requires 0 < s.posted <= |s.stream| && s.stream[0].Reset?
  {
    SettleEach(Popped(s), Ascending(TicketsOf(Popped(s).tickets, ResetPaths(s.stream[0], hit))), None)
  }

  lemma AfterResetIs(s: State, hit: set<Path>)
    requires Sound(s) && Truthful(s) && 0 < s.posted <= |s.stream| && s.stream[0].Reset?
    ensures var r := AfterReset(s, hit);
            && Truthful(r) && r.ext == s.ext && r.stream == s.stream[1..]
            && (forall id ::
                  id in r.tickets
                  <==> id in s.tickets && s.tickets[id].path !in ResetPaths(s.stream[0], hit))
            && (forall id :: id in r.tickets ==> r.tickets[id] == s.tickets[id])
  {
    var s1 := Popped(s);
    CallsStayTrue(s, s1);
    PairsStay(s, s1);
    var ids := Ascending(TicketsOf(s1.tickets, ResetPaths(s.stream[0], hit)));
    forall k | 0 <= k < |ids| && ids[k] in s1.tickets ensures OfItsPath(s1, ids[k]) {
      assert OfItsPath(s, ids[k]);
    }
    SettleEachTruth(s1, ids, None);
    SettleEachOnly(s1, ids, None);
  }

  /** A ticket a reset leaves: missed, or as secure as it was. */
  lemma LeftByReset(s: State, hit: set<Path>, id: Ticket)
    requires Sound(s) && NoneMissed(s) && Truthful(s) && 0 < s.posted <= |s.stream| && s.stream[0].Reset?
    requires id in AfterReset(s, hit).tickets
    ensures id in s.tickets && id in s.ext.issued && id in AfterReset(s, hit).ext.issued
    ensures Secure(AfterReset(s, hit), id) <==> !(s.stream[0].seen.Nameless? && Missed(s, hit, id))
  {
    var r := AfterReset(s, hit);
    AfterResetIs(s, hit);
    assert OfItsPath(s, id) && Secure(s, id);
    assert EventWell(s.ext, s.stream[0]) && !Unseen(s.stream[0]);
    assert WhoIs(r, id) == WhoIs(s, id);
    if !Guards(s.stream[0], WhoIs(s, id)) {
      TailSecure(s, r, id);
    }
  }

  /** Handling a reset leaves a failed ticket behind exactly when it misses one. */
  lemma ResetExactly(s: State, refused: set<Path>, hit: set<Path>)
    requires Sound(s) && NoneMissed(s) && Truthful(s) && 0 < s.posted <= |s.stream| && s.stream[0].Reset?
    ensures Truthful(AfterReset(s, hit))
    ensures NoneMissed(AfterReset(s, hit)) <==> !Misses(s, Deliver(refused, hit))
  {
    var r := AfterReset(s, hit);
    AfterResetIs(s, hit);
    if Misses(s, Deliver(refused, hit)) {
      var id :| id in s.tickets && id in s.ext.issued && Missed(s, hit, id);
      LeftByReset(s, hit, id);
      assert !Secure(r, id);
    } else {
      forall id | id in r.tickets && id in r.ext.issued ensures Secure(r, id) {
        LeftByReset(s, hit, id);
      }
    }
  }

  lemma GapTruth(s: State, refused: set<Path>)
    requires Sound(s) && Truthful(s) && 0 < s.posted <= |s.stream|
    ensures var s1 := WakeAllOpens(Popped(s));
            var r := Reissue(s1, Ascending(s1.tickets.Keys), refused); NoneMissed(r) && Truthful(r)
  {
    var s1 := WakeAllOpens(Popped(s));
    PoppedKeeps(s, s.tickets.Keys);
    OpensKeep(Popped(s), s1, s.tickets.Keys);
    CallsStayTrue(s, s1);
    AllReissuedTruth(s1, refused);
  }

  /** An event that settles nothing and guards nothing. */
  lemma InertTruth(s: State, r: State)
    requires Sound(s) && NoneMissed(s) && Truthful(s) && 0 < s.posted <= |s.stream|
    requires s.stream[0].Opened? || s.stream[0].Other?
    requires r.stream == s.stream[1..] && r.ext == s.ext && r.tickets == s.tickets && r.calls == s.calls
    ensures NoneMissed(r) && Truthful(r)
  {
    CallsStayTrue(s, r);
    forall id | id in r.tickets && id in r.ext.issued ensures Secure(r, id) {
      assert Secure(s, id);
      TailSecure(s, r, id);
    }
  }

  lemma DeliverExactly(s: State, refused: set<Path>, hit: set<Path>)
    requires Sound(s) && NoneMissed(s) && Truthful(s) && 0 < s.posted <= |s.stream|
    ensures var r := Handle(Popped(s), s.stream[0], refused, hit);
            Truthful(r) && (NoneMissed(r) <==> !Misses(s, Deliver(refused, hit)))
  {
    match s.stream[0] {
      case Watermark(_, _, _, _, _) => WatermarkTruth(s);
      case SyncFailed(_) => SyncFailedTruth(s);
      case Reset(_, _, _) => ResetExactly(s, refused, hit);
      case Gap => GapTruth(s, refused);
      case Opened(request) => InertTruth(s, WakeOpen(Popped(s), request));
      case Other => InertTruth(s, Popped(s));
    }
  }

  /**
   No step but the handling of a nameless reset leaves a failed ticket behind, and that one exactly
   when it misses one.
   */
  lemma StepExactly(s: State, step: Step)
    requires Sound(s) && NoneMissed(s) && Truthful(s) && Enabled(s, step)
    ensures Truthful(Next(s, step)) && (NoneMissed(Next(s, step)) <==> !Misses(s, step))
  {
    match step {
      case CallSynced(path, promise) => CallTruth(s, path, promise);
      case Abort(promise) => AbortTruth(s, [s.calls[promise].state.ticket]);
      case WaitOpen(request, waker) => CarriedTruth(s, OpenWaits(s, request, waker));
      case AbortOpen(request, waker) => CarriedTruth(s, OpenAborts(s, request, waker));
      case Poll => PollTruth(s);
      case Deliver(refused, hit) => DeliverExactly(s, refused, hit);
      case WorkerFails(kept, watched, refused) => WorkerTruth(s, kept, watched, refused);
      case Bind(path, b) => CarriedTruth(s, s.(ext := Binds(s.ext, path, b)));
      case Leave(path) => LeaveTruth(s, path);
      case Retire(b) => CarriedTruth(s, s.(ext := Retires(s.ext, b)));
      case ResetBinding(b) => ResetTruth(s, b);
      case IssueElsewhere(path) => IssueElsewhereTruth(s, path);
      case Resolve(t) => ResolveTruth(s, t);
      case FailTicket(t) => FailTruth(s, t);
      case Evict(count) => EvictTruth(s, count);
      case Announce(event) => AppendTruth(s, s.(stream := s.stream + [event]), event);
    }
  }

  // ---------------------------------------------------------------------------------------------
  // Runs.
  // ---------------------------------------------------------------------------------------------

  /** No reset of the run misses a ticket it failed. */
  predicate Attentive(s: State, run: seq<Step>)
    requires Legal(s, run)
    decreases |run|
  {
    run == [] || (!Misses(s, run[0]) && Attentive(Next(s, run[0]), run[1..]))
  }

  lemma {:induction false} RunTruth(s: State, run: seq<Step>)
    requires Sound(s) && NoneMissed(s) && Truthful(s) && Legal(s, run) && Attentive(s, run)
    ensures Sound(After(s, run)) && NoneMissed(After(s, run)) && Truthful(After(s, run))
    decreases |run|
  {
    if run != [] {
      StepExactly(s, run[0]);
      NextKeeps(s, run[0]);
      RunTruth(Next(s, run[0]), run[1..]);
    }
  }

  /**
   While no reset misses a ticket it failed, a `synced()` call resolves only once its own ticket,
   issued at or after the call, did.
   */
  lemma ResolvedIsSynced(run: seq<Step>)
    requires Legal(START, run) && Attentive(START, run)
    ensures var s := After(START, run);
            forall p :: p in s.calls && s.calls[p].state.Resolved? ==>
                          s.calls[p].since <= s.calls[p].state.under
                            && SyncedFor(s.ext, s.calls[p].state.under, s.calls[p].path)
  {
    RunTruth(START, run);
    var s := After(START, run);
    forall p | p in s.calls ensures OwnSynced(s, p) && CallWell(s, p) {
    }
  }

  // ---------------------------------------------------------------------------------------------
  // A ticket left behind is taken for resolved on some run.
  // ---------------------------------------------------------------------------------------------

  /** A watermark reaches the ticket before any guard does. */
  predicate Reached(stream: seq<Event>, k: Who)
    decreases |stream|
  {
    stream != [] && !Guards(stream[0], k) && (Covers(stream[0], k) || Reached(stream[1..], k))
  }

  /** Neither a watermark nor a guard is on its way to the ticket. */
  predicate Clear(stream: seq<Event>, k: Who)
    decreases |stream|
  {
    stream == [] || (!Guards(stream[0], k) && !Covers(stream[0], k) && Clear(stream[1..], k))
  }

  lemma {:induction false} ReachedOrClear(stream: seq<Event>, k: Who)
    requires !Safe(stream, k)
    ensures Reached(stream, k) || Clear(stream, k)
    decreases |stream|
  {
    if stream != [] && !Covers(stream[0], k) {
      ReachedOrClear(stream[1..], k);
    }
  }

  lemma {:induction false} NotReached(stream: seq<Event>, k: Who)
    requires forall i :: 0 <= i < |stream| ==> !Covers(stream[i], k)
    ensures !Reached(stream, k)
    decreases |stream|
  {
    if stream != [] {
      NotReached(stream[1..], k);
    }
  }

  /** A call waits under the failed ticket `id` of a binding that reset. */
  predicate Stranded(s: State, id: Ticket) {
    && Sound(s) && id in s.tickets && id in s.ext.issued && s.ext.issued[id].standing.Failed?
    && s.ext.issued[id].binding in s.ext.bindings && s.ext.bindings[s.ext.issued[id].binding].life.WasReset?
  }

  lemma Then(s: State, step: Step, run: seq<Step>)
    requires Enabled(s, step) && Legal(Next(s, step), run)
    ensures Legal(s, [step] + run) && After(s, [step] + run) == After(Next(s, step), run)
  {
    assert ([step] + run)[1..] == run;
  }

  /** Settling leaves a ticket's own outcome in its call. */
  lemma {:induction false} SettledOutcome(s: State, ids: seq<Ticket>, top: Option<Ticket>, id: Ticket)
    requires Paired(s) && id in s.tickets && HasCall(s, id)
    ensures var r := SettleEach(s, ids, top);
            var p := s.tickets[id].promise;
            p in r.calls && r.calls[p].path == s.calls[p].path && (id in ids ==> r.calls[p].state == Outcome(id, top))
    decreases |ids|
  {
    if ids != [] {
      var x := ids[0];
      assert x in s.tickets ==> HasCall(s, x);
      var s1 := if x in s.tickets then Settle(s, x, Outcome(x, top)) else s;
      if x in s.tickets {
        SettlePaired(s, x, s1);
      }
      if x == id {
        StaysSettled(s1, ids[1..], top, s.tickets[id].promise);
      } else {
        assert HasCall(s1, id);
        SettledOutcome(s1, ids[1..], top, id);
      }
    }
  }

  lemma {:induction false} StaysSettled(s: State, ids: seq<Ticket>, top: Option<Ticket>, p: Promise)
    requires Paired(s) && p in s.calls && !s.calls[p].state.Waiting?
    ensures var r := SettleEach(s, ids, top); p in r.calls && r.calls[p] == s.calls[p]
    decreases |ids|
  {
    if ids != [] {
      var x := ids[0];
      assert x in s.tickets ==> HasCall(s, x);
      var s1 := if x in s.tickets then Settle(s, x, Outcome(x, top)) else s;
      if x in s.tickets {
        SettlePaired(s, x, s1);
      }
      StaysSettled(s1, ids[1..], top, p);
    }
  }

  /** A watermark that covers a failed ticket resolves its call. */
  lemma Misled(s: State, id: Ticket)
    requires Stranded(s, id) && 0 < s.posted <= |s.stream| && Covers(s.stream[0], WhoIs(s, id))
    ensures !Truthful(Handle(Popped(s), s.stream[0], {}, {}))
  {
    var e, s1 := s.stream[0], Popped(s);
    assert HasCall(s, id);
    PairsStay(s, s1);
    var ids := Ascending(CoveredBy(s1.tickets, e.path, e.through));
    assert id in CoveredBy(s1.tickets, e.path, e.through);
    assert HasCall(s1, id);
    SettleEachOnly(s1, ids, Some(e.top));
    SettledOutcome(s1, ids, Some(e.top), id);
    var r := SettleEach(s1, ids, Some(e.top));
    assert !OwnSynced(r, s.tickets[id].promise);
  }

  /** The ticket is still there after an event that neither covers nor guards it. */
  lemma SettlePasses(s: State, ids: seq<Ticket>, top: Option<Ticket>, id: Ticket)
    requires Paired(s) && id in s.tickets && id !in ids
    ensures var r := SettleEach(s, ids, top);
            id in r.tickets
              && r.tickets[id] == s.tickets[id] && r.stream == s.stream && r.posted == s.posted && r.ext == s.ext
  {
    SettleEachOnly(s, ids, top);
  }

  lemma HandlePasses(s: State, e: Event, k: Who)
    requires Paired(s) && k.id in s.tickets && k.path == s.tickets[k.id].path
    requires !Guards(e, k) && !Covers(e, k) && !Unseen(e)
    ensures var r := Handle(s, e, {}, {});
            && k.id in r.tickets && r.tickets[k.id] == s.tickets[k.id]
            && r.stream == s.stream && r.posted == s.posted && r.ext == s.ext
  {
    match e {
      case Watermark(_, path, seen, through, top) =>
        if !seen.Nameless? {
          SettlePasses(s, Ascending(CoveredBy(s.tickets, path, through)), Some(top), k.id);
        }
      case SyncFailed(t) => SettlePasses(s, [t], None, k.id);
      case Reset(_, _, _) => SettlePasses(s, Ascending(TicketsOf(s.tickets, ResetPaths(e, {}))), None, k.id);
      case Opened(_) =>
      case Other =>
    }
  }

  lemma Passed(s: State, id: Ticket)
    requires Stranded(s, id) && 0 < s.posted <= |s.stream|
    requires !Guards(s.stream[0], WhoIs(s, id)) && !Covers(s.stream[0], WhoIs(s, id))
    ensures var r := Next(s, Deliver({}, {}));
            && Stranded(r, id) && r.stream == s.stream[1..] && r.posted == s.posted - 1
            && r.ext == s.ext && r.tickets[id] == s.tickets[id]
  {
    DeliverKeeps(s, {}, {});
    PairsStay(s, Popped(s));
    HandlePasses(Popped(s), s.stream[0], WhoIs(s, id));
  }

  /** While the reset of a path's binding waits to be read, no watermark of the path waits behind it. */
  lemma ResetComesLast(s: State, k: Who)
    requires Sound(s) && s.posted == 0 < |s.stream| && s.stream[0].Reset? && Unseen(s.stream[0])
    requires s.stream[0].path == k.path
    ensures !Reached(s.stream[1..], k)
  {
    assert EventWell(s.ext, s.stream[0]);
    forall i | 0 <= i < |s.stream[1..]| ensures !Covers(s.stream[1..][i], k) {
      assert EventWell(s.ext, s.stream[i + 1]) && !Given(s.stream[i + 1]);
      assert s.stream[1..][i] in s.stream[1..];
    }
    NotReached(s.stream[1..], k);
  }

  /** Reading an event names no path for a reset that comes before a watermark of it. */
  lemma ReadReached(s: State, id: Ticket)
    requires Stranded(s, id) && s.posted == 0 < |s.stream| && Reached(s.stream, WhoIs(s, id))
    ensures Reached(Polled(s).stream, WhoIs(s, id))
  {
    var k, e := WhoIs(s, id), s.stream[0];
    assert Polled(s).stream[1..] == s.stream[1..];
    assert !(e.Reset? && Unseen(e) && e.path == k.path) by {
      if e.Reset? && Unseen(e) && e.path == k.path {
        ResetComesLast(s, k);
      }
    }
  }

  lemma {:induction false} ReachedMisleads(s: State, id: Ticket) returns (run: seq<Step>)
    requires Stranded(s, id) && Reached(s.stream, WhoIs(s, id))
    ensures Legal(s, run) && !Truthful(After(s, run))
    decreases |s.stream|, |s.stream| - s.posted
  {
    if s.posted == 0 {
      ReadReached(s, id);
      PollKeeps(s);
      var rest := ReachedMisleads(Polled(s), id);
      Then(s, Poll, rest);
      run := [Poll] + rest;
    } else {
      var step := Deliver({}, {});
      if Covers(s.stream[0], WhoIs(s, id)) {
        Misled(s, id);
        Then(s, step, []);
        run := [step] + [];
      } else {
        Passed(s, id);
        var rest := ReachedMisleads(Next(s, step), id);
        Then(s, step, rest);
        run := [step] + rest;
      }
    }
  }

  /** Nothing of the ticket's path is bound: its events name no path, and it can be bound again. */
  predicate Unbound(s: State, path: Path) {
    && path !in s.ext.registered
    && (forall c :: c in s.ext.bindings && s.ext.bindings[c].path == path ==> !s.ext.bindings[c].life.Live?)
  }

  lemma {:induction false} ReadClear(s: State, k: Who)
    requires Sound(s) && s.posted == 0 < |s.stream| && Clear(s.stream, k) && k.path !in s.ext.registered
    ensures Clear(Polled(s).stream, k)
  {
    assert EventWell(s.ext, s.stream[0]);
    assert Polled(s).stream[1..] == s.stream[1..];
  }

  lemma FreshIds(s: State) returns (b: BindingId, p: Promise)
    ensures b !in s.ext.bindings && p !in s.calls
  {
    b := if s.ext.bindings.Keys == {} then 0 else Greatest(s.ext.bindings.Keys) + 1;
    p := if s.calls.Keys == {} then 0 else Greatest(s.calls.Keys) + 1;
    assert b !in s.ext.bindings.Keys && p !in s.calls.Keys;
  }

  /** The path bound again and a call made: its ticket is the only one of the new binding. */
  lemma CalledAgain(s: State, id: Ticket, b: BindingId, p: Promise)
    requires Stranded(s, id) && s.stream == [] && CanBind(s.ext, s.tickets[id].path, b) && p !in s.calls
    ensures var path := s.tickets[id].path;
            var s1 := s.(ext := Binds(s.ext, path, b));
            var s2 := Called(s1, path, p);
            && s1.running && CanIssue(s1.ext, path) && Sound(s1) && Stranded(s2, id) && s2.tickets[id] == s.tickets[id]
            && s2.stream == [] && s2.posted == 0 && id < s.ext.next
            && s2.ext.issued[id] == s.ext.issued[id] && s2.ext.issued[s.ext.next] == Issued(b, Pending)
            && s2.ext.bindings[b] == Bound(path, Mark({s.ext.next}, 0, None), Live) && s2.ext.registered[path] == b
  {
    var path := s.tickets[id].path;
    assert IssuedWell(s.ext, id);
    BindKeeps(s, path, b);
    var s1 := s.(ext := Binds(s.ext, path, b));
    CalledKeeps(s1, path, p);
    assert {} + {s.ext.next} == {s.ext.next};
  }

  lemma ResolvedAgain(s: State, id: Ticket, n: Ticket, b: BindingId)
    requires Stranded(s, id) && s.stream == [] && s.posted == 0 && id < n && n in s.ext.issued
    requires s.ext.issued[n] == Issued(b, Pending) && b in s.ext.bindings
    requires s.ext.bindings[b] == Bound(s.tickets[id].path, Mark({n}, 0, None), Live)
    requires s.tickets[id].path in s.ext.registered
    requires s.ext.registered[s.tickets[id].path] == b
    ensures var r := TicketResolves(s, n);
            Stranded(r, id) && WhoIs(r, id) == WhoIs(s, id) && Reached(r.stream, WhoIs(s, id))
  {
    assert IssuedWell(s.ext, n);
    ResolveKeeps(s, n);
    OneTicket(n);
    var r := TicketResolves(s, n);
    assert r.stream == [Watermark(b, s.tickets[id].path, Unread, n, n)];
  }

  /** With nothing on its way: the path is bound again, a call gets a ticket, and its resolution covers the old one. */
  lemma BoundAgain(s: State, id: Ticket) returns (run: seq<Step>)
    requires Stranded(s, id) && s.stream == [] && Unbound(s, s.tickets[id].path)
    ensures Legal(s, run) && !Truthful(After(s, run))
  {
    var path := s.tickets[id].path;
    var b, p := FreshIds(s);
    var n := s.ext.next;
    CalledAgain(s, id, b, p);
    var s1 := s.(ext := Binds(s.ext, path, b));
    var s2 := Called(s1, path, p);
    ResolvedAgain(s2, id, n, b);
    var rest := ReachedMisleads(TicketResolves(s2, n), id);
    Then(s2, Resolve(n), rest);
    Then(s1, CallSynced(path, p), [Resolve(n)] + rest);
    Then(s, Bind(path, b), [CallSynced(path, p)] + ([Resolve(n)] + rest));
    run := [Bind(path, b)] + ([CallSynced(path, p)] + ([Resolve(n)] + rest));
  }

  lemma OneTicket(n: Ticket)
    requires n > 0
    ensures ResolveOk(Mark({n}, 0, None), n) == Mark({}, n, Some(n))
  {
    assert {n} - {n} == {};
  }

  lemma {:induction false} ClearMisleads(s: State, id: Ticket) returns (run: seq<Step>)
    requires Stranded(s, id) && Clear(s.stream, WhoIs(s, id)) && Unbound(s, s.tickets[id].path)
    ensures Legal(s, run) && !Truthful(After(s, run))
    decreases |s.stream|, |s.stream| - s.posted
  {
    if s.stream == [] {
      run := BoundAgain(s, id);
    } else if s.posted == 0 {
      ReadClear(s, WhoIs(s, id));
      PollKeeps(s);
      var rest := ClearMisleads(Polled(s), id);
      Then(s, Poll, rest);
      run := [Poll] + rest;
    } else {
      var step := Deliver({}, {});
      Passed(s, id);
      var rest := ClearMisleads(Next(s, step), id);
      Then(s, step, rest);
      run := [step] + rest;
    }
  }

  lemma {:induction false} ClearThen(stream: seq<Event>, e: Event, k: Who)
    requires Clear(stream, k) && !Guards(e, k) && !Covers(e, k)
    ensures Clear(stream + [e], k)
    decreases |stream|
  {
    if stream == [] {
      assert (stream + [e])[1..] == [];
    } else {
      ClearThen(stream[1..], e, k);
      assert (stream + [e])[1..] == stream[1..] + [e];
    }
  }

  lemma {:induction false} ClearHushed(stream: seq<Event>, b: BindingId, k: Who)
    requires Clear(stream, k)
    ensures Clear(HushAll(stream, b), k)
    decreases |stream|
  {
    if stream != [] {
      ClearHushed(stream[1..], b, k);
      assert HushAll(stream, b)[1..] == HushAll(stream[1..], b);
    }
  }

  /** A live binding of the path, if any, resets once it left the registry: its event names no path. */
  lemma ClearWithoutPath(s: State, id: Ticket) returns (run: seq<Step>)
    requires Stranded(s, id) && Clear(s.stream, WhoIs(s, id)) && s.tickets[id].path !in s.ext.registered
    ensures Legal(s, run) && !Truthful(After(s, run))
  {
    var path := s.tickets[id].path;
    if c :| c in s.ext.bindings && s.ext.bindings[c].path == path && s.ext.bindings[c].life.Live? {
      var step := ResetBinding(c);
      NextKeeps(s, step);
      var r := Next(s, step);
      ClearThen(s.stream, Reset(c, path, Nameless), WhoIs(s, id));
      forall d | d in r.ext.bindings && r.ext.bindings[d].path == path ensures !r.ext.bindings[d].life.Live? {
        assert Alone(s.ext, c, d);
      }
      var rest := ClearMisleads(r, id);
      Then(s, step, rest);
      run := [step] + rest;
    } else {
      run := ClearMisleads(s, id);
    }
  }

  /** A ticket left behind is taken for resolved on some run. */
  lemma LeftBehindMisleads(s: State, id: Ticket) returns (run: seq<Step>)
    requires Stranded(s, id) && !Safe(s.stream, WhoIs(s, id))
    ensures Legal(s, run) && !Truthful(After(s, run))
  {
    ReachedOrClear(s.stream, WhoIs(s, id));
    var path := s.tickets[id].path;
    if Reached(s.stream, WhoIs(s, id)) {
      run := ReachedMisleads(s, id);
    } else if path in s.ext.registered {
      var step := Leave(path);
      NextKeeps(s, step);
      ClearHushed(s.stream, s.ext.registered[path], WhoIs(s, id));
      var rest := ClearWithoutPath(Next(s, step), id);
      Then(s, step, rest);
      run := [step] + rest;
    } else {
      run := ClearWithoutPath(s, id);
    }
  }

  /** The converse: once a reset misses a ticket it failed, some run resolves a call whose ticket failed. */
  lemma MissMisleads(s: State, step: Step) returns (run: seq<Step>)
    requires Sound(s) && NoneMissed(s) && Truthful(s) && Enabled(s, step) && Misses(s, step)
    ensures Legal(Next(s, step), run) && !Truthful(After(Next(s, step), run))
  {
    var id :| id in s.tickets && id in s.ext.issued && Missed(s, step.hit, id);
    assert EventWell(s.ext, s.stream[0]);
    AfterResetIs(s, step.hit);
    NextKeeps(s, step);
    run := LeftBehindMisleads(Next(s, step), id);
  }

  /** A path bound and a call made. */
  function FirstCall(path: Path): (r: State) {
    Called(Started(START.(ext := Binds(START.ext, path, 0))), path, 0)
  }

  lemma FirstCallIs(path: Path)
    ensures var s := FirstCall(path);
            && s.stream == [] && s.posted == 0 && s.running && s.ext.registered == map[path := 0]
            && s.ext.issued == map[1 := Issued(0, Pending)] && s.tickets == map[1 := Entry(path, 0)]
            && s.ext.bindings == map[0 := Bound(path, Mark({1}, 0, None), Live)]
  {
    assert {} + {1} == {1};
  }

  /** The binding resets and leaves the registry before the event is read. */
  lemma ResetUnnamed(s: State, path: Path) returns (run: seq<Step>)
    requires s == FirstCall(path)
    ensures Legal(s, run) && (forall i :: 0 <= i < |run| ==> !run[i].Deliver?)
    ensures var r := After(s, run);
            && r.stream == [Reset(0, path, Nameless)] && r.posted == 1
            && r.tickets == s.tickets && 1 in r.ext.issued && r.ext.issued[1] == Issued(0, Failed)
  {
    FirstCallIs(path);
    var s1 := Resets(s, 0);
    assert s1.stream == [Reset(0, path, Unread)];
    var s2 := Leaves(s1, path);
    assert s2.stream == [Reset(0, path, Nameless)];
    Then(s2, Poll, []);
    Then(s1, Leave(path), [Poll] + []);
    Then(s, ResetBinding(0), [Leave(path)] + ([Poll] + []));
    run := [ResetBinding(0)] + ([Leave(path)] + ([Poll] + []));
  }

  /**
   A miss is reached: a call waits, its binding resets and leaves the registry before the event is
   read, and no database of it reports the reset.
   */
  lemma MissReached(path: Path) returns (run: seq<Step>, step: Step)
    ensures Legal(START, run) && Attentive(START, run) && Enabled(After(START, run), step)
    ensures Misses(After(START, run), step)
  {
    var s1 := Next(START, Bind(path, 0));
    assert Next(s1, CallSynced(path, 0)) == FirstCall(path);
    FirstCallIs(path);
    var more := ResetUnnamed(FirstCall(path), path);
    Then(s1, CallSynced(path, 0), more);
    Then(START, Bind(path, 0), [CallSynced(path, 0)] + more);
    run, step := [Bind(path, 0)] + ([CallSynced(path, 0)] + more), Deliver({}, {});
    NoDeliverMissesNone(START, run);
    assert Missed(After(START, run), {}, 1);
  }

  /** A run that handles no event misses nothing. */
  lemma {:induction false} NoDeliverMissesNone(s: State, run: seq<Step>)
    requires Legal(s, run) && forall i :: 0 <= i < |run| ==> !run[i].Deliver?
    ensures Attentive(s, run)
    decreases |run|
  {
    if run != [] {
      NoDeliverMissesNone(Next(s, run[0]), run[1..]);
    }
  }
}

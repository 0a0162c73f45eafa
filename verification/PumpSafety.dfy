/** What every step of the pump and of the extension keeps, whatever the order of the steps. */
module PumpSafety {
  import opened Common
  import opened Pump

  // ---------------------------------------------------------------------------------------------
  // The driver's watermark.
  // ---------------------------------------------------------------------------------------------

  /** No ticket that waits is under the watermark, and the watermark is no higher than a resolved ticket. */
  predicate MarkSound(m: Mark) {
    && (forall t :: t in m.pending ==> t > 0 && (m.through.Some? ==> m.through.value < t))
    && m.resolvedMax >= 0 && (m.through.Some? ==> m.through.value <= m.resolvedMax)
  }

  /** Whatever resolves, in any order, the watermark only rises and never reaches a ticket that still waits. */
  lemma WatermarkBelowWaiting(m: Mark, ticket: Ticket)
    requires MarkSound(m) && ticket in m.pending
    ensures var r := ResolveOk(m, ticket);
            && MarkSound(r) && r.through.Some?
            && (m.through.Some? ==> m.through.value <= r.through.value)
            && (r.pending == {} ==> r.through.value >= ticket)
  {
    var r := ResolveOk(m, ticket);
    forall t | t in r.pending ensures t > 0 && r.through.value < t {
      assert t in m.pending;
      assert Least(r.pending) <= t;
    }
  }

  // ---------------------------------------------------------------------------------------------
  // The stream, as one ticket sees it.
  // ---------------------------------------------------------------------------------------------

  /** A pending ticket: its number, the binding it was issued by, the path it waits under. */
  datatype Who = Who(id: Ticket, binding: BindingId, path: Path)

  predicate Covers(e: Event, k: Who) {
    e.Watermark? && !e.seen.Nameless? && e.path == k.path && k.id <= e.through
  }

  /**
   The events that keep a ticket from being taken for resolved later: its own failure, a gap, which
   asks for it again, the reset of its binding, and any reset that names its path.
   */
  predicate Guards(e: Event, k: Who) {
    || e.Gap? || e == SyncFailed(k.id)
    || (e.Reset? && (e.binding == k.binding || (e.path == k.path && e.seen.Named?)))
  }

  /** No watermark reaches the ticket before a guard does. */
  predicate NeverFalse(stream: seq<Event>, k: Who)
    decreases |stream|
  {
    stream == [] || Guards(stream[0], k) || (!Covers(stream[0], k) && NeverFalse(stream[1..], k))
  }

  /** A guard is on its way, and no watermark reaches the ticket before it. */
  predicate Safe(stream: seq<Event>, k: Who)
    decreases |stream|
  {
    stream != [] && (Guards(stream[0], k) || (!Covers(stream[0], k) && Safe(stream[1..], k)))
  }

  /** Both, as a step leaves them: what `a` had of the two, `b` has. */
  predicate NoWorse(a: seq<Event>, b: seq<Event>, k: Who) {
    (NeverFalse(a, k) ==> NeverFalse(b, k)) && (Safe(a, k) ==> Safe(b, k))
  }

  /** An event comes last: a ticket it does not cover, or one already guarded, stands as it did. */
  lemma {:induction false} Appended(stream: seq<Event>, e: Event, k: Who)
    ensures Safe(stream, k) ==> Safe(stream + [e], k)
    ensures NeverFalse(stream, k) && !Covers(e, k) ==> NeverFalse(stream + [e], k)
    ensures NeverFalse(stream, k) && Guards(e, k) ==> Safe(stream + [e], k)
    decreases |stream|
  {
    if stream == [] {
      assert (stream + [e])[1..] == [];
    } else {
      Appended(stream[1..], e, k);
      assert (stream + [e])[1..] == stream[1..] + [e];
    }
  }

  /** Events that guard as much and cover no more. */
  lemma {:induction false} Pointwise(a: seq<Event>, b: seq<Event>, k: Who)
    requires |a| == |b|
    requires forall i :: 0 <= i < |a| ==> (Guards(a[i], k) ==> Guards(b[i], k)) && (Covers(b[i], k) ==> Covers(a[i], k))
    ensures NoWorse(a, b, k)
    decreases |a|
  {
    if a != [] {
      Pointwise(a[1..], b[1..], k);
    }
  }

  lemma HushedNoWorse(stream: seq<Event>, b: BindingId, k: Who)
    ensures NoWorse(stream, HushAll(stream, b), k)
  {
    Pointwise(stream, HushAll(stream, b), k);
  }

  lemma ReadNoWorse(stream: seq<Event>, i: nat, k: Who)
    requires i < |stream|
    ensures NoWorse(stream, stream[i := Read(stream[i])], k)
  {
    Pointwise(stream, stream[i := Read(stream[i])], k);
  }

  lemma {:induction false} CoalescedNoWorse(front: seq<Event>, rest: seq<Event>, b: BindingId, k: Who)
    ensures NoWorse(front + rest, front + Coalesced(rest, b), k)
    decreases |front|, |rest|
  {
    if front != [] {
      CoalescedNoWorse(front[1..], rest, b, k);
      assert (front + rest)[1..] == front[1..] + rest;
      assert (front + Coalesced(rest, b))[1..] == front[1..] + Coalesced(rest, b);
    } else if rest != [] {
      CoalescedNoWorse([], rest[1..], b, k);
      assert [] + rest == rest && [] + rest[1..] == rest[1..];
      var later := Coalesced(rest[1..], b);
      assert [] + later == later && [] + Coalesced(rest, b) == Coalesced(rest, b);
      assert ([rest[0]] + later)[1..] == later;
    }
  }

  /** A gap in place of events guards every ticket. */
  lemma {:induction false} GapNoWorse(stream: seq<Event>, at: nat, rest: seq<Event>, k: Who)
    requires at <= |stream|
    ensures NoWorse(stream, stream[..at] + [Gap] + rest, k)
    decreases |stream|
  {
    var s := stream[..at] + [Gap] + rest;
    if at > 0 {
      GapNoWorse(stream[1..], at - 1, rest, k);
      assert s[1..] == stream[1..][..at - 1] + [Gap] + rest;
    } else {
      assert s[0] == Gap;
    }
  }

  /** A ticket above every watermark on its way is never taken for resolved by them. */
  lemma {:induction false} NewIsNeverFalse(stream: seq<Event>, k: Who)
    requires forall i :: 0 <= i < |stream| && stream[i].Watermark? ==> stream[i].through < k.id
    ensures NeverFalse(stream, k)
    decreases |stream|
  {
    if stream != [] {
      NewIsNeverFalse(stream[1..], k);
    }
  }

  lemma {:induction false} CoalescedIn(stream: seq<Event>, b: BindingId)
    ensures forall e :: e in Coalesced(stream, b) ==> e in stream
    decreases |stream|
  {
    if stream != [] {
      CoalescedIn(stream[1..], b);
    }
  }

  // ---------------------------------------------------------------------------------------------
  // The extension keeps itself in order.
  // ---------------------------------------------------------------------------------------------

  predicate IssuedWell(e: Extension, t: Ticket)
    requires t in e.issued
  {
    && 0 < t < e.next && e.issued[t].binding in e.bindings
    && (e.issued[t].standing.Pending? ==>
          e.bindings[e.issued[t].binding].life.Live? && t in e.bindings[e.issued[t].binding].mark.pending)
  }

  predicate BindingWell(e: Extension, b: BindingId)
    requires b in e.bindings
  {
    var m := e.bindings[b].mark;
    && MarkSound(m)
    && (forall t :: t in m.pending ==> t in e.issued && e.issued[t] == Issued(b, Pending))
    && (m.resolvedMax > 0 ==> m.resolvedMax in e.issued && e.issued[m.resolvedMax] == Issued(b, Synced))
    && (m.through.Some? ==> m.resolvedMax > 0)
    && (!e.bindings[b].life.Live? ==> m.pending == {})
  }

  /** A path has at most one live binding. */
  predicate Alone(e: Extension, b: BindingId, c: BindingId)
    requires b in e.bindings && c in e.bindings
  {
    e.bindings[b].life.Live? && e.bindings[c].life.Live? && e.bindings[b].path == e.bindings[c].path ==> b == c
  }

  predicate PathWell(e: Extension, p: Path)
    requires p in e.registered
  {
    e.registered[p] in e.bindings && e.bindings[e.registered[p]].path == p
  }

  predicate ExtSound(e: Extension) {
    && e.next > 0
    && (forall t {:trigger IssuedWell(e, t)} :: t in e.issued ==> IssuedWell(e, t))
    && (forall b {:trigger BindingWell(e, b)} :: b in e.bindings ==> BindingWell(e, b))
    && (forall b, c {:trigger Alone(e, b, c)} :: b in e.bindings && c in e.bindings ==> Alone(e, b, c))
    && (forall p {:trigger PathWell(e, p)} :: p in e.registered ==> PathWell(e, p))
  }

  lemma IssueSound(e: Extension, path: Path)
    requires ExtSound(e) && CanIssue(e, path)
    ensures ExtSound(Issue(e, path))
  {
    var r := Issue(e, path);
    assert PathWell(e, path);
    assert e.next !in e.issued by {
      assert e.next in e.issued ==> IssuedWell(e, e.next);
    }
    forall t | t in r.issued ensures IssuedWell(r, t) {
      if t != e.next {
        assert IssuedWell(e, t);
      }
    }
    IssueBindings(e, path, r);
    forall p | p in r.registered ensures PathWell(r, p) {
      assert PathWell(e, p);
    }
  }

  lemma IssueBindings(e: Extension, path: Path, r: Extension)
    requires ExtSound(e) && CanIssue(e, path) && r == Issue(e, path) && e.next !in e.issued
    ensures forall b {:trigger BindingWell(r, b)} :: b in r.bindings ==> BindingWell(r, b)
    ensures forall b, c {:trigger Alone(r, b, c)} :: b in r.bindings && c in r.bindings ==> Alone(r, b, c)
  {
    forall b | b in r.bindings ensures BindingWell(r, b) {
      assert BindingWell(e, b);
      var m := e.bindings[b].mark;
      assert m.resolvedMax > 0 ==> IssuedWell(e, m.resolvedMax);
    }
    forall b, c | b in r.bindings && c in r.bindings ensures Alone(r, b, c) {
      assert Alone(e, b, c);
    }
  }

  /** A pending ticket settles, its binding's mark with it. */
  lemma SettledSound(e: Extension, t: Ticket, standing: Standing, mark: Mark)
    requires ExtSound(e) && IsPending(e, t) && !standing.Pending?
    requires var m := e.bindings[e.issued[t].binding].mark;
             && mark.pending == m.pending - {t} && MarkSound(mark)
             && (mark.resolvedMax == m.resolvedMax || (mark.resolvedMax == t && standing.Synced?))
             && (mark.through.Some? ==> mark.resolvedMax > 0)
    ensures ExtSound(Settled(e, t, standing, mark))
  {
    var r := Settled(e, t, standing, mark);
    var b := e.issued[t].binding;
    assert IssuedWell(e, t);
    forall u | u in r.issued ensures IssuedWell(r, u) {
      assert IssuedWell(e, u);
    }
    forall c | c in r.bindings ensures BindingWell(r, c) {
      assert BindingWell(e, c);
    }
    forall c, d | c in r.bindings && d in r.bindings ensures Alone(r, c, d) {
      assert Alone(e, c, d);
    }
    forall p | p in r.registered ensures PathWell(r, p) {
      assert PathWell(e, p);
    }
  }

  lemma KilledSound(e: Extension, b: BindingId)
    requires ExtSound(e) && b in e.bindings
    ensures ExtSound(Killed(e, b))
  {
    var r := Killed(e, b);
    forall u | u in r.issued ensures IssuedWell(r, u) {
      assert IssuedWell(e, u);
    }
    forall c | c in r.bindings ensures BindingWell(r, c) {
      assert BindingWell(e, c);
    }
    forall c, d | c in r.bindings && d in r.bindings ensures Alone(r, c, d) {
      assert Alone(e, c, d);
    }
    forall p | p in r.registered ensures PathWell(r, p) {
      assert PathWell(e, p);
    }
  }

  lemma BindSound(e: Extension, path: Path, b: BindingId)
    requires ExtSound(e) && CanBind(e, path, b)
    ensures ExtSound(Binds(e, path, b))
  {
    var r := Binds(e, path, b);
    forall u | u in r.issued ensures IssuedWell(r, u) {
      assert IssuedWell(e, u);
    }
    forall c | c in r.bindings ensures BindingWell(r, c) {
      if c != b {
        assert BindingWell(e, c);
      }
    }
    forall c, d | c in r.bindings && d in r.bindings ensures Alone(r, c, d) {
      if c != b && d != b {
        assert Alone(e, c, d);
      }
    }
    forall p | p in r.registered ensures PathWell(r, p) {
      if p != path {
        assert PathWell(e, p);
      }
    }
  }

  lemma RetireSound(e: Extension, b: BindingId)
    requires ExtSound(e) && IsLive(e, b) && e.bindings[b].mark.pending == {}
    ensures ExtSound(Retires(e, b))
  {
    var r := Retires(e, b);
    forall u | u in r.issued ensures IssuedWell(r, u) {
      assert IssuedWell(e, u);
    }
    forall c | c in r.bindings ensures BindingWell(r, c) {
      assert BindingWell(e, c);
    }
    forall c, d | c in r.bindings && d in r.bindings ensures Alone(r, c, d) {
      assert Alone(e, c, d);
    }
    forall p | p in r.registered ensures PathWell(r, p) {
      assert PathWell(e, p);
    }
  }

  lemma LeaveSound(e: Extension, path: Path)
    requires ExtSound(e)
    ensures ExtSound(e.(registered := e.registered - {path}))
  {
    var r := e.(registered := e.registered - {path});
    forall u | u in r.issued ensures IssuedWell(r, u) {
      assert IssuedWell(e, u);
    }
    forall c | c in r.bindings ensures BindingWell(r, c) {
      assert BindingWell(e, c);
    }
    forall c, d | c in r.bindings && d in r.bindings ensures Alone(r, c, d) {
      assert Alone(e, c, d);
    }
    forall p | p in r.registered ensures PathWell(r, p) {
      assert PathWell(e, p);
    }
  }

  // ---------------------------------------------------------------------------------------------
  // The invariant.
  // ---------------------------------------------------------------------------------------------

  predicate Unseen(ev: Event) {
    (ev.Watermark? || ev.Reset?) && ev.seen.Unread?
  }

  /** An event that carries its path. */
  predicate Given(ev: Event) {
    (ev.Watermark? || ev.Reset?) && ev.seen.Named?
  }

  /** An event says what is so: its binding's path, a resolved ticket at or above the watermark, a reset. */
  predicate EventWell(e: Extension, ev: Event) {
    && (ev.Watermark? ==>
          && ev.binding in e.bindings && ev.path == e.bindings[ev.binding].path && ev.through <= ev.top
          && ev.top in e.issued && e.issued[ev.top] == Issued(ev.binding, Synced) && ev.top < e.next)
    && (ev.Reset? ==>
          ev.binding in e.bindings && ev.path == e.bindings[ev.binding].path && e.bindings[ev.binding].life.WasReset?)
    && (Unseen(ev) ==> ev.path in e.registered && e.registered[ev.path] == ev.binding)
  }

  predicate NoMark(stream: seq<Event>, b: BindingId) {
    forall e :: e in stream && e.Watermark? ==> e.binding != b
  }

  /** No watermark of a binding follows its reset. */
  predicate Ordered(stream: seq<Event>)
    decreases |stream|
  {
    stream == [] || ((stream[0].Reset? ==> NoMark(stream[1..], stream[0].binding)) && Ordered(stream[1..]))
  }

  predicate StreamSound(e: Extension, stream: seq<Event>, posted: nat) {
    && posted <= |stream|
    && (forall i :: 0 <= i < |stream| ==> EventWell(e, stream[i]))
    && (forall i :: 0 <= i < posted ==> !Unseen(stream[i]))
    && (forall i :: posted <= i < |stream| ==> !Given(stream[i]))
    && Ordered(stream)
  }

  function WhoIs(s: State, id: Ticket): (k: Who)
    requires id in s.tickets && id in s.ext.issued
  {
    Who(id, s.ext.issued[id].binding, s.tickets[id].path)
  }

  /** A ticket that is still pending in the driver is never taken for resolved. */
  predicate TicketWell(s: State, id: Ticket)
    requires id in s.tickets && id in s.ext.issued
  {
    s.ext.issued[id].standing.Pending? ==> NeverFalse(s.stream, WhoIs(s, id))
  }

  /** A ticket is one the extension issued, for the path it waits under. */
  predicate OfItsPath(s: State, id: Ticket)
    requires id in s.tickets
  {
    && id in s.ext.issued && s.ext.issued[id].binding in s.ext.bindings
    && s.ext.bindings[s.ext.issued[id].binding].path == s.tickets[id].path
  }

  /** The call a ticket is for waits under it. */
  predicate HasCall(s: State, id: Ticket)
    requires id in s.tickets
  {
    var t := s.tickets[id];
    && t.promise in s.calls && s.calls[t.promise].state == Waiting(id)
    && s.calls[t.promise].path == t.path && s.calls[t.promise].since <= id
  }

  predicate HasTicket(s: State, p: Promise)
    requires p in s.calls
  {
    s.calls[p].state.Waiting? ==>
      s.calls[p].state.ticket in s.tickets && s.tickets[s.calls[p].state.ticket].promise == p
  }

  /** Tickets and waiting calls are each other's: no call's promise is lost or waits twice. */
  predicate Paired(s: State) {
    && (forall id {:trigger HasCall(s, id)} :: id in s.tickets ==> HasCall(s, id))
    && (forall p {:trigger HasTicket(s, p)} :: p in s.calls ==> HasTicket(s, p))
  }

  /** The extension resolved `t`, a ticket of `path`. */
  predicate SyncedFor(e: Extension, t: Ticket, path: Path) {
    && t in e.issued && e.issued[t].standing.Synced?
    && e.issued[t].binding in e.bindings && e.bindings[e.issued[t].binding].path == path
  }

  /** A resolved call: a ticket of its path at or after it, and at or after its own, was resolved. */
  predicate CallWell(s: State, p: Promise)
    requires p in s.calls
  {
    var c := s.calls[p];
    c.state.Resolved? ==>
      c.since <= c.state.under <= c.state.top && c.state.under in s.ext.issued && SyncedFor(s.ext, c.state.top, c.path)
  }

  /** All of it, but of the tickets in `loose`, which the step at hand is about to settle or ask for again. */
  predicate SoundBut(s: State, loose: set<Ticket>) {
    && ExtSound(s.ext) && StreamSound(s.ext, s.stream, s.posted) && Paired(s)
    && (forall id {:trigger OfItsPath(s, id)} :: id in s.tickets ==> OfItsPath(s, id))
    && (forall id {:trigger TicketWell(s, id)} :: id in s.tickets && id in s.ext.issued && id !in loose ==>
        TicketWell(s, id))
    && (forall p {:trigger CallWell(s, p)} :: p in s.calls ==> CallWell(s, p))
    && s.waiting == |s.tickets| + |s.opens|
    && (s.running || s.tickets == map[])
  }

  predicate Sound(s: State) {
    SoundBut(s, {})
  }

  // ---------------------------------------------------------------------------------------------
  // What stays from step to step.
  // ---------------------------------------------------------------------------------------------

  /** The extension moves on: tickets keep their bindings and bindings their paths, and nothing settled changes. */
  predicate Later(a: Extension, b: Extension) {
    && a.next <= b.next
    && (forall t :: t in a.issued ==> && t in b.issued && b.issued[t].binding == a.issued[t].binding
                                      && (a.issued[t].standing == b.issued[t].standing
                                          || a.issued[t].standing.Pending?))
    && (forall c :: c in a.bindings ==> && c in b.bindings && b.bindings[c].path == a.bindings[c].path
                                        && (a.bindings[c].life.WasReset? ==> b.bindings[c].life.WasReset?))
  }

  predicate KeepsNames(a: Extension, b: Extension) {
    forall p :: p in a.registered ==> p in b.registered && b.registered[p] == a.registered[p]
  }

  lemma EventsStay(a: Extension, b: Extension, stream: seq<Event>)
    requires Later(a, b) && KeepsNames(a, b)
    requires forall i :: 0 <= i < |stream| ==> EventWell(a, stream[i])
    ensures forall i :: 0 <= i < |stream| ==> EventWell(b, stream[i])
  {
    forall i | 0 <= i < |stream| ensures EventWell(b, stream[i]) {
      assert EventWell(a, stream[i]);
    }
  }

  lemma CallsStay(s: State, r: State)
    requires Later(s.ext, r.ext) && r.calls == s.calls
    requires forall p {:trigger CallWell(s, p)} :: p in s.calls ==> CallWell(s, p)
    ensures forall p {:trigger CallWell(r, p)} :: p in r.calls ==> CallWell(r, p)
  {
    forall p | p in r.calls ensures CallWell(r, p) {
      assert CallWell(s, p);
    }
  }

  /** The same tickets and calls are paired as they were, of their paths still. */
  lemma PairsStay(s: State, r: State)
    requires Later(s.ext, r.ext) && r.calls == s.calls && r.tickets == s.tickets && Paired(s)
    requires forall id {:trigger OfItsPath(s, id)} :: id in s.tickets ==> OfItsPath(s, id)
    ensures Paired(r) && forall id {:trigger OfItsPath(r, id)} :: id in r.tickets ==> OfItsPath(r, id)
  {
    forall id | id in r.tickets ensures HasCall(r, id) && OfItsPath(r, id) {
      assert HasCall(s, id) && OfItsPath(s, id);
    }
    forall p | p in r.calls ensures HasTicket(r, p) {
      assert HasTicket(s, p);
    }
  }

  /** A ticket pending before and after a step is no more taken for resolved than it was. */
  predicate Unmisled(s: State, r: State, id: Ticket)
    requires id in s.tickets && id in s.ext.issued
  {
    IsPending(s.ext, id) && IsPending(r.ext, id) && NeverFalse(s.stream, WhoIs(s, id)) ==>
      NeverFalse(r.stream, WhoIs(s, id))
  }

  /** A step of the extension, the tickets and calls as they were: what is left to show is the stream. */
  lemma ExtensionStep(s: State, r: State)
    requires Sound(s) && ExtSound(r.ext) && Later(s.ext, r.ext) && StreamSound(r.ext, r.stream, r.posted)
    requires r.tickets == s.tickets && r.calls == s.calls && r.opens == s.opens && r.waiting == s.waiting
    requires r.running == s.running
    requires forall id {:trigger Unmisled(s, r, id)} :: id in s.tickets && id in s.ext.issued ==> Unmisled(s, r, id)
    ensures Sound(r)
  {
    CallsStay(s, r);
    PairsStay(s, r);
    forall id | id in r.tickets && id in r.ext.issued ensures TicketWell(r, id) {
      assert OfItsPath(s, id) && OfItsPath(r, id);
      assert TicketWell(s, id) && Unmisled(s, r, id);
    }
  }

  // ---------------------------------------------------------------------------------------------
  // The order of the stream.
  // ---------------------------------------------------------------------------------------------

  lemma {:induction false} OrderedAppended(stream: seq<Event>, e: Event)
    requires Ordered(stream)
    requires e.Watermark? ==> forall x :: x in stream && x.Reset? ==> x.binding != e.binding
    ensures Ordered(stream + [e])
    decreases |stream|
  {
    if stream == [] {
      assert (stream + [e])[1..] == [];
    } else {
      OrderedAppended(stream[1..], e);
      assert (stream + [e])[1..] == stream[1..] + [e];
    }
  }

  predicate SameKind(a: Event, b: Event) {
    (b.Watermark? <==> a.Watermark?) && (b.Reset? <==> a.Reset?)
      && ((a.Watermark? || a.Reset?) ==> b.binding == a.binding)
  }

  lemma {:induction false} OrderedPointwise(a: seq<Event>, b: seq<Event>)
    requires Ordered(a) && |a| == |b| && forall i :: 0 <= i < |a| ==> SameKind(a[i], b[i])
    ensures Ordered(b)
    decreases |a|
  {
    if a != [] {
      forall i | 0 <= i < |a[1..]| ensures SameKind(a[1..][i], b[1..][i]) {
        assert SameKind(a[i + 1], b[i + 1]);
      }
      OrderedPointwise(a[1..], b[1..]);
      assert SameKind(a[0], b[0]);
      if b[0].Reset? {
        forall e | e in b[1..] && e.Watermark? ensures e.binding != b[0].binding {
          var i :| 0 <= i < |b[1..]| && b[1..][i] == e;
          assert SameKind(a[i + 1], b[i + 1]);
          assert a[1..][i] in a[1..];
        }
      }
    }
  }

  lemma {:induction false} CoalescedOrdered(rest: seq<Event>, b: BindingId)
    requires Ordered(rest)
    ensures Ordered(Coalesced(rest, b))
    decreases |rest|
  {
    if rest != [] {
      CoalescedOrdered(rest[1..], b);
      CoalescedIn(rest[1..], b);
      var later := Coalesced(rest[1..], b);
      assert ([rest[0]] + later)[1..] == later;
    }
  }

  lemma {:induction false} OrderedCoalesced(front: seq<Event>, rest: seq<Event>, b: BindingId)
    requires Ordered(front + rest)
    ensures Ordered(front + Coalesced(rest, b))
    decreases |front|
  {
    var all := front + Coalesced(rest, b);
    if front == [] {
      assert front + rest == rest && all == Coalesced(rest, b);
      CoalescedOrdered(rest, b);
    } else {
      assert (front + rest)[1..] == front[1..] + rest;
      OrderedCoalesced(front[1..], rest, b);
      assert all[1..] == front[1..] + Coalesced(rest, b);
      CoalescedIn(rest, b);
      forall e | e in all[1..] ensures e in (front + rest)[1..] {
        assert e in front[1..] || e in Coalesced(rest, b);
      }
    }
  }

  lemma {:induction false} OrderedGap(stream: seq<Event>, at: nat, past: nat)
    requires Ordered(stream) && at <= past <= |stream|
    ensures Ordered(stream[..at] + [Gap] + stream[past..])
    decreases |stream|
  {
    var s := stream[..at] + [Gap] + stream[past..];
    if at > 0 {
      OrderedGap(stream[1..], at - 1, past - 1);
      assert s[1..] == stream[1..][..at - 1] + [Gap] + stream[1..][past - 1..];
    } else {
      OrderedFrom(stream, past);
      assert s[1..] == stream[past..];
    }
  }

  lemma {:induction false} OrderedFrom(stream: seq<Event>, k: nat)
    requires Ordered(stream) && k <= |stream|
    ensures Ordered(stream[k..])
    decreases k
  {
    if k > 0 {
      OrderedFrom(stream[1..], k - 1);
      assert stream[1..][k - 1..] == stream[k..];
    } else {
      assert stream[0..] == stream;
    }
  }

  lemma {:induction false} OrderedUpTo(stream: seq<Event>, k: nat)
    requires Ordered(stream) && k <= |stream|
    ensures Ordered(stream[..k])
    decreases |stream|
  {
    if k > 0 {
      OrderedUpTo(stream[1..], k - 1);
      assert stream[..k][1..] == stream[1..][..k - 1];
    }
  }

  // ---------------------------------------------------------------------------------------------
  // The extension's steps.
  // ---------------------------------------------------------------------------------------------

  /** Events that come last and cover no pending ticket. */
  lemma AppendKeeps(s: State, r: State, e: Event)
    requires Sound(s) && ExtSound(r.ext) && Later(s.ext, r.ext) && KeepsNames(s.ext, r.ext)
    requires r == s.(ext := r.ext, stream := s.stream + [e]) && EventWell(r.ext, e) && !Given(e)
    requires e.Watermark? ==> forall x :: x in s.stream && x.Reset? ==> x.binding != e.binding
    requires forall id :: id in s.tickets && IsPending(r.ext, id) ==>
                            id in s.ext.issued && !Covers(e, WhoIs(s, id))
    ensures Sound(r)
  {
    EventsStay(s.ext, r.ext, s.stream);
    OrderedAppended(s.stream, e);
    forall id | id in s.tickets && id in s.ext.issued ensures Unmisled(s, r, id) {
      Appended(s.stream, e, WhoIs(s, id));
    }
    ExtensionStep(s, r);
  }

  /** The stream as it was. */
  lemma QuietKeeps(s: State, r: State)
    requires Sound(s) && ExtSound(r.ext) && Later(s.ext, r.ext) && KeepsNames(s.ext, r.ext) && r == s.(ext := r.ext)
    ensures Sound(r)
  {
    EventsStay(s.ext, r.ext, s.stream);
    forall id | id in s.tickets && id in s.ext.issued ensures Unmisled(s, r, id) {
    }
    ExtensionStep(s, r);
  }

  lemma IssueLater(e: Extension, path: Path)
    requires ExtSound(e) && CanIssue(e, path)
    ensures Later(e, Issue(e, path)) && KeepsNames(e, Issue(e, path)) && e.next !in e.issued
  {
    assert e.next in e.issued ==> IssuedWell(e, e.next);
  }

  lemma IssueElsewhereKeeps(s: State, path: Path)
    requires Sound(s) && CanIssue(s.ext, path)
    ensures Sound(IssuesElsewhere(s, path))
  {
    IssueSound(s.ext, path);
    IssueLater(s.ext, path);
    var r := s.(ext := Issue(s.ext, path), stream := s.stream + IssueEvents(s.ext, path));
    forall id | id in s.tickets ensures id in s.ext.issued {
      assert OfItsPath(s, id);
    }
    if IssueEvents(s.ext, path) == [] {
      assert s.stream + [] == s.stream;
      QuietKeeps(s, r);
    } else {
      AppendKeeps(s, r, SyncFailed(s.ext.next));
    }
  }

  lemma BindKeeps(s: State, path: Path, b: BindingId)
    requires Sound(s) && CanBind(s.ext, path, b)
    ensures Sound(s.(ext := Binds(s.ext, path, b)))
  {
    BindSound(s.ext, path, b);
    QuietKeeps(s, s.(ext := Binds(s.ext, path, b)));
  }

  lemma RetireKeeps(s: State, b: BindingId)
    requires Sound(s) && IsLive(s.ext, b) && s.ext.bindings[b].mark.pending == {}
    ensures Sound(s.(ext := Retires(s.ext, b)))
  {
    RetireSound(s.ext, b);
    QuietKeeps(s, s.(ext := Retires(s.ext, b)));
  }

  lemma AnnounceKeeps(s: State, event: Event)
    requires Sound(s) && (event.Opened? || event.Other?)
    ensures Sound(s.(stream := s.stream + [event]))
  {
    forall id | id in s.tickets ensures id in s.ext.issued {
      assert OfItsPath(s, id);
    }
    AppendKeeps(s, s.(stream := s.stream + [event]), event);
  }

  lemma FailTicketKeeps(s: State, t: Ticket)
    requires Sound(s) && IsPending(s.ext, t)
    ensures Sound(TicketFails(s, t))
  {
    var b := s.ext.issued[t].binding;
    assert BindingWell(s.ext, b) && IssuedWell(s.ext, t);
    SettledSound(s.ext, t, Failed, ResolveErr(s.ext.bindings[b].mark, t));
    forall id | id in s.tickets ensures id in s.ext.issued {
      assert OfItsPath(s, id);
    }
    AppendKeeps(s, TicketFails(s, t), SyncFailed(t));
  }

  lemma ResetBindingKeeps(s: State, b: BindingId)
    requires Sound(s) && b in s.ext.bindings
    ensures Sound(Resets(s, b))
  {
    KilledSound(s.ext, b);
    var path := s.ext.bindings[b].path;
    forall id | id in s.tickets ensures id in s.ext.issued {
      assert OfItsPath(s, id);
    }
    AppendKeeps(s, Resets(s, b), Reset(b, path, SeenNow(s.ext, b, path)));
  }

  lemma HushedWell(s: State, path: Path)
    requires Sound(s) && path in s.ext.registered
    ensures var r := Leaves(s, path); StreamSound(r.ext, r.stream, r.posted)
  {
    var r := Leaves(s, path);
    var b := s.ext.registered[path];
    forall i | 0 <= i < |r.stream| ensures EventWell(r.ext, r.stream[i]) && SameKind(s.stream[i], r.stream[i]) {
      assert EventWell(s.ext, s.stream[i]);
      assert r.stream[i] == Hushed(s.stream[i], b);
      assert PathWell(s.ext, path);
    }
    OrderedPointwise(s.stream, r.stream);
  }

  lemma LeaveKeeps(s: State, path: Path)
    requires Sound(s) && path in s.ext.registered
    ensures Sound(Leaves(s, path))
  {
    var r := Leaves(s, path);
    LeaveSound(s.ext, path);
    HushedWell(s, path);
    forall id | id in s.tickets && id in s.ext.issued ensures Unmisled(s, r, id) {
      HushedNoWorse(s.stream, s.ext.registered[path], WhoIs(s, id));
    }
    ExtensionStep(s, r);
  }

  lemma PollKeeps(s: State)
    requires Sound(s) && s.posted < |s.stream|
    ensures Sound(Polled(s))
  {
    var r := Polled(s);
    forall i | 0 <= i < |r.stream| ensures EventWell(r.ext, r.stream[i]) && SameKind(s.stream[i], r.stream[i]) {
      assert EventWell(s.ext, s.stream[i]);
    }
    OrderedPointwise(s.stream, r.stream);
    forall id | id in s.tickets && id in s.ext.issued ensures Unmisled(s, r, id) {
      ReadNoWorse(s.stream, s.posted, WhoIs(s, id));
    }
    ExtensionStep(s, r);
  }

  lemma EvictStream(e: Extension, stream: seq<Event>, posted: nat, past: nat, r: seq<Event>)
    requires StreamSound(e, stream, posted) && posted <= past <= |stream|
    requires r == stream[..posted] + [Gap] + stream[past..]
    ensures StreamSound(e, r, posted)
  {
    OrderedGap(stream, posted, past);
    forall i | 0 <= i < |r| ensures EventWell(e, r[i]) {
      if i < posted {
        assert r[i] == stream[i];
      } else if i > posted {
        assert r[i] == stream[i - 1 - posted + past];
      }
    }
    forall i | 0 <= i < posted ensures !Unseen(r[i]) {
      assert r[i] == stream[i];
    }
  }

  lemma EvictKeeps(s: State, count: nat)
    requires Sound(s) && s.posted + count <= |s.stream|
    ensures Sound(Evicts(s, count))
  {
    var r := Evicts(s, count);
    EvictStream(s.ext, s.stream, s.posted, s.posted + count, r.stream);
    forall id | id in s.tickets && id in s.ext.issued ensures Unmisled(s, r, id) {
      GapNoWorse(s.stream, s.posted, s.stream[s.posted + count..], WhoIs(s, id));
    }
    ExtensionStep(s, r);
  }

  // ---------------------------------------------------------------------------------------------
  // A ticket resolves.
  // ---------------------------------------------------------------------------------------------

  /** The mark once `t` resolved. */
  function MarkAfter(e: Extension, t: Ticket): (r: Mark)
    requires IsPending(e, t)
  {
    ResolveOk(e.bindings[e.issued[t].binding].mark, t)
  }

  lemma ResolvedExt(e: Extension, t: Ticket)
    requires ExtSound(e) && IsPending(e, t)
    ensures var r := Settled(e, t, Synced, MarkAfter(e, t));
            && ExtSound(r) && Later(e, r) && KeepsNames(e, r)
            && IsLive(e, e.issued[t].binding) && t in e.bindings[e.issued[t].binding].mark.pending
            && MarkSound(MarkAfter(e, t)) && MarkAfter(e, t).through.Some?
            && MarkAfter(e, t).resolvedMax in r.issued
            && r.issued[MarkAfter(e, t).resolvedMax] == Issued(e.issued[t].binding, Synced)
  {
    var b := e.issued[t].binding;
    var m := e.bindings[b].mark;
    assert IssuedWell(e, t) && BindingWell(e, b);
    WatermarkBelowWaiting(m, t);
    SettledSound(e, t, Synced, MarkAfter(e, t));
    var r := Settled(e, t, Synced, MarkAfter(e, t));
    assert BindingWell(r, b);
  }

  /** The stream with the queued watermark of the binding taken out, before the new one comes. */
  function WithoutMark(s: State, b: BindingId): (r: State)
    requires s.posted <= |s.stream|
  {
    s.(stream := s.stream[..s.posted] + Coalesced(s.stream[s.posted..], b))
  }

  lemma WithoutMarkKeeps(s: State, b: BindingId)
    requires Sound(s)
    ensures Sound(WithoutMark(s, b)) && forall e :: e in WithoutMark(s, b).stream ==> e in s.stream
  {
    var r := WithoutMark(s, b);
    var front, rest := s.stream[..s.posted], s.stream[s.posted..];
    assert front + rest == s.stream;
    CoalescedIn(rest, b);
    OrderedCoalesced(front, rest, b);
    forall e | e in r.stream ensures e in s.stream {
      assert e in front || e in Coalesced(rest, b);
    }
    forall i | 0 <= i < |r.stream| ensures EventWell(r.ext, r.stream[i]) {
      assert r.stream[i] in s.stream;
    }
    forall i | 0 <= i < r.posted ensures !Unseen(r.stream[i]) {
      assert r.stream[i] == s.stream[i];
    }
    forall i | r.posted <= i < |r.stream| ensures !Given(r.stream[i]) {
      assert r.stream[i] in rest;
      var j :| 0 <= j < |rest| && rest[j] == r.stream[i];
      assert s.stream[s.posted + j] == r.stream[i];
    }
    forall id | id in s.tickets && id in s.ext.issued ensures Unmisled(s, r, id) {
      CoalescedNoWorse(front, rest, b, WhoIs(s, id));
    }
    ExtensionStep(s, r);
  }

  /** No reset of a live binding is on its way. */
  lemma LiveHasNoReset(s: State, b: BindingId)
    requires Sound(s) && IsLive(s.ext, b)
    ensures forall x :: x in s.stream && x.Reset? ==> x.binding != b
  {
    forall x | x in s.stream && x.Reset? ensures x.binding != b {
      var i :| 0 <= i < |s.stream| && s.stream[i] == x;
      assert EventWell(s.ext, s.stream[i]);
    }
  }

  /**
   The new watermark covers no ticket still pending: of its binding they are above it, and no other
   binding of the path is live.
   */
  lemma NewMarkCoversNone(s: State, t: Ticket, e: Event)
    requires Sound(s) && IsPending(s.ext, t)
    requires e.Watermark? && e.binding == s.ext.issued[t].binding && e.path == s.ext.bindings[e.binding].path
    requires Some(e.through) == MarkAfter(s.ext, t).through
    ensures forall id :: id in s.tickets && IsPending(Settled(s.ext, t, Synced, MarkAfter(s.ext, t)), id) ==>
                           id in s.ext.issued && !Covers(e, WhoIs(s, id))
  {
    ResolvedExt(s.ext, t);
    var r := Settled(s.ext, t, Synced, MarkAfter(s.ext, t));
    forall id | id in s.tickets && IsPending(r, id) ensures id in s.ext.issued && !Covers(e, WhoIs(s, id)) {
      assert OfItsPath(s, id);
      assert IssuedWell(r, id);
      assert Alone(s.ext, s.ext.issued[id].binding, e.binding);
    }
  }

  lemma ResolveKeeps(s: State, t: Ticket)
    requires Sound(s) && IsPending(s.ext, t)
    ensures Sound(TicketResolves(s, t))
  {
    var b := s.ext.issued[t].binding;
    var bound := s.ext.bindings[b];
    var mark := MarkAfter(s.ext, t);
    var ext := Settled(s.ext, t, Synced, mark);
    ResolvedExt(s.ext, t);
    if mark.through == bound.mark.through {
      QuietKeeps(s, s.(ext := ext));
    } else {
      var s1 := WithoutMark(s, b);
      WithoutMarkKeeps(s, b);
      var event := Watermark(b, bound.path, SeenNow(s.ext, b, bound.path), mark.through.value, mark.resolvedMax);
      NewMarkCoversNone(s1, t, event);
      LiveHasNoReset(s1, b);
      assert IssuedWell(ext, mark.resolvedMax);
      AppendKeeps(s1, s1.(ext := ext, stream := s1.stream + [event]), event);
    }
  }

  // ---------------------------------------------------------------------------------------------
  // Tickets settle.
  // ---------------------------------------------------------------------------------------------

  lemma SettlePaired(s: State, id: Ticket, r: State)
    requires Paired(s) && id in s.tickets && r.tickets == s.tickets - {id} && HasCall(s, id)
    requires var p := s.tickets[id].promise;
             r.calls.Keys == s.calls.Keys && !r.calls[p].state.Waiting? && r.calls == s.calls[p := r.calls[p]]
    ensures Paired(r) && |r.tickets| == |s.tickets| - 1
  {
    assert r.tickets.Keys == s.tickets.Keys - {id};
    assert |r.tickets.Keys| == |s.tickets.Keys| - 1;
    forall t | t in r.tickets ensures HasCall(r, t) {
      assert HasCall(s, t);
    }
    forall p | p in r.calls ensures HasTicket(r, p) {
      assert HasTicket(s, p);
    }
  }

  /** Whether a ticket may resolve as the watermark of `top` reports. */
  predicate MayResolve(s: State, id: Ticket, top: Option<Ticket>)
    requires id in s.tickets
  {
    top.Some? ==> id <= top.value && SyncedFor(s.ext, top.value, s.tickets[id].path)
  }

  /** A ticket settles: rejected at any time, resolved only once a ticket of its path at or above it was. */
  lemma SettleKeeps(s: State, id: Ticket, top: Option<Ticket>, loose: set<Ticket>)
    requires SoundBut(s, loose) && id in s.tickets && MayResolve(s, id, top)
    ensures HasCall(s, id) && SoundBut(Settle(s, id, Outcome(id, top)), loose - {id})
  {
    assert HasCall(s, id) && OfItsPath(s, id);
    var r := Settle(s, id, Outcome(id, top));
    SettlePaired(s, id, r);
    forall t | t in r.tickets ensures OfItsPath(r, t) {
      assert OfItsPath(s, t);
    }
    forall t | t in r.tickets && t in r.ext.issued && t !in loose - {id} ensures TicketWell(r, t) {
      assert TicketWell(s, t);
    }
    forall p | p in r.calls ensures CallWell(r, p) {
      assert CallWell(s, p);
    }
  }

  function Without(loose: set<Ticket>, ids: seq<Ticket>): (r: set<Ticket>)
    ensures forall x :: x in r ==> x in loose && x !in ids
    decreases |ids|
  {
    if ids == [] then loose else Without(loose - {ids[0]}, ids[1..])
  }

  lemma LooseLess(s: State, id: Ticket, loose: set<Ticket>)
    requires SoundBut(s, loose) && id !in s.tickets
    ensures SoundBut(s, loose - {id})
  {
    forall t | t in s.tickets && t in s.ext.issued && t !in loose - {id} ensures TicketWell(s, t) {
      assert t !in loose;
    }
  }

  lemma {:induction false} SettleEachKeeps(s: State, ids: seq<Ticket>, top: Option<Ticket>, loose: set<Ticket>)
    requires SoundBut(s, loose)
    requires forall k :: 0 <= k < |ids| && ids[k] in s.tickets ==> MayResolve(s, ids[k], top)
    ensures SoundBut(SettleEach(s, ids, top), Without(loose, ids))
    decreases |ids|
  {
    if ids != [] {
      var id := ids[0];
      assert id in s.tickets ==> HasCall(s, id);
      var s1 := if id in s.tickets then Settle(s, id, Outcome(id, top)) else s;
      if id in s.tickets {
        SettleKeeps(s, id, top, loose);
      } else {
        LooseLess(s, id, loose);
      }
      forall k | 0 <= k < |ids[1..]| && ids[1..][k] in s1.tickets ensures MayResolve(s1, ids[1..][k], top) {
        assert ids[1..][k] == ids[k + 1];
        assert MayResolve(s, ids[k + 1], top);
      }
      SettleEachKeeps(s1, ids[1..], top, loose - {id});
    }
  }

  lemma RejectedKeeps(s: State, ids: seq<Ticket>, loose: set<Ticket>)
    requires SoundBut(s, loose) && forall x :: x in loose ==> x in ids
    ensures Sound(SettleEach(s, ids, None))
  {
    SettleEachKeeps(s, ids, None, loose);
    NoInts(Without(loose, ids));
  }

  // ---------------------------------------------------------------------------------------------
  // Tickets asked for again.
  // ---------------------------------------------------------------------------------------------

  /** A new ticket: nothing on its way covers it, and one of a retired binding is failed by its own event. */
  lemma NewTicketStream(s: State, path: Path)
    requires ExtSound(s.ext) && StreamSound(s.ext, s.stream, s.posted) && CanIssue(s.ext, path)
    ensures var ext := Issue(s.ext, path);
            && ExtSound(ext) && Later(s.ext, ext)
            && StreamSound(ext, s.stream + IssueEvents(s.ext, path), s.posted)
            && s.ext.next in ext.issued && ext.issued[s.ext.next].binding == s.ext.registered[path]
            && ext.bindings[s.ext.registered[path]].path == path
            && s.ext.next !in s.ext.issued
            && NeverFalse(s.stream + IssueEvents(s.ext, path), Who(s.ext.next, s.ext.registered[path], path))
  {
    var ext, stream := Issue(s.ext, path), s.stream + IssueEvents(s.ext, path);
    IssueSound(s.ext, path);
    IssueLater(s.ext, path);
    assert PathWell(s.ext, path);
    EventsStay(s.ext, ext, s.stream);
    if IssueEvents(s.ext, path) == [] {
      assert stream == s.stream;
    } else {
      OrderedAppended(s.stream, SyncFailed(s.ext.next));
    }
    forall i | 0 <= i < |stream| && stream[i].Watermark? ensures stream[i].through < s.ext.next {
      assert i < |s.stream| && stream[i] == s.stream[i];
      assert EventWell(s.ext, s.stream[i]);
    }
    NewIsNeverFalse(stream, Who(s.ext.next, s.ext.registered[path], path));
  }

  lemma ReissuePaired(s: State, id: Ticket, r: State, again: Ticket)
    requires Paired(s) && id in s.tickets && HasCall(s, id) && again !in s.tickets && id <= again
    requires var t := s.tickets[id];
             && r.tickets == (s.tickets - {id})[again := t]
             && r.calls == s.calls[t.promise := s.calls[t.promise].(state := Waiting(again))]
    ensures Paired(r) && |r.tickets| == |s.tickets|
  {
    assert r.tickets.Keys == s.tickets.Keys - {id} + {again};
    assert HasCall(s, id);
    forall t | t in r.tickets ensures HasCall(r, t) {
      if t != again {
        assert HasCall(s, t);
      }
    }
    forall p | p in r.calls ensures HasTicket(r, p) {
      assert HasTicket(s, p);
    }
  }

  /** The other tickets, once one was issued. */
  lemma OthersAfterIssue(s: State, r: State, path: Path, loose: set<Ticket>, id: Ticket)
    requires SoundBut(s, loose) && CanIssue(s.ext, path) && r.ext == Issue(s.ext, path)
    requires r.stream == s.stream + IssueEvents(s.ext, path)
    requires id in s.tickets && id in r.tickets && r.tickets[id] == s.tickets[id]
    ensures OfItsPath(s, id) && OfItsPath(r, id) && id != s.ext.next && (id !in loose ==> TicketWell(r, id))
  {
    assert OfItsPath(s, id);
    IssueLater(s.ext, path);
    if id !in loose {
      assert TicketWell(s, id);
      var k := WhoIs(s, id);
      if IssueEvents(s.ext, path) == [] {
        assert r.stream == s.stream;
      } else {
        Appended(s.stream, SyncFailed(s.ext.next), k);
      }
    }
  }

  lemma ReissueTickets(s: State, id: Ticket, r: State, loose: set<Ticket>)
    requires SoundBut(s, loose) && id in s.tickets && CanIssue(s.ext, s.tickets[id].path)
    requires r.ext == Issue(s.ext, s.tickets[id].path) && r.stream == s.stream + IssueEvents(s.ext, s.tickets[id].path)
    requires r.tickets == (s.tickets - {id})[s.ext.next := s.tickets[id]]
    ensures forall t {:trigger OfItsPath(r, t)} :: t in r.tickets ==> OfItsPath(r, t)
    ensures forall t {:trigger TicketWell(r, t)} :: t in r.tickets && t in r.ext.issued && t !in loose - {id} ==>
                                                      TicketWell(r, t)
  {
    var path := s.tickets[id].path;
    NewTicketStream(s, path);
    forall t | t in r.tickets ensures OfItsPath(r, t) && (t !in loose - {id} ==> TicketWell(r, t)) {
      if t != s.ext.next {
        OthersAfterIssue(s, r, path, loose, t);
      }
    }
  }

  /** A ticket asked for again is above every watermark on its way, so nothing dropped can pass for its success. */
  lemma ReissueOneKeeps(s: State, id: Ticket, refused: set<Path>, loose: set<Ticket>)
    requires SoundBut(s, loose) && id in s.tickets
    ensures SoundBut(ReissueOne(s, id, refused), loose - {id})
    ensures forall t :: t in s.tickets && t != id ==> t in ReissueOne(s, id, refused).tickets
  {
    assert HasCall(s, id) && OfItsPath(s, id);
    assert IssuedWell(s.ext, id);
    var path := s.tickets[id].path;
    if path in refused || !CanIssue(s.ext, path) {
      SettleKeeps(s, id, None, loose);
    } else {
      var r := ReissueOne(s, id, refused);
      NewTicketStream(s, path);
      assert s.ext.next !in s.tickets by {
        assert s.ext.next in s.tickets ==> OfItsPath(s, s.ext.next);
      }
      ReissuePaired(s, id, r, s.ext.next);
      ReissueTickets(s, id, r, loose);
      forall p | p in r.calls ensures CallWell(r, p) {
        assert CallWell(s, p);
      }
    }
  }

  lemma {:induction false} ReissueKeeps(s: State, ids: seq<Ticket>, refused: set<Path>, loose: set<Ticket>)
    requires SoundBut(s, loose)
    requires forall k :: 0 <= k < |ids| ==> ids[k] in s.tickets
    requires forall j, k :: 0 <= j < k < |ids| ==> ids[j] != ids[k]
    ensures SoundBut(Reissue(s, ids, refused), Without(loose, ids))
    decreases |ids|
  {
    if ids != [] {
      var id := ids[0];
      ReissueOneKeeps(s, id, refused, loose);
      var s1 := ReissueOne(s, id, refused);
      forall k | 0 <= k < |ids[1..]| ensures ids[1..][k] in s1.tickets {
        assert ids[1..][k] == ids[k + 1];
      }
      ReissueKeeps(s1, ids[1..], refused, loose - {id});
    }
  }

  /** After a gap, or under a new worker, every ticket is asked for again, whatever was lost. */
  lemma AllReissued(s: State, refused: set<Path>)
    requires SoundBut(s, s.tickets.Keys)
    ensures Sound(Reissue(s, Ascending(s.tickets.Keys), refused))
  {
    var ids := Ascending(s.tickets.Keys);
    ReissueKeeps(s, ids, refused, s.tickets.Keys);
    NoInts(Without(s.tickets.Keys, ids));
  }

  // ---------------------------------------------------------------------------------------------
  // Events are handled.
  // ---------------------------------------------------------------------------------------------

  lemma PoppedStream(e: Extension, stream: seq<Event>, posted: nat)
    requires StreamSound(e, stream, posted) && 0 < posted
    ensures StreamSound(e, stream[1..], posted - 1)
  {
    forall i | 0 <= i < |stream[1..]| ensures EventWell(e, stream[1..][i]) {
      assert stream[1..][i] == stream[i + 1];
    }
    forall i | 0 <= i < posted - 1 ensures !Unseen(stream[1..][i]) {
      assert stream[1..][i] == stream[i + 1];
    }
  }

  /** The next event leaves the stream: a pending ticket it neither covers nor guards stands as it did. */
  lemma PoppedKeeps(s: State, loose: set<Ticket>)
    requires Sound(s) && 0 < s.posted <= |s.stream|
    requires forall id :: id in s.tickets && id !in loose && IsPending(s.ext, id) ==>
                            !Guards(s.stream[0], WhoIs(s, id)) && !Covers(s.stream[0], WhoIs(s, id))
    ensures SoundBut(Popped(s), loose)
  {
    var r := Popped(s);
    PoppedStream(s.ext, s.stream, s.posted);
    CallsStay(s, r);
    PairsStay(s, r);
    forall id | id in r.tickets && id in r.ext.issued && id !in loose ensures TicketWell(r, id) {
      assert OfItsPath(s, id) && TicketWell(s, id);
    }
  }

  /** What a watermark resolves, a ticket of the path at or above it resolved in the driver. */
  lemma WatermarkKeeps(s: State)
    requires Sound(s) && 0 < s.posted <= |s.stream| && s.stream[0].Watermark?
    ensures Sound(Handle(Popped(s), s.stream[0], {}, {}))
  {
    var e := s.stream[0];
    var s1 := Popped(s);
    assert EventWell(s.ext, s.stream[0]);
    if e.seen.Nameless? {
      PoppedKeeps(s, {});
    } else {
      var loose := CoveredBy(s1.tickets, e.path, e.through);
      PoppedKeeps(s, loose);
      var ids := Ascending(loose);
      forall k | 0 <= k < |ids| && ids[k] in s1.tickets ensures MayResolve(s1, ids[k], Some(e.top)) {
        assert ids[k] in loose;
      }
      SettleEachKeeps(s1, ids, Some(e.top), loose);
      NoInts(Without(loose, ids));
    }
  }

  lemma SyncFailedKeeps(s: State)
    requires Sound(s) && 0 < s.posted <= |s.stream| && s.stream[0].SyncFailed?
    ensures Sound(SettleEach(Popped(s), [s.stream[0].ticket], None))
  {
    var ticket := s.stream[0].ticket;
    PoppedKeeps(s, {ticket});
    RejectedKeeps(Popped(s), [ticket], {ticket});
  }

  /** A reset rejects the tickets of its path when it names it, and of the paths hit when it does not. */
  lemma ResetKeeps(s: State, hit: set<Path>)
    requires Sound(s) && 0 < s.posted <= |s.stream| && s.stream[0].Reset?
    ensures Sound(SettleEach(Popped(s), Ascending(TicketsOf(Popped(s).tickets, ResetPaths(s.stream[0], hit))), None))
  {
    var e := s.stream[0];
    var all := TicketsOf(s.tickets, ResetPaths(e, hit));
    var loose := if e.seen.Nameless? then {} else all;
    assert EventWell(s.ext, s.stream[0]);
    forall id | id in s.tickets && id !in loose && IsPending(s.ext, id)
      ensures !Guards(e, WhoIs(s, id)) && !Covers(e, WhoIs(s, id))
    {
      assert OfItsPath(s, id) && IssuedWell(s.ext, id);
    }
    PoppedKeeps(s, loose);
    RejectedKeeps(Popped(s), Ascending(all), loose);
  }

  lemma OpensKeep(s: State, r: State, loose: set<Ticket>)
    requires SoundBut(s, loose) && r == s.(opens := r.opens, waiting := r.waiting)
    requires r.waiting == |s.tickets| + |r.opens|
    ensures SoundBut(r, loose)
  {
    CallsStay(s, r);
    PairsStay(s, r);
    forall id | id in r.tickets && id in r.ext.issued && id !in loose ensures TicketWell(r, id) {
      assert TicketWell(s, id);
    }
  }

  lemma GapKeeps(s: State, refused: set<Path>)
    requires Sound(s) && 0 < s.posted <= |s.stream|
    ensures var s1 := WakeAllOpens(Popped(s)); Sound(Reissue(s1, Ascending(s1.tickets.Keys), refused))
  {
    PoppedKeeps(s, s.tickets.Keys);
    OpensKeep(Popped(s), WakeAllOpens(Popped(s)), s.tickets.Keys);
    AllReissued(WakeAllOpens(Popped(s)), refused);
  }

  lemma FewerOpens(opens: set<OpenWait>, request: int)
    ensures |opens - Woken(opens, request)| == |opens| - |Woken(opens, request)|
  {
    assert Woken(opens, request) <= opens;
  }

  lemma OpenedKeeps(s: State, request: int)
    requires Sound(s) && 0 < s.posted <= |s.stream| && s.stream[0].Opened?
    ensures Sound(WakeOpen(Popped(s), request))
  {
    var s1 := Popped(s);
    FewerOpens(s1.opens, request);
    PoppedKeeps(s, {});
    OpensKeep(s1, WakeOpen(s1, request), {});
  }

  lemma DeliverKeeps(s: State, refused: set<Path>, hit: set<Path>)
    requires Sound(s) && 0 < s.posted <= |s.stream|
    ensures Sound(Handle(Popped(s), s.stream[0], refused, hit))
  {
    match s.stream[0] {
      case Watermark(_, _, _, _, _) => WatermarkKeeps(s);
      case SyncFailed(_) => SyncFailedKeeps(s);
      case Reset(_, _, _) => ResetKeeps(s, hit);
      case Gap => GapKeeps(s, refused);
      case Opened(request) => OpenedKeeps(s, request);
      case Other => PoppedKeeps(s, {});
    }
  }

  // ---------------------------------------------------------------------------------------------
  // The worker ends; calls come.
  // ---------------------------------------------------------------------------------------------

  lemma CutStream(e: Extension, stream: seq<Event>, posted: nat, kept: nat)
    requires StreamSound(e, stream, posted) && kept <= posted
    ensures StreamSound(e, stream[..kept], kept)
  {
    OrderedUpTo(stream, kept);
    forall i | 0 <= i < kept ensures EventWell(e, stream[..kept][i]) && !Unseen(stream[..kept][i]) {
      assert stream[..kept][i] == stream[i];
    }
  }

  /** What a worker, or its end, leaves: the tickets are sure of nothing more. */
  predicate Unsure(s: State) {
    && ExtSound(s.ext) && StreamSound(s.ext, s.stream, s.posted) && Paired(s)
    && (forall id {:trigger OfItsPath(s, id)} :: id in s.tickets ==> OfItsPath(s, id))
    && (forall p {:trigger CallWell(s, p)} :: p in s.calls ==> CallWell(s, p))
    && s.waiting == |s.tickets| + |s.opens|
  }

  lemma WorkerGone(s: State, kept: nat)
    requires Sound(s) && kept <= s.posted
    ensures Unsure(Gone(s, kept))
  {
    var r := Gone(s, kept);
    CutStream(s.ext, s.stream, s.posted, kept);
    CallsStay(s, r);
    PairsStay(s, r);
  }

  lemma UnsureButRunning(s: State)
    requires Unsure(s)
    ensures SoundBut(s.(running := true), s.tickets.Keys)
  {
    var r := s.(running := true);
    CallsStay(s, r);
    PairsStay(s, r);
  }

  lemma NoTickets(s: State)
    requires Unsure(s) && Ascending(s.tickets.Keys) == []
    ensures Sound(s)
  {
    assert forall id :: id !in s.tickets;
  }

  lemma {:induction false} RejectAll(s: State, ids: seq<Ticket>)
    requires SoundBut(s, s.tickets.Keys) && (forall id :: id in s.tickets ==> id in ids)
    ensures Sound(SettleEach(s, ids, None)) && SettleEach(s, ids, None).tickets == map[]
    decreases |ids|
  {
    if ids == [] {
      assert forall id :: id !in s.tickets;
    } else {
      var id := ids[0];
      if id in s.tickets {
        SettleKeeps(s, id, None, s.tickets.Keys);
        var s1 := Settle(s, id, Rejected);
        assert s1.tickets.Keys == s.tickets.Keys - {id};
        RejectAll(s1, ids[1..]);
      } else {
        RejectAll(s, ids[1..]);
      }
    }
  }

  /** Whether the pump runs matters to nothing once no ticket waits. */
  lemma StoppedKeeps(s: State, running: bool)
    requires Sound(s) && s.tickets == map[]
    ensures Sound(s.(running := running))
  {
    var r := s.(running := running);
    CallsStay(s, r);
    PairsStay(s, r);
  }

  lemma {:induction false} SettleEachRunning(s: State, ids: seq<Ticket>, running: bool)
    ensures SettleEach(s.(running := running), ids, None) == SettleEach(s, ids, None).(running := running)
    decreases |ids|
  {
    if ids != [] {
      var id := ids[0];
      var s1 := if id in s.tickets && s.tickets[id].promise in s.calls then Settle(s, id, Rejected) else s;
      SettleEachRunning(s1, ids[1..], running);
    }
  }

  lemma RestartKeeps(s: State, watched: bool, refused: set<Path>)
    requires Unsure(s) && !s.running
    ensures Sound(Restart(s, watched, refused))
  {
    var ids := Ascending(s.tickets.Keys);
    if ids == [] && !watched {
      NoTickets(s);
    } else if s.failures >= MAX_FAILURES {
      UnsureButRunning(s);
      var up := s.(running := true);
      RejectAll(up, ids);
      SettleEachRunning(s, ids, true);
      StoppedKeeps(SettleEach(up, ids, None), false);
      SettleEachRunning(up, ids, false);
      assert up.(running := false) == s;
    } else {
      UnsureButRunning(s);
      AllReissued(s.(running := true), refused);
    }
  }

  lemma WorkerFailsKeeps(s: State, kept: nat, watched: bool, refused: set<Path>)
    requires Sound(s) && kept <= s.posted
    ensures Sound(Restart(Gone(s, kept), watched, refused))
  {
    WorkerGone(s, kept);
    RestartKeeps(Gone(s, kept), watched, refused);
  }

  lemma StartedKeeps(s: State)
    requires Sound(s)
    ensures Sound(Started(s)) && Started(s).running
  {
    if !s.running {
      var r := Started(s);
      CutStream(s.ext, s.stream, s.posted, s.posted);
      CallsStay(s, r);
      PairsStay(s, r);
    }
  }

  lemma CallPaired(s: State, r: State, id: Ticket, path: Path, promise: Promise)
    requires Paired(s) && id !in s.tickets && promise !in s.calls
    requires r.tickets == s.tickets[id := Entry(path, promise)]
    requires r.calls == s.calls[promise := Call(path, id, Waiting(id))]
    ensures Paired(r) && |r.tickets| == |s.tickets| + 1
  {
    assert r.tickets.Keys == s.tickets.Keys + {id};
    forall t | t in r.tickets ensures HasCall(r, t) {
      if t != id {
        assert HasCall(s, t);
      }
    }
    forall p | p in r.calls ensures HasTicket(r, p) {
      if p != promise {
        assert HasTicket(s, p);
      }
    }
  }

  lemma CalledKeeps(s: State, path: Path, promise: Promise)
    requires Sound(s) && s.running && promise !in s.calls && CanIssue(s.ext, path)
    ensures Sound(Called(s, path, promise))
  {
    var r := Called(s, path, promise);
    var id := s.ext.next;
    NewTicketStream(s, path);
    assert id !in s.tickets by {
      assert id in s.tickets ==> OfItsPath(s, id);
    }
    CallPaired(s, r, id, path, promise);
    forall t | t in r.tickets ensures OfItsPath(r, t) && TicketWell(r, t) {
      if t != id {
        OthersAfterIssue(s, r, path, {}, t);
      }
    }
    forall p | p in r.calls ensures CallWell(r, p) {
      if p != promise {
        assert CallWell(s, p);
      }
    }
  }

  lemma CallKeeps(s: State, path: Path, promise: Promise)
    requires Sound(s) && promise !in s.calls && CanIssue(s.ext, path)
    ensures Sound(Called(Started(s), path, promise))
  {
    StartedKeeps(s);
    CalledKeeps(Started(s), path, promise);
  }

  lemma OneOpen(opens: set<OpenWait>, o: OpenWait)
    ensures o !in opens ==> |opens + {o}| == |opens| + 1
    ensures o in opens ==> |opens - {o}| == |opens| - 1
  {
  }

  lemma WaitOpenKeeps(s: State, request: int, waker: int)
    requires Sound(s) && OpenWait(request, waker) !in s.opens
    ensures Sound(OpenWaits(s, request, waker))
  {
    OneOpen(s.opens, OpenWait(request, waker));
    OpensKeep(s, OpenWaits(s, request, waker), {});
  }

  lemma AbortOpenKeeps(s: State, request: int, waker: int)
    requires Sound(s) && OpenWait(request, waker) in s.opens
    ensures Sound(OpenAborts(s, request, waker))
  {
    OneOpen(s.opens, OpenWait(request, waker));
    OpensKeep(s, OpenAborts(s, request, waker), {});
  }

  lemma NextKeeps(s: State, step: Step)
    requires Sound(s) && Enabled(s, step)
    ensures Sound(Next(s, step))
  {
    match step {
      case CallSynced(path, promise) => CallKeeps(s, path, promise);
      case Abort(promise) => RejectedKeeps(s, [s.calls[promise].state.ticket], {});
      case WaitOpen(request, waker) => WaitOpenKeeps(s, request, waker);
      case AbortOpen(request, waker) => AbortOpenKeeps(s, request, waker);
      case Poll => PollKeeps(s);
      case Deliver(refused, hit) => DeliverKeeps(s, refused, hit);
      case WorkerFails(kept, watched, refused) => WorkerFailsKeeps(s, kept, watched, refused);
      case Bind(path, b) => BindKeeps(s, path, b);
      case Leave(path) => LeaveKeeps(s, path);
      case Retire(b) => RetireKeeps(s, b);
      case ResetBinding(b) => ResetBindingKeeps(s, b);
      case IssueElsewhere(path) => IssueElsewhereKeeps(s, path);
      case Resolve(t) => ResolveKeeps(s, t);
      case FailTicket(t) => FailTicketKeeps(s, t);
      case Evict(count) => EvictKeeps(s, count);
      case Announce(event) => AnnounceKeeps(s, event);
    }
  }

  lemma {:induction false} RunKeeps(s: State, run: seq<Step>)
    requires Sound(s) && Legal(s, run)
    ensures Sound(After(s, run))
    decreases |run|
  {
    if run != [] {
      NextKeeps(s, run[0]);
      RunKeeps(Next(s, run[0]), run[1..]);
    }
  }

  /**
   Over any interleaving of calls, watermarks, tickets that fail alone, resets, paths bound again,
   dropped events and workers that fail: a `synced()` call resolves only once the extension resolved
   a ticket of its path issued at or after the call; each call that waits has exactly one ticket; and
   the worker is held exactly while an open or a `synced()` waits.
   */
  lemma ResolvedIsCovered(run: seq<Step>)
    requires Legal(START, run)
    ensures var s := After(START, run);
            && (forall p :: p in s.calls && s.calls[p].state.Resolved? ==>
                              s.calls[p].since <= s.calls[p].state.top
                                && SyncedFor(s.ext, s.calls[p].state.top, s.calls[p].path))
            && Paired(s)
            && s.waiting == |s.tickets| + |s.opens|
  {
    RunKeeps(START, run);
    var s := After(START, run);
    forall p | p in s.calls ensures CallWell(s, p) {
    }
  }
}

/**
 The pump: this thread's view of the extension's events, which resolve or reject `synced()` calls by
 their tickets. Beside it stand the bindings that hand out tickets and the queue of their events.
 */
module Pump {
  import opened Common

  /** A database's path. Over time it has several bindings, one at a time. */
  type Path = int

  type BindingId = int

  type Ticket = int

  type Promise = int

  // ---------------------------------------------------------------------------------------------
  // The extension.
  // ---------------------------------------------------------------------------------------------

  datatype Standing = Pending | Synced | Failed

  /** A ticket as the extension knows it. */
  datatype Issued = Issued(binding: BindingId, standing: Standing)

  /** A binding's tickets: those not resolved yet, the greatest resolved one, and how far its watermark is. */
  datatype Mark = Mark(pending: set<Ticket>, resolvedMax: Ticket, through: Option<Ticket>)

  datatype Life = Live | Retired | WasReset

  datatype Bound = Bound(path: Path, mark: Mark, life: Life)

  /** The tickets handed out, the next one's number, the bindings, and the registry's binding of each path. */
  datatype Extension = Extension(issued: map<Ticket, Issued>, next: Ticket, bindings: map<BindingId, Bound>,
                                 registered: map<Path, BindingId>)

  /**
   Whether an event carries its path. One the worker has not read yet will, while its binding is in
   the registry; one read after the binding left names none.
   */
  datatype Seen = Unread | Named | Nameless

  /**
   The events on their way to this thread, oldest first. A watermark covers every ticket of its path
   up to `through`; `top` is the ticket whose resolution moved it. `Gap` stands for events that fell out.
   */
  datatype Event =
    | Watermark(binding: BindingId, path: Path, seen: Seen, through: Ticket, top: Ticket)
    | SyncFailed(ticket: Ticket)
    | Reset(binding: BindingId, path: Path, seen: Seen)
    | Gap
    | Opened(request: int)
    | Other

  /** A ticket resolves: the watermark moves up to it, or to just below the first ticket that still waits. */
  function ResolveOk(m: Mark, ticket: Ticket): (r: Mark) {
    var pending := m.pending - {ticket};
    var top := Max(m.resolvedMax, ticket);
    var through := if pending == {} then top else Min(top, Max(0, Least(pending) - 1));
    Mark(pending, top, if m.through.None? || through > m.through.value then Some(through) else m.through)
  }

  function ResolveErr(m: Mark, ticket: Ticket): (r: Mark) {
    m.(pending := m.pending - {ticket})
  }

  /** Whether `ursula_synced` answers with a ticket: the path is bound, and its binding did not reset. */
  predicate CanIssue(e: Extension, path: Path) {
    path in e.registered && e.registered[path] in e.bindings && !e.bindings[e.registered[path]].life.WasReset?
  }

  /** `ursula_synced(path, 0)`: a new ticket, which a retired binding fails at once. */
  function Issue(e: Extension, path: Path): (r: Extension)
    requires CanIssue(e, path)
  {
    var b := e.registered[path];
    var bound := e.bindings[b];
    if bound.life.Live? then
      e.(issued := e.issued[e.next := Issued(b, Pending)], next := e.next + 1,
         bindings := e.bindings[b := bound.(mark := bound.mark.(pending := bound.mark.pending + {e.next}))])
    else e.(issued := e.issued[e.next := Issued(b, Failed)], next := e.next + 1)
  }

  function IssueEvents(e: Extension, path: Path): (r: seq<Event>)
    requires CanIssue(e, path)
  {
    if e.bindings[e.registered[path]].life.Live? then [] else [SyncFailed(e.next)]
  }

  /** The name a new event of binding `b` has. */
  function SeenNow(e: Extension, b: BindingId, path: Path): (r: Seen) {
    if path in e.registered && e.registered[path] == b then Unread else Nameless
  }

  /** The queue keeps only the latest watermark of a binding. */
  function Coalesced(stream: seq<Event>, b: BindingId): (r: seq<Event>)
    decreases |stream|
  {
    if stream == [] then []
    else if stream[0].Watermark? && stream[0].binding == b then Coalesced(stream[1..], b)
    else [stream[0]] + Coalesced(stream[1..], b)
  }

  /** An event not read yet loses its name once its binding leaves the registry. */
  function Hushed(e: Event, b: BindingId): (r: Event) {
    if (e.Watermark? || e.Reset?) && e.seen.Unread? && e.binding == b then e.(seen := Nameless) else e
  }

  function HushAll(stream: seq<Event>, b: BindingId): (r: seq<Event>)
    ensures |r| == |stream| && forall i :: 0 <= i < |stream| ==> r[i] == Hushed(stream[i], b)
    decreases |stream|
  {
    if stream == [] then [] else [Hushed(stream[0], b)] + HushAll(stream[1..], b)
  }

  /** The worker reads an event: its binding, still in the registry, gives the path. */
  function Read(e: Event): (r: Event) {
    if (e.Watermark? || e.Reset?) && e.seen.Unread? then e.(seen := Named) else e
  }

  // ---------------------------------------------------------------------------------------------
  // The pump.
  // ---------------------------------------------------------------------------------------------

  datatype Entry = Entry(path: Path, promise: Promise)

  /** A `synced()` call: the first ticket number it could get, and how its promise stands. */
  datatype Call = Call(path: Path, since: Ticket, state: CallState)

  /** A resolved call: the ticket it waited under, and the one whose resolution the watermark reported. */
  datatype CallState = Waiting(ticket: Ticket) | Resolved(under: Ticket, top: Ticket) | Rejected

  /** An open that waits for its request's event, and who wakes it. */
  datatype OpenWait = OpenWait(request: int, waker: int)

  /** After this many failures in a row the pump stays down and its waits fail. */
  const MAX_FAILURES: nat := 3

  /** The first `posted` events of the stream were read and posted to this thread; the rest are queued. */
  datatype State = State(ext: Extension, stream: seq<Event>, posted: nat, tickets: map<Ticket, Entry>,
                         calls: map<Promise, Call>, opens: set<OpenWait>, waiting: int, failures: nat, running: bool)

  const START: State := State(Extension(map[], 1, map[], map[]), [], 0, map[], map[], {}, 0, 0, false)

  /** A settled call leaves the tickets and no longer holds the worker. */
  function Settle(s: State, id: Ticket, state: CallState): (r: State)
    requires id in s.tickets && s.tickets[id].promise in s.calls
  {
    var p := s.tickets[id].promise;
    s.(tickets := s.tickets - {id}, calls := s.calls[p := s.calls[p].(state := state)], waiting := s.waiting - 1)
  }

  /** How a ticket settles: resolved as the watermark of `top` reports, or rejected. */
  function Outcome(id: Ticket, top: Option<Ticket>): (r: CallState) {
    if top.Some? then Resolved(id, top.value) else Rejected
  }

  /** Settles each of `ids` in order. */
  function SettleEach(s: State, ids: seq<Ticket>, top: Option<Ticket>): (r: State)
    decreases |ids|
  {
    if ids == [] then s
    else
      var id := ids[0];
      var s1 := if id in s.tickets && s.tickets[id].promise in s.calls then Settle(s, id, Outcome(id, top)) else s;
      SettleEach(s1, ids[1..], top)
  }

  /** Ticket `id` asked for again: its call waits under a new ticket, or is rejected. */
  function ReissueOne(s: State, id: Ticket, refused: set<Path>): (r: State) {
    if id !in s.tickets || s.tickets[id].promise !in s.calls then s
    else
      var t := s.tickets[id];
      if t.path in refused || !CanIssue(s.ext, t.path) then Settle(s, id, Rejected)
      else
        s.(ext := Issue(s.ext, t.path), stream := s.stream + IssueEvents(s.ext, t.path),
           tickets := (s.tickets - {id})[s.ext.next := t],
           calls := s.calls[t.promise := s.calls[t.promise].(state := Waiting(s.ext.next))])
  }

  /** Every pending ticket asked for again; a path in `refused` answers with an error. */
  function Reissue(s: State, ids: seq<Ticket>, refused: set<Path>): (r: State)
    decreases |ids|
  {
    if ids == [] then s else Reissue(ReissueOne(s, ids[0], refused), ids[1..], refused)
  }

  function CoveredBy(tickets: map<Ticket, Entry>, path: Path, through: Ticket): (r: set<Ticket>) {
    set id | id in tickets && tickets[id].path == path && id <= through
  }

  function TicketsOf(tickets: map<Ticket, Entry>, paths: set<Path>): (r: set<Ticket>) {
    set id | id in tickets && tickets[id].path in paths
  }

  function Woken(opens: set<OpenWait>, request: int): (r: set<OpenWait>) {
    set o | o in opens && o.request == request
  }

  function WakeOpen(s: State, request: int): (r: State) {
    var woken := Woken(s.opens, request);
    s.(opens := s.opens - woken, waiting := s.waiting - |woken|)
  }

  function WakeAllOpens(s: State): (r: State) {
    s.(opens := {}, waiting := s.waiting - |s.opens|)
  }

  /** The paths a reset rejects: the one it names, or those of `hit`, whose databases report a reset. */
  function ResetPaths(e: Event, hit: set<Path>): (r: set<Path>)
    requires e.Reset?
  {
    if e.seen.Nameless? then hit else {e.path}
  }

  /** One event of a batch; `refused` are the paths whose tickets a gap cannot get again. */
  function Handle(s: State, event: Event, refused: set<Path>, hit: set<Path>): (r: State) {
    match event
    case Watermark(_, path, seen, through, top) =>
      if seen.Nameless? then s else SettleEach(s, Ascending(CoveredBy(s.tickets, path, through)), Some(top))
    case SyncFailed(ticket) => SettleEach(s, [ticket], None)
    case Reset(_, _, _) => SettleEach(s, Ascending(TicketsOf(s.tickets, ResetPaths(event, hit))), None)
    case Gap =>
      var s1 := WakeAllOpens(s);
      Reissue(s1, Ascending(s1.tickets.Keys), refused)
    case Opened(request) => WakeOpen(s, request)
    case Other => s
  }

  /** What happens, in any order. */
  datatype Step =
    /** A database's `synced()`: starts the pump if it is down, then gets its ticket. */
    | CallSynced(path: Path, promise: Promise)
    /** Its signal fires. */
    | Abort(promise: Promise)
    | WaitOpen(request: int, waker: int)
    | AbortOpen(request: int, waker: int)
    /** The worker reads the next queued event. */
    | Poll
    /** The next posted event is handled. */
    | Deliver(refused: set<Path>, hit: set<Path>)
    /**
     The worker is gone, `kept` events posted before; a new one starts if a ticket is pending or a
     watcher wants events.
     */
    | WorkerFails(kept: nat, watched: bool, refused: set<Path>)
    /** The extension: a path is bound, its binding leaves the registry, retires or resets. */
    | Bind(path: Path, binding: BindingId)
    | Leave(path: Path)
    | Retire(binding: BindingId)
    | ResetBinding(binding: BindingId)
    /** A ticket another thread asked for, a ticket that resolves, one that fails alone. */
    | IssueElsewhere(path: Path)
    | Resolve(ticket: Ticket)
    | FailTicket(ticket: Ticket)
    /** The oldest queued events fall out; any other event. */
    | Evict(count: nat)
    | Announce(event: Event)

  predicate IsLive(e: Extension, b: BindingId) {
    b in e.bindings && e.bindings[b].life.Live?
  }

  predicate IsPending(e: Extension, t: Ticket) {
    t in e.issued && e.issued[t].standing.Pending? && e.issued[t].binding in e.bindings
  }

  /** A path is bound again once its binding left the registry and retired or reset. */
  predicate CanBind(e: Extension, path: Path, b: BindingId) {
    && path !in e.registered && b !in e.bindings
    && (forall c :: c in e.bindings && e.bindings[c].path == path ==> !e.bindings[c].life.Live?)
  }

  predicate Enabled(s: State, step: Step) {
    match step
    case CallSynced(path, promise) =>
      promise !in s.calls && (s.running || s.failures < MAX_FAILURES) && CanIssue(s.ext, path) && s.posted <= |s.stream|
    case Abort(promise) =>
      promise in s.calls && s.calls[promise].state.Waiting? && s.calls[promise].state.ticket in s.tickets
    case WaitOpen(request, waker) => s.running && OpenWait(request, waker) !in s.opens
    case AbortOpen(request, waker) => OpenWait(request, waker) in s.opens
    case Poll => s.running && s.posted < |s.stream|
    case Deliver(_, _) => 0 < s.posted <= |s.stream|
    case WorkerFails(kept, _, _) => s.running && kept <= s.posted <= |s.stream|
    case Bind(path, b) => CanBind(s.ext, path, b)
    case Leave(path) => path in s.ext.registered
    case Retire(b) => IsLive(s.ext, b) && s.ext.bindings[b].mark.pending == {}
    case ResetBinding(b) => IsLive(s.ext, b)
    case IssueElsewhere(path) => CanIssue(s.ext, path)
    case Resolve(t) => IsPending(s.ext, t) && s.posted <= |s.stream|
    case FailTicket(t) => IsPending(s.ext, t)
    case Evict(count) => count >= 1 && s.posted + count <= |s.stream|
    case Announce(event) => event.Opened? || event.Other?
  }

  /** A ticket settles in the driver, and its binding's mark with it. */
  function Settled(e: Extension, t: Ticket, standing: Standing, mark: Mark): (r: Extension)
    requires IsPending(e, t)
  {
    var b := e.issued[t].binding;
    e.(issued := e.issued[t := Issued(b, standing)], bindings := e.bindings[b := e.bindings[b].(mark := mark)])
  }

  /** A ticket resolves: the watermark's event, in place of the queued one, if it moves. */
  function TicketResolves(s: State, t: Ticket): (r: State)
    requires IsPending(s.ext, t) && s.posted <= |s.stream|
  {
    var b := s.ext.issued[t].binding;
    var bound := s.ext.bindings[b];
    var mark := ResolveOk(bound.mark, t);
    var s1 := s.(ext := Settled(s.ext, t, Synced, mark));
    if mark.through == bound.mark.through || mark.through.None? then s1
    else
      var event := Watermark(b, bound.path, SeenNow(s.ext, b, bound.path), mark.through.value, mark.resolvedMax);
      s1.(stream := s.stream[..s.posted] + Coalesced(s.stream[s.posted..], b) + [event])
  }

  /** A binding resets: its waiting tickets fail with the one event. */
  function Killed(e: Extension, b: BindingId): (r: Extension)
    requires b in e.bindings
  {
    e.(issued := map t | t in e.issued :: if e.issued[t] == Issued(b, Pending) then Issued(b, Failed) else e.issued[t],
       bindings := e.bindings[b := e.bindings[b].(life := WasReset, mark := e.bindings[b].mark.(pending := {}))])
  }

  /** The worker ended once it had posted `kept` events: what it had not is lost, and the opens ask again. */
  function Gone(s: State, kept: nat): (r: State)
    requires kept <= |s.stream|
  {
    WakeAllOpens(s.(failures := s.failures + 1, stream := s.stream[..kept], posted := kept, running := false))
  }

  /** A new worker, if one is wanted: the tickets are asked for again, or fail after too many failures. */
  function Restart(s: State, watched: bool, refused: set<Path>): (r: State) {
    var ids := Ascending(s.tickets.Keys);
    if ids == [] && !watched then s
    else if s.failures >= MAX_FAILURES then SettleEach(s, ids, None)
    else Reissue(s.(running := true), ids, refused)
  }

  /** The pump runs; one that starts sees the events from now on. */
  function Started(s: State): (r: State)
    requires s.posted <= |s.stream|
  {
    if s.running then s else s.(running := true, stream := s.stream[..s.posted])
  }

  function Called(s: State, path: Path, promise: Promise): (r: State)
    requires CanIssue(s.ext, path)
  {
    s.(ext := Issue(s.ext, path), stream := s.stream + IssueEvents(s.ext, path), waiting := s.waiting + 1,
       tickets := s.tickets[s.ext.next := Entry(path, promise)],
       calls := s.calls[promise := Call(path, s.ext.next, Waiting(s.ext.next))])
  }

  /** The next posted event leaves the stream, and a message came, so the worker works. */
  function Popped(s: State): (r: State)
    requires 0 < s.posted <= |s.stream|
  {
    s.(stream := s.stream[1..], posted := s.posted - 1, failures := 0)
  }

  function OpenWaits(s: State, request: int, waker: int): (r: State) {
    s.(opens := s.opens + {OpenWait(request, waker)}, waiting := s.waiting + 1)
  }

  function OpenAborts(s: State, request: int, waker: int): (r: State) {
    s.(opens := s.opens - {OpenWait(request, waker)}, waiting := s.waiting - 1)
  }

  function Polled(s: State): (r: State)
    requires s.posted < |s.stream|
  {
    s.(stream := s.stream[s.posted := Read(s.stream[s.posted])], posted := s.posted + 1)
  }

  function Binds(e: Extension, path: Path, b: BindingId): (r: Extension) {
    e.(bindings := e.bindings[b := Bound(path, Mark({}, 0, None), Live)], registered := e.registered[path := b])
  }

  function Leaves(s: State, path: Path): (r: State)
    requires path in s.ext.registered
  {
    s.(ext := s.ext.(registered := s.ext.registered - {path}), stream := HushAll(s.stream, s.ext.registered[path]))
  }

  function Retires(e: Extension, b: BindingId): (r: Extension)
    requires b in e.bindings
  {
    e.(bindings := e.bindings[b := e.bindings[b].(life := Retired)])
  }

  function Resets(s: State, b: BindingId): (r: State)
    requires b in s.ext.bindings
  {
    var path := s.ext.bindings[b].path;
    s.(ext := Killed(s.ext, b), stream := s.stream + [Reset(b, path, SeenNow(s.ext, b, path))])
  }

  function IssuesElsewhere(s: State, path: Path): (r: State)
    requires CanIssue(s.ext, path)
  {
    s.(ext := Issue(s.ext, path), stream := s.stream + IssueEvents(s.ext, path))
  }

  function TicketFails(s: State, t: Ticket): (r: State)
    requires IsPending(s.ext, t)
  {
    s.(ext := Settled(s.ext, t, Failed, ResolveErr(s.ext.bindings[s.ext.issued[t].binding].mark, t)),
       stream := s.stream + [SyncFailed(t)])
  }

  function Evicts(s: State, count: nat): (r: State)
    requires s.posted + count <= |s.stream|
  {
    s.(stream := s.stream[..s.posted] + [Gap] + s.stream[s.posted + count..])
  }

  function Next(s: State, step: Step): (r: State)
    requires Enabled(s, step)
  {
    match step
    case CallSynced(path, promise) => Called(Started(s), path, promise)
    case Abort(promise) => SettleEach(s, [s.calls[promise].state.ticket], None)
    case WaitOpen(request, waker) => OpenWaits(s, request, waker)
    case AbortOpen(request, waker) => OpenAborts(s, request, waker)
    case Poll => Polled(s)
    case Deliver(refused, hit) => Handle(Popped(s), s.stream[0], refused, hit)
    case WorkerFails(kept, watched, refused) => Restart(Gone(s, kept), watched, refused)
    case Bind(path, b) => s.(ext := Binds(s.ext, path, b))
    case Leave(path) => Leaves(s, path)
    case Retire(b) => s.(ext := Retires(s.ext, b))
    case ResetBinding(b) => Resets(s, b)
    case IssueElsewhere(path) => IssuesElsewhere(s, path)
    case Resolve(t) => TicketResolves(s, t)
    case FailTicket(t) => TicketFails(s, t)
    case Evict(count) => Evicts(s, count)
    case Announce(event) => s.(stream := s.stream + [event])
  }

  predicate Legal(s: State, run: seq<Step>)
    decreases |run|
  {
    run == [] || (Enabled(s, run[0]) && Legal(Next(s, run[0]), run[1..]))
  }

  function After(s: State, run: seq<Step>): (r: State)
    requires Legal(s, run)
    decreases |run|
  {
    if run == [] then s else After(Next(s, run[0]), run[1..])
  }

  // ---------------------------------------------------------------------------------------------
  // The pump as an object.
  // ---------------------------------------------------------------------------------------------

  /** What an event is handled under: the paths refused a new ticket, and those whose databases report a reset. */
  datatype Around = Around(refused: set<Path>, hit: set<Path>)

  /** A batch: its events handled one by one. */
  function Batch(s: State, arounds: seq<Around>): (r: State)
    decreases |arounds|
  {
    if arounds == [] || !(0 < s.posted <= |s.stream|) then s
    else Batch(Handle(Popped(s), s.stream[0], arounds[0].refused, arounds[0].hit), arounds[1..])
  }

  lemma BatchStep(s: State, arounds: seq<Around>, i: nat)
    requires i < |arounds| && 0 < s.posted <= |s.stream|
    ensures Batch(s, arounds[i..])
        == Batch(Handle(Popped(s), s.stream[0], arounds[i].refused, arounds[i].hit), arounds[i + 1..])
  {
    assert arounds[i..][1..] == arounds[i + 1..];
  }

  class EventPump {
    var ext: Extension
    var stream: seq<Event>
    var posted: nat
    var tickets: map<Ticket, Entry>
    var calls: map<Promise, Call>
    var opens: set<OpenWait>
    var waiting: int
    var failures: nat
    var running: bool

    ghost function View(): (r: State)
      reads this
    {
      State(ext, stream, posted, tickets, calls, opens, waiting, failures, running)
    }

    constructor ()
      ensures View() == START
    {
      ext, stream, posted, tickets, calls, opens := Extension(map[], 1, map[], map[]), [], 0, map[], map[], {};
      waiting, failures, running := 0, 0, false;
    }

    method SettleOne(id: Ticket, top: Option<Ticket>)
      requires id in tickets && tickets[id].promise in calls
      modifies this
      ensures View() == Settle(old(View()), id, Outcome(id, top))
    {
      var p := tickets[id].promise;
      tickets := tickets - {id};
      calls := calls[p := calls[p].(state := Outcome(id, top))];
      waiting := waiting - 1;
    }

    method SettleAll(ids: seq<Ticket>, top: Option<Ticket>)
      modifies this
      ensures View() == SettleEach(old(View()), ids, top)
    {
      var i := 0;
      assert ids[0..] == ids;
      while i < |ids|
        invariant 0 <= i <= |ids|
        invariant SettleEach(View(), ids[i..], top) == SettleEach(old(View()), ids, top)
      {
        assert ids[i..][1..] == ids[i + 1..] && ids[i..][0] == ids[i];
        if ids[i] in tickets && tickets[ids[i]].promise in calls {
          SettleOne(ids[i], top);
        }
        i := i + 1;
      }
    }

    method ReissueTicket(id: Ticket, refused: set<Path>)
      modifies this
      ensures View() == ReissueOne(old(View()), id, refused)
    {
      if id in tickets && tickets[id].promise in calls {
        var t := tickets[id];
        if t.path in refused || !CanIssue(ext, t.path) {
          SettleOne(id, None);
        } else {
          var again := ext.next;
          stream := stream + IssueEvents(ext, t.path);
          ext := Issue(ext, t.path);
          tickets := (tickets - {id})[again := t];
          calls := calls[t.promise := calls[t.promise].(state := Waiting(again))];
        }
      }
    }

    /** Every one of `ids` asked for again, oldest first. */
    method ReissueAll(ids: seq<Ticket>, refused: set<Path>)
      modifies this
      ensures View() == Reissue(old(View()), ids, refused)
    {
      var i := 0;
      assert ids[0..] == ids;
      while i < |ids|
        invariant 0 <= i <= |ids|
        invariant Reissue(View(), ids[i..], refused) == Reissue(old(View()), ids, refused)
      {
        assert ids[i..][1..] == ids[i + 1..] && ids[i..][0] == ids[i];
        ReissueTicket(ids[i], refused);
        i := i + 1;
      }
    }

    method WakeEveryOpen()
      modifies this
      ensures View() == WakeAllOpens(old(View()))
    {
      waiting := waiting - |opens|;
      opens := {};
    }

    method OnGap(refused: set<Path>)
      modifies this
      ensures View() == Handle(old(View()), Gap, refused, {})
    {
      WakeEveryOpen();
      ReissueAll(Ascending(tickets.Keys), refused);
    }

    method OnEvent(event: Event, refused: set<Path>, hit: set<Path>)
      modifies this
      ensures View() == Handle(old(View()), event, refused, hit)
    {
      match event {
        case Opened(request) =>
          var woken := Woken(opens, request);
          opens := opens - woken;
          waiting := waiting - |woken|;
        case Watermark(_, path, seen, through, top) =>
          if !seen.Nameless? {
            SettleAll(Ascending(CoveredBy(tickets, path, through)), Some(top));
          }
        case SyncFailed(ticket) =>
          SettleAll([ticket], None);
        case Reset(_, _, _) =>
          SettleAll(Ascending(TicketsOf(tickets, ResetPaths(event, hit))), None);
        case Gap =>
          OnGap(refused);
        case Other =>
      }
    }

    method TakeEvent(refused: set<Path>, hit: set<Path>)
      requires 0 < posted <= |stream|
      modifies this
      ensures View() == Handle(Popped(old(View())), old(stream)[0], refused, hit)
    {
      var event := stream[0];
      stream := stream[1..];
      posted := posted - 1;
      failures := 0;
      OnEvent(event, refused, hit);
    }

    /** The worker posted a batch. */
    method HandleBatch(arounds: seq<Around>)
      modifies this
      ensures View() == Batch(old(View()), arounds)
    {
      var i := 0;
      assert arounds[0..] == arounds;
      while i < |arounds| && 0 < posted <= |stream|
        invariant 0 <= i <= |arounds|
        invariant Batch(View(), arounds[i..]) == Batch(old(View()), arounds)
      {
        BatchStep(View(), arounds, i);
        TakeEvent(arounds[i].refused, arounds[i].hit);
        i := i + 1;
      }
    }

    /** A database's `synced()`: the pump runs before the ticket is asked for. */
    method CallForTicket(path: Path, promise: Promise)
      requires CanIssue(ext, path) && posted <= |stream|
      modifies this
      ensures View() == Called(Started(old(View())), path, promise)
    {
      if !running {
        running := true;
        stream := stream[..posted];
      }
      var id := ext.next;
      stream := stream + IssueEvents(ext, path);
      ext := Issue(ext, path);
      waiting := waiting + 1;
      tickets := tickets[id := Entry(path, promise)];
      calls := calls[promise := Call(path, id, Waiting(id))];
    }

    /** A new worker, unless there were too many failures in a row or nothing needs one. */
    method StartAgain(watched: bool, refused: set<Path>)
      modifies this
      ensures View() == Restart(old(View()), watched, refused)
    {
      var ids := Ascending(tickets.Keys);
      if ids == [] && !watched {
        return;
      }
      if failures >= MAX_FAILURES {
        SettleAll(ids, None);
        return;
      }
      running := true;
      ReissueAll(ids, refused);
    }

    method LoseWorker(kept: nat)
      requires kept <= |stream|
      modifies this
      ensures View() == Gone(old(View()), kept)
    {
      failures := failures + 1;
      stream := stream[..kept];
      posted := kept;
      running := false;
      WakeEveryOpen();
    }

    /** The worker ended. */
    method Fail(kept: nat, watched: bool, refused: set<Path>)
      requires kept <= posted <= |stream| && running
      modifies this
      ensures View() == Restart(Gone(old(View()), kept), watched, refused)
    {
      LoseWorker(kept);
      StartAgain(watched, refused);
    }
  }
}

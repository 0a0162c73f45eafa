/**
 The process's registry of bound databases and of opens in progress, under its mutex: every critical
 section is one step. The driver is known by the opens it still may answer; it answers no open that
 was cancelled.
 */
module Registry {
  import opened Common

  type Name = int

  type Dir = int

  type OpenId = int

  type CallerId = int

  datatype Role = Owner | Reader

  /** An open's stream and role. */
  datatype Key = Key(name: Name, role: Role)

  /** A db file: it lies under its stream's root, in the role's own directory. */
  datatype DbPath = DbPath(key: Key, generation: int)

  datatype Binding = Binding(path: DbPath, dir: Dir)

  datatype OpenEntry = OpenEntry(open: OpenId, dir: Dir, waiting: nat, returned: bool)

  datatype Registry = Registry(names: map<Name, Binding>, readers: map<Name, Binding>, paths: map<DbPath, Binding>,
                               opens: map<Key, OpenEntry>, registering: set<Key>)

  function Bindings(reg: Registry, role: Role): (r: map<Name, Binding>) {
    if role.Owner? then reg.names else reg.readers
  }

  function BoundAt(reg: Registry, key: Key): (r: Option<Binding>) {
    var m := Bindings(reg, key.role);
    if key.name in m then Some(m[key.name]) else None
  }

  function Bind(reg: Registry, key: Key, b: Binding): (r: Registry) {
    var r := if key.role.Owner? then reg.(names := reg.names[key.name := b])
        else reg.(readers := reg.readers[key.name := b]);
    r.(paths := r.paths[b.path := b])
  }

  function Unbind(reg: Registry, key: Key, b: Binding): (r: Registry) {
    var r := if key.role.Owner? then reg.(names := reg.names - {key.name})
        else reg.(readers := reg.readers - {key.name});
    r.(paths := r.paths - {b.path})
  }

  // ---------------------------------------------------------------------------------------------
  // claim.
  // ---------------------------------------------------------------------------------------------

  /** How a binding answers: whether it reset, whether it lets itself be given up, whether it revives. */
  datatype Answer = Answer(reset: bool, givesUp: bool, revives: bool)

  datatype Met = Kept(reg: Registry) | Handed(b: Binding) | Refused

  /** An open under `dir` meets the binding at `key`, if any. */
  function Meet(reg: Registry, key: Key, dir: Dir, answer: Answer): (r: Met) {
    match BoundAt(reg, key)
    case None => Kept(reg)
    case Some(b) =>
      if !answer.reset && b.dir != dir && !answer.givesUp then Refused
      else if !answer.reset && b.dir == dir && answer.revives then Handed(b)
      else Kept(Unbind(reg, key, b))
  }

  datatype Claim = Elsewhere | Bound(b: Binding) | Join(open: OpenId) | Start

  /** The last part: the open in progress is joined, or a new one starts. */
  function JoinOrStart(reg: Registry, key: Key, blocking: bool): (r: (Registry, Claim)) {
    if key in reg.opens then
      var e := reg.opens[key];
      var e1 := if blocking then e.(waiting := e.waiting + 1) else e.(returned := true);
      (reg.(opens := reg.opens[key := e1]), Join(e.open))
    else (reg, Start)
  }

  /** The role's own binding, then the open. */
  function ClaimOwn(reg: Registry, key: Key, dir: Dir, blocking: bool, own: Answer): (r: (Registry, Claim)) {
    match Meet(reg, key, dir, own)
    case Refused => (reg, Elsewhere)
    case Handed(b) => (reg, Bound(b))
    case Kept(reg1) => JoinOrStart(reg1, key, blocking)
  }

  function Claimed(reg: Registry, key: Key, dir: Dir, blocking: bool, owner: Answer,
                   own: Answer): (r: (Registry, Claim)) {
    if key in reg.opens && reg.opens[key].dir != dir then (reg, Elsewhere)
    else
      match (if key.role.Reader? then Meet(reg, Key(key.name, Owner), dir, owner) else Kept(reg))
      case Refused => (reg, Elsewhere)
      case Handed(b) => (reg, Bound(b))
      case Kept(reg1) => ClaimOwn(reg1, key, dir, blocking, own)
  }

  /** A registration of the stream that an open of `key` waits for: a reader's open, the owner's too. */
  predicate Busy(reg: Registry, key: Key) {
    key in reg.registering || (key.role.Reader? && Key(key.name, Owner) in reg.registering)
  }

  // ---------------------------------------------------------------------------------------------
  // The callers and the driver.
  // ---------------------------------------------------------------------------------------------

  /** Where a call of `ursula_open` is: it waits for an open, asks once and returns, or registers its binding. */
  datatype Caller =
    | Waiting(key: Key, open: OpenId)
    | Returning(key: Key, open: OpenId)
    | Registering(key: Key, b: Binding, inserted: bool)

  /** An open the driver runs: for a stream and role, under a cache root. */
  datatype Asked = Asked(key: Key, dir: Dir)

  /**
   The registry, the opens the driver may still answer, the next open's id, the calls in progress,
   who registers each stream, the opens a call that returned at once asked for, and the cache root
   each call asked for.
   */
  datatype World = World(reg: Registry, live: map<OpenId, Asked>, next: OpenId, callers: map<CallerId, Caller>,
                         registrar: map<Key, CallerId>, asked: set<OpenId>, roots: map<CallerId, Dir>)

  const START: World := World(Registry(map[], map[], map[], map[], {}), map[], 0, map[], map[], {}, map[])

  datatype Step =
    | Open(c: CallerId, key: Key, dir: Dir, blocking: bool, owner: Answer, own: Answer)
    /** The wait of a blocking call ran out. */
    | TimeOut(c: CallerId)
    /** The driver's answer is taken: a binding, or an error. */
    | TakeBound(c: CallerId, b: Binding)
    | TakeError(c: CallerId)
    /** None to take: another call took it, or it is still opening. */
    | TakeNone(c: CallerId)
    | Insert(c: CallerId)
    /** The registration ended, its binding inserted or refused. */
    | EndRegistration(c: CallerId)
    /** `ursula_cancel`. */
    | Cancel(open: OpenId)

  predicate Asks(w: World, c: CallerId) {
    c in w.callers && !w.callers[c].Registering?
  }

  predicate Enabled(w: World, step: Step) {
    match step
    case Open(c, key, _, _, _, _) => c !in w.callers && !Busy(w.reg, key)
    case TimeOut(c) => c in w.callers && w.callers[c].Waiting?
    case TakeBound(c, b) =>
      Asks(w, c) && w.callers[c].open in w.live
        && b.path.key == w.callers[c].key && b.dir == w.live[w.callers[c].open].dir
    case TakeError(c) => Asks(w, c) && w.callers[c].open in w.live
    case TakeNone(c) => Asks(w, c) && (w.callers[c].open in w.live ==> w.callers[c].Returning?)
    case Insert(c) => c in w.callers && w.callers[c].Registering? && !w.callers[c].inserted
    case EndRegistration(c) => c in w.callers && w.callers[c].Registering?
    case Cancel(_) => true
  }

  /** A call that claimed: it waits, or will ask once. */
  function Asking(w: World, c: CallerId, key: Key, open: OpenId, blocking: bool): (r: World) {
    w.(callers := w.callers[c := if blocking then Waiting(key, open) else Returning(key, open)],
       asked := if blocking then w.asked else w.asked + {open})
  }

  function Started(w: World, c: CallerId, key: Key, dir: Dir, blocking: bool): (r: World) {
    var entry := OpenEntry(w.next, dir, if blocking then 1 else 0, !blocking);
    Asking(w.(reg := w.reg.(opens := w.reg.opens[key := entry]), live := w.live[w.next := Asked(key, dir)],
      next := w.next + 1),
           c, key, w.next, blocking)
  }

  /** Where the claim sends the call. */
  function Sent(w: World, c: CallerId, key: Key, dir: Dir, blocking: bool, reg: Registry, claim: Claim): (r: World) {
    var w1 := w.(reg := reg);
    match claim
    case Elsewhere => w1
    case Bound(_) => w1
    case Join(open) => Asking(w1, c, key, open, blocking)
    case Start => Started(w1, c, key, dir, blocking)
  }

  function Opened(w: World, c: CallerId, key: Key, dir: Dir, blocking: bool, owner: Answer, own: Answer): (r: World) {
    var (reg, claim) := Claimed(w.reg, key, dir, blocking, owner, own);
    Sent(w.(roots := w.roots[c := dir]), c, key, dir, blocking, reg, claim)
  }

  /** The open at `key` is given up: its entry goes, and the driver answers it no more. */
  function GiveUp(w: World, key: Key, open: OpenId): (r: World) {
    w.(reg := w.reg.(opens := w.reg.opens - {key}), live := w.live - {open})
  }

  /** Whether the call whose wait ran out is the last one for its open. */
  predicate Alone(w: World, key: Key, open: OpenId) {
    key in w.reg.opens && w.reg.opens[key].open == open && w.reg.opens[key].waiting <= 1 && !w.reg.opens[key].returned
  }

  function TimedOut(w: World, c: CallerId): (r: World)
    requires c in w.callers && w.callers[c].Waiting?
  {
    var key, open := w.callers[c].key, w.callers[c].open;
    var w1 := w.(callers := w.callers - {c});
    if Alone(w, key, open) then GiveUp(w1, key, open)
    else if key in w.reg.opens && w.reg.opens[key].open == open then
      var e := w.reg.opens[key];
      w1.(reg := w1.reg.(opens := w1.reg.opens[key := e.(waiting := if e.waiting == 0 then 0 else e.waiting - 1)]))
    else w1
  }

  /** The answer taken: the entry of the key goes, whichever open it is for. */
  function Taken(w: World, c: CallerId): (r: World)
    requires Asks(w, c)
  {
    w.(reg := w.reg.(opens := w.reg.opens - {w.callers[c].key}), live := w.live - {w.callers[c].open},
      callers := w.callers - {c})
  }

  /** Its binding is to be registered by the call that took it. */
  function Registers(w: World, c: CallerId, key: Key, b: Binding): (r: World) {
    w.(reg := w.reg.(registering := w.reg.registering + {key}),
       callers := w.callers[c := Registering(key, b, false)],
       registrar := w.registrar[key := c])
  }

  function TookBound(w: World, c: CallerId, b: Binding): (r: World)
    requires Asks(w, c)
  {
    Registers(Taken(w, c), c, w.callers[c].key, b)
  }

  function Next(w: World, step: Step): (r: World)
    requires Enabled(w, step)
  {
    match step
    case Open(c, key, dir, blocking, owner, own) => Opened(w, c, key, dir, blocking, owner, own)
    case TimeOut(c) => TimedOut(w, c)
    case TakeBound(c, b) => TookBound(w, c, b)
    case TakeError(c) => Taken(w, c)
    case TakeNone(c) => w.(callers := w.callers - {c})
    case Insert(c) =>
      var me := w.callers[c];
      w.(reg := Bind(w.reg, me.key, me.b), callers := w.callers[c := me.(inserted := true)])
    case EndRegistration(c) =>
      var key := w.callers[c].key;
      w.(reg := w.reg.(registering := w.reg.registering - {key}), callers := w.callers - {c},
        registrar := w.registrar - {key})
    case Cancel(open) =>
      if open in w.live then GiveUp(w, w.live[open].key, open) else w
  }

  // ---------------------------------------------------------------------------------------------
  // What every step keeps.
  // ---------------------------------------------------------------------------------------------

  predicate BoundWell(reg: Registry, key: Key) {
    BoundAt(reg, key).Some? ==>
      var b := BoundAt(reg, key).value;
      b.path.key == key && b.path in reg.paths && reg.paths[b.path] == b
  }

  predicate PathWell(reg: Registry, p: DbPath)
    requires p in reg.paths
  {
    reg.paths[p].path == p && BoundAt(reg, p.key) == Some(reg.paths[p])
  }

  /** `paths` is exactly the path index of `names` and `readers`. */
  ghost predicate Indexed(reg: Registry) {
    && (forall key {:trigger BoundWell(reg, key)} :: BoundWell(reg, key))
    && (forall p {:trigger PathWell(reg, p)} :: p in reg.paths ==> PathWell(reg, p))
  }

  predicate OpenWell(w: World, key: Key)
    requires key in w.reg.opens
  {
    var e := w.reg.opens[key];
    key !in w.reg.registering && BoundAt(w.reg, key) == None && e.open in w.live && w.live[e.open].key == key
  }

  predicate LiveWell(w: World, o: OpenId)
    requires o in w.live
  {
    o < w.next && w.live[o].key in w.reg.opens && w.reg.opens[w.live[o].key].open == o
  }

  /**
   The opens in progress are the ones the driver may answer, one a key, with neither a registration
   nor a binding beside it.
   */
  ghost predicate OpensAlone(w: World) {
    && (forall key {:trigger OpenWell(w, key)} :: key in w.reg.opens ==> OpenWell(w, key))
    && (forall o {:trigger LiveWell(w, o)} :: o in w.live ==> LiveWell(w, o))
  }

  predicate RegistrarWell(w: World, key: Key)
    requires key in w.registrar
  {
    var c := w.registrar[key];
    key in w.reg.registering && c in w.callers && w.callers[c].Registering? && w.callers[c].key == key
  }

  predicate RegisteringWell(w: World, c: CallerId)
    requires c in w.callers
  {
    w.callers[c].Registering? ==>
      var me := w.callers[c];
      && me.key in w.registrar && w.registrar[me.key] == c && me.b.path.key == me.key
      && BoundAt(w.reg, me.key) == if me.inserted then Some(me.b) else None
  }

  /** Each registration is one call's, and a binding at its key is the one it inserted. */
  ghost predicate OneRegistrar(w: World) {
    && (forall key {:trigger key in w.reg.registering} :: key in w.reg.registering ==> key in w.registrar)
    && (forall key {:trigger RegistrarWell(w, key)} :: key in w.registrar ==> RegistrarWell(w, key))
    && (forall c {:trigger RegisteringWell(w, c)} :: c in w.callers ==> RegisteringWell(w, c))
  }

  function WaitersOf(callers: map<CallerId, Caller>, key: Key, open: OpenId): (r: set<CallerId>) {
    set c | c in callers && callers[c] == Waiting(key, open)
  }

  predicate CountWell(w: World, key: Key)
    requires key in w.reg.opens
  {
    var e := w.reg.opens[key];
    e.waiting == |WaitersOf(w.callers, key, e.open)| && (e.returned <==> e.open in w.asked)
  }

  predicate AskWell(w: World, c: CallerId)
    requires c in w.callers
  {
    !w.callers[c].Registering? ==>
      var o := w.callers[c].open;
      o < w.next && (o in w.live ==> w.live[o].key == w.callers[c].key)
  }

  /** An entry counts the calls that wait for it, and knows whether one that returned comes back. */
  ghost predicate Counted(w: World) {
    && (forall key {:trigger CountWell(w, key)} :: key in w.reg.opens ==> CountWell(w, key))
    && (forall c {:trigger AskWell(w, c)} :: c in w.callers ==> AskWell(w, c))
    && (forall o :: o in w.asked ==> o < w.next)
  }

  ghost predicate Sound(w: World) {
    Indexed(w.reg) && OpensAlone(w) && OneRegistrar(w) && Counted(w)
  }

  // ---------------------------------------------------------------------------------------------
  // Bindings come and go.
  // ---------------------------------------------------------------------------------------------

  lemma UnbindIndexed(reg: Registry, key: Key, b: Binding)
    requires Indexed(reg) && BoundAt(reg, key) == Some(b)
    ensures Indexed(Unbind(reg, key, b))
    ensures forall k :: BoundAt(Unbind(reg, key, b), k) == if k == key then None else BoundAt(reg, k)
  {
    var r := Unbind(reg, key, b);
    assert BoundWell(reg, key);
    forall k ensures BoundAt(r, k) == if k == key then None else BoundAt(reg, k) {
      assert k.role == key.role && k.name == key.name ==> k == key;
    }
    forall k ensures BoundWell(r, k) {
      assert BoundWell(reg, k);
    }
    forall p | p in r.paths ensures PathWell(r, p) {
      assert PathWell(reg, p);
    }
  }

  lemma BindIndexed(reg: Registry, key: Key, b: Binding)
    requires Indexed(reg) && BoundAt(reg, key) == None && b.path.key == key
    ensures Indexed(Bind(reg, key, b))
    ensures forall k :: BoundAt(Bind(reg, key, b), k) == if k == key then Some(b) else BoundAt(reg, k)
  {
    var r := Bind(reg, key, b);
    assert b.path in reg.paths ==> PathWell(reg, b.path);
    forall k ensures BoundAt(r, k) == if k == key then Some(b) else BoundAt(reg, k) {
      assert k.role == key.role && k.name == key.name ==> k == key;
    }
    forall k ensures BoundWell(r, k) {
      assert BoundWell(reg, k);
    }
    forall p | p in r.paths ensures PathWell(r, p) {
      if p != b.path {
        assert PathWell(reg, p);
      }
    }
  }

  /** A registry that lost bindings of streams nobody registers, and nothing else. */
  ghost predicate Lost(reg: Registry, r: Registry) {
    && Indexed(r) && r.opens == reg.opens && r.registering == reg.registering
    && forall k :: BoundAt(r, k) == BoundAt(reg, k) || (BoundAt(r, k) == None && k !in reg.registering)
  }

  lemma LostKeeps(w: World, reg: Registry)
    requires Sound(w) && Lost(w.reg, reg)
    ensures Sound(w.(reg := reg))
  {
    var r := w.(reg := reg);
    forall key | key in r.reg.opens ensures OpenWell(r, key) && CountWell(r, key) {
      assert OpenWell(w, key) && CountWell(w, key);
    }
    forall o | o in r.live ensures LiveWell(r, o) {
      assert LiveWell(w, o);
    }
    forall key | key in r.registrar ensures RegistrarWell(r, key) {
      assert RegistrarWell(w, key);
    }
    forall c | c in r.callers ensures RegisteringWell(r, c) && AskWell(r, c) {
      assert RegisteringWell(w, c) && AskWell(w, c);
      if r.callers[c].Registering? {
        assert RegistrarWell(w, r.callers[c].key);
      }
    }
  }

  lemma MeetLoses(reg: Registry, key: Key, dir: Dir, answer: Answer)
    requires Indexed(reg) && key !in reg.registering
    ensures Meet(reg, key, dir, answer).Kept? ==>
              var r := Meet(reg, key, dir, answer).reg;
              Lost(reg, r) && BoundAt(r, key) == None
  {
    if BoundAt(reg, key).Some? {
      UnbindIndexed(reg, key, BoundAt(reg, key).value);
    }
  }

  // ---------------------------------------------------------------------------------------------
  // The steps.
  // ---------------------------------------------------------------------------------------------

  lemma OneMoreWaits(callers: map<CallerId, Caller>, c: CallerId, me: Caller, key: Key, open: OpenId)
    requires c !in callers
    ensures var r := callers[c := me];
            |WaitersOf(r, key, open)| == |WaitersOf(callers, key, open)| + (if me == Waiting(key, open) then 1 else 0)
  {
    var r := callers[c := me];
    var before := WaitersOf(callers, key, open);
    if me == Waiting(key, open) {
      SameInts(WaitersOf(r, key, open), before + {c});
    } else {
      SameInts(WaitersOf(r, key, open), before);
    }
  }

  lemma OneLessWaits(callers: map<CallerId, Caller>, c: CallerId, key: Key, open: OpenId)
    requires c in callers
    ensures |WaitersOf(callers - {c}, key, open)|
         == |WaitersOf(callers, key, open)| - (if callers[c] == Waiting(key, open) then 1 else 0)
  {
    OneMoreWaits(callers - {c}, c, callers[c], key, open);
    assert (callers - {c})[c := callers[c]] == callers;
  }

  /** A caller that registers nothing comes: the registrations stand as they did. */
  lemma NewCallerRegistrars(w: World, r: World, c: CallerId)
    requires OneRegistrar(w) && c !in w.callers && c in r.callers && !r.callers[c].Registering?
    requires r.callers == w.callers[c := r.callers[c]] && r.registrar == w.registrar
    requires r.reg.registering == w.reg.registering
    requires forall k :: BoundAt(r.reg, k) == BoundAt(w.reg, k)
    ensures OneRegistrar(r)
  {
    forall key | key in r.registrar ensures RegistrarWell(r, key) {
      assert RegistrarWell(w, key);
    }
    forall d | d in r.callers ensures RegisteringWell(r, d) {
      if d != c {
        assert RegisteringWell(w, d);
      }
    }
  }

  /** One that registers nothing goes. */
  lemma CallerGoneRegistrars(w: World, r: World, c: CallerId)
    requires OneRegistrar(w) && c in w.callers && !w.callers[c].Registering?
    requires r.callers == w.callers - {c} && r.registrar == w.registrar && r.reg.registering == w.reg.registering
    requires forall k :: BoundAt(r.reg, k) == BoundAt(w.reg, k)
    ensures OneRegistrar(r)
  {
    forall key | key in r.registrar ensures RegistrarWell(r, key) {
      assert RegistrarWell(w, key);
    }
    forall d | d in r.callers ensures RegisteringWell(r, d) {
      assert RegisteringWell(w, d);
    }
  }

  lemma SameBindings(reg: Registry, r: Registry)
    requires r.names == reg.names && r.readers == reg.readers && r.paths == reg.paths
    ensures forall k :: BoundAt(r, k) == BoundAt(reg, k)
    ensures Indexed(reg) ==> Indexed(r)
  {
    if Indexed(reg) {
      forall k ensures BoundWell(r, k) {
        assert BoundWell(reg, k);
      }
      forall p | p in r.paths ensures PathWell(r, p) {
        assert PathWell(reg, p);
      }
    }
  }

  /** A call joins the open in progress at its key. */
  lemma JoinKeeps(w: World, c: CallerId, key: Key, blocking: bool)
    requires Sound(w) && c !in w.callers && key in w.reg.opens
    ensures var (reg, claim) := JoinOrStart(w.reg, key, blocking);
            claim.Join? && Sound(Asking(w.(reg := reg), c, key, claim.open, blocking))
  {
    var (reg, claim) := JoinOrStart(w.reg, key, blocking);
    var r := Asking(w.(reg := reg), c, key, claim.open, blocking);
    SameBindings(w.reg, reg);
    NewCallerRegistrars(w, r, c);
    assert OpenWell(w, key);
    assert LiveWell(w, claim.open);
    JoinOpens(w, r, key);
    JoinCounts(w, r, c, key, blocking);
  }

  lemma JoinOpens(w: World, r: World, key: Key)
    requires OpensAlone(w) && key in w.reg.opens && r.live == w.live && r.next == w.next
    requires r.reg.registering == w.reg.registering && r.reg.opens.Keys == w.reg.opens.Keys
    requires forall k :: k in r.reg.opens ==> r.reg.opens[k].open == w.reg.opens[k].open
    requires forall k :: BoundAt(r.reg, k) == BoundAt(w.reg, k)
    ensures OpensAlone(r)
  {
    forall k | k in r.reg.opens ensures OpenWell(r, k) {
      assert OpenWell(w, k);
    }
    forall o | o in r.live ensures LiveWell(r, o) {
      assert LiveWell(w, o);
    }
  }

  /** Opens of two keys are two opens. */
  lemma OpensApart(w: World, a: Key, b: Key)
    requires OpensAlone(w) && a in w.reg.opens && b in w.reg.opens && a != b
    ensures w.reg.opens[a].open != w.reg.opens[b].open
  {
    assert OpenWell(w, a) && OpenWell(w, b);
  }

  lemma JoinCounts(w: World, r: World, c: CallerId, key: Key, blocking: bool)
    requires Sound(w) && c !in w.callers && key in w.reg.opens
    requires var (reg, claim) := JoinOrStart(w.reg, key, blocking);
             claim.Join? && r == Asking(w.(reg := reg), c, key, claim.open, blocking)
    ensures Counted(r)
  {
    var open := w.reg.opens[key].open;
    assert OpenWell(w, key);
    assert LiveWell(w, open);
    forall k | k in r.reg.opens ensures CountWell(r, k) {
      assert CountWell(w, k);
      OneMoreWaits(w.callers, c, r.callers[c], k, w.reg.opens[k].open);
      if k != key {
        OpensApart(w, k, key);
      }
    }
    forall d | d in r.callers ensures AskWell(r, d) {
      if d != c {
        assert AskWell(w, d);
      }
    }
  }

  /** A new open at a free key. */
  lemma StartKeeps(w: World, c: CallerId, key: Key, dir: Dir, blocking: bool)
    requires Sound(w) && c !in w.callers && key !in w.reg.opens && key !in w.reg.registering
    requires BoundAt(w.reg, key) == None
    ensures Sound(Started(w, c, key, dir, blocking))
  {
    var r := Started(w, c, key, dir, blocking);
    SameBindings(w.reg, r.reg);
    NewCallerRegistrars(w, r, c);
    StartOpens(w, c, key, dir, blocking, r);
    StartCounts(w, c, key, dir, blocking, r);
  }

  lemma StartOpens(w: World, c: CallerId, key: Key, dir: Dir, blocking: bool, r: World)
    requires Sound(w) && c !in w.callers && key !in w.reg.opens && key !in w.reg.registering
    requires BoundAt(w.reg, key) == None
    requires r == Started(w, c, key, dir, blocking)
    ensures OpensAlone(r)
  {
    SameBindings(w.reg, r.reg);
    forall k | k in r.reg.opens ensures OpenWell(r, k) {
      if k != key {
        assert OpenWell(w, k);
        assert LiveWell(w, w.reg.opens[k].open);
      }
    }
    forall o | o in r.live ensures LiveWell(r, o) {
      if o != w.next {
        assert LiveWell(w, o);
      }
    }
  }

  lemma StartCounts(w: World, c: CallerId, key: Key, dir: Dir, blocking: bool, r: World)
    requires Sound(w) && c !in w.callers && key !in w.reg.opens && r == Started(w, c, key, dir, blocking)
    ensures Counted(r)
  {
    forall d | d in r.callers ensures AskWell(r, d) {
      if d != c {
        assert AskWell(w, d);
      }
    }
    forall k | k in r.reg.opens ensures CountWell(r, k) {
      if k != key {
        assert CountWell(w, k);
        assert OpenWell(w, k);
        assert LiveWell(w, w.reg.opens[k].open);
        OneMoreWaits(w.callers, c, r.callers[c], k, w.reg.opens[k].open);
      } else {
        OneMoreWaits(w.callers, c, r.callers[c], key, w.next);
        NoneWaits(w, key);
      }
    }
  }

  /** Nobody waits for an open not started yet. */
  lemma NoneWaits(w: World, key: Key)
    requires Counted(w)
    ensures |WaitersOf(w.callers, key, w.next)| == 0
  {
    forall c ensures c !in WaitersOf(w.callers, key, w.next) {
      if c in w.callers {
        assert AskWell(w, c);
      }
    }
    NoInts(WaitersOf(w.callers, key, w.next));
  }

  /** The second half of `claim`. */
  lemma OwnKeeps(w: World, c: CallerId, key: Key, dir: Dir, blocking: bool, own: Answer)
    requires Sound(w) && c !in w.callers && key !in w.reg.registering
    ensures var (reg, claim) := ClaimOwn(w.reg, key, dir, blocking, own);
        Sound(Sent(w, c, key, dir, blocking, reg, claim))
  {
    MeetLoses(w.reg, key, dir, own);
    var met := Meet(w.reg, key, dir, own);
    if met.Kept? {
      LostKeeps(w, met.reg);
      var w1 := w.(reg := met.reg);
      if key in met.reg.opens {
        JoinKeeps(w1, c, key, blocking);
      } else {
        StartKeeps(w1, c, key, dir, blocking);
      }
    }
  }

  lemma SentSame(w: World, w1: World, c: CallerId, key: Key, dir: Dir, blocking: bool, reg: Registry, claim: Claim)
    requires w1 == w.(reg := w1.reg)
    ensures Sent(w1, c, key, dir, blocking, reg, claim) == Sent(w, c, key, dir, blocking, reg, claim)
  {
  }

  /** A reader's open meets the owner's binding first. */
  lemma OwnerMet(w: World, key: Key, dir: Dir, owner: Answer)
    requires Sound(w) && !Busy(w.reg, key)
    ensures var met := if key.role.Reader? then Meet(w.reg, Key(key.name, Owner), dir, owner) else Kept(w.reg);
            met.Kept? ==> Sound(w.(reg := met.reg)) && key !in met.reg.registering
  {
    if key.role.Reader? {
      MeetLoses(w.reg, Key(key.name, Owner), dir, owner);
      var met := Meet(w.reg, Key(key.name, Owner), dir, owner);
      if met.Kept? {
        LostKeeps(w, met.reg);
      }
    }
  }

  lemma RootsDoNotMatter(w: World, roots: map<CallerId, Dir>)
    requires Sound(w)
    ensures Sound(w.(roots := roots))
  {
    var r := w.(roots := roots);
    forall key | key in r.reg.opens ensures OpenWell(r, key) && CountWell(r, key) {
      assert OpenWell(w, key) && CountWell(w, key);
    }
    forall o | o in r.live ensures LiveWell(r, o) {
      assert LiveWell(w, o);
    }
    forall key | key in r.registrar ensures RegistrarWell(r, key) {
      assert RegistrarWell(w, key);
    }
    forall c | c in r.callers ensures RegisteringWell(r, c) && AskWell(r, c) {
      assert RegisteringWell(w, c) && AskWell(w, c);
    }
  }

  lemma OpenKeeps(w: World, c: CallerId, key: Key, dir: Dir, blocking: bool, owner: Answer, own: Answer)
    requires Sound(w) && c !in w.callers && !Busy(w.reg, key)
    ensures Sound(Opened(w, c, key, dir, blocking, owner, own))
  {
    var w0 := w.(roots := w.roots[c := dir]);
    RootsDoNotMatter(w, w0.roots);
    OwnerMet(w0, key, dir, owner);
    var met := if key.role.Reader? then Meet(w0.reg, Key(key.name, Owner), dir, owner) else Kept(w0.reg);
    if !(key in w0.reg.opens && w0.reg.opens[key].dir != dir) && met.Kept? {
      var w1 := w0.(reg := met.reg);
      OwnKeeps(w1, c, key, dir, blocking, own);
      var (reg, claim) := ClaimOwn(w1.reg, key, dir, blocking, own);
      SentSame(w0, w1, c, key, dir, blocking, reg, claim);
    }
  }

  // ---------------------------------------------------------------------------------------------
  // Opens end.
  // ---------------------------------------------------------------------------------------------

  /** A caller goes that waits for no open in progress, or whose entry was counted down. */
  lemma CallerGoneCounts(w: World, r: World, c: CallerId)
    requires Sound(w) && c in w.callers && r.callers == w.callers - {c}
    requires r.live == w.live && r.next == w.next && r.asked == w.asked
    requires r.reg.opens.Keys == w.reg.opens.Keys
    requires forall k :: k in w.reg.opens ==>
                           r.reg.opens[k] == if w.callers[c] == Waiting(k, w.reg.opens[k].open)
                                             then w.reg.opens[k].(waiting := r.reg.opens[k].waiting) else w.reg.opens[k]
    requires forall k :: k in w.reg.opens && w.callers[c] == Waiting(k, w.reg.opens[k].open) ==>
                           r.reg.opens[k].waiting == w.reg.opens[k].waiting - 1
    ensures Counted(r)
  {
    forall k | k in r.reg.opens ensures CountWell(r, k) {
      assert CountWell(w, k);
      OneLessWaits(w.callers, c, k, w.reg.opens[k].open);
    }
    forall d | d in r.callers ensures AskWell(r, d) {
      assert AskWell(w, d);
    }
  }

  /** The entry of an open that ends, and its caller with it. */
  lemma EndedOpens(w: World, r: World, key: Key, open: OpenId)
    requires Sound(w) && key in w.reg.opens && w.reg.opens[key].open == open && r.next == w.next
    requires r.reg == w.reg.(opens := w.reg.opens - {key}, registering := r.reg.registering)
    requires r.live == w.live - {open}
    requires forall k :: k in r.reg.registering ==> k in w.reg.registering || k == key
    ensures Indexed(r.reg) && OpensAlone(r)
  {
    SameBindings(w.reg, r.reg);
    forall k | k in r.reg.opens ensures OpenWell(r, k) {
      assert OpenWell(w, k);
      OpensApart(w, k, key);
    }
    forall o | o in r.live ensures LiveWell(r, o) {
      assert LiveWell(w, o);
    }
  }

  lemma EndedCounts(w: World, r: World, key: Key, open: OpenId)
    requires Sound(w) && key in w.reg.opens && w.reg.opens[key].open == open && r.next == w.next && r.asked == w.asked
    requires r.reg.opens == w.reg.opens - {key} && r.live == w.live - {open}
    requires forall d :: d in r.callers ==>
                           (d in w.callers && r.callers[d] == w.callers[d]) || r.callers[d].Registering?
    requires forall d :: d in w.callers ==>
                           || (d in r.callers && r.callers[d] == w.callers[d])
                           || w.callers[d] == Waiting(key, open) || w.callers[d] == Returning(key, open)
    ensures Counted(r)
  {
    forall k | k in r.reg.opens ensures CountWell(r, k) {
      assert CountWell(w, k);
      SameInts(WaitersOf(r.callers, k, r.reg.opens[k].open), WaitersOf(w.callers, k, w.reg.opens[k].open));
    }
    forall d | d in r.callers ensures AskWell(r, d) {
      if d in w.callers {
        assert AskWell(w, d);
      }
    }
  }

  lemma GiveUpKeeps(w: World, key: Key, open: OpenId)
    requires Sound(w) && key in w.reg.opens && w.reg.opens[key].open == open
    ensures Sound(GiveUp(w, key, open))
  {
    var r := GiveUp(w, key, open);
    EndedOpens(w, r, key, open);
    EndedCounts(w, r, key, open);
    forall k | k in r.registrar ensures RegistrarWell(r, k) {
      assert RegistrarWell(w, k);
    }
    forall d | d in r.callers ensures RegisteringWell(r, d) {
      assert RegisteringWell(w, d);
    }
  }

  lemma CancelKeeps(w: World, open: OpenId)
    requires Sound(w)
    ensures Sound(Next(w, Cancel(open)))
  {
    if open in w.live {
      assert LiveWell(w, open);
      GiveUpKeeps(w, w.live[open].key, open);
    }
  }

  /** A caller goes and its key's entry, if it is its open's, with it. */
  lemma TakenKeeps(w: World, c: CallerId)
    requires Sound(w) && Asks(w, c) && w.callers[c].open in w.live
    ensures Sound(Taken(w, c)) && w.callers[c].key in w.reg.opens
    ensures w.reg.opens[w.callers[c].key].open == w.callers[c].open
  {
    var key, open := w.callers[c].key, w.callers[c].open;
    assert AskWell(w, c);
    assert LiveWell(w, open);
    var r := Taken(w, c);
    EndedOpens(w, r, key, open);
    EndedCounts(w, r, key, open);
    SameBindings(w.reg, r.reg);
    CallerGoneRegistrars(w, r, c);
  }

  lemma TimeOutKeeps(w: World, c: CallerId)
    requires Sound(w) && c in w.callers && w.callers[c].Waiting?
    ensures Sound(TimedOut(w, c))
  {
    var key, open := w.callers[c].key, w.callers[c].open;
    var r := TimedOut(w, c);
    SameBindings(w.reg, r.reg);
    CallerGoneRegistrars(w, r, c);
    if key in w.reg.opens && w.reg.opens[key].open == open {
      assert CountWell(w, key);
      WaiterCounts(w.callers, c, key, open);
      if Alone(w, key, open) {
        EndedOpens(w, r, key, open);
        EndedCounts(w, r, key, open);
      } else {
        JoinOpens(w, r, key);
        CallerGoneCounts(w, r, c);
      }
    } else {
      CallerGoneCounts(w, r, c);
      SameOpens(w, r);
    }
  }

  lemma WaiterCounts(callers: map<CallerId, Caller>, c: CallerId, key: Key, open: OpenId)
    requires c in callers && callers[c] == Waiting(key, open)
    ensures |WaitersOf(callers, key, open)| >= 1
  {
    assert c in WaitersOf(callers, key, open);
  }

  lemma SameOpens(w: World, r: World)
    requires OpensAlone(w) && r.reg.opens == w.reg.opens && r.reg.registering == w.reg.registering
    requires r.live == w.live && r.next == w.next
    requires forall k :: BoundAt(r.reg, k) == BoundAt(w.reg, k)
    ensures OpensAlone(r)
  {
    forall k | k in r.reg.opens ensures OpenWell(r, k) {
      assert OpenWell(w, k);
    }
    forall o | o in r.live ensures LiveWell(r, o) {
      assert LiveWell(w, o);
    }
  }

  lemma TakeNoneKeeps(w: World, c: CallerId)
    requires Sound(w) && Enabled(w, TakeNone(c))
    ensures Sound(Next(w, TakeNone(c)))
  {
    var r := Next(w, TakeNone(c));
    CallerGoneRegistrars(w, r, c);
    SameOpens(w, r);
    forall k | k in w.reg.opens ensures w.callers[c] != Waiting(k, w.reg.opens[k].open) {
      assert OpenWell(w, k);
    }
    CallerGoneCounts(w, r, c);
  }

  // ---------------------------------------------------------------------------------------------
  // Registrations.
  // ---------------------------------------------------------------------------------------------

  predicate Free(w: World, key: Key) {
    key !in w.reg.opens && key !in w.reg.registering && BoundAt(w.reg, key) == None
  }

  lemma RegistersKeeps(w: World, c: CallerId, key: Key, b: Binding)
    requires Sound(w) && c !in w.callers && Free(w, key) && b.path.key == key
    ensures Sound(Registers(w, c, key, b))
  {
    var r := Registers(w, c, key, b);
    SameBindings(w.reg, r.reg);
    forall k | k in r.reg.opens ensures OpenWell(r, k) && CountWell(r, k) {
      assert OpenWell(w, k) && CountWell(w, k);
      OneMoreWaits(w.callers, c, r.callers[c], k, w.reg.opens[k].open);
    }
    forall o | o in r.live ensures LiveWell(r, o) {
      assert LiveWell(w, o);
    }
    RegistersRegistrar(w, c, key, b, r);
    forall d | d in r.callers ensures AskWell(r, d) {
      if d != c {
        assert AskWell(w, d);
      }
    }
  }

  lemma RegistersRegistrar(w: World, c: CallerId, key: Key, b: Binding, r: World)
    requires Sound(w) && c !in w.callers && Free(w, key) && b.path.key == key && r == Registers(w, c, key, b)
    ensures OneRegistrar(r)
  {
    SameBindings(w.reg, r.reg);
    forall k | k in r.registrar ensures RegistrarWell(r, k) {
      if k != key {
        assert RegistrarWell(w, k);
      }
    }
    forall d | d in r.callers ensures RegisteringWell(r, d) {
      if d != c {
        assert RegisteringWell(w, d);
        if w.callers[d].Registering? {
          assert RegistrarWell(w, w.callers[d].key);
        }
      }
    }
  }

  lemma TakeBoundKeeps(w: World, c: CallerId, b: Binding)
    requires Sound(w) && Asks(w, c) && w.callers[c].open in w.live && b.path.key == w.callers[c].key
    ensures Sound(TookBound(w, c, b))
  {
    TakenKeeps(w, c);
    var key := w.callers[c].key;
    assert OpenWell(w, key);
    var w1 := Taken(w, c);
    SameBindings(w.reg, w1.reg);
    RegistersKeeps(w1, c, key, b);
  }

  lemma InsertKeeps(w: World, c: CallerId)
    requires Sound(w) && Enabled(w, Insert(c))
    ensures Sound(Next(w, Insert(c)))
  {
    var me := w.callers[c];
    var r := Next(w, Insert(c));
    assert RegisteringWell(w, c);
    assert RegistrarWell(w, me.key);
    BindIndexed(w.reg, me.key, me.b);
    forall k | k in r.reg.opens ensures OpenWell(r, k) && CountWell(r, k) {
      assert OpenWell(w, k) && CountWell(w, k);
      SameInts(WaitersOf(r.callers, k, r.reg.opens[k].open), WaitersOf(w.callers, k, w.reg.opens[k].open));
    }
    forall o | o in r.live ensures LiveWell(r, o) {
      assert LiveWell(w, o);
    }
    forall k | k in r.registrar ensures RegistrarWell(r, k) {
      assert RegistrarWell(w, k);
    }
    forall d | d in r.callers ensures RegisteringWell(r, d) && AskWell(r, d) {
      assert RegisteringWell(w, d) && AskWell(w, d);
    }
  }

  lemma EndRegistrationKeeps(w: World, c: CallerId)
    requires Sound(w) && Enabled(w, EndRegistration(c))
    ensures Sound(Next(w, EndRegistration(c)))
  {
    var r := Next(w, EndRegistration(c));
    assert RegisteringWell(w, c);
    SameBindings(w.reg, r.reg);
    forall k | k in r.reg.opens ensures OpenWell(r, k) && CountWell(r, k) {
      assert OpenWell(w, k) && CountWell(w, k);
      OneLessWaits(w.callers, c, k, w.reg.opens[k].open);
    }
    forall o | o in r.live ensures LiveWell(r, o) {
      assert LiveWell(w, o);
    }
    forall k | k in r.registrar ensures RegistrarWell(r, k) {
      assert RegistrarWell(w, k);
    }
    forall d | d in r.callers ensures RegisteringWell(r, d) && AskWell(r, d) {
      assert RegisteringWell(w, d) && AskWell(w, d);
    }
  }

  lemma StepKeeps(w: World, step: Step)
    requires Sound(w) && Enabled(w, step)
    ensures Sound(Next(w, step))
  {
    match step {
      case Open(c, key, dir, blocking, owner, own) => OpenKeeps(w, c, key, dir, blocking, owner, own);
      case TimeOut(c) => TimeOutKeeps(w, c);
      case TakeBound(c, b) => TakeBoundKeeps(w, c, b);
      case TakeError(c) => TakenKeeps(w, c);
      case TakeNone(c) => TakeNoneKeeps(w, c);
      case Insert(c) => InsertKeeps(w, c);
      case EndRegistration(c) => EndRegistrationKeeps(w, c);
      case Cancel(open) => CancelKeeps(w, open);
    }
  }

  // ---------------------------------------------------------------------------------------------
  // Runs.
  // ---------------------------------------------------------------------------------------------

  predicate Legal(w: World, run: seq<Step>)
    decreases |run|
  {
    run == [] || (Enabled(w, run[0]) && Legal(Next(w, run[0]), run[1..]))
  }

  function After(w: World, run: seq<Step>): (r: World)
    requires Legal(w, run)
    decreases |run|
  {
    if run == [] then w else After(Next(w, run[0]), run[1..])
  }

  lemma {:induction false} RunKeeps(w: World, run: seq<Step>)
    requires Sound(w) && Legal(w, run)
    ensures Sound(After(w, run))
    decreases |run|
  {
    if run != [] {
      StepKeeps(w, run[0]);
      RunKeeps(Next(w, run[0]), run[1..]);
    }
  }

  /**
   In every run a stream and role has an open in progress, a registration or a binding, and never an
   open beside either of the others; a binding beside a registration is the one it inserted; and
   `paths` is exactly the path index of `names` and `readers`.
   */
  lemma OneAtATime(run: seq<Step>, key: Key)
    requires Legal(START, run)
    ensures var w := After(START, run);
            && Indexed(w.reg)
            && (key in w.reg.opens ==> key !in w.reg.registering && BoundAt(w.reg, key) == None)
            && (key in w.reg.registering ==>
                  && key in w.registrar && w.registrar[key] in w.callers && w.callers[w.registrar[key]].Registering?
                  && (BoundAt(w.reg, key) == None || BoundAt(w.reg, key) == Some(w.callers[w.registrar[key]].b)))
  {
    RunKeeps(START, run);
    var w := After(START, run);
    assert key in w.reg.opens ==> OpenWell(w, key);
    if key in w.registrar {
      assert RegistrarWell(w, key);
      assert RegisteringWell(w, w.registrar[key]);
    }
  }

  /** A call whose wait ran out gives the open up exactly when no other call waits for it or comes back for it. */
  lemma GivesUpExactlyAlone(w: World, c: CallerId)
    requires Sound(w) && c in w.callers && w.callers[c].Waiting? && w.callers[c].open in w.live
    ensures var me := w.callers[c];
            me.open !in TimedOut(w, c).live
            <==> (forall d :: d in w.callers && d != c ==> w.callers[d] != me) && me.open !in w.asked
  {
    var me := w.callers[c];
    assert AskWell(w, c);
    assert LiveWell(w, me.open);
    assert CountWell(w, me.key);
    WaitersAlone(w.callers, c, me.key, me.open);
  }

  lemma WaitersAlone(callers: map<CallerId, Caller>, c: CallerId, key: Key, open: OpenId)
    requires c in callers && callers[c] == Waiting(key, open)
    ensures |WaitersOf(callers, key, open)| <= 1 <==> forall d :: d in callers && d != c ==>
              callers[d] != Waiting(key, open)
  {
    OneLessWaits(callers, c, key, open);
    var others := WaitersOf(callers - {c}, key, open);
    if forall d :: d in callers && d != c ==> callers[d] != Waiting(key, open) {
      NoInts(others);
    } else {
      var d :| d in callers && d != c && callers[d] == Waiting(key, open);
      assert d in others;
    }
  }

  /**
   `take` removes the entry of its key whichever open it is for, so all of it rests on the driver:
   taking an answer keeps the registry sound exactly when the open is one it may still answer, or
   the key is free.
   */
  lemma StrayAnswer(w: World, c: CallerId, b: Binding)
    requires Sound(w) && Asks(w, c) && b.path.key == w.callers[c].key
    ensures Sound(TookBound(w, c, b)) <==> w.callers[c].open in w.live || Free(w, w.callers[c].key)
  {
    var key, open := w.callers[c].key, w.callers[c].open;
    if open in w.live {
      TakeBoundKeeps(w, c, b);
    } else if Free(w, key) {
      FreeTaken(w, c);
      RegistersKeeps(Taken(w, c), c, key, b);
    } else {
      StrayBreaks(w, c, b);
    }
  }

  lemma FreeTaken(w: World, c: CallerId)
    requires Sound(w) && Asks(w, c) && w.callers[c].open !in w.live && Free(w, w.callers[c].key)
    ensures Sound(Taken(w, c)) && Free(Taken(w, c), w.callers[c].key)
  {
    var r := Taken(w, c);
    assert r.reg.opens == w.reg.opens && r.live == w.live;
    SameBindings(w.reg, r.reg);
    CallerGoneRegistrars(w, r, c);
    SameOpens(w, r);
    CallerGoneCounts(w, r, c);
  }

  lemma StrayBreaks(w: World, c: CallerId, b: Binding)
    requires Sound(w) && Asks(w, c) && w.callers[c].open !in w.live && !Free(w, w.callers[c].key)
    ensures !Sound(TookBound(w, c, b))
  {
    var key := w.callers[c].key;
    var r := TookBound(w, c, b);
    if key in w.reg.opens {
      var o := w.reg.opens[key].open;
      assert OpenWell(w, key);
      assert o in r.live && !LiveWell(r, o);
    } else if key in w.reg.registering {
      var d := w.registrar[key];
      assert RegistrarWell(w, key);
      assert d in r.callers && !RegisteringWell(r, d);
    } else {
      SameBindings(w.reg, r.reg);
      assert !RegisteringWell(r, c);
    }
  }

  /** What a claim comes to, under the cache root it asked for. */
  ghost predicate Rooted(reg: Registry, claim: Claim, key: Key, dir: Dir) {
    match claim
    case Elsewhere => true
    case Bound(b) => b.dir == dir && b.path in reg.paths
    case Join(open) =>
      BoundAt(reg, key) == None && key in reg.opens && reg.opens[key].dir == dir && reg.opens[key].open == open
    case Start => BoundAt(reg, key) == None && key !in reg.opens
  }

  lemma OwnRooted(reg: Registry, key: Key, dir: Dir, blocking: bool, own: Answer)
    requires Indexed(reg) && key !in reg.registering && (key in reg.opens ==> reg.opens[key].dir == dir)
    ensures var (r, claim) := ClaimOwn(reg, key, dir, blocking, own);
            Rooted(r, claim, key, dir) && forall k :: BoundAt(r, k) == BoundAt(reg, k) || BoundAt(r, k) == None
  {
    MeetLoses(reg, key, dir, own);
    assert BoundWell(reg, key);
    var met := Meet(reg, key, dir, own);
    if met.Kept? {
      var (r, _) := JoinOrStart(met.reg, key, blocking);
      SameBindings(met.reg, r);
    }
  }

  /**
   What an open gets is under the cache root it asked for. One that joins or starts leaves no
   binding of its stream it could have shared, a reader's open none of the owner's either.
   */
  lemma OneRoot(w: World, key: Key, dir: Dir, blocking: bool, owner: Answer, own: Answer)
    requires Sound(w) && !Busy(w.reg, key)
    ensures var (reg, claim) := Claimed(w.reg, key, dir, blocking, owner, own);
            && Rooted(reg, claim, key, dir)
            && (claim.Join? || claim.Start? ==> key.role.Reader? ==> BoundAt(reg, Key(key.name, Owner)) == None)
  {
    if key in w.reg.opens && w.reg.opens[key].dir != dir {
      return;
    }
    var other := Key(key.name, Owner);
    assert BoundWell(w.reg, other);
    if key.role.Reader? {
      MeetLoses(w.reg, other, dir, owner);
      var met := Meet(w.reg, other, dir, owner);
      if met.Kept? {
        OwnRooted(met.reg, key, dir, blocking, own);
      }
    } else {
      OwnRooted(w.reg, key, dir, blocking, own);
    }
  }

  /** The host still holds the binding at `k`, under another root than `dir`. */
  predicate HeldElsewhere(reg: Registry, k: Key, dir: Dir, answer: Answer) {
    BoundAt(reg, k).Some? && BoundAt(reg, k).value.dir != dir && !answer.reset && !answer.givesUp
  }

  /**
   A binding the host holds under another root stays, and the open is refused unless the owner's
   binding serves it.
   */
  lemma HeldStays(reg: Registry, key: Key, dir: Dir, blocking: bool, owner: Answer, own: Answer)
    requires Indexed(reg) && !Busy(reg, key)
    ensures var (r, claim) := Claimed(reg, key, dir, blocking, owner, own);
            var k := Key(key.name, Owner);
            && (HeldElsewhere(reg, key, dir, own) ==>
                  && BoundAt(r, key) == BoundAt(reg, key)
                  && (claim.Elsewhere? || (claim.Bound? && key.role.Reader?)))
            && (key.role.Reader? && HeldElsewhere(reg, k, dir, owner) ==>
                BoundAt(r, k) == BoundAt(reg, k) && claim.Elsewhere?)
  {
    var k := Key(key.name, Owner);
    if key.role.Reader? {
      MeetLoses(reg, k, dir, owner);
      if BoundAt(reg, k).Some? {
        UnbindIndexed(reg, k, BoundAt(reg, k).value);
      }
    }
  }

  // ---------------------------------------------------------------------------------------------
  // The root a call asked for is the root its binding is under.
  // ---------------------------------------------------------------------------------------------

  /** A call waits for, or registers, what is under the root it asked for. */
  predicate CallerRooted(w: World, c: CallerId)
    requires c in w.callers
  {
    && c in w.roots
    && (w.callers[c].Registering? ==> w.callers[c].b.dir == w.roots[c])
    && (Asks(w, c) && w.callers[c].open in w.live ==> w.live[w.callers[c].open].dir == w.roots[c])
  }

  /** An entry and the driver's open are under one root. */
  predicate EntryRooted(w: World, key: Key)
    requires key in w.reg.opens
  {
    w.reg.opens[key].open in w.live ==> w.live[w.reg.opens[key].open].dir == w.reg.opens[key].dir
  }

  predicate UnderRoots(w: World) {
    && (forall c {:trigger CallerRooted(w, c)} :: c in w.callers ==> CallerRooted(w, c))
    && (forall key {:trigger EntryRooted(w, key)} :: key in w.reg.opens ==> EntryRooted(w, key))
  }

  /** Opens in progress and calls only go: what is left is under its root still. */
  lemma FewerRooted(w: World, r: World)
    requires UnderRoots(w) && r.roots == w.roots
    requires forall c :: c in r.callers ==> c in w.callers && r.callers[c] == w.callers[c]
    requires forall key :: key in r.reg.opens ==> key in w.reg.opens && r.reg.opens[key].open == w.reg.opens[key].open
                                                  && (r.reg.opens[key].dir == w.reg.opens[key].dir)
    requires forall o :: o in r.live ==> o in w.live && r.live[o] == w.live[o]
    ensures UnderRoots(r)
  {
    forall c | c in r.callers ensures CallerRooted(r, c) {
      assert CallerRooted(w, c);
    }
    forall key | key in r.reg.opens ensures EntryRooted(r, key) {
      assert EntryRooted(w, key);
    }
  }

  lemma JoinRooted(w: World, c: CallerId, key: Key, dir: Dir, blocking: bool, reg: Registry, open: OpenId)
    requires Sound(w) && UnderRoots(w) && c !in w.callers && key in w.reg.opens && w.reg.opens[key].dir == dir
    requires w.reg.opens[key].open == open && SameOpensIn(w.reg, reg)
    ensures UnderRoots(Asking(w.(reg := reg, roots := w.roots[c := dir]), c, key, open, blocking))
  {
    var r := Asking(w.(reg := reg, roots := w.roots[c := dir]), c, key, open, blocking);
    assert EntryRooted(w, key);
    forall d | d in r.callers ensures CallerRooted(r, d) {
      if d != c {
        assert CallerRooted(w, d);
      }
    }
    forall k | k in r.reg.opens ensures EntryRooted(r, k) {
      assert EntryRooted(w, k);
    }
  }

  lemma StartRooted(w: World, c: CallerId, key: Key, dir: Dir, blocking: bool, reg: Registry)
    requires Sound(w) && UnderRoots(w) && c !in w.callers && reg.opens == w.reg.opens
    ensures UnderRoots(Started(w.(reg := reg, roots := w.roots[c := dir]), c, key, dir, blocking))
  {
    var r := Started(w.(reg := reg, roots := w.roots[c := dir]), c, key, dir, blocking);
    forall d | d in r.callers ensures CallerRooted(r, d) {
      if d != c {
        assert CallerRooted(w, d) && AskWell(w, d);
      }
    }
    forall k | k in r.reg.opens ensures EntryRooted(r, k) {
      if k != key {
        assert EntryRooted(w, k) && OpenWell(w, k);
        assert LiveWell(w, w.reg.opens[k].open);
      }
    }
  }

  /** The opens as they were, but for who waits. */
  ghost predicate SameOpensIn(a: Registry, b: Registry) {
    && (forall k :: k in b.opens <==> k in a.opens)
    && (forall k :: k in b.opens ==> b.opens[k].open == a.opens[k].open && b.opens[k].dir == a.opens[k].dir)
  }

  lemma MeetOpens(reg: Registry, key: Key, dir: Dir, answer: Answer)
    ensures Meet(reg, key, dir, answer).Kept? ==> Meet(reg, key, dir, answer).reg.opens == reg.opens
  {
  }

  lemma ClaimOwnOpens(reg: Registry, key: Key, dir: Dir, blocking: bool, own: Answer)
    requires key in reg.opens ==> reg.opens[key].dir == dir
    ensures var (r, claim) := ClaimOwn(reg, key, dir, blocking, own);
            && SameOpensIn(reg, r)
            && (claim.Join? ==> key in reg.opens && claim.open == reg.opens[key].open)
            && (claim.Start? ==> r.opens == reg.opens)
  {
    MeetOpens(reg, key, dir, own);
  }

  /** What `claim` does to the opens: nothing, or one more call at the key's entry. */
  lemma ClaimedOpens(reg: Registry, key: Key, dir: Dir, blocking: bool, owner: Answer, own: Answer)
    ensures var (r, claim) := Claimed(reg, key, dir, blocking, owner, own);
            && SameOpensIn(reg, r)
            && (claim.Join? ==> key in reg.opens && reg.opens[key].dir == dir && claim.open == reg.opens[key].open)
            && (claim.Start? ==> r.opens == reg.opens)
  {
    if !(key in reg.opens && reg.opens[key].dir != dir) {
      MeetOpens(reg, Key(key.name, Owner), dir, owner);
      var met := if key.role.Reader? then Meet(reg, Key(key.name, Owner), dir, owner) else Kept(reg);
      if met.Kept? {
        ClaimOwnOpens(met.reg, key, dir, blocking, own);
      }
    }
  }

  lemma OpenRooted(w: World, c: CallerId, key: Key, dir: Dir, blocking: bool, owner: Answer, own: Answer)
    requires Sound(w) && UnderRoots(w) && c !in w.callers
    ensures UnderRoots(Opened(w, c, key, dir, blocking, owner, own))
  {
    ClaimedOpens(w.reg, key, dir, blocking, owner, own);
    var (reg, claim) := Claimed(w.reg, key, dir, blocking, owner, own);
    match claim {
      case Join(open) => JoinRooted(w, c, key, dir, blocking, reg, open);
      case Start => StartRooted(w, c, key, dir, blocking, reg);
      case _ =>
        var r := w.(reg := reg, roots := w.roots[c := dir]);
        forall d | d in r.callers ensures CallerRooted(r, d) {
          assert CallerRooted(w, d);
        }
        forall k | k in r.reg.opens ensures EntryRooted(r, k) {
          assert EntryRooted(w, k);
        }
    }
  }

  lemma TakeRooted(w: World, c: CallerId, b: Binding)
    requires Sound(w) && UnderRoots(w) && Enabled(w, TakeBound(c, b))
    ensures UnderRoots(TookBound(w, c, b))
  {
    FewerRooted(w, Taken(w, c));
    var w1, r := Taken(w, c), TookBound(w, c, b);
    assert CallerRooted(w, c);
    forall d | d in r.callers ensures CallerRooted(r, d) {
      if d != c {
        assert CallerRooted(w1, d);
      }
    }
    forall k | k in r.reg.opens ensures EntryRooted(r, k) {
      assert EntryRooted(w1, k);
    }
  }

  lemma InsertRooted(w: World, c: CallerId)
    requires UnderRoots(w) && Enabled(w, Insert(c))
    ensures UnderRoots(Next(w, Insert(c)))
  {
    var r := Next(w, Insert(c));
    forall d | d in r.callers ensures CallerRooted(r, d) {
      assert CallerRooted(w, d);
    }
    forall k | k in r.reg.opens ensures EntryRooted(r, k) {
      assert EntryRooted(w, k);
    }
  }

  lemma StepRooted(w: World, step: Step)
    requires Sound(w) && UnderRoots(w) && Enabled(w, step)
    ensures UnderRoots(Next(w, step))
  {
    match step {
      case Open(c, key, dir, blocking, owner, own) => OpenRooted(w, c, key, dir, blocking, owner, own);
      case TakeBound(c, b) => TakeRooted(w, c, b);
      case Insert(c) => InsertRooted(w, c);
      case TimeOut(c) => FewerRooted(w, TimedOut(w, c));
      case TakeError(c) => FewerRooted(w, Taken(w, c));
      case TakeNone(c) => FewerRooted(w, w.(callers := w.callers - {c}));
      case EndRegistration(c) => FewerRooted(w, Next(w, step));
      case Cancel(open) => FewerRooted(w, Next(w, step));
    }
  }

  lemma {:induction false} RunRooted(w: World, run: seq<Step>)
    requires Sound(w) && UnderRoots(w) && Legal(w, run)
    ensures UnderRoots(After(w, run))
    decreases |run|
  {
    if run != [] {
      StepRooted(w, run[0]);
      StepKeeps(w, run[0]);
      RunRooted(Next(w, run[0]), run[1..]);
    }
  }

  /**
   In every run, a call that waits for an open, or registers its binding, does so under the cache
   root it asked for.
   */
  lemma EndsUnderItsRoot(run: seq<Step>, c: CallerId)
    requires Legal(START, run) && c in After(START, run).callers
    ensures var w := After(START, run);
            && c in w.roots
            && (w.callers[c].Registering? ==> w.callers[c].b.dir == w.roots[c])
            && (Asks(w, c) && w.callers[c].open in w.live ==>
                  && w.live[w.callers[c].open] == Asked(w.callers[c].key, w.roots[c])
                  && w.callers[c].key in w.reg.opens && w.reg.opens[w.callers[c].key].dir == w.roots[c])
  {
    RunKeeps(START, run);
    RunRooted(START, run);
    var w := After(START, run);
    assert CallerRooted(w, c) && AskWell(w, c);
    if Asks(w, c) && w.callers[c].open in w.live {
      assert LiveWell(w, w.callers[c].open);
      assert EntryRooted(w, w.callers[c].key);
    }
  }

  // ---------------------------------------------------------------------------------------------
  // A stray answer is possible.
  // ---------------------------------------------------------------------------------------------

  /** An answer to a call's cancelled open, were the driver to give one, would find another open at its key. */
  lemma StrayReached(key: Key, dir: Dir, answer: Answer) returns (run: seq<Step>)
    ensures Legal(START, run)
    ensures var w := After(START, run);
            Asks(w, 1) && w.callers[1] == Waiting(key, 0) && 0 !in w.live && !Free(w, key)
  {
    var a, b, c := Open(1, key, dir, true, answer, answer), Cancel(0), Open(2, key, dir, true, answer, answer);
    FirstOpen(START, 1, key, dir, answer);
    var w1 := Next(START, a);
    var w2 := Next(w1, b);
    assert w2.reg == START.reg;
    FirstOpen(w2, 2, key, dir, answer);
    Then(w2, c, []);
    Then(w1, b, [c] + []);
    Then(START, a, [b] + ([c] + []));
    run := [a] + ([b] + ([c] + []));
  }

  /** A blocking open of a stream nothing is known of. */
  lemma FirstOpen(w: World, c: CallerId, key: Key, dir: Dir, answer: Answer)
    requires w.reg == START.reg && c !in w.callers
    ensures Enabled(w, Open(c, key, dir, true, answer, answer))
    ensures Opened(w, c, key, dir, true, answer, answer)
         == w.(reg := w.reg.(opens := map[key := OpenEntry(w.next, dir, 1, false)]),
           live := w.live[w.next := Asked(key, dir)],
               next := w.next + 1, callers := w.callers[c := Waiting(key, w.next)], roots := w.roots[c := dir])
  {
  }

  lemma Then(w: World, step: Step, run: seq<Step>)
    requires Enabled(w, step) && Legal(Next(w, step), run)
    ensures Legal(w, [step] + run) && After(w, [step] + run) == After(Next(w, step), run)
  {
    assert ([step] + run)[1..] == run;
  }

  // ---------------------------------------------------------------------------------------------
  // The registry as an object.
  // ---------------------------------------------------------------------------------------------

  class Bindery {
    var names: map<Name, Binding>
    var readers: map<Name, Binding>
    var paths: map<DbPath, Binding>
    var opens: map<Key, OpenEntry>
    var registering: set<Key>

    ghost function View(): (r: Registry)
      reads this
    {
      Registry(names, readers, paths, opens, registering)
    }

    constructor ()
      ensures View() == START.reg && Indexed(View())
    {
      names, readers, paths, opens, registering := map[], map[], map[], map[], {};
    }

    /** The binding at `key` meets an open under `dir`: handed out, in the way, or gone. */
    method MeetBinding(key: Key, dir: Dir, answer: Answer) returns (met: Met)
      modifies this
      ensures met == Meet(old(View()), key, dir, answer)
      ensures View() == if met.Kept? then met.reg else old(View())
    {
      var m := if key.role.Owner? then names else readers;
      if key.name !in m {
        return Kept(Registry(names, readers, paths, opens, registering));
      }
      var b := m[key.name];
      if !answer.reset {
        if b.dir != dir {
          if !answer.givesUp {
            return Refused;
          }
        } else if answer.revives {
          return Handed(b);
        }
      }
      if key.role.Owner? {
        names := names - {key.name};
      } else {
        readers := readers - {key.name};
      }
      paths := paths - {b.path};
      return Kept(Registry(names, readers, paths, opens, registering));
    }

    method ClaimRest(key: Key, dir: Dir, blocking: bool, own: Answer) returns (claim: Claim)
      modifies this
      ensures (View(), claim) == ClaimOwn(old(View()), key, dir, blocking, own)
    {
      var met := MeetBinding(key, dir, own);
      if met.Refused? {
        return Elsewhere;
      }
      if met.Handed? {
        return Bound(met.b);
      }
      if key !in opens {
        return Start;
      }
      var e := opens[key];
      opens := opens[key := if blocking then e.(waiting := e.waiting + 1) else e.(returned := true)];
      return Join(e.open);
    }

    method ClaimKey(key: Key, dir: Dir, blocking: bool, owner: Answer, own: Answer) returns (claim: Claim)
      modifies this
      ensures (View(), claim) == Claimed(old(View()), key, dir, blocking, owner, own)
    {
      if key in opens && opens[key].dir != dir {
        return Elsewhere;
      }
      if key.role.Reader? {
        var met := MeetBinding(Key(key.name, Owner), dir, owner);
        if met.Refused? {
          return Elsewhere;
        }
        if met.Handed? {
          return Bound(met.b);
        }
      }
      claim := ClaimRest(key, dir, blocking, own);
    }

    method StartOpen(key: Key, open: OpenId, dir: Dir, blocking: bool)
      modifies this
      ensures View() == old(View()).(
          opens := old(opens)[key := OpenEntry(open, dir, if blocking then 1 else 0, !blocking)])
    {
      opens := opens[key := OpenEntry(open, dir, if blocking then 1 else 0, !blocking)];
    }

    /** A blocking call's wait ran out: whether the open is given up, so that the driver cancels it. */
    method WaitRanOut(key: Key, open: OpenId, ghost w: World) returns (alone: bool)
      requires w.reg == View()
      modifies this
      ensures alone <==> Alone(w, key, open)
      ensures View() == if alone then w.reg.(opens := w.reg.opens - {key})
                        else if key in w.reg.opens && w.reg.opens[key].open == open
                        then w.reg.(opens := w.reg.opens[key :=
                            w.reg.opens[key].(waiting := Max(0, w.reg.opens[key].waiting - 1))])
                        else w.reg
    {
      alone := false;
      if key in opens && opens[key].open == open {
        var e := opens[key];
        var waiting := if e.waiting == 0 then 0 else e.waiting - 1;
        alone := waiting == 0 && !e.returned;
        if alone {
          opens := opens - {key};
        } else {
          opens := opens[key := e.(waiting := waiting)];
        }
      }
    }

    /** The driver's answer taken; a binding is registering until [EndRegistering]. */
    method TakeAnswer(key: Key, bound: bool)
      modifies this
      ensures View() == old(View()).(opens := old(opens) - {key},
                                     registering := if bound then old(registering) + {key} else old(registering))
    {
      opens := opens - {key};
      if bound {
        registering := registering + {key};
      }
    }

    method Register(key: Key, b: Binding)
      modifies this
      ensures View() == Bind(old(View()), key, b)
    {
      if key.role.Owner? {
        names := names[key.name := b];
      } else {
        readers := readers[key.name := b];
      }
      paths := paths[b.path := b];
    }

    method EndRegistering(key: Key)
      modifies this
      ensures View() == old(View()).(registering := old(registering) - {key})
    {
      registering := registering - {key};
    }

    /** Drops the open `open`, if it is in progress. */
    method Forget(open: OpenId) returns (found: bool)
      modifies this
      ensures found <==> exists key :: key in old(opens) && old(opens)[key].open == open
      ensures !found ==> View() == old(View())
      ensures found ==> exists key :: && key in old(opens) && old(opens)[key].open == open
                                      && View() == old(View()).(opens := old(opens) - {key})
    {
      found := exists key :: key in opens && opens[key].open == open;
      if found {
        var key :| key in opens && opens[key].open == open;
        opens := opens - {key};
      }
    }
  }
}

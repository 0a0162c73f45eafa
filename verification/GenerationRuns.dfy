/** Whole runs of a root: what holds after any sequence of operations, each stopped by a crash after any change. */
module GenerationRuns {
  import opened Common
  import opened Generation
  import opened GenerationSafety

  /**
   A root, its process's memory (recovered and open, a generation being built) and what the proofs
   remember: the ids ever drawn and the facts of its publishes.
   */
  datatype World = World(disk: Disk, facts: Facts, used: set<Id>, open: bool, building: Option<Building>)

  const NEW_ROOT: World := World(Disk(map[], map[], map[], map[]), Facts(None, map[]), {}, false, None)

  /** An operation; `steps` is the change it crashes after, past its last for one that completes. */
  datatype Op =
    | Reopen(steps: nat)
    | StartBuild(id: Id, data: Data, head: Head, steps: nat)
    | StartCopy(id: Id, steps: nat)
    | Feed(data: Data)
    | Finish(fate: Fate, steps: nat)
    | Abandon(steps: nat)
    | Write(data: Data)
    | Damage(id: Id, header: bool)
    | Crash

  /** When an operation may happen: builds start on a recovered root, under an id never drawn before. */
  predicate Enabled(w: World, op: Op) {
    match op
    case Reopen(_) => w.building.None?
    case StartBuild(id, _, head, _) => w.open && w.building.None? && id !in w.used && (head.Empty? || head.Marked?)
    case StartCopy(id, _) =>
      && w.open && w.building.None? && id !in w.used
      && w.facts.published.Some? && w.facts.published.value in w.disk.gens
          && w.disk.gens[w.facts.published.value].readable
    case Feed(_) => w.building.Some?
    case Finish(_, _) => w.building.Some?
    case Abandon(_) => w.building.Some?
    case Write(_) => w.facts.published.Some? && w.facts.published.value in w.disk.gens
    // Damage a reader of the files may find: never to a new generation's header while the one it supersedes is there.
    case Damage(id, header) => id in w.disk.gens && (header ==> |w.disk.gens| == 1 || Some(id) != w.facts.published)
    case Crash => true
  }

  /** The facts a publish leaves once its rename happened. */
  function Renamed(w: World, b: Building, fate: Fate): (f: Facts) {
    Facts(Some(b.id),
          if Salvaging(b, fate) && b.supersedes.value in w.disk.gens
          then w.facts.kept[b.supersedes.value := w.disk.gens[b.supersedes.value].data] else w.facts.kept)
  }

  function Step(w: World, op: Op): (r: World)
    requires Enabled(w, op)
  {
    match op
    case Reopen(steps) =>
      var r := Recover(w.disk, steps);
      w.(disk := r.disk, open := r.finished)
    case StartBuild(id, data, head, steps) =>
      var only := OnlyDir(w.disk.gens);
      if only.Err? then w else Start(w, Building(id, only.value), data, head, steps)
    case StartCopy(id, steps) =>
      var from := w.facts.published.value;
      Start(w, Building(id, Some(from)), w.disk.gens[from].data, w.disk.gens[from].head, steps)
    case Feed(data) =>
      var b := w.building.value;
      w.(disk := Apply(w.disk, FillTmp(b.id, b.supersedes, data, Marked)))
    case Finish(fate, steps) =>
      var b := w.building.value;
      w.(disk := Stopped(w.disk, PublishPlan(b, fate), steps),
         facts := if steps > |PreparePlan(b, fate)| then Renamed(w, b, fate) else w.facts,
         open := steps >= |PublishPlan(b, fate)|, building := None)
    case Abandon(steps) =>
      var plan := DiscardPlan(w.building.value);
      w.(disk := Stopped(w.disk, plan, steps), open := steps >= |plan|, building := None)
    case Write(data) =>
      var c := w.facts.published.value;
      w.(disk := w.disk.(gens := w.disk.gens[c := w.disk.gens[c].(data := data)]))
    case Damage(id, header) =>
      var g := w.disk.gens[id];
      w.(disk := w.disk.(gens := w.disk.gens[id := if header then g.(readable := false) else g.(head := Foreign)]))
    case Crash => w.(open := false, building := None)
  }

  function Start(w: World, b: Building, data: Data, head: Head, steps: nat): (r: World) {
    var plan := BuildPlan(b, data, head);
    w.(disk := Stopped(w.disk, plan, steps), used := w.used + {b.id},
       open := steps >= |plan|, building := if steps >= |plan| then Some(b) else None)
  }

  // ---------------------------------------------------------------------------------------------
  // The invariant.
  // ---------------------------------------------------------------------------------------------

  /** Every id the root's names and headers hold was drawn. */
  predicate Drawn(w: World) {
    && (forall k :: k in w.facts.kept ==> k in w.used)
    && (forall g :: g in w.disk.gens ==> g in w.used)
    && (forall g :: g in w.disk.gens && w.disk.gens[g].supersedes.Some? ==> w.disk.gens[g].supersedes.value in w.used)
  }

  /** A recovered root: the published generation alone and unmarked, every salvage finished. */
  predicate Recovered(d: Disk, f: Facts) {
    && d.trash == map[]
    && (forall g :: g in d.gens ==> Some(g) == f.published && d.gens[g].manifest.None? && !d.gens[g].manifestTmp)
    && (forall x :: x in d.salvage ==> Finished(d.salvage[x]))
  }

  predicate BuildingIs(d: Disk, f: Facts, used: set<Id>, b: Building) {
    && d.tmps.Keys == {b.id}
    && (var t := d.tmps[b.id]; t == Dir(b.supersedes, true, true, t.data, t.head, None, false) && !t.head.Magic?)
    && b.supersedes == f.published && b.supersedes != Some(b.id)
    && b.id in used && b.id !in f.kept && b.id !in d.gens
    && (forall g :: g in d.gens ==> d.gens[g].supersedes != Some(b.id))
  }

  predicate Inv(w: World) {
    && Sound(w.disk, w.facts)
    && Drawn(w)
    && (w.open ==> Recovered(w.disk, w.facts))
    && (w.building.Some? ==> w.open && BuildingIs(w.disk, w.facts, w.used, w.building.value))
    && (w.open && w.building.None? ==> w.disk.tmps == map[])
  }

  lemma StoppedPast(d: Disk, p: seq<Action>, q: seq<Action>, more: nat)
    ensures Stopped(d, p + q, |p| + more) == Stopped(ApplyAll(d, p), q, more)
  {
    var n := if more < |q| then more else |q|;
    var m := if |p| + more < |p + q| then |p| + more else |p + q|;
    assert m == |p| + n;
    var taken := (p + q)[..m];
    assert taken == p + q[..n];
    ApplyAllConcat(d, p, q[..n]);
  }

  lemma RecoveredKeeps(w: World, r: Recovery, all: bool)
    requires Inv(w) && w.building.None? && RecoveredTo(w.disk, r, all, w.facts)
    ensures Inv(w.(disk := r.disk, open := r.finished))
  {
  }

  lemma ReopenKeeps(w: World, steps: nat)
    requires Inv(w) && w.building.None?
    ensures Inv(Step(w, Reopen(steps)))
  {
    RecoverKeeps(w.disk, w.facts, steps);
    RecoveredKeeps(w, Recover(w.disk, steps), steps >= RecoverySteps(w.disk));
  }

  lemma BuildStates(d: Disk, b: Building, data: Data, head: Head, steps: nat)
    ensures var e := Stopped(d, BuildPlan(b, data, head), steps);
            && e.gens == d.gens && e.salvage == d.salvage && e.trash == d.trash
            && (steps >= 2 ==> e.tmps == d.tmps[b.id := Dir(b.supersedes, true, true, data, head, None, false)])
  {
    var plan := BuildPlan(b, data, head);
    var d1 := Apply(d, CreateTmp(b.id));
    assert plan[..0] == [] && plan[..1] == [CreateTmp(b.id)] && plan[..2] == plan;
    assert [CreateTmp(b.id)][..0] == [];
    assert ApplyAll(d, [CreateTmp(b.id)]) == d1;
    assert ApplyAll(d, plan) == Apply(d1, FillTmp(b.id, b.supersedes, data, head));
  }

  lemma StartKeeps(w: World, b: Building, data: Data, head: Head, steps: nat)
    requires Inv(w) && w.open && w.building.None? && b.id !in w.used && b.supersedes == w.facts.published
    requires !head.Magic?
    ensures Inv(Start(w, b, data, head, steps))
  {
    BuildStates(w.disk, b, data, head, steps);
    var e := Start(w, b, data, head, steps).disk;
    assert w.facts.published.Some? ==> w.facts.published.value in w.disk.gens;
    SoundByGens(w.disk, e, w.facts);
  }

  /** What is sound is said of the generations and the salvages alone. */
  lemma SoundByGens(d: Disk, e: Disk, f: Facts)
    requires Sound(d, f) && e.gens == d.gens && e.salvage == d.salvage
    ensures Sound(e, f)
  {
    forall k | k in f.kept ensures KeptIn(e, f, k) {
      assert KeptIn(d, f, k);
    }
  }

  // ---------------------------------------------------------------------------------------------
  // Publishing.
  // ---------------------------------------------------------------------------------------------

  /** The superseded generation marked with its fate, if it is to be salvaged. */
  function MarkedOld(d: Disk, b: Building, fate: Fate): (gens: map<Id, Dir>) {
    if Salvaging(b, fate) && b.supersedes.value in d.gens
    then d.gens[b.supersedes.value := d.gens[b.supersedes.value].(manifest := Some(fate.manifest.(state := Moving)),
        manifestTmp := false)]
    else d.gens
  }

  /** The new generation as it is renamed: its page 1 is marked even when nothing was applied. */
  function MarkedNew(t: Dir): (r: Dir) {
    if t.head.Empty? then t.(head := Marked) else t
  }

  lemma PrepareDoes(d: Disk, b: Building, fate: Fate, f: Facts)
    requires b.id in d.tmps && b.supersedes == f.published && (f.published.Some? ==> f.published.value in d.gens)
    ensures ApplyAll(d, PreparePlan(b, fate))
         == d.(tmps := d.tmps[b.id := MarkedNew(d.tmps[b.id])], gens := MarkedOld(d, b, fate))
    ensures PlanAllowed(d, PreparePlan(b, fate), f)
  {
    var d1 := Apply(d, MarkTmp(b.id));
    assert d1.tmps == d.tmps[b.id := MarkedNew(d.tmps[b.id])];
    if Salvaging(b, fate) {
      MarkOldDoes(d1, b.supersedes.value, fate.manifest.(state := Moving), f);
      var mark := [WriteManifestTmp(b.supersedes.value),
          PutManifest(b.supersedes.value, fate.manifest.(state := Moving))];
      TwoBefore(d1, Fsync, Fsync, mark, f);
      Before(d, MarkTmp(b.id), [Fsync, Fsync] + mark, f);
      assert PreparePlan(b, fate) == [MarkTmp(b.id)] + ([Fsync, Fsync] + mark);
    } else {
      ThreeInARow(d, MarkTmp(b.id), Fsync, Fsync, f);
      assert PreparePlan(b, fate) == [MarkTmp(b.id), Fsync, Fsync];
    }
  }

  lemma MarkOldDoes(d: Disk, prior: Id, m: Manifest, f: Facts)
    requires prior in d.gens && f.published == Some(prior) && m.state.Moving?
    ensures var plan := [WriteManifestTmp(prior), PutManifest(prior, m)];
            && ApplyAll(d, plan)
                == d.(gens := d.gens[prior := d.gens[prior].(manifest := Some(m), manifestTmp := false)])
            && PlanAllowed(d, plan, f)
  {
    var d1 := Apply(d, WriteManifestTmp(prior));
    var d2 := Apply(d1, PutManifest(prior, m));
    assert d2.gens == d.gens[prior := d.gens[prior].(manifest := Some(m), manifestTmp := false)];
    Before(d1, PutManifest(prior, m), [], f);
    Before(d, WriteManifestTmp(prior), [PutManifest(prior, m)] + [], f);
    assert [WriteManifestTmp(prior), PutManifest(prior, m)]
        == [WriteManifestTmp(prior)] + ([PutManifest(prior, m)] + []);
  }

  /** The disk right after the publishing rename. */
  function AtRename(w: World, b: Building, fate: Fate): (d: Disk)
    requires b.id in w.disk.tmps
  {
    w.disk.(tmps := w.disk.tmps - {b.id}, gens := MarkedOld(w.disk, b, fate)[b.id := MarkedNew(w.disk.tmps[b.id])])
  }

  lemma RenameDoes(w: World, b: Building, fate: Fate)
    requires Inv(w) && w.building == Some(b)
    ensures Apply(ApplyAll(w.disk, PreparePlan(b, fate)), Publish(b.id)) == AtRename(w, b, fate)
    ensures PlanAllowed(w.disk, PreparePlan(b, fate), w.facts)
  {
    PrepareDoes(w.disk, b, fate, w.facts);
    var d := ApplyAll(w.disk, PreparePlan(b, fate));
    assert d.tmps - {b.id} == w.disk.tmps - {b.id};
  }

  /** The rename makes the new generation current and the old one superseded, marked if it is to be kept. */
  lemma RenameSound(w: World, b: Building, fate: Fate)
    requires Inv(w) && w.building == Some(b)
    ensures Sound(AtRename(w, b, fate), Renamed(w, b, fate))
  {
    var d, f := AtRename(w, b, fate), Renamed(w, b, fate);
    forall k | k in w.facts.kept ensures Some(k) != w.facts.published {
      assert KeptIn(w.disk, w.facts, k);
    }
    assert OneCurrent(d.gens, f.published);
    assert Whole(d, f);
    forall k | k in f.kept ensures KeptIn(d, f, k) {
      if k in w.facts.kept {
        assert KeptIn(w.disk, w.facts, k);
      }
    }
    forall x | x in d.salvage ensures x in f.kept && x !in d.gens {
    }
  }

  /** What is left once the rename happened: allowed, and whole it leaves the new generation alone. */
  lemma AfterRenameDoes(d: Disk, b: Building, fate: Fate, f: Facts)
    requires f.published == Some(b.id) && b.id in d.gens && b.supersedes != Some(b.id)
    requires forall g :: g in d.gens ==> g == b.id || Some(g) == b.supersedes
    requires b.supersedes.Some? ==> b.supersedes.value in d.gens
    requires Salvaging(b, fate) ==> d.gens[b.supersedes.value].manifest.Some? && b.supersedes.value in f.kept
    requires b.supersedes.Some? && !Salvaging(b, fate) ==> b.supersedes.value !in f.kept
    requires d.tmps == map[] && d.trash == map[] && d.gens[b.id].manifest.None? && !d.gens[b.id].manifestTmp
    requires forall x :: x in d.salvage ==> Finished(d.salvage[x])
    ensures PlanAllowed(d, PlanAfterRename(b, fate), f)
    ensures Ready(ApplyAll(d, PlanAfterRename(b, fate)), f)
  {
    var rest := PlanAfterRename(b, fate)[1..];
    assert PlanAfterRename(b, fate) == [Fsync] + rest;
    if b.supersedes.None? {
      assert rest == [];
    } else if Salvaging(b, fate) {
      assert rest == [Move(b.supersedes.value)] + CompletePlan(b.supersedes.value);
      MoveDoes(d, b.supersedes.value, f);
    } else {
      assert rest == TrashPlan(b.supersedes.value);
      TrashDoes(d, b.supersedes.value, f);
      assert d.trash - {b.supersedes.value} == map[];
    }
    Before(d, Fsync, rest, f);
  }

  lemma RenamedThenDoes(w: World, b: Building, fate: Fate)
    requires Inv(w) && w.building == Some(b)
    ensures var d, f := AtRename(w, b, fate), Renamed(w, b, fate);
            PlanAllowed(d, PlanAfterRename(b, fate), f) && Ready(ApplyAll(d, PlanAfterRename(b, fate)), f)
  {
    var d, f := AtRename(w, b, fate), Renamed(w, b, fate);
    forall k | k in w.facts.kept ensures Some(k) != w.facts.published {
      assert KeptIn(w.disk, w.facts, k);
    }
    NoInts(d.tmps.Keys);
    AfterRenameDoes(d, b, fate, f);
  }

  lemma FinishBefore(w: World, b: Building, fate: Fate, steps: nat)
    requires Inv(w) && w.building == Some(b) && steps <= |PreparePlan(b, fate)|
    ensures var d := Stopped(w.disk, PublishPlan(b, fate), steps);
            Sound(d, w.facts) && SameCurrent(w.disk, d, w.facts.published)
  {
    var prepare := PreparePlan(b, fate);
    RenameDoes(w, b, fate);
    PlanKeeps(w.disk, prepare, w.facts, steps);
    assert PublishPlan(b, fate)[..steps] == prepare[..steps];
  }

  lemma FinishAfter(w: World, b: Building, fate: Fate, steps: nat, more: nat)
    requires Inv(w) && w.building == Some(b) && steps == |PreparePlan(b, fate)| + 1 + more
    ensures Stopped(w.disk, PublishPlan(b, fate), steps)
        == Stopped(AtRename(w, b, fate), PlanAfterRename(b, fate), more)
  {
    var prepare, after := PreparePlan(b, fate), PlanAfterRename(b, fate);
    RenameDoes(w, b, fate);
    StoppedPast(w.disk, prepare, [Publish(b.id)] + after, 1 + more);
    var mid := ApplyAll(w.disk, prepare);
    StoppedPast(mid, [Publish(b.id)], after, more);
    ApplyFirst(mid, Publish(b.id), []);
    assert [Publish(b.id)] + [] == [Publish(b.id)];
  }

  /** A publish, stopped anywhere: the old generation current up to the rename, the new one from it on. */
  lemma FinishDoes(w: World, b: Building, fate: Fate, steps: nat)
    requires Inv(w) && w.building == Some(b)
    ensures var d := Stopped(w.disk, PublishPlan(b, fate), steps);
            var f := if steps > |PreparePlan(b, fate)| then Renamed(w, b, fate) else w.facts;
            && Sound(d, f)
            && (steps >= |PublishPlan(b, fate)| ==> Ready(d, f))
            && SameCurrent(if steps > |PreparePlan(b, fate)| then AtRename(w, b, fate) else w.disk, d, f.published)
  {
    if steps <= |PreparePlan(b, fate)| {
      FinishBefore(w, b, fate, steps);
    } else {
      var more := steps - |PreparePlan(b, fate)| - 1;
      FinishAfter(w, b, fate, steps, more);
      RenameSound(w, b, fate);
      RenamedThenDoes(w, b, fate);
      StoppedKeeps(AtRename(w, b, fate), PlanAfterRename(b, fate), Renamed(w, b, fate), more);
    }
  }

  lemma FinishKeeps(w: World, fate: Fate, steps: nat)
    requires Inv(w) && w.building.Some?
    ensures Inv(Step(w, Finish(fate, steps)))
  {
    var b := w.building.value;
    FinishDoes(w, b, fate, steps);
    FinishDrawn(w, b, fate, Step(w, Finish(fate, steps)).disk, steps);
  }

  lemma AtRenameHeader(w: World, b: Building, fate: Fate, g: Id)
    requires Inv(w) && w.building == Some(b) && g in AtRename(w, b, fate).gens
    ensures g in w.used
    ensures var s := AtRename(w, b, fate).gens[g].supersedes; s.Some? ==> s.value in w.used
  {
    if g == b.id {
      assert AtRename(w, b, fate).gens[g].supersedes == w.facts.published;
      if w.facts.published.Some? {
        var c: Id := w.facts.published.value;
        assert c in w.disk.gens && c in w.used;
      }
    } else {
      assert g in w.disk.gens && AtRename(w, b, fate).gens[g].supersedes == w.disk.gens[g].supersedes;
    }
  }

  lemma FinishDrawn(w: World, b: Building, fate: Fate, d: Disk, steps: nat)
    requires Inv(w) && w.building == Some(b)
    requires var f := if steps > |PreparePlan(b, fate)| then Renamed(w, b, fate) else w.facts;
             SameCurrent(if steps > |PreparePlan(b, fate)| then AtRename(w, b, fate) else w.disk, d, f.published)
    ensures Drawn(w.(disk := d, facts := if steps > |PreparePlan(b, fate)| then Renamed(w, b, fate) else w.facts))
  {
    assert w.facts.published.Some? ==> w.facts.published.value in w.disk.gens;
    if steps > |PreparePlan(b, fate)| {
      var gens := AtRename(w, b, fate).gens;
      forall g | g in d.gens
        ensures g in w.used && (d.gens[g].supersedes.Some? ==> d.gens[g].supersedes.value in w.used)
      {
        assert g in gens && d.gens[g].supersedes == gens[g].supersedes;
        AtRenameHeader(w, b, fate, g);
      }
    }
  }

  lemma AbandonKeeps(w: World, steps: nat)
    requires Inv(w) && w.building.Some?
    ensures Inv(Step(w, Abandon(steps)))
  {
    var b := w.building.value;
    var plan := DiscardPlan(b);
    ThreeInARow(w.disk, ShredTmp(b.id), DropTmp(b.id), Fsync, w.facts);
    StoppedKeeps(w.disk, plan, w.facts, steps);
    TmpOnly(w.disk, plan, steps);
    ClearTmpSteps(w.disk, b.id);
    var d := Step(w, Abandon(steps)).disk;
    if steps >= |plan| {
      NoInts(d.tmps.Keys);
    }
  }

  predicate OnTmps(a: Action) {
    a.Fsync? || a.CreateTmp? || a.FillTmp? || a.MarkTmp? || a.ShredTmp? || a.DropTmp?
  }

  lemma {:induction false} TmpOnly(d: Disk, plan: seq<Action>, steps: nat)
    requires forall k :: 0 <= k < |plan| ==> OnTmps(plan[k])
    ensures var e := Stopped(d, plan, steps); e.gens == d.gens && e.salvage == d.salvage && e.trash == d.trash
    decreases steps
  {
    var n := if steps < |plan| then steps else |plan|;
    if n > 0 {
      TmpOnly(d, plan, n - 1);
      assert plan[..n][..n - 1] == plan[..n - 1];
    } else {
      assert plan[..n] == [];
    }
  }

  lemma WriteKeeps(w: World, data: Data)
    requires Inv(w) && Enabled(w, Write(data))
    ensures Inv(Step(w, Write(data)))
  {
    var d := Step(w, Write(data)).disk;
    forall k | k in w.facts.kept ensures KeptIn(d, w.facts, k) {
      assert KeptIn(w.disk, w.facts, k);
    }
  }

  lemma DamageKeeps(w: World, id: Id, header: bool)
    requires Inv(w) && Enabled(w, Damage(id, header))
    ensures Inv(Step(w, Damage(id, header)))
  {
    var d := Step(w, Damage(id, header)).disk;
    if header && Some(id) == w.facts.published {
      forall g | g in w.disk.gens ensures g == id {
        if g != id {
          Two(w.disk.gens.Keys, g, id);
        }
      }
    }
    forall k | k in w.facts.kept ensures KeptIn(d, w.facts, k) {
      assert KeptIn(w.disk, w.facts, k);
    }
  }

  lemma FeedKeeps(w: World, data: Data)
    requires Inv(w) && w.building.Some?
    ensures Inv(Step(w, Feed(data)))
  {
    SoundByGens(w.disk, Step(w, Feed(data)).disk, w.facts);
  }

  /** A recovered root has at most one generation, so a build is never ambiguous: it supersedes the published one. */
  lemma OnlyDirIsPublished(d: Disk, f: Facts)
    requires Sound(d, f) && Recovered(d, f)
    ensures OnlyDir(d.gens) == Ok(f.published)
  {
    if f.published.Some? {
      SameInts(d.gens.Keys, {f.published.value});
    }
  }

  /** Every operation, completed or crashed after any change, keeps the invariant. */
  lemma StepKeeps(w: World, op: Op)
    requires Inv(w) && Enabled(w, op)
    ensures Inv(Step(w, op))
  {
    match op {
      case Reopen(steps) => ReopenKeeps(w, steps);
      case StartBuild(id, data, head, steps) =>
        OnlyDirIsPublished(w.disk, w.facts);
        StartKeeps(w, Building(id, w.facts.published), data, head, steps);
      case StartCopy(id, steps) =>
        var from := w.facts.published.value;
        StartKeeps(w, Building(id, Some(from)), w.disk.gens[from].data, w.disk.gens[from].head, steps);
      case Feed(data) => FeedKeeps(w, data);
      case Finish(fate, steps) => FinishKeeps(w, fate, steps);
      case Abandon(steps) => AbandonKeeps(w, steps);
      case Write(data) => WriteKeeps(w, data);
      case Damage(id, header) => DamageKeeps(w, id, header);
      case Crash =>
    }
  }

  // ---------------------------------------------------------------------------------------------
  // Whole runs.
  // ---------------------------------------------------------------------------------------------

  /** Each operation of the run may happen where the ones before it left the root. */
  predicate Legal(w: World, run: seq<Op>)
    decreases |run|
  {
    run == [] || (Enabled(w, run[0]) && Legal(Step(w, run[0]), run[1..]))
  }

  function After(w: World, run: seq<Op>): (r: World)
    requires Legal(w, run)
    decreases |run|
  {
    if run == [] then w else After(Step(w, run[0]), run[1..])
  }

  lemma {:induction false} RunKeeps(w: World, run: seq<Op>)
    requires Inv(w) && Legal(w, run)
    ensures Inv(After(w, run))
    decreases |run|
  {
    if run != [] {
      StepKeeps(w, run[0]);
      RunKeeps(Step(w, run[0]), run[1..]);
    }
  }

  /**
   Over any run from an empty root, wherever it crashes, the rule that finds the current generation
   never errs and names exactly the generation last renamed into place, which is there and whole;
   any other generation is the one it supersedes.
   */
  lemma OneCurrentGeneration(run: seq<Op>)
    requires Legal(NEW_ROOT, run)
    ensures var w := After(NEW_ROOT, run);
            && Current(w.disk.gens) == Ok(w.facts.published)
            && (forall g :: g in w.disk.gens ==> w.disk.gens[g].whole && !w.disk.gens[g].head.Empty?)
            && (forall g :: g in w.disk.gens && Some(g) != w.facts.published ==>
                              w.facts.published.Some? && w.disk.gens[w.facts.published.value].supersedes == Some(g))
  {
    RunKeeps(NEW_ROOT, run);
    var w := After(NEW_ROOT, run);
    ClassifyNamesThePublished(w.disk.gens, w.facts.published);
  }

  /** Whether a publish stopped where it did had renamed its generation into place. */
  predicate Renames(w: World, op: Op) {
    op.Finish? && w.building.Some? && op.steps > |PreparePlan(w.building.value, op.fate)|
  }

  lemma PublishedAfter(w: World, op: Op)
    requires Inv(w) && Enabled(w, op)
    ensures Step(w, op).facts.published == if Renames(w, op) then Some(w.building.value.id) else w.facts.published
  {
    if op.StartBuild? {
      OnlyDirIsPublished(w.disk, w.facts);
    }
  }

  /**
   What the rule reads as current on disk changes at a publish's rename, to the generation renamed,
   and at nothing else: no other operation changes it, nor a crash, in a publish or a recovery.
   */
  lemma PublishedChangesAtRename(run: seq<Op>, op: Op)
    requires Legal(NEW_ROOT, run) && Enabled(After(NEW_ROOT, run), op)
    ensures var w := After(NEW_ROOT, run);
            Current(Step(w, op).disk.gens)
              == if Renames(w, op) then Ok(Some(w.building.value.id)) else Current(w.disk.gens)
  {
    var w := After(NEW_ROOT, run);
    RunKeeps(NEW_ROOT, run);
    StepKeeps(w, op);
    PublishedAfter(w, op);
    ClassifyNamesThePublished(w.disk.gens, w.facts.published);
    ClassifyNamesThePublished(Step(w, op).disk.gens, Step(w, op).facts.published);
  }

  /**
   A generation a salvaging publish superseded is never lost: after any crashes it still has its
   manifest where it was, or is whole in `salvage/`, its data what it was at the rename; once a
   recovery finished it is in `salvage/`, complete and, unless found replaced, plain again.
   */
  lemma SalvagedNeverLost(run: seq<Op>, id: Id)
    requires Legal(NEW_ROOT, run) && id in After(NEW_ROOT, run).facts.kept
    ensures var w := After(NEW_ROOT, run);
            && id !in (if w.facts.published.Some? then {w.facts.published.value} else {})
            && (|| (id in w.disk.gens && w.disk.gens[id].manifest.Some? && w.disk.gens[id].whole
                    && w.disk.gens[id].data == w.facts.kept[id])
                || (id in w.disk.salvage && w.disk.salvage[id].whole && w.disk.salvage[id].data == w.facts.kept[id]))
            && (w.open ==>
                  && id in w.disk.salvage && w.disk.salvage[id].data == w.facts.kept[id]
                  && w.disk.salvage[id].manifest.Some? && w.disk.salvage[id].manifest.value.state.Complete?
                  && (Restores(w.disk.salvage[id].manifest.value) ==> !w.disk.salvage[id].head.Marked?))
  {
    RunKeeps(NEW_ROOT, run);
    var w := After(NEW_ROOT, run);
    assert KeptIn(w.disk, w.facts, id);
  }

  /**
   The other half: a publish that crashed before its rename leaves the old generation current, its
   manifest gone after recovery.
   */
  lemma UnpublishedSalvageIsUndone(run: seq<Op>, fate: Fate, steps: nat, again: nat)
    requires Legal(NEW_ROOT, run) && After(NEW_ROOT, run).building.Some?
    requires steps <= |PreparePlan(After(NEW_ROOT, run).building.value, fate)|
    ensures var w := After(NEW_ROOT, run);
            var e := Step(Step(w, Finish(fate, steps)), Reopen(again));
            e.facts == w.facts
            && (e.open && w.facts.published.Some? ==>
                  && w.facts.published.value in e.disk.gens && w.facts.published.value in w.disk.gens
                  && e.disk.gens[w.facts.published.value]
                     == w.disk.gens[w.facts.published.value].(manifest := None, manifestTmp := false))
  {
    var w := After(NEW_ROOT, run);
    RunKeeps(NEW_ROOT, run);
    var b := w.building.value;
    FinishDoes(w, b, fate, steps);
    var mid := Step(w, Finish(fate, steps));
    StepKeeps(w, Finish(fate, steps));
    RecoverKeeps(mid.disk, mid.facts, again);
    StepKeeps(mid, Reopen(again));
  }
}

/**
 Over any run of opens, builds, copies and publishes, with a crash after any change to the disk and
 inside recovery too: one generation is current, the published one, and none set aside is lost.
 */
module GenerationSafety {
  import opened Common
  import opened Generation

  // ---------------------------------------------------------------------------------------------
  // What every change to the disk keeps.
  // ---------------------------------------------------------------------------------------------

  /** The generation last renamed into place, and the data of each a salvaging publish superseded. */
  datatype Facts = Facts(published: Option<Id>, kept: map<Id, Data>)

  /** The published generation is there, and any other is the one it supersedes, named by its readable header. */
  predicate OneCurrent(gens: map<Id, Dir>, published: Option<Id>) {
    && (published.None? ==> gens == map[])
    && (published.Some? ==> published.value in gens)
    && (forall g :: g in gens && Some(g) != published ==>
                      && gens[published.value].supersedes == Some(g)
                      && gens[published.value].readable)
    && (forall g :: g in gens ==> gens[g].supersedes != published)
  }

  /**
   Nothing under a generation's own name is half deleted, and none but the superseded hold a
   salvage's manifest for good.
   */
  predicate Whole(d: Disk, f: Facts) {
    && (forall g :: g in d.gens ==> d.gens[g].whole && !d.gens[g].head.Magic? && !d.gens[g].head.Empty?)
    && (forall g :: g in d.gens && Some(g) != f.published && d.gens[g].manifest.Some? ==> g in f.kept)
    && (forall g :: g in d.gens && d.gens[g].manifest.Some? ==> d.gens[g].manifest.value.state.Moving?)
  }

  /** A salvaged generation is superseded with its manifest, or whole in `salvage/`. */
  predicate KeptIn(d: Disk, f: Facts, k: Id)
    requires k in f.kept
  {
    || (k in d.gens && Some(k) != f.published && d.gens[k].manifest.Some? && d.gens[k].data == f.kept[k])
    || (k in d.salvage && k !in d.gens && d.salvage[k].whole && d.salvage[k].manifest.Some?
        && d.salvage[k].data == f.kept[k])
  }

  predicate Kept(d: Disk, f: Facts) {
    && (forall k :: k in f.kept ==> KeptIn(d, f, k))
    && (forall s :: s in d.salvage ==> s in f.kept && s !in d.gens)
  }

  predicate PlainDir(s: Dir, m: Manifest) {
    m.state.Complete? && Restores(m) ==> !s.head.Marked?
  }

  /** A complete salvage is plain: its marker went back to SQLite's magic unless its db was found replaced. */
  predicate Plain(d: Disk) {
    forall s :: s in d.salvage && d.salvage[s].manifest.Some? ==> PlainDir(d.salvage[s], d.salvage[s].manifest.value)
  }

  predicate Sound(d: Disk, f: Facts) {
    OneCurrent(d.gens, f.published) && Whole(d, f) && Kept(d, f) && Plain(d)
  }

  // ---------------------------------------------------------------------------------------------
  // Classification.
  // ---------------------------------------------------------------------------------------------

  lemma SupersededIs(gens: map<Id, Dir>, published: Option<Id>, g: Id)
    requires OneCurrent(gens, published) && g in gens
    ensures g in NamedSuperseded(gens) <==> Some(g) != published
  {
    if Some(g) != published {
      var c := published.value;
      assert {c, g} <= gens.Keys;
      Two(gens.Keys, c, g);
      assert gens[c].readable && gens[c].supersedes == Some(g);
    }
  }

  lemma Two(s: set<int>, a: int, b: int)
    requires a in s && b in s && a != b
    ensures |s| >= 2
  {
    assert |s - {a}| == |s| - 1;
    assert b in s - {a};
  }

  /** The one rule, `classify`, never errs, and names the published generation. */
  lemma ClassifyNamesThePublished(gens: map<Id, Dir>, published: Option<Id>)
    requires OneCurrent(gens, published)
    ensures Classify(gens).Ok?
    ensures forall g :: g in gens ==> (g in Classify(gens).value <==> Some(g) != published)
    ensures Current(gens) == Ok(published)
  {
    forall g | g in gens ensures g in NamedSuperseded(gens) <==> Some(g) != published {
      SupersededIs(gens, published, g);
    }
    PublishedReadable(gens, published);
    NoInts(UnreadableLeft(gens));
    var left := gens.Keys - NamedSuperseded(gens);
    if published.Some? {
      forall x ensures x in left <==> x in {published.value} {
      }
      SameInts(left, {published.value});
    }
  }

  /** With two or more generations the published one's header is readable. */
  lemma PublishedReadable(gens: map<Id, Dir>, published: Option<Id>)
    requires OneCurrent(gens, published)
    ensures |gens| > 1 ==> published.Some? && gens[published.value].readable
  {
    if |gens| > 1 {
      var others := gens.Keys - {published.value};
      assert |others| == |gens.Keys| - 1;
      SomeInt(others);
      var x :| x in others;
    }
  }

  // ---------------------------------------------------------------------------------------------
  // Recovery, stopped anywhere.
  // ---------------------------------------------------------------------------------------------

  /**
   What may be done while the facts stay: only the published generation gets or loses a manifest,
   only a kept one moves, and neither is trashed. All but the publishing rename is allowed somewhere.
   */
  predicate Allowed(a: Action, f: Facts) {
    match a
    case Trash(id) => Some(id) != f.published && id !in f.kept
    case Move(id) => id in f.kept
    case Unmark(id) => Some(id) == f.published && id !in f.kept
    case PutManifest(id, m) => Some(id) == f.published && m.state.Moving?
    case Fsync => true
    case CreateTmp(_) => true
    case FillTmp(_, _, _, _) => true
    case MarkTmp(_) => true
    case WriteManifestTmp(_) => true
    case ShredTmp(_) => true
    case DropTmp(_) => true
    case ClearManifestTmp(_) => true
    case ShredTrash(_) => true
    case DropTrash(_) => true
    case RestoreMagic(_) => true
    case WriteSalvageTmp(_) => true
    case ClearSalvageTmp(_) => true
    case _ => false
  }

  /** Completing a salvage writes its magic first, so the manifest never says complete too soon. */
  predicate AllowedAt(d: Disk, a: Action, f: Facts) {
    if a.PutComplete? then a.id in d.salvage && d.salvage[a.id].manifest.Some?
                           && (Restores(d.salvage[a.id].manifest.value) ==> !d.salvage[a.id].head.Marked?)
    else Allowed(a, f)
  }

  /** The published generation is the same but for its manifest, no generation appeared and no header changed. */
  predicate SameCurrent(d: Disk, e: Disk, published: Option<Id>) {
    && (published.Some? && published.value in d.gens ==>
          && published.value in e.gens
          && e.gens[published.value].(manifest := None, manifestTmp := false)
             == d.gens[published.value].(manifest := None, manifestTmp := false))
    && (forall g :: g in e.gens ==> g in d.gens && e.gens[g].supersedes == d.gens[g].supersedes)
  }

  lemma AllowedKeepsCurrent(d: Disk, a: Action, f: Facts)
    requires Sound(d, f) && AllowedAt(d, a, f)
    ensures OneCurrent(Apply(d, a).gens, f.published) && SameCurrent(d, Apply(d, a), f.published)
  {
    if a.Trash? || a.Move? {
      assert a.Move? ==> KeptIn(d, f, a.id);
    }
  }

  lemma AllowedKeepsWhole(d: Disk, a: Action, f: Facts)
    requires Sound(d, f) && AllowedAt(d, a, f)
    ensures Whole(Apply(d, a), f)
  {
  }

  lemma AllowedKeepsKept(d: Disk, a: Action, f: Facts)
    requires Sound(d, f) && AllowedAt(d, a, f)
    ensures Kept(Apply(d, a), f)
  {
    var e := Apply(d, a);
    forall k | k in f.kept ensures KeptIn(e, f, k) {
      assert KeptIn(d, f, k);
    }
  }

  lemma AllowedKeepsPlain(d: Disk, a: Action, f: Facts)
    requires Sound(d, f) && AllowedAt(d, a, f)
    ensures Plain(Apply(d, a))
  {
    if a.Move? {
      assert KeptIn(d, f, a.id);
    }
  }

  lemma AllowedKeeps(d: Disk, a: Action, f: Facts)
    requires Sound(d, f) && AllowedAt(d, a, f)
    ensures Sound(Apply(d, a), f) && SameCurrent(d, Apply(d, a), f.published)
  {
    AllowedKeepsCurrent(d, a, f);
    AllowedKeepsWhole(d, a, f);
    AllowedKeepsKept(d, a, f);
    AllowedKeepsPlain(d, a, f);
  }

  lemma {:induction false} ApplyAllConcat(d: Disk, p: seq<Action>, q: seq<Action>)
    ensures ApplyAll(d, p + q) == ApplyAll(ApplyAll(d, p), q)
    decreases |q|
  {
    if q == [] {
      assert p + q == p;
    } else {
      var last := |q| - 1;
      assert (p + q)[..|p + q| - 1] == p + q[..last];
      ApplyAllConcat(d, p, q[..last]);
    }
  }

  lemma ApplyFirst(d: Disk, a: Action, rest: seq<Action>)
    ensures ApplyAll(d, [a] + rest) == ApplyAll(Apply(d, a), rest)
  {
    ApplyAllConcat(d, [a], rest);
    assert [a][..0] == [];
    assert ApplyAll(d, [a]) == Apply(ApplyAll(d, []), a);
  }

  /** Every action of the plan is allowed on the disk the ones before it left. */
  predicate PlanAllowed(d: Disk, plan: seq<Action>, f: Facts)
    decreases |plan|
  {
    plan == [] || (AllowedAt(d, plan[0], f) && PlanAllowed(Apply(d, plan[0]), plan[1..], f))
  }

  lemma {:induction false} PlanAllowedConcat(d: Disk, p: seq<Action>, q: seq<Action>, f: Facts)
    requires PlanAllowed(d, p, f) && PlanAllowed(ApplyAll(d, p), q, f)
    ensures PlanAllowed(d, p + q, f)
    decreases |p|
  {
    if p == [] {
      assert p + q == q;
    } else {
      assert p == [p[0]] + p[1..];
      ApplyFirst(d, p[0], p[1..]);
      PlanAllowedConcat(Apply(d, p[0]), p[1..], q, f);
      assert (p + q)[1..] == p[1..] + q;
    }
  }

  /** A plan of allowed actions, stopped after any of them, keeps what a change keeps. */
  lemma {:induction false} PlanKeeps(d: Disk, plan: seq<Action>, f: Facts, n: nat)
    requires Sound(d, f) && PlanAllowed(d, plan, f) && n <= |plan|
    ensures Sound(ApplyAll(d, plan[..n]), f) && SameCurrent(d, ApplyAll(d, plan[..n]), f.published)
    decreases n
  {
    if n == 0 {
      assert plan[..n] == [];
    } else {
      AllowedKeeps(d, plan[0], f);
      PlanKeeps(Apply(d, plan[0]), plan[1..], f, n - 1);
      assert plan[..n] == [plan[0]] + plan[1..][..n - 1];
      ApplyFirst(d, plan[0], plan[1..][..n - 1]);
    }
  }

  lemma AllPlanKeeps(d: Disk, plan: seq<Action>, f: Facts)
    requires Sound(d, f) && PlanAllowed(d, plan, f)
    ensures Sound(ApplyAll(d, plan), f) && SameCurrent(d, ApplyAll(d, plan), f.published)
  {
    PlanKeeps(d, plan, f, |plan|);
    assert plan[..|plan|] == plan;
  }

  // ---------------------------------------------------------------------------------------------
  // What each plan does.
  // ---------------------------------------------------------------------------------------------

  function Completed(s: Dir): (r: Dir)
    requires s.manifest.Some?
  {
    Restored(s).(manifest := Some(s.manifest.value.(state := Complete)), manifestTmp := false)
  }

  /** One action in front of a plan: what it leaves, and that it is allowed. */
  lemma Before(d: Disk, a: Action, rest: seq<Action>, f: Facts)
    ensures ApplyAll(d, [a] + rest) == ApplyAll(Apply(d, a), rest)
    ensures AllowedAt(d, a, f) && PlanAllowed(Apply(d, a), rest, f) ==> PlanAllowed(d, [a] + rest, f)
  {
    ApplyFirst(d, a, rest);
    assert ([a] + rest)[1..] == rest;
  }

  lemma ThreeInARow(d: Disk, a: Action, b: Action, c: Action, f: Facts)
    requires AllowedAt(d, a, f) && AllowedAt(Apply(d, a), b, f) && AllowedAt(Apply(Apply(d, a), b), c, f)
    ensures ApplyAll(d, [a, b, c]) == Apply(Apply(Apply(d, a), b), c)
    ensures PlanAllowed(d, [a, b, c], f)
  {
    Before(Apply(Apply(d, a), b), c, [], f);
    Before(Apply(d, a), b, [c] + [], f);
    Before(d, a, [b] + ([c] + []), f);
    assert [a, b, c] == [a] + ([b] + ([c] + []));
  }

  lemma CompleteSteps(d: Disk, id: Id, f: Facts)
    requires id in d.salvage && d.salvage[id].manifest.Some?
    ensures var d2 := Apply(Apply(d, RestoreMagic(id)), WriteSalvageTmp(id));
            && AllowedAt(d2, PutComplete(id), f)
            && Apply(d2, PutComplete(id)) == d.(salvage := d.salvage[id := Completed(d.salvage[id])])
  {
    var s := d.salvage[id];
    var d1 := d.(salvage := d.salvage[id := Restored(s)]);
    var d2 := d.(salvage := d.salvage[id := Restored(s).(manifestTmp := true)]);
    assert Apply(d, RestoreMagic(id)) == d1;
    assert Apply(d1, WriteSalvageTmp(id)) == d2 by {
      assert d1.salvage[id := Restored(s).(manifestTmp := true)] == d2.salvage;
    }
    assert d2.salvage[id := Completed(s)] == d.salvage[id := Completed(s)];
  }

  lemma CompleteDoes(d: Disk, id: Id, f: Facts)
    requires id in d.salvage && d.salvage[id].manifest.Some?
    ensures ApplyAll(d, CompletePlan(id)) == d.(salvage := d.salvage[id := Completed(d.salvage[id])])
    ensures PlanAllowed(d, CompletePlan(id), f)
  {
    CompleteSteps(d, id, f);
    ThreeInARow(d, RestoreMagic(id), WriteSalvageTmp(id), PutComplete(id), f);
  }

  lemma TrashSteps(d: Disk, id: Id)
    requires id in d.gens
    ensures Apply(Apply(Apply(d, Trash(id)), ShredTrash(id)), DropTrash(id))
         == d.(gens := d.gens - {id}, trash := d.trash - {id})
  {
    assert Apply(Apply(Apply(d, Trash(id)), ShredTrash(id)), DropTrash(id)).trash == d.trash - {id};
  }

  lemma TrashDoes(d: Disk, id: Id, f: Facts)
    requires id in d.gens && Some(id) != f.published && id !in f.kept
    ensures ApplyAll(d, TrashPlan(id)) == d.(gens := d.gens - {id}, trash := d.trash - {id})
    ensures PlanAllowed(d, TrashPlan(id), f)
  {
    var d1 := Apply(d, Trash(id));
    var d3 := Apply(Apply(d1, ShredTrash(id)), DropTrash(id));
    TrashSteps(d, id);
    ThreeInARow(d1, ShredTrash(id), DropTrash(id), Fsync, f);
    TwoBefore(d, Trash(id), Fsync, [ShredTrash(id), DropTrash(id), Fsync], f);
    assert TrashPlan(id) == [Trash(id), Fsync] + [ShredTrash(id), DropTrash(id), Fsync];
  }

  /** Two actions in front of a plan. */
  lemma TwoBefore(d: Disk, a: Action, b: Action, rest: seq<Action>, f: Facts)
    requires AllowedAt(d, a, f) && AllowedAt(Apply(d, a), b, f) && PlanAllowed(Apply(Apply(d, a), b), rest, f)
    ensures ApplyAll(d, [a, b] + rest) == ApplyAll(Apply(Apply(d, a), b), rest)
    ensures PlanAllowed(d, [a, b] + rest, f)
  {
    Before(Apply(d, a), b, rest, f);
    Before(d, a, [b] + rest, f);
    assert [a, b] + rest == [a] + ([b] + rest);
  }

  lemma ClearTmpSteps(d: Disk, id: Id)
    ensures var e := Apply(Apply(d, ShredTmp(id)), DropTmp(id));
            e.gens == d.gens && e.salvage == d.salvage && e.trash == d.trash && e.tmps.Keys == d.tmps.Keys - {id}
  {
  }

  lemma ClearTrashSteps(d: Disk, id: Id)
    ensures var e := Apply(Apply(d, ShredTrash(id)), DropTrash(id));
            e.gens == d.gens && e.salvage == d.salvage && e.tmps == d.tmps && e.trash.Keys == d.trash.Keys - {id}
  {
  }

  /** The disk without the leftover `.tmp` and `.trash` directories of the lists: nothing else changed. */
  predicate Cleared(d: Disk, e: Disk, tmps: seq<Id>, trash: seq<Id>) {
    && e.gens == d.gens && e.salvage == d.salvage
    && (forall x :: x in e.tmps ==> x in d.tmps && x !in tmps)
    && (forall x :: x in e.trash ==> x in d.trash && x !in trash)
  }

  lemma {:induction false} ClearDoes(d: Disk, tmps: seq<Id>, trash: seq<Id>, f: Facts)
    ensures Cleared(d, ApplyAll(d, ClearPlan(tmps, trash)), tmps, trash)
    ensures PlanAllowed(d, ClearPlan(tmps, trash), f)
    decreases |tmps|, |trash|
  {
    if tmps != [] {
      var id := tmps[0];
      var e := Apply(Apply(d, ShredTmp(id)), DropTmp(id));
      ClearTmpSteps(d, id);
      ClearDoes(e, tmps[1..], trash, f);
      TwoBefore(d, ShredTmp(id), DropTmp(id), ClearPlan(tmps[1..], trash), f);
      assert forall x :: x in tmps ==> x == id || x in tmps[1..];
    } else if trash != [] {
      var id := trash[0];
      var e := Apply(Apply(d, ShredTrash(id)), DropTrash(id));
      ClearTrashSteps(d, id);
      ClearDoes(e, tmps, trash[1..], f);
      TwoBefore(d, ShredTrash(id), DropTrash(id), ClearPlan(tmps, trash[1..]), f);
      assert forall x :: x in trash ==> x == id || x in trash[1..];
    } else {
      Before(d, Fsync, [], f);
      assert [Fsync] + [] == [Fsync];
    }
  }

  predicate Finished(s: Dir) {
    s.manifest.Some? && s.manifest.value.state.Complete? && !s.manifestTmp
  }

  /**
   The generations of `done` are finished: superseded ones gone, the published one unmarked;
   nothing else changed but salvages added, finished.
   */
  predicate Tidied(d: Disk, e: Disk, done: seq<Id>, f: Facts) {
    && e.tmps == d.tmps
    && (forall x :: x in e.trash ==> x in d.trash)
    && (forall x :: x in e.gens ==> x in d.gens)
    && (forall x :: x in e.gens && x in done ==>
                      Some(x) == f.published && e.gens[x].manifest.None? && !e.gens[x].manifestTmp)
    && (forall x :: x in d.gens && x !in done ==> x in e.gens && e.gens[x] == d.gens[x])
    && (forall x :: x in e.salvage ==> (x in d.salvage && e.salvage[x] == d.salvage[x]) || Finished(e.salvage[x]))
  }

  /** Whether a generation is superseded, and marked when it is, is what the facts say of it. */
  predicate Expected(g: Dir, id: Id, superseded: bool, f: Facts) {
    && (superseded <==> Some(id) != f.published)
    && (superseded ==> (g.manifest.Some? <==> id in f.kept))
    && (!superseded ==> id !in f.kept)
  }

  lemma MoveDoes(d: Disk, id: Id, f: Facts)
    requires id in d.gens && d.gens[id].manifest.Some? && id in f.kept
    ensures var plan := [Move(id)] + CompletePlan(id);
            && ApplyAll(d, plan) == d.(gens := d.gens - {id}, salvage := d.salvage[id := Completed(d.gens[id])])
            && PlanAllowed(d, plan, f)
  {
    var e := Apply(d, Move(id));
    CompleteDoes(e, id, f);
    Before(d, Move(id), CompletePlan(id), f);
    assert e.salvage[id := Completed(d.gens[id])] == d.salvage[id := Completed(d.gens[id])];
  }

  /** The directory plan after its temporary manifest is cleared. */
  lemma DirRestDoes(d: Disk, id: Id, superseded: bool, f: Facts)
    requires id in d.gens && Expected(d.gens[id], id, superseded, f) && !d.gens[id].manifestTmp
    ensures var plan := DirPlan(d.gens[id], id, superseded)[1..];
            Tidied(d, ApplyAll(d, plan), [id], f) && PlanAllowed(d, plan, f)
  {
    var g := d.gens[id];
    var plan := DirPlan(g, id, superseded)[1..];
    if superseded && g.manifest.Some? {
      assert plan == [Move(id)] + CompletePlan(id);
      MoveDoes(d, id, f);
    } else if superseded {
      assert plan == TrashPlan(id);
      TrashDoes(d, id, f);
    } else if g.manifest.Some? {
      Before(d, Unmark(id), [], f);
      assert plan == [Unmark(id)] + [];
    } else {
      assert plan == [];
    }
  }

  lemma DirDoes(d: Disk, id: Id, superseded: bool, f: Facts)
    requires id in d.gens && Expected(d.gens[id], id, superseded, f)
    ensures var plan := DirPlan(d.gens[id], id, superseded);
            Tidied(d, ApplyAll(d, plan), [id], f) && PlanAllowed(d, plan, f)
  {
    var plan := DirPlan(d.gens[id], id, superseded);
    var e := Apply(d, ClearManifestTmp(id));
    assert DirPlan(e.gens[id], id, superseded) == plan;
    DirRestDoes(e, id, superseded, f);
    Before(d, ClearManifestTmp(id), plan[1..], f);
    assert plan == [ClearManifestTmp(id)] + plan[1..];
  }

  lemma TidiedThen(d: Disk, e: Disk, x: Disk, id: Id, rest: seq<Id>, f: Facts)
    requires Tidied(d, e, [id], f) && Tidied(e, x, rest, f)
    ensures Tidied(d, x, [id] + rest, f)
  {
  }

  lemma GensFirst(d: Disk, e: Disk, plan: seq<Action>, rest: seq<Action>, id: Id, later: seq<Id>, f: Facts)
    requires e == ApplyAll(d, plan) && Tidied(d, e, [id], f) && Tidied(e, ApplyAll(e, rest), later, f)
    requires PlanAllowed(d, plan, f) && PlanAllowed(e, rest, f)
    ensures Tidied(d, ApplyAll(d, plan + rest), [id] + later, f)
    ensures PlanAllowed(d, plan + rest, f)
  {
    ApplyAllConcat(d, plan, rest);
    PlanAllowedConcat(d, plan, rest, f);
    TidiedThen(d, e, ApplyAll(e, rest), id, later, f);
  }

  /** The generation is as it was classified, and as the facts have it. */
  predicate AsClassified(d: Disk, gens: map<Id, Dir>, superseded: set<Id>, id: Id, f: Facts) {
    id in d.gens && id in gens && d.gens[id] == gens[id] && Expected(gens[id], id, id in superseded, f)
  }

  predicate Lined(d: Disk, gens: map<Id, Dir>, superseded: set<Id>, order: seq<Id>, f: Facts) {
    && (forall k :: 0 <= k < |order| ==> order[k] in gens)
    && (forall k :: 0 <= k < |order| ==> AsClassified(d, gens, superseded, order[k], f))
    && (forall j, k :: 0 <= j < k < |order| ==> order[j] != order[k])
  }

  lemma LinedLater(d: Disk, e: Disk, gens: map<Id, Dir>, superseded: set<Id>, order: seq<Id>, f: Facts)
    requires order != [] && Lined(d, gens, superseded, order, f) && Tidied(d, e, [order[0]], f)
    ensures Lined(e, gens, superseded, order[1..], f)
  {
    var later := order[1..];
    forall k | 0 <= k < |later| ensures later[k] in gens && AsClassified(e, gens, superseded, later[k], f) {
      assert later[k] == order[k + 1];
      assert AsClassified(d, gens, superseded, order[k + 1], f);
    }
  }

  lemma {:induction false} GensDo(d: Disk, gens: map<Id, Dir>, superseded: set<Id>, order: seq<Id>, f: Facts)
    requires Lined(d, gens, superseded, order, f)
    ensures Tidied(d, ApplyAll(d, GensPlan(gens, superseded, order)), order, f)
    ensures PlanAllowed(d, GensPlan(gens, superseded, order), f)
    decreases |order|
  {
    if order != [] {
      var id := order[0];
      assert AsClassified(d, gens, superseded, id, f);
      var plan := DirPlan(gens[id], id, id in superseded);
      DirDoes(d, id, id in superseded, f);
      var e := ApplyAll(d, plan);
      var later := order[1..];
      LinedLater(d, e, gens, superseded, order, f);
      GensDo(e, gens, superseded, later, f);
      GensFirst(d, e, plan, GensPlan(gens, superseded, later), id, later, f);
      assert order == [id] + later;
    }
  }

  /** The salvages of `done` are finished, and nothing else changed. */
  predicate SalvagesDone(d: Disk, e: Disk, done: seq<Id>) {
    && e.gens == d.gens && e.tmps == d.tmps && e.trash == d.trash
    && e.salvage.Keys == d.salvage.Keys
    && (forall x :: x in e.salvage && x in done ==> Finished(e.salvage[x]))
    && (forall x :: x in d.salvage && x !in done ==> e.salvage[x] == d.salvage[x])
  }

  lemma SalvageDirDoes(d: Disk, id: Id, f: Facts)
    requires id in d.salvage && d.salvage[id].manifest.Some?
    ensures var s := d.salvage[id];
            var plan := [ClearSalvageTmp(id)] + (if s.manifest.value.state.Moving? then CompletePlan(id) else []);
            SalvagesDone(d, ApplyAll(d, plan), [id]) && PlanAllowed(d, plan, f)
  {
    var moving := d.salvage[id].manifest.value.state.Moving?;
    var e := Apply(d, ClearSalvageTmp(id));
    if moving {
      CompleteDoes(e, id, f);
    }
    Before(d, ClearSalvageTmp(id), if moving then CompletePlan(id) else [], f);
  }

  lemma {:induction false} SalvagesDo(d: Disk, salvage: map<Id, Dir>, order: seq<Id>, f: Facts)
    requires forall k :: 0 <= k < |order| ==>
                           && order[k] in d.salvage && order[k] in salvage && d.salvage[order[k]] == salvage[order[k]]
                           && salvage[order[k]].manifest.Some?
    requires forall j, k :: 0 <= j < k < |order| ==> order[j] != order[k]
    ensures SalvagesDone(d, ApplyAll(d, SalvagePlan(salvage, order)), order)
    ensures PlanAllowed(d, SalvagePlan(salvage, order), f)
    decreases |order|
  {
    if order != [] {
      var id := order[0];
      var plan := [ClearSalvageTmp(id)] + (if salvage[id].manifest.value.state.Moving? then CompletePlan(id) else []);
      SalvageDirDoes(d, id, f);
      var e := ApplyAll(d, plan);
      forall k | 0 <= k < |order[1..]|
        ensures order[1..][k] in e.salvage && e.salvage[order[1..][k]] == salvage[order[1..][k]]
      {
        assert order[1..][k] == order[k + 1];
      }
      SalvagesDo(e, salvage, order[1..], f);
      var rest := SalvagePlan(salvage, order[1..]);
      ApplyAllConcat(d, plan, rest);
      PlanAllowedConcat(d, plan, rest, f);
      assert SalvagePlan(salvage, order) == plan + rest;
      assert order == [id] + order[1..];
    }
  }

  /** What a finished recovery leaves: the published generation alone and unmarked, every salvage complete. */
  predicate Ready(d: Disk, f: Facts) {
    && d.tmps == map[] && d.trash == map[]
    && (forall g :: g in d.gens ==> Some(g) == f.published && d.gens[g].manifest.None? && !d.gens[g].manifestTmp)
    && (forall x :: x in d.salvage ==> Finished(d.salvage[x]))
  }

  lemma Pass1Does(d: Disk, f: Facts)
    ensures var e := ApplyAll(d, Pass1(d));
            e.gens == d.gens && e.salvage == d.salvage && e.tmps == map[] && e.trash == map[]
    ensures PlanAllowed(d, Pass1(d), f)
  {
    ClearDoes(d, Ascending(d.tmps.Keys), Ascending(d.trash.Keys), f);
    var e := ApplyAll(d, Pass1(d));
    NoInts(e.tmps.Keys);
    NoInts(e.trash.Keys);
  }

  lemma Pass2Does(d: Disk, f: Facts)
    requires Sound(d, f)
    ensures Classify(d.gens).Ok?
    ensures Tidied(d, ApplyAll(d, Pass2(d)), Ascending(d.gens.Keys), f)
    ensures PlanAllowed(d, Pass2(d), f)
  {
    ClassifyNamesThePublished(d.gens, f.published);
    var order := Ascending(d.gens.Keys);
    var superseded := Classify(d.gens).value;
    forall k | 0 <= k < |order| ensures Expected(d.gens[order[k]], order[k], order[k] in superseded, f) {
      assert order[k] in f.kept ==> KeptIn(d, f, order[k]);
    }
    GensDo(d, d.gens, superseded, order, f);
  }

  lemma Pass3Does(d: Disk, f: Facts)
    requires Sound(d, f)
    ensures SalvagesDone(d, ApplyAll(d, Pass3(d)), Ascending(d.salvage.Keys))
    ensures PlanAllowed(d, Pass3(d), f)
  {
    var order := Ascending(d.salvage.Keys);
    forall k | 0 <= k < |order| ensures d.salvage[order[k]].manifest.Some? {
      assert KeptIn(d, f, order[k]);
    }
    SalvagesDo(d, d.salvage, order, f);
  }

  lemma StoppedKeeps(d: Disk, plan: seq<Action>, f: Facts, steps: nat)
    requires Sound(d, f) && PlanAllowed(d, plan, f)
    ensures Sound(Stopped(d, plan, steps), f) && SameCurrent(d, Stopped(d, plan, steps), f.published)
    ensures steps >= |plan| ==> Stopped(d, plan, steps) == ApplyAll(d, plan)
  {
    PlanKeeps(d, plan, f, if steps < |plan| then steps else |plan|);
    assert plan[..|plan|] == plan;
  }

  /** How many changes a whole recovery makes. */
  function RecoverySteps(d: Disk): (n: nat) {
    var d1 := ApplyAll(d, Pass1(d));
    var d2 := ApplyAll(d1, Pass2(d1));
    |Pass1(d)| + |Pass2(d1)| + |Pass3(d2)|
  }

  lemma ReadyAtLast(d: Disk, f: Facts, d1: Disk, d2: Disk, d3: Disk)
    requires Sound(d, f) && d1.gens == d.gens && d1.salvage == d.salvage && d1.tmps == map[] && d1.trash == map[]
    requires Tidied(d1, d2, Ascending(d1.gens.Keys), f)
    requires SalvagesDone(d2, d3, Ascending(d2.salvage.Keys))
    ensures Ready(d3, f)
  {
    NoInts(d3.trash.Keys);
  }

  lemma Passes(d: Disk, f: Facts)
    requires Sound(d, f)
    ensures var d1 := ApplyAll(d, Pass1(d));
            var d2 := ApplyAll(d1, Pass2(d1));
            && Sound(d1, f) && Sound(d2, f) && Classify(d1.gens).Ok?
            && SameCurrent(d, d1, f.published) && SameCurrent(d1, d2, f.published)
            && PlanAllowed(d, Pass1(d), f) && PlanAllowed(d1, Pass2(d1), f) && PlanAllowed(d2, Pass3(d2), f)
            && Ready(ApplyAll(d2, Pass3(d2)), f)
  {
    Pass1Does(d, f);
    AllPlanKeeps(d, Pass1(d), f);
    var d1 := ApplyAll(d, Pass1(d));
    Pass2Does(d1, f);
    AllPlanKeeps(d1, Pass2(d1), f);
    var d2 := ApplyAll(d1, Pass2(d1));
    Pass3Does(d2, f);
    ReadyAtLast(d, f, d1, d2, ApplyAll(d2, Pass3(d2)));
  }

  lemma SameCurrentThen(d: Disk, e: Disk, x: Disk, published: Option<Id>)
    requires SameCurrent(d, e, published) && SameCurrent(e, x, published)
    ensures SameCurrent(d, x, published)
  {
  }

  /** What is said of a recovery that left `r`, whole if it ran `all` of its changes. */
  predicate RecoveredTo(d: Disk, r: Recovery, all: bool, f: Facts) {
    Sound(r.disk, f) && SameCurrent(d, r.disk, f.published) && r.finished == all && (all ==> Ready(r.disk, f))
  }

  /** A recovery that stopped in its second pass, and one that reached its third. */
  lemma RecoverValue2(d: Disk, d1: Disk, steps: nat, left: nat)
    requires d1 == ApplyAll(d, Pass1(d)) && Classify(d1.gens).Ok?
    requires steps == |Pass1(d)| + left && left < |Pass2(d1)|
    ensures Recover(d, steps) == Recovery(Stopped(d1, Pass2(d1), left), false)
  {
  }

  lemma RecoverValue3(d: Disk, d1: Disk, d2: Disk, steps: nat, left: nat)
    requires d1 == ApplyAll(d, Pass1(d)) && Classify(d1.gens).Ok? && d2 == ApplyAll(d1, Pass2(d1))
    requires steps == |Pass1(d)| + |Pass2(d1)| + left
    ensures Recover(d, steps) == Recovery(Stopped(d2, Pass3(d2), left), left >= |Pass3(d2)|)
    ensures left >= |Pass3(d2)| <==> steps >= RecoverySteps(d)
  {
  }

  /** A pass over a disk `mid` that a recovery of `d` reached, stopped anywhere. */
  lemma StoppedRecovers(d: Disk, mid: Disk, plan: seq<Action>, f: Facts, steps: nat, last: bool)
    requires Sound(mid, f) && PlanAllowed(mid, plan, f) && SameCurrent(d, mid, f.published)
    requires last ==> Ready(ApplyAll(mid, plan), f)
    ensures var all := last && steps >= |plan|;
            RecoveredTo(d, Recovery(Stopped(mid, plan, steps), all), all, f)
  {
    StoppedKeeps(mid, plan, f, steps);
    SameCurrentThen(d, mid, Stopped(mid, plan, steps), f.published);
  }

  lemma RecoverInPass2(d: Disk, f: Facts, steps: nat)
    requires Sound(d, f) && |Pass1(d)| <= steps
    requires var d1 := ApplyAll(d, Pass1(d)); steps < |Pass1(d)| + |Pass2(d1)|
    ensures RecoveredTo(d, Recover(d, steps), false, f)
  {
    Passes(d, f);
    var d1 := ApplyAll(d, Pass1(d));
    var left := steps - |Pass1(d)|;
    RecoverValue2(d, d1, steps, left);
    StoppedRecovers(d, d1, Pass2(d1), f, left, false);
  }

  lemma RecoverInPass3(d: Disk, f: Facts, steps: nat)
    requires Sound(d, f)
    requires var d1 := ApplyAll(d, Pass1(d)); |Pass1(d)| + |Pass2(d1)| <= steps
    ensures RecoveredTo(d, Recover(d, steps), steps >= RecoverySteps(d), f)
  {
    Passes(d, f);
    var d1 := ApplyAll(d, Pass1(d));
    var d2 := ApplyAll(d1, Pass2(d1));
    var left := steps - |Pass1(d)| - |Pass2(d1)|;
    RecoverValue3(d, d1, d2, steps, left);
    SameCurrentThen(d, d1, d2, f.published);
    StoppedRecovers(d, d2, Pass3(d2), f, left, true);
  }

  /**
   Recovery, stopped after any of its changes, keeps the published generation current and loses
   nothing set aside; not stopped, it finishes, and leaves that generation alone.
   */
  lemma RecoverKeeps(d: Disk, f: Facts, steps: nat)
    requires Sound(d, f)
    ensures RecoveredTo(d, Recover(d, steps), steps >= RecoverySteps(d), f)
  {
    var d1 := ApplyAll(d, Pass1(d));
    if steps < |Pass1(d)| {
      Pass1Does(d, f);
      StoppedKeeps(d, Pass1(d), f, steps);
    } else if steps < |Pass1(d)| + |Pass2(d1)| {
      RecoverInPass2(d, f, steps);
    } else {
      RecoverInPass3(d, f, steps);
    }
  }

  // ---------------------------------------------------------------------------------------------
  // A header that names a generation no longer there.
  // ---------------------------------------------------------------------------------------------

  /** The generation an action of the second pass changes. */
  function ActsOn(a: Action): (r: Option<Id>) {
    match a
    case ClearManifestTmp(id) => Some(id)
    case Unmark(id) => Some(id)
    case Trash(id) => Some(id)
    case ShredTrash(id) => Some(id)
    case DropTrash(id) => Some(id)
    case Move(id) => Some(id)
    case RestoreMagic(id) => Some(id)
    case WriteSalvageTmp(id) => Some(id)
    case PutComplete(id) => Some(id)
    case _ => None
  }

  lemma {:induction false} GensPlanActs(gens: map<Id, Dir>, superseded: set<Id>, order: seq<Id>)
    requires forall k :: 0 <= k < |order| ==> order[k] in gens
    ensures forall a :: a in GensPlan(gens, superseded, order) ==>
                          a == Fsync || (ActsOn(a).Some? && ActsOn(a).value in gens)
    decreases |order|
  {
    if order != [] {
      GensPlanActs(gens, superseded, order[1..]);
    }
  }

  /**
   Whatever the headers name as superseded, the second pass acts on generations that are there and
   on nothing else.
   */
  lemma ActsOnPresent(d: Disk, id: Id)
    requires id !in d.gens
    ensures forall a :: a in Pass2(d) ==> ActsOn(a) != Some(id)
  {
    if Classify(d.gens).Ok? {
      GensPlanActs(d.gens, Classify(d.gens).value, Ascending(d.gens.Keys));
    }
  }

  /** The root has a directory of generation `id`, of any kind. */
  predicate Known(d: Disk, id: Id) {
    id in d.gens || id in d.tmps || id in d.trash || id in d.salvage
  }

  /** The one action that makes a directory where none was. */
  predicate Makes(a: Action) {
    a.CreateTmp?
  }

  lemma ApplyKnows(d: Disk, a: Action, id: Id)
    requires !Known(d, id) && !Makes(a)
    ensures !Known(Apply(d, a), id)
  {
  }

  lemma {:induction false} KnowsNoMore(d: Disk, plan: seq<Action>, id: Id)
    requires !Known(d, id) && forall a :: a in plan ==> !Makes(a)
    ensures !Known(ApplyAll(d, plan), id)
    decreases |plan|
  {
    if plan != [] {
      var front := plan[..|plan| - 1];
      KnowsNoMore(d, front, id);
      assert plan[|plan| - 1] in plan;
      ApplyKnows(ApplyAll(d, front), plan[|plan| - 1], id);
    }
  }

  lemma {:induction false} ClearMakesNone(tmps: seq<Id>, trash: seq<Id>)
    ensures forall a :: a in ClearPlan(tmps, trash) ==> OffGenerations(a)
    decreases |tmps|, |trash|
  {
    if tmps != [] {
      ClearMakesNone(tmps[1..], trash);
    } else if trash != [] {
      ClearMakesNone(tmps, trash[1..]);
    }
  }

  /** An action on a `.tmp` or a `.trash` alone. */
  predicate OffGenerations(a: Action) {
    a.Fsync? || a.ShredTmp? || a.DropTmp? || a.ShredTrash? || a.DropTrash?
  }

  lemma {:induction false} OffGenerationsKeeps(d: Disk, plan: seq<Action>)
    requires forall a :: a in plan ==> OffGenerations(a)
    ensures ApplyAll(d, plan).gens == d.gens && ApplyAll(d, plan).salvage == d.salvage
    decreases |plan|
  {
    if plan != [] {
      OffGenerationsKeeps(d, plan[..|plan| - 1]);
      assert plan[|plan| - 1] in plan;
    }
  }

  lemma {:induction false} GensMakeNone(gens: map<Id, Dir>, superseded: set<Id>, order: seq<Id>)
    requires forall k :: 0 <= k < |order| ==> order[k] in gens
    ensures forall a :: a in GensPlan(gens, superseded, order) ==> !Makes(a)
    decreases |order|
  {
    if order != [] {
      GensMakeNone(gens, superseded, order[1..]);
    }
  }

  lemma {:induction false} SalvagesMakeNone(salvage: map<Id, Dir>, order: seq<Id>)
    requires forall k :: 0 <= k < |order| ==> order[k] in salvage
    ensures forall a :: a in SalvagePlan(salvage, order) ==> !Makes(a)
    decreases |order|
  {
    if order != [] {
      SalvagesMakeNone(salvage, order[1..]);
    }
  }

  lemma StoppedKnows(d: Disk, plan: seq<Action>, steps: nat, id: Id)
    requires !Known(d, id) && forall a :: a in plan ==> !Makes(a)
    ensures !Known(Stopped(d, plan, steps), id) && !Known(ApplyAll(d, plan), id)
  {
    KnowsNoMore(d, plan, id);
    KnowsNoMore(d, plan[..if steps < |plan| then steps else |plan|], id);
  }

  lemma Pass1Knows(d: Disk, steps: nat, id: Id)
    requires !Known(d, id)
    ensures !Known(Stopped(d, Pass1(d), steps), id) && !Known(ApplyAll(d, Pass1(d)), id)
  {
    ClearMakesNone(Ascending(d.tmps.Keys), Ascending(d.trash.Keys));
    StoppedKnows(d, Pass1(d), steps, id);
  }

  lemma Pass2Knows(d: Disk, steps: nat, id: Id)
    requires !Known(d, id)
    ensures !Known(Stopped(d, Pass2(d), steps), id) && !Known(ApplyAll(d, Pass2(d)), id)
  {
    if Classify(d.gens).Ok? {
      GensMakeNone(d.gens, Classify(d.gens).value, Ascending(d.gens.Keys));
    }
    StoppedKnows(d, Pass2(d), steps, id);
  }

  lemma Pass3Knows(d: Disk, steps: nat, id: Id)
    requires !Known(d, id)
    ensures !Known(Stopped(d, Pass3(d), steps), id)
  {
    SalvagesMakeNone(d.salvage, Ascending(d.salvage.Keys));
    StoppedKnows(d, Pass3(d), steps, id);
  }

  /** A recovery stopped in its first pass, or at generations it cannot classify. */
  lemma RecoverValue1(d: Disk, d1: Disk, steps: nat)
    requires d1 == ApplyAll(d, Pass1(d)) && (steps < |Pass1(d)| || Classify(d1.gens).Err?)
    ensures Recover(d, steps) == Recovery(if steps < |Pass1(d)| then Stopped(d, Pass1(d), steps) else d1, false)
  {
  }

  /** The rest of a recovery, once its first pass left `d1`. */
  lemma DanglingAfterPass1(d: Disk, d1: Disk, steps: nat, left: nat, id: Id)
    requires d1 == ApplyAll(d, Pass1(d)) && Classify(d1.gens).Ok? && steps == |Pass1(d)| + left && !Known(d1, id)
    ensures !Known(Recover(d, steps).disk, id)
  {
    Pass2Knows(d1, left, id);
    if left < |Pass2(d1)| {
      RecoverValue2(d, d1, steps, left);
    } else {
      var d2 := ApplyAll(d1, Pass2(d1));
      RecoverValue3(d, d1, d2, steps, left - |Pass2(d1)|);
      Pass3Knows(d2, left - |Pass2(d1)|, id);
    }
  }

  /**
   A generation that is not there, whatever headers name it, is never acted on: a whole recovery,
   stopped anywhere, of any disk leaves nothing of it.
   */
  lemma DanglingNeverActedOn(d: Disk, steps: nat, id: Id)
    requires !Known(d, id)
    ensures !Known(Recover(d, steps).disk, id)
  {
    Pass1Knows(d, steps, id);
    var d1 := ApplyAll(d, Pass1(d));
    if steps < |Pass1(d)| || Classify(d1.gens).Err? {
      RecoverValue1(d, d1, steps);
    } else {
      DanglingAfterPass1(d, d1, steps, steps - |Pass1(d)|, id);
    }
  }

  /**
   A root whose generations cannot be classified: recovery reports it, never finishes, and leaves
   every generation and salvage as it was.
   */
  lemma UnclassifiedIsLeft(d: Disk, steps: nat)
    requires Classify(d.gens).Err?
    ensures var r := Recover(d, steps); !r.finished && r.disk.gens == d.gens && r.disk.salvage == d.salvage
  {
    var plan := Pass1(d);
    ClearMakesNone(Ascending(d.tmps.Keys), Ascending(d.trash.Keys));
    OffGenerationsKeeps(d, plan);
    OffGenerationsKeeps(d, plan[..if steps < |plan| then steps else |plan|]);
    RecoverValue1(d, ApplyAll(d, plan), steps);
  }
}

/** A locked root, changed step by step on disk; `steps` is how many changes run before a crash stops the method. */
module GenerationRoot {
  import opened Common
  import opened Generation
  import opened GenerationSafety

  class Root {
    var disk: Disk

    constructor (disk: Disk)
      ensures this.disk == disk
    {
      this.disk := disk;
    }

    /** Runs the first `steps` actions of `plan`, all of them when there are fewer; returns how many ran. */
    method RunSteps(plan: seq<Action>, steps: nat) returns (ran: nat)
      modifies this
      ensures ran == if steps < |plan| then steps else |plan|
      ensures disk == Stopped(old(disk), plan, steps)
    {
      ran := 0;
      assert plan[..0] == [];
      while ran < |plan|
        invariant ran <= |plan| && ran <= steps
        invariant disk == ApplyAll(old(disk), plan[..ran])
      {
        if ran == steps {
          return;
        }
        assert plan[..ran + 1][..ran] == plan[..ran];
        disk := Apply(disk, plan[ran]);
        ran := ran + 1;
      }
    }

    /** Starts a generation in a fresh `.tmp`, its log naming the root's one generation. */
    method Build(id: Id, data: Data, head: Head, steps: nat) returns (r: Result<Building, Error>)
      modifies this
      ensures r.Err? <==> |old(disk).gens.Keys| > 1
      ensures r.Err? ==> disk == old(disk) && r.error == Ambiguous(disk.gens.Keys)
      ensures r.Ok? ==> Ok(r.value.supersedes) == OnlyDir(old(disk).gens) && r.value.id == id
                        && disk == Stopped(old(disk), BuildPlan(r.value, data, head), steps)
    {
      var only := OnlyDir(disk.gens);
      if only.Err? {
        return Err(only.error);
      }
      var b := Building(id, only.value);
      var _ := RunSteps(BuildPlan(b, data, head), steps);
      return Ok(b);
    }

    /** The publish of `b`, or its first `steps` steps, as a crash after them leaves the files. */
    method PublishSteps(b: Building, fate: Fate, steps: nat) returns (ran: nat)
      modifies this
      ensures ran == if steps < |PublishPlan(b, fate)| then steps else |PublishPlan(b, fate)|
      ensures disk == Stopped(old(disk), PublishPlan(b, fate), steps)
    {
      var plan := [MarkTmp(b.id), Fsync, Fsync];
      var salvaging := b.supersedes.Some? && fate.ToSalvage?;
      if salvaging {
        plan := plan + [WriteManifestTmp(b.supersedes.value),
          PutManifest(b.supersedes.value, fate.manifest.(state := Moving))];
      }
      assert plan == PreparePlan(b, fate);
      plan := plan + [Publish(b.id), Fsync];
      if b.supersedes.Some? {
        var prior := b.supersedes.value;
        if salvaging {
          plan := plan + [Move(prior), RestoreMagic(prior), WriteSalvageTmp(prior), PutComplete(prior)];
        } else {
          plan := plan + [Trash(prior), Fsync, ShredTrash(prior), DropTrash(prior), Fsync];
        }
      }
      assert plan == PublishPlan(b, fate);
      ran := RunSteps(plan, steps);
    }

    /** Finishes what a crash left, in three passes, each reading the disk the one before left. */
    method FinishLeftovers(steps: nat) returns (r: Result<bool, Error>)
      modifies this
      ensures r.Ok? ==> Recovery(disk, r.value) == Recover(old(disk), steps)
      ensures r.Err? ==> Classify(disk.gens) == Err(r.error) && disk == ApplyAll(old(disk), Pass1(old(disk)))
      ensures r.Err? <==> steps >= |Pass1(old(disk))| && Classify(ApplyAll(old(disk), Pass1(old(disk))).gens).Err?
    {
      ghost var start := disk;
      var plan := Pass1(disk);
      var ran := RunSteps(plan, steps);
      if steps < |plan| {
        return Ok(false);
      }
      ghost var first := disk;
      assert plan[..|plan|] == plan;
      var left := steps - |plan|;
      var classified := Classify(disk.gens);
      if classified.Err? {
        return Err(classified.error);
      }
      plan := GensPlan(disk.gens, classified.value, Ascending(disk.gens.Keys));
      ran := RunSteps(plan, left);
      if left < |plan| {
        return Ok(false);
      }
      assert plan[..|plan|] == plan;
      left := left - |plan|;
      plan := Pass3(disk);
      RecoverValue3(start, first, disk, steps, left);
      ran := RunSteps(plan, left);
      return Ok(left >= |plan|);
    }
  }

  /** Of a root any run can leave, recovery never fails: it finishes unless a crash stops it. */
  method Reopen(root: Root, f: Facts, steps: nat) returns (finished: bool)
    requires Sound(root.disk, f)
    modifies root
    ensures Sound(root.disk, f)
    ensures finished <==> steps >= RecoverySteps(old(root.disk))
    ensures finished ==> Ready(root.disk, f) && Current(root.disk.gens) == Ok(f.published)
    ensures SameCurrent(old(root.disk), root.disk, f.published)
  {
    ghost var d := root.disk;
    RecoverKeeps(d, f, steps);
    Passes(d, f);
    var r := root.FinishLeftovers(steps);
    finished := r.value;
    ClassifyNamesThePublished(root.disk.gens, f.published);
  }
}

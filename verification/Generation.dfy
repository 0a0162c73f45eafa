/**
 A stream's root directory and the generations in it: built in a `.tmp`, published by one rename,
 the superseded one trashed or salvaged, and what a crash left finished at the next open.
 Every change to the disk is one `Action`, and a crash falls between any two of them.
 */
module Generation {
  import opened Common

  /** A generation's random id, fresh whenever one is drawn. */
  type Id = int

  /** What a generation holds, its db pages and log records: opaque, only ever compared. */
  type Data = int

  /** The first 16 bytes of a db file: none yet, the generation's marker, SQLite's magic, or something else. */
  datatype Head = Empty | Marked | Magic | Foreign

  datatype Reason = HistoryChanged | Replaced | Recreated

  datatype MoveState = Moving | Complete

  datatype Manifest = Manifest(reason: Reason, lineageKnown: bool, state: MoveState)

  /**
   A generation directory: its log's first segment header, its contents, its manifest and that
   one's temporary file.
   */
  datatype Dir = Dir(supersedes: Option<Id>, readable: bool, whole: bool, data: Data, head: Head,
                     manifest: Option<Manifest>, manifestTmp: bool)

  /** `gen-<id>`, `gen-<id>.tmp`, `gen-<id>.trash`, and the directories under `salvage/` by the generation they were. */
  datatype Disk = Disk(gens: map<Id, Dir>, tmps: map<Id, Dir>, trash: map<Id, Dir>, salvage: map<Id, Dir>)

  // ---------------------------------------------------------------------------------------------
  // Which generation is current.
  // ---------------------------------------------------------------------------------------------

  datatype Error = Header(id: Id) | Ambiguous(ids: set<Id>) | Circular(ids: set<Id>)

  /** The ids a readable header names as superseded; headers are read only when there are two or more. */
  function NamedSuperseded(gens: map<Id, Dir>): (r: set<Id>) {
    if |gens| <= 1 then {}
    else set g | g in gens && gens[g].readable && gens[g].supersedes.Some? :: gens[g].supersedes.value
  }

  function UnreadableLeft(gens: map<Id, Dir>): (r: set<Id>) {
    if |gens| <= 1 then {}
    else set g | g in gens && !gens[g].readable && g !in NamedSuperseded(gens)
  }

  /** The superseded generations, or the header error of one that cannot be read and that nothing supersedes. */
  function Classify(gens: map<Id, Dir>): (r: Result<set<Id>, Error>) {
    var unreadable := UnreadableLeft(gens);
    if unreadable != {} then Err(Header(Least(unreadable))) else Ok(NamedSuperseded(gens))
  }

  /** The generation nothing supersedes. */
  function CurrentDir(gens: map<Id, Dir>, superseded: set<Id>): (r: Result<Option<Id>, Error>) {
    var left := gens.Keys - superseded;
    if left == {} then if gens.Keys == {} then Ok(None) else Err(Circular(gens.Keys))
    else if |left| == 1 then Ok(Some(Least(left)))
    else Err(Ambiguous(left))
  }

  function Current(gens: map<Id, Dir>): (r: Result<Option<Id>, Error>) {
    var classified := Classify(gens);
    if classified.Err? then Err(classified.error) else CurrentDir(gens, classified.value)
  }

  /** The one generation directory a build starts from: two or more are ambiguous. */
  function OnlyDir(gens: map<Id, Dir>): (r: Result<Option<Id>, Error>) {
    if gens.Keys == {} then Ok(None)
    else if |gens.Keys| == 1 then Ok(Some(Least(gens.Keys)))
    else Err(Ambiguous(gens.Keys))
  }

  // ---------------------------------------------------------------------------------------------
  // Changes to the disk.
  // ---------------------------------------------------------------------------------------------

  datatype Action =
    | Fsync
    | CreateTmp(id: Id)
    /** The build's log, naming what it supersedes, and its db; again as frames are applied. */
    | FillTmp(id: Id, supersedes: Option<Id>, data: Data, head: Head)
    /** The page 1 of an empty database, marked, written into a db nothing was applied to. */
    | MarkTmp(id: Id)
    | ShredTmp(id: Id)
    | DropTmp(id: Id)
    | Publish(id: Id)
    | WriteManifestTmp(id: Id)
    | PutManifest(id: Id, manifest: Manifest)
    | ClearManifestTmp(id: Id)
    | Unmark(id: Id)
    | Trash(id: Id)
    | ShredTrash(id: Id)
    | DropTrash(id: Id)
    | Move(id: Id)
    | RestoreMagic(id: Id)
    | WriteSalvageTmp(id: Id)
    | PutComplete(id: Id)
    | ClearSalvageTmp(id: Id)

  /** Whether completing a salvage puts SQLite's magic back: a db found replaced stays as it was found. */
  predicate Restores(m: Manifest) {
    !m.reason.Replaced? && m.lineageKnown
  }

  /** SQLite's magic in place of the marker, where the manifest has it restored. */
  function Restored(s: Dir): (r: Dir)
    requires s.manifest.Some?
  {
    s.(head := if Restores(s.manifest.value) && s.head.Marked? then Magic else s.head)
  }

  /** `m` with its directory `id` changed to `d`. */
  function Put(m: map<Id, Dir>, id: Id, d: Dir): (r: map<Id, Dir>) {
    m[id := d]
  }

  function Apply(d: Disk, a: Action): (r: Disk) {
    match a
    case Fsync => d
    case CreateTmp(id) => d.(tmps := Put(d.tmps, id, Dir(None, false, false, 0, Empty, None, false)))
    case FillTmp(id, supersedes, data, head) =>
      if id in d.tmps then d.(tmps := Put(d.tmps, id, Dir(supersedes, true, true, data, head, None, false))) else d
    case MarkTmp(id) =>
      if id in d.tmps && d.tmps[id].head.Empty? then d.(tmps := Put(d.tmps, id, d.tmps[id].(head := Marked))) else d
    case ShredTmp(id) =>
      if id in d.tmps then d.(tmps := Put(d.tmps, id, d.tmps[id].(whole := false, readable := false))) else d
    case DropTmp(id) => d.(tmps := d.tmps - {id})
    case Publish(id) => if id in d.tmps then d.(gens := Put(d.gens, id, d.tmps[id]), tmps := d.tmps - {id}) else d
    case WriteManifestTmp(id) =>
      if id in d.gens then d.(gens := Put(d.gens, id, d.gens[id].(manifestTmp := true))) else d
    case PutManifest(id, m) =>
      if id in d.gens then d.(gens := Put(d.gens, id, d.gens[id].(manifest := Some(m), manifestTmp := false))) else d
    case ClearManifestTmp(id) =>
      if id in d.gens then d.(gens := Put(d.gens, id, d.gens[id].(manifestTmp := false))) else d
    case Unmark(id) => if id in d.gens then d.(gens := Put(d.gens, id, d.gens[id].(manifest := None))) else d
    case Trash(id) => if id in d.gens then d.(trash := Put(d.trash, id, d.gens[id]), gens := d.gens - {id}) else d
    case ShredTrash(id) =>
      if id in d.trash then d.(trash := Put(d.trash, id, d.trash[id].(whole := false, readable := false))) else d
    case DropTrash(id) => d.(trash := d.trash - {id})
    case Move(id) => if id in d.gens then d.(salvage := Put(d.salvage, id, d.gens[id]), gens := d.gens - {id}) else d
    case RestoreMagic(id) =>
      if id in d.salvage && d.salvage[id].manifest.Some?
      then d.(salvage := Put(d.salvage, id, Restored(d.salvage[id])))
      else d
    case WriteSalvageTmp(id) =>
      if id in d.salvage then d.(salvage := Put(d.salvage, id, d.salvage[id].(manifestTmp := true))) else d
    case PutComplete(id) =>
      if id in d.salvage && d.salvage[id].manifest.Some?
      then d.(salvage := Put(d.salvage, id,
          d.salvage[id].(manifest := Some(d.salvage[id].manifest.value.(state := Complete)), manifestTmp := false)))
      else d
    case ClearSalvageTmp(id) =>
      if id in d.salvage then d.(salvage := Put(d.salvage, id, d.salvage[id].(manifestTmp := false))) else d
  }

  function ApplyAll(d: Disk, plan: seq<Action>): (r: Disk)
    decreases |plan|
  {
    if plan == [] then d else Apply(ApplyAll(d, plan[..|plan| - 1]), plan[|plan| - 1])
  }

  // ---------------------------------------------------------------------------------------------
  // The plans: a build, its publish, and the recovery of the next open.
  // ---------------------------------------------------------------------------------------------

  datatype Fate = ToTrash | ToSalvage(manifest: Manifest)

  /** A generation being built, and the directory it supersedes. */
  datatype Building = Building(id: Id, supersedes: Option<Id>)

  function BuildPlan(b: Building, data: Data, head: Head): (plan: seq<Action>) {
    [CreateTmp(b.id), FillTmp(b.id, b.supersedes, data, head)]
  }

  function DiscardPlan(b: Building): (plan: seq<Action>) {
    [ShredTmp(b.id), DropTmp(b.id), Fsync]
  }

  predicate Salvaging(b: Building, fate: Fate) {
    b.supersedes.Some? && fate.ToSalvage?
  }

  /** Before the rename: the db marked and the files fsynced, the superseded generation's fate written. */
  function PreparePlan(b: Building, fate: Fate): (plan: seq<Action>) {
    [MarkTmp(b.id), Fsync, Fsync]
    + (if Salvaging(b, fate)
       then [WriteManifestTmp(b.supersedes.value), PutManifest(b.supersedes.value, fate.manifest.(state := Moving))]
           else [])
  }

  function CompletePlan(id: Id): (plan: seq<Action>) {
    [RestoreMagic(id), WriteSalvageTmp(id), PutComplete(id)]
  }

  function TrashPlan(id: Id): (plan: seq<Action>) {
    [Trash(id), Fsync, ShredTrash(id), DropTrash(id), Fsync]
  }

  function PlanAfterRename(b: Building, fate: Fate): (plan: seq<Action>) {
    [Fsync]
    + (if b.supersedes.None? then []
       else if Salvaging(b, fate) then [Move(b.supersedes.value)] + CompletePlan(b.supersedes.value)
       else TrashPlan(b.supersedes.value))
  }

  function PublishPlan(b: Building, fate: Fate): (plan: seq<Action>) {
    PreparePlan(b, fate) + ([Publish(b.id)] + PlanAfterRename(b, fate))
  }

  /** A recovery's first pass: every leftover `.tmp` and `.trash` deleted. */
  function ClearPlan(tmps: seq<Id>, trash: seq<Id>): (plan: seq<Action>)
    decreases |tmps|, |trash|
  {
    if tmps != [] then [ShredTmp(tmps[0]), DropTmp(tmps[0])] + ClearPlan(tmps[1..], trash)
    else if trash != [] then [ShredTrash(trash[0]), DropTrash(trash[0])] + ClearPlan(tmps, trash[1..])
    else [Fsync]
  }

  /** What becomes of one generation, by whether another supersedes it and whether it holds a manifest. */
  function DirPlan(g: Dir, id: Id, superseded: bool): (plan: seq<Action>) {
    [ClearManifestTmp(id)]
    + (if superseded && g.manifest.Some? then [Move(id)] + CompletePlan(id)
       else if superseded then TrashPlan(id)
       else if g.manifest.Some? then [Unmark(id)]
       else [])
  }

  /** The second pass: every generation by the classification read once before it. */
  function GensPlan(gens: map<Id, Dir>, superseded: set<Id>, order: seq<Id>): (plan: seq<Action>)
    requires forall k :: 0 <= k < |order| ==> order[k] in gens
    decreases |order|
  {
    if order == [] then []
    else DirPlan(gens[order[0]], order[0], order[0] in superseded) + GensPlan(gens, superseded, order[1..])
  }

  /** The third pass: temporary manifests deleted, salvages still moving completed. */
  function SalvagePlan(salvage: map<Id, Dir>, order: seq<Id>): (plan: seq<Action>)
    requires forall k :: 0 <= k < |order| ==> order[k] in salvage
    decreases |order|
  {
    if order == [] then []
    else
      var s := salvage[order[0]];
      [ClearSalvageTmp(order[0])]
      + (if s.manifest.Some? && s.manifest.value.state.Moving? then CompletePlan(order[0]) else [])
      + SalvagePlan(salvage, order[1..])
  }

  function Pass1(d: Disk): (plan: seq<Action>) {
    ClearPlan(Ascending(d.tmps.Keys), Ascending(d.trash.Keys))
  }

  /** Nothing when the generations cannot be classified: the open fails with the error. */
  function Pass2(d: Disk): (plan: seq<Action>) {
    var classified := Classify(d.gens);
    if classified.Err? then [] else GensPlan(d.gens, classified.value, Ascending(d.gens.Keys))
  }

  function Pass3(d: Disk): (plan: seq<Action>) {
    SalvagePlan(d.salvage, Ascending(d.salvage.Keys))
  }

  /** The disk after a plan that a crash stops after `steps` actions, and the steps left over. */
  function Stopped(d: Disk, plan: seq<Action>, steps: nat): (r: Disk) {
    ApplyAll(d, plan[..if steps < |plan| then steps else |plan|])
  }

  datatype Recovery = Recovery(disk: Disk, finished: bool)

  /** `finish_leftovers`, a crash stopping it after `steps` changes; each pass reads the disk the one before left. */
  function Recover(d: Disk, steps: nat): (r: Recovery) {
    var d1 := ApplyAll(d, Pass1(d));
    var n1 := |Pass1(d)|;
    if steps < n1 then Recovery(Stopped(d, Pass1(d), steps), false)
    else
      var d2 := ApplyAll(d1, Pass2(d1));
      var n2 := n1 + |Pass2(d1)|;
      if Classify(d1.gens).Err? then Recovery(d1, false)
      else if steps < n2 then Recovery(Stopped(d1, Pass2(d1), steps - n1), false)
      else
        var n3 := n2 + |Pass3(d2)|;
        Recovery(Stopped(d2, Pass3(d2), steps - n2), steps >= n3)
  }
}

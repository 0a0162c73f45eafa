/**
 The host directory: where opens record the cache directory they lock roots in. Any number of
 processes record at once, each stopping anywhere, and the machine may lose power: a directory entry
 then survives only if the directory was synced, a file's bytes only if the file was.
 */
module HostDir {
  import opened Common

  /** A cache directory's real path. */
  type Cache = int

  type Inode = int

  type Process = int

  /** `dir-<key>`, or `.tmp-<pid>-<suffix>`. */
  datatype Name = Record(key: int) | Tmp(pid: int, suffix: int)

  /** A file's bytes: part of the record line of `cache`, all of it, or what a power loss left. */
  datatype Data = Part(cache: Cache) | Whole(cache: Cache) | Torn

  datatype File = File(data: Data, synced: bool)

  /** The entries as processes see them, the ones a power loss spares, and the files. */
  datatype Disk = Disk(names: map<Name, Inode>, durable: map<Name, Inode>, files: map<Inode, File>)

  /** Where a recorder is. `cache` and `name` are its own; `tmp` is its temp file. */
  datatype Recorder =
    | Reading(cache: Cache, name: Name)
    | Creating(cache: Cache, name: Name)
    | Filling(cache: Cache, name: Name, tmp: Name, inode: Inode)
    | Linking(cache: Cache, name: Name, tmp: Name, inode: Inode)
    | Unlinking(cache: Cache, name: Name, tmp: Name, inode: Inode)
    | Losing(cache: Cache, name: Name, tmp: Name, inode: Inode)
    | Checking(cache: Cache, name: Name)
    | Syncing(cache: Cache, name: Name)

  /** The recorders at work, and what has succeeded so far: a cache directory under a name. */
  datatype World = World(disk: Disk, recorders: map<Process, Recorder>, succeeded: set<(Cache, Name)>)

  const START: World := World(Disk(map[], map[], map[]), map[], {})

  predicate HasTmp(r: Recorder) {
    r.Filling? || r.Linking? || r.Unlinking? || r.Losing?
  }

  datatype Step =
    | Begin(p: Process, cache: Cache, name: Name)
    | Read(p: Process)
    /** The temp file is created, exclusively. */
    | Create(p: Process, tmp: Name, inode: Inode)
    | WriteSome(p: Process)
    /** All of the line is written and the file fsynced. */
    | SyncFile(p: Process)
    | Link(p: Process)
    | Unlink(p: Process)
    | DiscardTmp(p: Process)
    | Check(p: Process)
    | SyncDir(p: Process)
    /** An error or a crash of the process, its temp file removed or left. */
    | Stop(p: Process, removed: bool)
    /** A host removes a temp file no process at work has. */
    | Prune(tmp: Name)
    /** The machine stops: `kept` are the entries it finds again. */
    | PowerLoss(kept: map<Name, Inode>)

  predicate Enabled(w: World, step: Step) {
    var d := w.disk;
    match step
    case Begin(p, _, name) => p !in w.recorders && name.Record?
    case Read(p) => p in w.recorders && w.recorders[p].Reading?
    case Create(p, tmp, inode) =>
      p in w.recorders && w.recorders[p].Creating? && tmp.Tmp? && tmp !in d.names && inode !in d.files
    case WriteSome(p) => p in w.recorders && w.recorders[p].Filling?
    case SyncFile(p) => p in w.recorders && w.recorders[p].Filling?
    case Link(p) => p in w.recorders && w.recorders[p].Linking? && w.recorders[p].tmp in d.names
    case Unlink(p) => p in w.recorders && w.recorders[p].Unlinking?
    case DiscardTmp(p) => p in w.recorders && w.recorders[p].Losing?
    case Check(p) => p in w.recorders && w.recorders[p].Checking?
    case SyncDir(p) => p in w.recorders && w.recorders[p].Syncing?
    case Stop(p, _) => p in w.recorders
    case Prune(tmp) => tmp.Tmp? && forall p :: p in w.recorders && HasTmp(w.recorders[p]) ==> w.recorders[p].tmp != tmp
    case PowerLoss(kept) =>
      && (forall n :: n in kept ==>
          (n in d.names && d.names[n] == kept[n]) || (n in d.durable && d.durable[n] == kept[n]))
      && (forall n :: n in d.durable && n in d.names && d.names[n] == d.durable[n] ==>
          n in kept && kept[n] == d.names[n])
  }

  /** A record read back: the directory it names, if it names one. */
  function Named(d: Disk, name: Name): (r: Option<Cache>) {
    if name in d.names && d.names[name] in d.files && d.files[d.names[name]].data.Whole?
    then Some(d.files[d.names[name]].data.cache) else None
  }

  function Leave(w: World, p: Process): (r: World) {
    w.(recorders := w.recorders - {p})
  }

  /** The record that exists is checked: this directory's, or the open fails. */
  function Checked(w: World, p: Process): (r: World)
    requires p in w.recorders
  {
    var me := w.recorders[p];
    if Named(w.disk, me.name) == Some(me.cache) then w.(recorders := w.recorders[p := Syncing(me.cache, me.name)])
    else Leave(w, p)
  }

  function RemoveTmp(w: World, tmp: Name): (r: World) {
    w.(disk := w.disk.(names := w.disk.names - {tmp}))
  }

  /** What a power loss leaves of the files: the unsynced ones are torn. */
  function Survivors(files: map<Inode, File>): (r: map<Inode, File>) {
    map i | i in files :: if files[i].synced then files[i] else File(Torn, true)
  }

  function Next(w: World, step: Step): (r: World)
    requires Enabled(w, step)
  {
    var d := w.disk;
    match step
    case Begin(p, cache, name) => w.(recorders := w.recorders[p := Reading(cache, name)])
    case Read(p) =>
      if w.recorders[p].name in d.names then Checked(w, p)
      else w.(recorders := w.recorders[p := Creating(w.recorders[p].cache, w.recorders[p].name)])
    case Create(p, tmp, inode) =>
      var me := w.recorders[p];
      w.(disk := d.(names := d.names[tmp := inode], files := d.files[inode := File(Part(me.cache), false)]),
         recorders := w.recorders[p := Filling(me.cache, me.name, tmp, inode)])
    case WriteSome(p) =>
      var me := w.recorders[p];
      w.(disk := d.(files := d.files[me.inode := File(Part(me.cache), false)]))
    case SyncFile(p) =>
      var me := w.recorders[p];
      w.(disk := d.(files := d.files[me.inode := File(Whole(me.cache), true)]),
         recorders := w.recorders[p := Linking(me.cache, me.name, me.tmp, me.inode)])
    case Link(p) =>
      var me := w.recorders[p];
      if me.name in d.names then w.(recorders := w.recorders[p := Losing(me.cache, me.name, me.tmp, me.inode)])
      else
        w.(disk := d.(names := d.names[me.name := d.names[me.tmp]]),
           recorders := w.recorders[p := Unlinking(me.cache, me.name, me.tmp, me.inode)])
    case Unlink(p) =>
      var me := w.recorders[p];
      RemoveTmp(w, me.tmp).(recorders := w.recorders[p := Syncing(me.cache, me.name)])
    case DiscardTmp(p) =>
      var me := w.recorders[p];
      RemoveTmp(w, me.tmp).(recorders := w.recorders[p := Checking(me.cache, me.name)])
    case Check(p) => Checked(w, p)
    case SyncDir(p) =>
      var me := w.recorders[p];
      Leave(w.(disk := d.(durable := d.names), succeeded := w.succeeded + {(me.cache, me.name)}), p)
    case Stop(p, removed) =>
      var me := w.recorders[p];
      if removed && HasTmp(me) then Leave(RemoveTmp(w, me.tmp), p) else Leave(w, p)
    case Prune(tmp) => RemoveTmp(w, tmp)
    case PowerLoss(kept) => World(Disk(kept, kept, Survivors(d.files)), map[], w.succeeded)
  }

  // ---------------------------------------------------------------------------------------------
  // What every step keeps.
  // ---------------------------------------------------------------------------------------------

  /** A complete record, its bytes safe. */
  predicate Complete(files: map<Inode, File>, i: Inode) {
    i in files && files[i].data.Whole? && files[i].synced
  }

  predicate RecordsComplete(d: Disk) {
    && (forall n :: n in d.names && n.Record? ==> Complete(d.files, d.names[n]))
    && (forall n :: n in d.durable && n.Record? ==> n in d.names && d.names[n] == d.durable[n])
    && (forall n :: n in d.names ==> d.names[n] in d.files)
    && (forall n :: n in d.durable ==> d.durable[n] in d.files)
  }

  /** A recorder's temp file is its own, holds its record once filled, and is no record before. */
  predicate OwnTmp(w: World, p: Process)
    requires p in w.recorders
  {
    var me := w.recorders[p];
    && me.name.Record?
    && (HasTmp(me) ==>
          && me.tmp.Tmp? && me.tmp in w.disk.names && w.disk.names[me.tmp] == me.inode && me.inode in w.disk.files)
    && (me.Linking? || me.Unlinking? || me.Losing? ==> w.disk.files[me.inode] == File(Whole(me.cache), true))
    && (me.Filling? ==> !w.disk.files[me.inode].synced && w.disk.files[me.inode].data == Part(me.cache))
    && (me.Unlinking? || me.Syncing? ==> Named(w.disk, me.name) == Some(me.cache))
  }

  /** What succeeded is on disk for good. */
  predicate Durable(d: Disk, s: (Cache, Name)) {
    && s.1.Record? && s.1 in d.durable && Complete(d.files, d.durable[s.1])
    && d.files[d.durable[s.1]].data == Whole(s.0)
  }

  predicate Apart(w: World, p: Process, q: Process)
    requires p in w.recorders && q in w.recorders
  {
    p != q && HasTmp(w.recorders[p]) && HasTmp(w.recorders[q]) ==>
      w.recorders[p].tmp != w.recorders[q].tmp && w.recorders[p].inode != w.recorders[q].inode
  }

  predicate Sound(w: World) {
    && RecordsComplete(w.disk)
    && (forall p {:trigger OwnTmp(w, p)} :: p in w.recorders ==> OwnTmp(w, p))
    && (forall p, q {:trigger Apart(w, p, q)} :: p in w.recorders && q in w.recorders ==> Apart(w, p, q))
    && (forall s {:trigger Durable(w.disk, s)} :: s in w.succeeded ==> Durable(w.disk, s))
  }

  /**
   A step of one recorder: the others, the records and what succeeded stand as they did. Its own
   standing and its distance to the others are left to show.
   */
  lemma OthersStand(w: World, r: World, p: Process, tmp: Name, inode: Inode)
    requires Sound(w) && RecordsComplete(r.disk) && r.succeeded == w.succeeded && r.disk.durable == w.disk.durable
    requires forall q :: q in r.recorders && q != p ==> q in w.recorders && r.recorders[q] == w.recorders[q]
    requires forall n :: n in w.disk.names && n != tmp ==> n in r.disk.names && r.disk.names[n] == w.disk.names[n]
    requires forall i :: i in w.disk.files && i != inode ==> i in r.disk.files && r.disk.files[i] == w.disk.files[i]
    requires tmp.Tmp? && !Complete(w.disk.files, inode)
    requires forall q :: q in w.recorders && q != p && HasTmp(w.recorders[q]) ==>
                           w.recorders[q].tmp != tmp && w.recorders[q].inode != inode
    requires p in r.recorders ==> OwnTmp(r, p)
    requires p in r.recorders && HasTmp(r.recorders[p]) ==>
               forall q :: q in w.recorders && q != p && HasTmp(w.recorders[q]) ==>
                             w.recorders[q].tmp != r.recorders[p].tmp && w.recorders[q].inode != r.recorders[p].inode
    ensures Sound(r)
  {
    forall q | q in r.recorders ensures OwnTmp(r, q) {
      if q != p {
        assert OwnTmp(w, q);
      }
    }
    forall a, b | a in r.recorders && b in r.recorders ensures Apart(r, a, b) {
      if a != p && b != p {
        assert Apart(w, a, b);
      }
    }
    forall s | s in r.succeeded ensures Durable(r.disk, s) {
      assert Durable(w.disk, s);
    }
  }

  /** A temp name and an inode no recorder but `p` has. */
  lemma Mine(w: World, p: Process)
    requires Sound(w) && p in w.recorders && HasTmp(w.recorders[p])
    ensures OwnTmp(w, p)
    ensures forall q :: q in w.recorders && q != p && HasTmp(w.recorders[q]) ==>
                          w.recorders[q].tmp != w.recorders[p].tmp && w.recorders[q].inode != w.recorders[p].inode
  {
    forall q | q in w.recorders && q != p && HasTmp(w.recorders[q])
      ensures w.recorders[q].tmp != w.recorders[p].tmp && w.recorders[q].inode != w.recorders[p].inode
    {
      assert Apart(w, p, q);
    }
  }

  /** A recorder that changes nothing on disk. */
  lemma Moves(w: World, r: World, p: Process)
    requires Sound(w) && p in w.recorders && r.disk == w.disk && r.succeeded == w.succeeded
    requires forall q :: q in r.recorders && q != p ==> q in w.recorders && r.recorders[q] == w.recorders[q]
    requires p in r.recorders ==> OwnTmp(r, p)
    requires p in r.recorders && HasTmp(r.recorders[p]) ==>
               && HasTmp(w.recorders[p])
               && r.recorders[p].tmp == w.recorders[p].tmp && r.recorders[p].inode == w.recorders[p].inode
    ensures Sound(r)
  {
    forall q | q in r.recorders ensures OwnTmp(r, q) {
      if q != p {
        assert OwnTmp(w, q);
      }
    }
    forall a, b | a in r.recorders && b in r.recorders ensures Apart(r, a, b) {
      assert Apart(w, a, b);
    }
    forall s | s in r.succeeded ensures Durable(r.disk, s) {
      assert Durable(w.disk, s);
    }
  }

  lemma BeginKeeps(w: World, p: Process, cache: Cache, name: Name)
    requires Sound(w) && Enabled(w, Begin(p, cache, name))
    ensures Sound(Next(w, Begin(p, cache, name)))
  {
    var r := Next(w, Begin(p, cache, name));
    forall q | q in r.recorders ensures OwnTmp(r, q) {
      if q != p {
        assert OwnTmp(w, q);
      }
    }
    forall a, b | a in r.recorders && b in r.recorders ensures Apart(r, a, b) {
      if a != p && b != p {
        assert Apart(w, a, b);
      }
    }
  }

  lemma CheckedKeeps(w: World, p: Process)
    requires Sound(w) && p in w.recorders
    ensures Sound(Checked(w, p))
  {
    assert OwnTmp(w, p);
    Moves(w, Checked(w, p), p);
  }

  lemma ReadKeeps(w: World, p: Process)
    requires Sound(w) && Enabled(w, Read(p))
    ensures Sound(Next(w, Read(p)))
  {
    assert OwnTmp(w, p);
    if w.recorders[p].name in w.disk.names {
      CheckedKeeps(w, p);
    } else {
      Moves(w, Next(w, Read(p)), p);
    }
  }

  lemma CreateKeeps(w: World, p: Process, tmp: Name, inode: Inode)
    requires Sound(w) && Enabled(w, Create(p, tmp, inode))
    ensures Sound(Next(w, Create(p, tmp, inode)))
  {
    var r := Next(w, Create(p, tmp, inode));
    assert OwnTmp(w, p);
    forall q | q in w.recorders && HasTmp(w.recorders[q])
      ensures w.recorders[q].tmp != tmp && w.recorders[q].inode != inode
    {
      assert OwnTmp(w, q);
    }
    OthersStand(w, r, p, tmp, inode);
  }

  lemma FillKeeps(w: World, p: Process, step: Step)
    requires Sound(w) && (step == WriteSome(p) || step == SyncFile(p)) && Enabled(w, step)
    ensures Sound(Next(w, step))
  {
    Mine(w, p);
    OthersStand(w, Next(w, step), p, w.recorders[p].tmp, w.recorders[p].inode);
  }

  /** The link makes a complete record, and only where there was none. */
  lemma LinkKeeps(w: World, p: Process)
    requires Sound(w) && Enabled(w, Link(p))
    ensures Sound(Next(w, Link(p)))
  {
    var r := Next(w, Link(p));
    Mine(w, p);
    if w.recorders[p].name in w.disk.names {
      Moves(w, r, p);
    } else {
      Linked(w, p, r);
    }
  }

  lemma Linked(w: World, p: Process, r: World)
    requires Sound(w) && Enabled(w, Link(p)) && w.recorders[p].name !in w.disk.names && r == Next(w, Link(p))
    ensures Sound(r)
  {
    Mine(w, p);
    forall q | q in r.recorders ensures OwnTmp(r, q) {
      assert OwnTmp(w, q);
    }
    forall a, b | a in r.recorders && b in r.recorders ensures Apart(r, a, b) {
      assert Apart(w, a, b);
    }
    forall s | s in r.succeeded ensures Durable(r.disk, s) {
      assert Durable(w.disk, s);
    }
  }

  /** A temp name no other recorder has goes. */
  lemma TmpGone(w: World, r: World, p: Process, tmp: Name)
    requires Sound(w) && tmp.Tmp? && r.disk == w.disk.(names := w.disk.names - {tmp}) && r.succeeded == w.succeeded
    requires forall q :: q in r.recorders && q != p ==> q in w.recorders && r.recorders[q] == w.recorders[q]
    requires forall q :: q in w.recorders && q != p && HasTmp(w.recorders[q]) ==> w.recorders[q].tmp != tmp
    requires p in r.recorders ==> OwnTmp(r, p) && !HasTmp(r.recorders[p])
    ensures Sound(r)
  {
    forall q | q in r.recorders ensures OwnTmp(r, q) {
      if q != p {
        assert OwnTmp(w, q);
      }
    }
    forall a, b | a in r.recorders && b in r.recorders ensures Apart(r, a, b) {
      if a != p && b != p {
        assert Apart(w, a, b);
      }
    }
    forall s | s in r.succeeded ensures Durable(r.disk, s) {
      assert Durable(w.disk, s);
    }
  }

  lemma UnlinkKeeps(w: World, p: Process, step: Step)
    requires Sound(w) && (step == Unlink(p) || step == DiscardTmp(p)) && Enabled(w, step)
    ensures Sound(Next(w, step))
  {
    Mine(w, p);
    TmpGone(w, Next(w, step), p, w.recorders[p].tmp);
  }

  lemma StopKeeps(w: World, p: Process, removed: bool)
    requires Sound(w) && p in w.recorders
    ensures Sound(Next(w, Stop(p, removed)))
  {
    var r := Next(w, Stop(p, removed));
    if removed && HasTmp(w.recorders[p]) {
      Mine(w, p);
      TmpGone(w, r, p, w.recorders[p].tmp);
    } else {
      Moves(w, r, p);
    }
  }

  lemma PruneKeeps(w: World, tmp: Name)
    requires Sound(w) && Enabled(w, Prune(tmp))
    ensures Sound(Next(w, Prune(tmp)))
  {
    var r := Next(w, Prune(tmp));
    forall q | q in r.recorders ensures OwnTmp(r, q) {
      assert OwnTmp(w, q);
    }
    forall a, b | a in r.recorders && b in r.recorders ensures Apart(r, a, b) {
      assert Apart(w, a, b);
    }
    forall s | s in r.succeeded ensures Durable(r.disk, s) {
      assert Durable(w.disk, s);
    }
  }

  /** The directory's fsync: what the recorder checked or linked is durable, whoever linked it. */
  lemma SyncDirKeeps(w: World, p: Process)
    requires Sound(w) && Enabled(w, SyncDir(p))
    ensures Sound(Next(w, SyncDir(p)))
  {
    var r := Next(w, SyncDir(p));
    assert OwnTmp(w, p);
    forall q | q in r.recorders ensures OwnTmp(r, q) {
      assert OwnTmp(w, q);
    }
    forall a, b | a in r.recorders && b in r.recorders ensures Apart(r, a, b) {
      assert Apart(w, a, b);
    }
    forall s | s in r.succeeded ensures Durable(r.disk, s) {
      if s in w.succeeded {
        assert Durable(w.disk, s);
      }
    }
  }

  lemma PowerLossKeeps(w: World, kept: map<Name, Inode>)
    requires Sound(w) && Enabled(w, PowerLoss(kept))
    ensures Sound(Next(w, PowerLoss(kept)))
  {
    var r := Next(w, PowerLoss(kept));
    forall s | s in r.succeeded ensures Durable(r.disk, s) {
      assert Durable(w.disk, s);
    }
  }

  lemma StepKeeps(w: World, step: Step)
    requires Sound(w) && Enabled(w, step)
    ensures Sound(Next(w, step))
  {
    match step {
      case Begin(p, cache, name) => BeginKeeps(w, p, cache, name);
      case Read(p) => ReadKeeps(w, p);
      case Create(p, tmp, inode) => CreateKeeps(w, p, tmp, inode);
      case WriteSome(p) => FillKeeps(w, p, step);
      case SyncFile(p) => FillKeeps(w, p, step);
      case Link(p) => LinkKeeps(w, p);
      case Unlink(p) => UnlinkKeeps(w, p, step);
      case DiscardTmp(p) => UnlinkKeeps(w, p, step);
      case Check(p) => CheckedKeeps(w, p);
      case SyncDir(p) => SyncDirKeeps(w, p);
      case Stop(p, removed) => StopKeeps(w, p, removed);
      case Prune(tmp) => PruneKeeps(w, tmp);
      case PowerLoss(kept) => PowerLossKeeps(w, kept);
    }
  }

  // ---------------------------------------------------------------------------------------------
  // Runs.
  // ---------------------------------------------------------------------------------------------

  predicate Legal(w: World, run: seq<Step>)
    decreases |run|
  {
    run == [] || (Enabled(w, run[0]) && Legal(Next(w, run[0]), run[1..]))
  }

  function After(w: World, run: seq<Step>): (r: World)
    requires Legal(w, run)
    decreases |run|
  {
    if run == [] then w else After(Next(w, run[0]), run[1..])
  }

  lemma {:induction false} RunKeeps(w: World, run: seq<Step>)
    requires Sound(w) && Legal(w, run)
    ensures Sound(After(w, run)) && w.succeeded <= After(w, run).succeeded
    decreases |run|
  {
    if run != [] {
      StepKeeps(w, run[0]);
      RunKeeps(Next(w, run[0]), run[1..]);
    }
  }

  /** The record under `name`, as the disk has it. */
  function RecordAt(d: Disk, name: Name): (r: Option<Data>) {
    if name in d.names && d.names[name] in d.files then Some(d.files[d.names[name]].data) else None
  }

  /** Over any run a record's name is absent or holds a complete record. */
  lemma RecordsAreWhole(run: seq<Step>, name: Name)
    requires Legal(START, run) && name.Record?
    ensures var d := After(START, run).disk; RecordAt(d, name) == None || RecordAt(d, name).value.Whole?
  {
    RunKeeps(START, run);
  }

  /** Everything that succeeded stays: a durable record under its name that names exactly its cache directory. */
  lemma SuccessLasts(before: seq<Step>, after: seq<Step>, s: (Cache, Name))
    requires Legal(START, before) && s in After(START, before).succeeded && Legal(After(START, before), after)
    ensures var d := After(After(START, before), after).disk;
            Durable(d, s) && RecordAt(d, s.1) == Some(Whole(s.0))
  {
    RunKeeps(START, before);
    RunKeeps(After(START, before), after);
    assert Durable(After(After(START, before), after).disk, s);
  }

  /** The record `name` of `d` is in `r`: the same file, with the same content. */
  predicate Keeps(d: Disk, r: Disk, name: Name) {
    && name in d.names && name in r.names && r.names[name] == d.names[name]
    && RecordAt(r, name) == RecordAt(d, name)
  }

  /** No step changes a record: a power loss alone may take one, and only one not durable yet. */
  lemma StepReplacesNone(w: World, step: Step, name: Name)
    requires Sound(w) && Enabled(w, step) && name.Record? && name in w.disk.names
    ensures Keeps(w.disk, Next(w, step).disk, name)
            || (step.PowerLoss? && name !in w.disk.durable && name !in Next(w, step).disk.names)
    ensures name in w.disk.durable ==> name in Next(w, step).disk.durable
  {
    match step {
      case WriteSome(p) => assert OwnTmp(w, p);
      case SyncFile(p) => assert OwnTmp(w, p);
      case Unlink(p) => assert OwnTmp(w, p);
      case DiscardTmp(p) => assert OwnTmp(w, p);
      case Stop(p, _) => assert OwnTmp(w, p);
      case _ =>
    }
  }

  predicate Powered(run: seq<Step>) {
    forall i :: 0 <= i < |run| ==> !run[i].PowerLoss?
  }

  lemma {:induction false} RunReplacesNone(w: World, run: seq<Step>, name: Name)
    requires Sound(w) && Legal(w, run) && name.Record? && name in w.disk.names
    requires name in w.disk.durable || Powered(run)
    ensures Keeps(w.disk, After(w, run).disk, name)
    decreases |run|
  {
    if run != [] {
      StepReplacesNone(w, run[0], name);
      StepKeeps(w, run[0]);
      assert Powered(run) ==> Powered(run[1..]);
      RunReplacesNone(Next(w, run[0]), run[1..], name);
    }
  }

  /**
   A record is never replaced: whatever run follows, a durable one keeps its file and its content,
   and so does any other while the power lasts.
   */
  lemma NeverReplaced(before: seq<Step>, after: seq<Step>, name: Name)
    requires Legal(START, before) && Legal(After(START, before), after) && name.Record?
    ensures var w := After(START, before);
            name in w.disk.durable || (name in w.disk.names && Powered(after)) ==>
              Keeps(w.disk, After(w, after).disk, name)
  {
    var w := After(START, before);
    RunKeeps(START, before);
    if name in w.disk.durable || (name in w.disk.names && Powered(after)) {
      RunReplacesNone(w, after, name);
    }
  }

  // ---------------------------------------------------------------------------------------------
  // The host directory as one recorder alone sees it.
  // ---------------------------------------------------------------------------------------------

  /** Which of a recorder's system calls succeed. */
  datatype Calls = Calls(create: bool, fill: bool, link: bool, unlink: bool, sync: bool)

  /** Every record of `d` is in `r`, as it was. */
  predicate KeepsRecords(d: Disk, r: Disk) {
    forall n :: n in d.names && n.Record? ==> Keeps(d, r, n)
  }

  /** The disk once the temp file was written, or failed to be, with nothing of it but an unlinked file left. */
  function Wrote(d: Disk, cache: Cache, tmp: Name, inode: Inode, calls: Calls): (r: Disk) {
    if !calls.create then d
    else if !calls.fill then d.(files := d.files[inode := File(Part(cache), false)])
    else d.(names := d.names[tmp := inode], files := d.files[inode := File(Whole(cache), true)])
  }

  /** The disk a publish leaves, and whether it succeeded. */
  function Published(d: Disk, cache: Cache, name: Name, tmp: Name, inode: Inode, calls: Calls): (r: (Disk, bool)) {
    var d1 := Wrote(d, cache, tmp, inode, calls);
    var d2 := d1.(names := d1.names - {tmp});
    if !calls.create || !calls.fill then (d1, false)
    else if name in d1.names then (d2, Named(d2, name) == Some(cache))
    else if !calls.link then (d2, false)
    else if !calls.unlink then (d1.(names := d1.names[name := inode]), false)
    else (d1.(names := d1.names[name := inode] - {tmp}), true)
  }

  /** A publish keeps every record, and one that succeeds leaves this directory's. */
  lemma PublishedKeeps(d: Disk, cache: Cache, name: Name, tmp: Name, inode: Inode, calls: Calls)
    requires RecordsComplete(d) && name.Record? && tmp.Tmp? && tmp !in d.names && inode !in d.files
    ensures var (r, ok) := Published(d, cache, name, tmp, inode, calls);
            && RecordsComplete(r) && KeepsRecords(d, r) && r.durable == d.durable
            && (ok ==> Named(r, name) == Some(cache) && tmp !in r.names)
            && (name !in d.names ==> ok == (calls.create && calls.fill && calls.link && calls.unlink))
  {
  }

  /** The disk one recorder leaves, alone at work, and whether it succeeded. */
  function Recorded(d: Disk, cache: Cache, name: Name, tmp: Name, inode: Inode, calls: Calls): (r: (Disk, bool)) {
    var (d1, ok) := if name in d.names then (d, Named(d, name) == Some(cache))
        else Published(d, cache, name, tmp, inode, calls);
    if ok && calls.sync then (d1.(durable := d1.names), true) else (d1, false)
  }

  class Directory {
    var names: map<Name, Inode>
    var durable: map<Name, Inode>
    var files: map<Inode, File>

    function View(): (r: Disk)
      reads this
    {
      Disk(names, durable, files)
    }

    constructor ()
      ensures View() == START.disk && RecordsComplete(View())
    {
      names, durable, files := map[], map[], map[];
    }

    /** The temp file, created, written and fsynced, or gone again. */
    method WriteTmp(cache: Cache, tmp: Name, inode: Inode, calls: Calls) returns (ok: bool)
      requires tmp !in names && inode !in files
      modifies `names, `files
      ensures ok == (calls.create && calls.fill)
      ensures ok ==> names == old(names)[tmp := inode] && files == old(files)[inode := File(Whole(cache), true)]
      ensures View() == Wrote(old(View()), cache, tmp, inode, calls)
    {
      if !calls.create {
        return false;
      }
      names := names[tmp := inode];
      files := files[inode := File(Part(cache), false)];
      if !calls.fill {
        names := names - {tmp};
        return false;
      }
      files := files[inode := File(Whole(cache), true)];
      return true;
    }

    /** A temp file linked into place, and its own name removed. */
    method Publish(cache: Cache, name: Name, tmp: Name, inode: Inode, calls: Calls) returns (ok: bool)
      requires RecordsComplete(View()) && name.Record? && tmp.Tmp? && tmp !in names && inode !in files
      modifies `names, `files
      ensures (View(), ok) == Published(old(View()), cache, name, tmp, inode, calls)
      ensures RecordsComplete(View()) && KeepsRecords(old(View()), View())
      ensures ok ==> Named(View(), name) == Some(cache) && tmp !in names
      ensures old(name !in names) ==> ok == (calls.create && calls.fill && calls.link && calls.unlink)
    {
      PublishedKeeps(View(), cache, name, tmp, inode, calls);
      ok := WriteTmp(cache, tmp, inode, calls);
      if !ok {
        return;
      }
      if name in names {
        names := names - {tmp};
        return Named(View(), name) == Some(cache);
      }
      if !calls.link {
        names := names - {tmp};
        return false;
      }
      names := names[name := names[tmp]];
      if !calls.unlink {
        return false;
      }
      names := names - {tmp};
      return true;
    }

    /** Checks the record that exists, or publishes it, then fsyncs the directory. */
    method RecordDir(cache: Cache, name: Name, tmp: Name, inode: Inode, calls: Calls) returns (ok: bool)
      requires RecordsComplete(View()) && name.Record? && tmp.Tmp? && tmp !in names && inode !in files
      modifies this
      ensures (View(), ok) == Recorded(old(View()), cache, name, tmp, inode, calls)
      ensures RecordsComplete(View()) && KeepsRecords(old(View()), View())
      ensures ok ==> Durable(View(), (cache, name))
      ensures !ok ==> durable == old(durable)
      ensures old(name in names && Named(View(), name) != Some(cache)) ==> !ok
      ensures old(name in names && Named(View(), name) == Some(cache)) ==> ok == calls.sync
      ensures old(name !in names) ==> ok == (calls.create && calls.fill && calls.link && calls.unlink && calls.sync)
    {
      if name in names {
        ok := Named(View(), name) == Some(cache);
      } else {
        ok := Publish(cache, name, tmp, inode, calls);
      }
      if !ok {
        return;
      }
      if !calls.sync {
        return false;
      }
      durable := names;
    }
  }

  // ---------------------------------------------------------------------------------------------
  // One recorder's work is a run of its steps.
  // ---------------------------------------------------------------------------------------------

  lemma Then(w: World, step: Step, run: seq<Step>)
    requires Enabled(w, step) && Legal(Next(w, step), run)
    ensures Legal(w, [step] + run) && After(w, [step] + run) == After(Next(w, step), run)
  {
    assert ([step] + run)[1..] == run;
  }

  lemma One(w: World, step: Step)
    requires Enabled(w, step)
    ensures Legal(w, [step]) && After(w, [step]) == Next(w, step)
  {
    Then(w, step, []);
    assert [step] + [] == [step];
  }

  /** What a run of recorder `p` leaves: a disk, with `p` gone and its success noted. */
  ghost predicate RunsTo(w: World, run: seq<Step>, d: Disk, p: Process, success: set<(Cache, Name)>) {
    && Legal(w, run) && After(w, run).disk == d && After(w, run).recorders == w.recorders - {p}
    && After(w, run).succeeded == w.succeeded + success
  }

  /** A recorder that checked or linked its record: the fsync, or its failure. */
  lemma SyncRun(w: World, p: Process, sync: bool) returns (run: seq<Step>)
    requires p in w.recorders && w.recorders[p].Syncing?
    ensures var me := w.recorders[p];
            if sync then RunsTo(w, run, w.disk.(durable := w.disk.names), p, {(me.cache, me.name)})
                else RunsTo(w, run, w.disk, p, {})
  {
    var step := if sync then SyncDir(p) else Stop(p, false);
    One(w, step);
    run := [step];
  }

  /** A recorder with its temp file filled: linked and its own name removed, or stopped on the way. */
  lemma LinkRun(w: World, p: Process, d: Disk, calls: Calls) returns (run: seq<Step>)
    requires p in w.recorders && w.recorders[p].Linking? && w.recorders[p].tmp.Tmp? && w.recorders[p].name.Record?
    requires var me := w.recorders[p];
             && me.tmp in w.disk.names && w.disk.names[me.tmp] == me.inode && me.name !in w.disk.names
             && me.tmp !in d.names && me.inode !in d.files && me.name !in d.names && calls.create && calls.fill
             && w.disk == Wrote(d, me.cache, me.tmp, me.inode, calls)
    ensures var me := w.recorders[p];
            var (d1, ok) := Published(d, me.cache, me.name, me.tmp, me.inode, calls);
            if ok && calls.sync then RunsTo(w, run, d1.(durable := d1.names), p, {(me.cache, me.name)})
                else RunsTo(w, run, d1, p, {})
  {
    if !calls.link {
      One(w, Stop(p, true));
      run := [Stop(p, true)];
    } else {
      var w1 := Next(w, Link(p));
      var rest: seq<Step>;
      if !calls.unlink {
        rest := [Stop(p, false)];
        One(w1, Stop(p, false));
      } else {
        var last := SyncRun(Next(w1, Unlink(p)), p, calls.sync);
        Then(w1, Unlink(p), last);
        rest := [Unlink(p)] + last;
      }
      Then(w, Link(p), rest);
      run := [Link(p)] + rest;
    }
  }

  lemma PublishRun(w: World, p: Process, tmp: Name, inode: Inode, calls: Calls) returns (run: seq<Step>)
    requires p in w.recorders && w.recorders[p].Creating? && w.recorders[p].name.Record?
    requires w.recorders[p].name !in w.disk.names
    requires tmp.Tmp? && tmp !in w.disk.names && inode !in w.disk.files
    ensures var me := w.recorders[p];
            var (d1, ok) := Published(w.disk, me.cache, me.name, tmp, inode, calls);
            if ok && calls.sync then RunsTo(w, run, d1.(durable := d1.names), p, {(me.cache, me.name)})
                else RunsTo(w, run, d1, p, {})
  {
    if !calls.create {
      One(w, Stop(p, false));
      run := [Stop(p, false)];
    } else {
      var create := Create(p, tmp, inode);
      var w1 := Next(w, create);
      var rest: seq<Step>;
      if !calls.fill {
        One(w1, Stop(p, true));
        rest := [Stop(p, true)];
        assert w1.disk.names - {tmp} == w.disk.names;
      } else {
        var w2 := Next(w1, SyncFile(p));
        assert w2.disk == Wrote(w.disk, w.recorders[p].cache, tmp, inode, calls);
        var last := LinkRun(w2, p, w.disk, calls);
        Then(w1, SyncFile(p), last);
        rest := [SyncFile(p)] + last;
      }
      Then(w, create, rest);
      run := [create] + rest;
    }
  }

  /** A recorder that read the directory: what it found decides the rest. */
  lemma AfterReadRun(w: World, p: Process, tmp: Name, inode: Inode, calls: Calls) returns (run: seq<Step>)
    requires p in w.recorders && w.recorders[p].Reading? && w.recorders[p].name.Record?
    requires tmp.Tmp? && tmp !in w.disk.names && inode !in w.disk.files
    ensures var me := w.recorders[p];
            var (d, ok) := Recorded(w.disk, me.cache, me.name, tmp, inode, calls);
            RunsTo(w, run, d, p, if ok then {(me.cache, me.name)} else {})
  {
    var me := w.recorders[p];
    var w1 := Next(w, Read(p));
    var rest: seq<Step>;
    if me.name in w.disk.names && Named(w.disk, me.name) != Some(me.cache) {
      rest := [];
    } else if me.name in w.disk.names {
      rest := SyncRun(w1, p, calls.sync);
    } else {
      rest := PublishRun(w1, p, tmp, inode, calls);
    }
    Then(w, Read(p), rest);
    run := [Read(p)] + rest;
  }

  /** What one recorder does alone is a run of its steps, so what holds of every run holds of it. */
  lemma RecordedIsARun(w: World, p: Process, cache: Cache, name: Name, tmp: Name, inode: Inode, calls: Calls)
    returns (run: seq<Step>)
    requires p !in w.recorders && name.Record? && tmp.Tmp? && tmp !in w.disk.names && inode !in w.disk.files
    ensures var (d, ok) := Recorded(w.disk, cache, name, tmp, inode, calls);
            RunsTo(w, run, d, p, if ok then {(cache, name)} else {})
  {
    var w1 := Next(w, Begin(p, cache, name));
    var rest := AfterReadRun(w1, p, tmp, inode, calls);
    Then(w, Begin(p, cache, name), rest);
    run := [Begin(p, cache, name)] + rest;
  }
}

/**
 What a batch stands for: a stream of commits flushed anywhere leaves the file that writing each
 commit's size and pages as they come leaves.
 */
module FlushPoints {
  import opened Common
  import opened Files
  import opened Marker
  import opened Applier

  predicate Positive(pages: map<int, Image>) {
    forall p :: p in pages ==> p >= 1
  }

  lemma InPage(i: nat, p: int)
    requires p >= 1
    ensures PageOffset(p) <= i < PageOffset(p) + PAGE <==> PageOf(i) == p
  {
  }

  /** Byte `i` once the images named in `order` are written over `f`. */
  function WrittenAt(f: seq<byte>, images: map<int, Image>, order: seq<int>, i: nat): (b: byte)
    requires forall p :: p in order ==> p in images
  {
    if PageOf(i) in order then images[PageOf(i)][i - PageOffset(PageOf(i))]
    else if i < |f| then f[i]
    else 0
  }

  lemma {:induction false} WrittenByte(f: seq<byte>, images: map<int, Image>, order: seq<int>, i: nat)
    requires forall p :: p in order ==> p in images && p >= 1
    ensures |f| <= |Written(f, images, order)|
    ensures PageOf(i) in order ==> i < |Written(f, images, order)|
    ensures i < |Written(f, images, order)| ==> Written(f, images, order)[i] == WrittenAt(f, images, order, i)
    decreases |order|
  {
    if order != [] {
      var last := order[|order| - 1];
      var before := order[..|order| - 1];
      assert last in order && forall p :: p in before ==> p in order;
      assert order == before + [last];
      WrittenByte(f, images, before, i);
      InPage(i, last);
    }
  }

  /** Byte `i` of a flushed file: the batch's image, else the old byte below the smallest size, else zero. */
  function FlushedByte(f: seq<byte>, pages: map<int, Image>, min: u32, lineage: Lineage, i: nat): (b: byte) {
    var p := PageOf(i);
    if p in pages then OnDisk(p, pages[p], lineage)[i - PageOffset(p)]
    else if i < |f| && i < DbLen(min) then f[i]
    else 0
  }

  lemma FlushedAt(f: seq<byte>, pages: map<int, Image>, min: u32, size: u32, lineage: Lineage, i: nat)
    requires Positive(pages)
    requires i < DbLen(size)
    ensures Flushed(f, pages, min, size, lineage)[i] == FlushedByte(f, pages, min, lineage, i)
  {
    var order := Ascending(pages.Keys);
    assert order[..|pages.Keys|] == order;
    WrittenByte(Cut(f, min), DiskImages(pages, lineage), order, i);
  }

  /** Byte `i` of a file; past its end, zero. */
  function ByteAt(f: seq<byte>, i: nat): (b: byte) {
    if i < |f| then f[i] else 0
  }

  /** Two files that agree on the bytes below `min` the batch does not write flush to the same file. */
  lemma FlushReadsOnly(f: seq<byte>, g: seq<byte>, pages: map<int, Image>, min: u32, size: u32, lineage: Lineage)
    requires Positive(pages)
    requires forall i: nat :: i < DbLen(min) && i < DbLen(size) && PageOf(i) !in pages ==> ByteAt(f, i) == ByteAt(g, i)
    ensures Flushed(f, pages, min, size, lineage) == Flushed(g, pages, min, size, lineage)
  {
    var a, b := Flushed(f, pages, min, size, lineage), Flushed(g, pages, min, size, lineage);
    forall i: nat | i < DbLen(size)
      ensures a[i] == b[i]
    {
      FlushedAt(f, pages, min, size, lineage, i);
      FlushedAt(g, pages, min, size, lineage, i);
      if i < DbLen(min) && PageOf(i) !in pages {
        assert ByteAt(f, i) == ByteAt(g, i);
      }
    }
  }

  /**
   Flush is absorbing: a batch applied again, whether its first flush ran whole or stopped after any
   number of page writes, gives the file one whole flush gives.
   */
  lemma FlushAgain(f: seq<byte>, pages: map<int, Image>, min: u32, size: u32, k: nat, lineage: Lineage)
    requires Positive(pages)
    requires k <= |pages.Keys|
    ensures Flushed(Stopped(f, pages, min, k, lineage), pages, min, size, lineage)
        == Flushed(f, pages, min, size, lineage)
    ensures Flushed(Flushed(f, pages, min, size, lineage), pages, min, size, lineage)
        == Flushed(f, pages, min, size, lineage)
  {
    var stopped := Stopped(f, pages, min, k, lineage);
    var order := Ascending(pages.Keys)[..k];
    forall i: nat | i < DbLen(min) && i < DbLen(size) && PageOf(i) !in pages
      ensures ByteAt(f, i) == ByteAt(stopped, i)
    {
      assert PageOf(i) !in order;
      WrittenByte(Cut(f, min), DiskImages(pages, lineage), order, i);
    }
    FlushReadsOnly(f, stopped, pages, min, size, lineage);
    var whole := Flushed(f, pages, min, size, lineage);
    forall i: nat | i < DbLen(min) && i < DbLen(size) && PageOf(i) !in pages
      ensures ByteAt(f, i) == ByteAt(whole, i)
    {
      FlushedAt(f, pages, min, size, lineage, i);
    }
    FlushReadsOnly(f, whole, pages, min, size, lineage);
  }

  /** What the applier is fed: commits begun, their pages, and flushes anywhere between. */
  datatype Event = Begin(size: u32) | Page(pgno: u32, image: Image) | Flush

  /** A db file and the batch in front of it. */
  datatype World = World(file: seq<byte>, batch: Batch)

  /** One event; `None` when a flush refuses the batch's page 1. */
  function Step(w: World, e: Event, lineage: Lineage): (r: Option<World>) {
    match e
    case Begin(size) => Some(w.(batch := AfterBegin(w.batch, size)))
    case Page(pgno, image) => Some(w.(batch := AfterPage(w.batch, pgno, image)))
    case Flush =>
      if Refuses(w.batch) then None
      else Some(World(Settled(w, lineage), AfterFlush(w.batch)))
  }

  function Run(w: World, events: seq<Event>, lineage: Lineage): (r: Option<World>)
    decreases |events|
  {
    if events == [] then Some(w)
    else
      var next := Step(w, events[0], lineage);
      if next.None? then None else Run(next.value, events[1..], lineage)
  }

  /** The file once the batch is flushed too. */
  function Settled(w: World, lineage: Lineage): (f: seq<byte>) {
    if w.batch.minSize.Some? && w.batch.size.Some?
    then Flushed(w.file, w.batch.pages, w.batch.minSize.value, w.batch.size.value, lineage)
    else w.file
  }

  /** Each commit's pages lie within its own size, as its record's codec demands. */
  predicate WithinSizes(events: seq<Event>, size: Option<u32>)
    decreases |events|
  {
    events == [] ||
    match events[0]
    case Begin(n) => WithinSizes(events[1..], Some(n))
    case Page(pgno, _) => size.Some? && 1 <= pgno <= size.value && WithinSizes(events[1..], size)
    case Flush => WithinSizes(events[1..], size)
  }

  /** The simple form: every size set and every page written as it comes; flushes change nothing. */
  function Direct(f: seq<byte>, events: seq<Event>, lineage: Lineage): (r: seq<byte>)
    decreases |events|
  {
    if events == [] then f
    else
      var next :=
        match events[0]
        case Begin(size) => SetLen(f, DbLen(size))
        case Page(pgno, image) => WriteAt(f, PageOffset(pgno), OnDisk(pgno, image, lineage))
        case Flush => f;
      Direct(next, events[1..], lineage)
  }

  /** What every event keeps: pages and the smallest size within the last size, which the file has once flushed. */
  predicate Consistent(w: World) {
    var b := w.batch;
    if b.size.None? then b == EMPTY
    else
      && (forall p :: p in b.pages ==> 1 <= p <= b.size.value)
      && (if b.minSize.None? then b.pages == map[] && |w.file| == DbLen(b.size.value)
          else b.minSize.value <= b.size.value)
  }

  /** Byte `i` of the settled file; past its end, zero. */
  function SettledByte(w: World, lineage: Lineage, i: nat): (b: byte) {
    if w.batch.minSize.Some? && w.batch.size.Some?
    then if i < DbLen(w.batch.size.value) then FlushedByte(w.file, w.batch.pages, w.batch.minSize.value, lineage, i)
        else 0
    else if i < |w.file| then w.file[i] else 0
  }

  lemma SettledAt(w: World, lineage: Lineage, i: nat)
    requires Consistent(w)
    ensures w.batch.size.Some? ==> |Settled(w, lineage)| == DbLen(w.batch.size.value)
    ensures SettledByte(w, lineage, i) == if i < |Settled(w, lineage)| then Settled(w, lineage)[i] else 0
  {
    if w.batch.minSize.Some? && i < DbLen(w.batch.size.value) {
      FlushedAt(w.file, w.batch.pages, w.batch.minSize.value, w.batch.size.value, lineage, i);
    }
  }

  lemma BeginByte(w: World, n: u32, lineage: Lineage, i: nat)
    requires Consistent(w) && i < DbLen(n)
    ensures SettledByte(w.(batch := AfterBegin(w.batch, n)), lineage, i) == SettledByte(w, lineage, i)
  {
    var p := PageOf(i);
    assert p <= n;
  }

  lemma BeginSettles(w: World, n: u32, lineage: Lineage)
    requires Consistent(w)
    ensures Consistent(w.(batch := AfterBegin(w.batch, n)))
    ensures Settled(w.(batch := AfterBegin(w.batch, n)), lineage) == SetLen(Settled(w, lineage), DbLen(n))
  {
    var w' := w.(batch := AfterBegin(w.batch, n));
    var after, before := Settled(w', lineage), Settled(w, lineage);
    forall i: nat | i < DbLen(n)
      ensures after[i] == SetLen(before, DbLen(n))[i]
    {
      SettledAt(w', lineage, i);
      SettledAt(w, lineage, i);
      BeginByte(w, n, lineage, i);
    }
  }

  lemma PageByte(w: World, pgno: u32, image: Image, lineage: Lineage, i: nat)
    requires Consistent(w) && w.batch.size.Some? && 1 <= pgno <= w.batch.size.value
    requires i < DbLen(w.batch.size.value)
    ensures SettledByte(w.(batch := AfterPage(w.batch, pgno, image)), lineage, i)
         == if PageOf(i) == pgno then OnDisk(pgno, image, lineage)[i - PageOffset(pgno)] else SettledByte(w, lineage, i)
  {
  }

  lemma PageKeeps(w: World, pgno: u32, image: Image)
    requires Consistent(w) && w.batch.size.Some? && 1 <= pgno <= w.batch.size.value
    ensures Consistent(w.(batch := AfterPage(w.batch, pgno, image)))
  {
  }

  lemma PageSettles(w: World, pgno: u32, image: Image, lineage: Lineage)
    requires Consistent(w) && w.batch.size.Some? && 1 <= pgno <= w.batch.size.value
    ensures Settled(w.(batch := AfterPage(w.batch, pgno, image)), lineage)
         == WriteAt(Settled(w, lineage), PageOffset(pgno), OnDisk(pgno, image, lineage))
  {
    var w' := w.(batch := AfterPage(w.batch, pgno, image));
    PageKeeps(w, pgno, image);
    SettledAt(w, lineage, 0);
    SettledAt(w', lineage, 0);
    forall i: nat | i < DbLen(w.batch.size.value)
      ensures Settled(w', lineage)[i]
           == if PageOf(i) == pgno then OnDisk(pgno, image, lineage)[i - PageOffset(pgno)] else Settled(w, lineage)[i]
    {
      SettledAt(w', lineage, i);
      SettledAt(w, lineage, i);
      PageByte(w, pgno, image, lineage, i);
    }
    WriteIs(Settled(w, lineage), pgno, OnDisk(pgno, image, lineage), Settled(w', lineage));
  }

  /** `g` is `f` with `image` over page `pgno`, byte by byte. */
  lemma WriteIs(f: seq<byte>, pgno: int, image: Image, g: seq<byte>)
    requires pgno >= 1 && |f| == |g| && pgno * PAGE <= |f|
    requires forall i: nat :: i < |f| ==> g[i] == if PageOf(i) == pgno then image[i - PageOffset(pgno)] else f[i]
    ensures g == WriteAt(f, PageOffset(pgno), image)
  {
    var wrote := WriteAt(f, PageOffset(pgno), image);
    assert |wrote| == |f|;
    forall i: nat | i < |f|
      ensures g[i] == wrote[i]
    {
      InPage(i, pgno);
    }
  }

  /** A batch is the simple form, whatever was flushed so far. */
  lemma {:induction false} RunIsDirect(w: World, events: seq<Event>, lineage: Lineage)
    requires Consistent(w)
    requires WithinSizes(events, w.batch.size)
    requires Run(w, events, lineage).Some?
    ensures Consistent(Run(w, events, lineage).value)
    ensures Settled(Run(w, events, lineage).value, lineage) == Direct(Settled(w, lineage), events, lineage)
    decreases |events|
  {
    if events != [] {
      var next := Step(w, events[0], lineage).value;
      match events[0] {
        case Begin(n) => BeginSettles(w, n, lineage);
        case Page(pgno, image) => PageKeeps(w, pgno, image); PageSettles(w, pgno, image, lineage);
        case Flush =>
      }
      RunIsDirect(next, events[1..], lineage);
    }
  }

  /** Every page 1 of the stream carries SQLite's magic. */
  predicate PageOnesAreSqlite(events: seq<Event>) {
    forall i :: 0 <= i < |events| && events[i].Page? && events[i].pgno == 1 ==> HasMagic(events[i].image)
  }

  lemma {:induction false} SqliteStreamsRun(w: World, events: seq<Event>, lineage: Lineage)
    requires 1 in w.batch.pages ==> HasMagic(w.batch.pages[1])
    requires PageOnesAreSqlite(events)
    ensures Run(w, events, lineage).Some?
    decreases |events|
  {
    if events != [] {
      var next := Step(w, events[0], lineage).value;
      forall i | 0 <= i < |events[1..]| && events[1..][i].Page? && events[1..][i].pgno == 1
        ensures HasMagic(events[1..][i].image)
      {
        assert events[1..][i] == events[i + 1];
      }
      SqliteStreamsRun(next, events[1..], lineage);
    }
  }

  /**
   Flush points do not matter: wherever the stream is flushed, even inside a commit, it leaves the
   file its sizes and pages leave when each is written as it comes, and no flush of a stream whose
   page 1s are SQLite's is refused.
   */
  lemma FlushPointsDoNotMatter(f: seq<byte>, events: seq<Event>, lineage: Lineage)
    requires WithinSizes(events, None)
    ensures PageOnesAreSqlite(events) ==> Run(World(f, EMPTY), events, lineage).Some?
    ensures Run(World(f, EMPTY), events, lineage).Some? ==>
              Settled(Run(World(f, EMPTY), events, lineage).value, lineage) == Direct(f, events, lineage)
  {
    if PageOnesAreSqlite(events) {
      SqliteStreamsRun(World(f, EMPTY), events, lineage);
    }
    if Run(World(f, EMPTY), events, lineage).Some? {
      RunIsDirect(World(f, EMPTY), events, lineage);
    }
  }

  function Unflushed(events: seq<Event>): (r: seq<Event>)
    decreases |events|
  {
    if events == [] then []
    else if events[0].Flush? then Unflushed(events[1..])
    else [events[0]] + Unflushed(events[1..])
  }

  lemma {:induction false} DirectIgnoresFlushes(f: seq<byte>, events: seq<Event>, lineage: Lineage)
    ensures Direct(f, events, lineage) == Direct(f, Unflushed(events), lineage)
    decreases |events|
  {
    if events != [] {
      var rest := Unflushed(events[1..]);
      match events[0]
      case Begin(n) =>
        DirectIgnoresFlushes(SetLen(f, DbLen(n)), events[1..], lineage);
        assert Unflushed(events)[1..] == rest;
      case Page(pgno, image) =>
        DirectIgnoresFlushes(WriteAt(f, PageOffset(pgno), OnDisk(pgno, image, lineage)), events[1..], lineage);
        assert Unflushed(events)[1..] == rest;
      case Flush =>
        DirectIgnoresFlushes(f, events[1..], lineage);
    }
  }

  /** Two ways to flush the same commits leave the same file. */
  lemma SameCommitsSameFile(f: seq<byte>, xs: seq<Event>, ys: seq<Event>, lineage: Lineage)
    requires Unflushed(xs) == Unflushed(ys)
    requires WithinSizes(xs, None) && WithinSizes(ys, None)
    requires Run(World(f, EMPTY), xs, lineage).Some? && Run(World(f, EMPTY), ys, lineage).Some?
    ensures Settled(Run(World(f, EMPTY), xs, lineage).value, lineage)
         == Settled(Run(World(f, EMPTY), ys, lineage).value, lineage)
  {
    FlushPointsDoNotMatter(f, xs, lineage);
    FlushPointsDoNotMatter(f, ys, lineage);
    DirectIgnoresFlushes(f, xs, lineage);
    DirectIgnoresFlushes(f, ys, lineage);
  }

  /** A page no event writes stays zero once it is, or stays outside the file. */
  lemma {:induction false} StaysZero(f: seq<byte>, events: seq<Event>, lineage: Lineage, i: nat)
    requires i < |f| ==> f[i] == 0
    requires forall e :: e in events && e.Page? ==> e.pgno >= 1 && e.pgno != PageOf(i)
    ensures i < |Direct(f, events, lineage)| ==> Direct(f, events, lineage)[i] == 0
    decreases |events|
  {
    if events != [] {
      assert events[0] in events;
      match events[0]
      case Begin(n) => StaysZero(SetLen(f, DbLen(n)), events[1..], lineage, i);
      case Page(pgno, image) =>
        InPage(i, pgno);
        StaysZero(WriteAt(f, PageOffset(pgno), OnDisk(pgno, image, lineage)), events[1..], lineage, i);
      case Flush => StaysZero(f, events[1..], lineage, i);
    }
  }

  lemma {:induction false} DirectConcat(f: seq<byte>, a: seq<Event>, b: seq<Event>, lineage: Lineage)
    ensures Direct(f, a + b, lineage) == Direct(Direct(f, a, lineage), b, lineage)
    decreases |a|
  {
    if a == [] {
      assert a + b == b;
    } else {
      assert (a + b)[1..] == a[1..] + b;
      match a[0]
      case Begin(n) => DirectConcat(SetLen(f, DbLen(n)), a[1..], b, lineage);
      case Page(pgno, image) =>
        DirectConcat(WriteAt(f, PageOffset(pgno), OnDisk(pgno, image, lineage)), a[1..], b, lineage);
      case Flush => DirectConcat(f, a[1..], b, lineage);
    }
  }

  /**
   A page a shrink removed reads as zero once a later commit grows the file over it again and none
   wrote it since, whatever commits, pages and flushes come before and between.
   */
  lemma RegrownPagesAreZero(f: seq<byte>, before: seq<Event>, low: u32, after: seq<Event>, lineage: Lineage, i: nat)
    requires WithinSizes(before + ([Begin(low)] + after), None) && i >= DbLen(low)
    requires forall e :: e in after && e.Page? ==> e.pgno >= 1 && e.pgno != PageOf(i)
    requires Run(World(f, EMPTY), before + ([Begin(low)] + after), lineage).Some?
    ensures var r := Settled(Run(World(f, EMPTY), before + ([Begin(low)] + after), lineage).value, lineage);
            i < |r| ==> r[i] == 0
  {
    var all := before + ([Begin(low)] + after);
    FlushPointsDoNotMatter(f, all, lineage);
    DirectConcat(f, before, [Begin(low)] + after, lineage);
    var g := Direct(f, before, lineage);
    assert ([Begin(low)] + after)[1..] == after;
    StaysZero(SetLen(g, DbLen(low)), after, lineage, i);
  }

  lemma RunTwo(w: World, a: Event, b: Event, lineage: Lineage)
    requires Step(w, a, lineage).Some? && Step(Step(w, a, lineage).value, b, lineage).Some?
    ensures Run(w, [a, b], lineage) == Step(Step(w, a, lineage).value, b, lineage)
  {
    var next := Step(w, a, lineage).value;
    assert [a, b][1..] == [b] && [b][1..] == [];
    assert Run(next, [b], lineage) == Run(Step(next, b, lineage).value, [], lineage);
  }

  /**
   A page past its own commit's size makes the flush points matter: flushed at once it is cut off,
   kept in the batch it lands inside the next, larger commit.
   */
  lemma PagesPastTheirSizeMatter(image: Image, lineage: Lineage)
    requires image[0] != 0
    ensures var before := World([], Batch(map[2 := image], Some(1), Some(1)));
            && Run(World([], EMPTY), [Begin(1), Page(2, image)], lineage) == Some(before)
            && Run(before, [Begin(2), Flush], lineage).Some?
            && Run(before, [Flush, Begin(2)], lineage).Some?
            && Settled(Run(before, [Begin(2), Flush], lineage).value, lineage)
               != Settled(Run(before, [Flush, Begin(2)], lineage).value, lineage)
  {
    var before := World([], Batch(map[2 := image], Some(1), Some(1)));
    RunTwo(World([], EMPTY), Begin(1), Page(2, image), lineage);
    RunTwo(before, Begin(2), Flush, lineage);
    RunTwo(before, Flush, Begin(2), lineage);
    var grown := World([], Batch(map[2 := image], Some(1), Some(2)));
    assert AfterBegin(before.batch, 2) == grown.batch;
    assert Settled(Run(before, [Begin(2), Flush], lineage).value, lineage) == Settled(grown, lineage);
    var flushed := Settled(before, lineage);
    assert AfterBegin(Batch(map[], None, Some(1)), 2) == Batch(map[], Some(2), Some(2));
    assert |flushed| == PAGE;
    FlushedAt([], grown.batch.pages, 1, 2, lineage, PAGE);
    FlushedAt(flushed, map[], 2, 2, lineage, PAGE);
  }
}

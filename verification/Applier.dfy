/**
 Commits applied to a db file in batches (`PageBatch`): per page the latest image, and two sizes.
 `Direct` is the simple form a batch stands for: every commit's size and pages written as they come.
 */
module Applier {
  import opened Common
  import opened Files
  import opened Marker

  datatype Batch = Batch(pages: map<int, Image>, minSize: Option<u32>, size: Option<u32>)

  const EMPTY: Batch := Batch(map[], None, None)

  function AfterBegin(b: Batch, size: u32): (r: Batch) {
    Batch(if size < (if b.size.Some? then b.size.value else U32_LIMIT - 1)
          then map p | p in b.pages && p <= size :: b.pages[p] else b.pages,
          Some(if b.minSize.Some? && b.minSize.value < size then b.minSize.value else size),
          Some(size))
  }

  function AfterPage(b: Batch, pgno: u32, image: Image): (r: Batch) {
    Batch(b.pages[pgno := image], if b.minSize.Some? then b.minSize else b.size, b.size)
  }

  /** The file cut to the batch's smallest size, never grown to it. */
  function Cut(f: seq<byte>, min: u32): (r: seq<byte>)
    ensures |r| == Min(|f|, DbLen(min))
    ensures forall i :: 0 <= i < |r| ==> r[i] == f[i]
  {
    if |f| > DbLen(min) then SetLen(f, DbLen(min)) else f
  }

  /** The images of a batch as its flush writes them. */
  function DiskImages(pages: map<int, Image>, lineage: Lineage): (r: map<int, Image>)
    ensures r.Keys == pages.Keys
  {
    map p | p in pages :: OnDisk(p, pages[p], lineage)
  }

  /** The batch with its page 1 stamped, `None` when that page is refused. */
  function StampPageOne(pages: map<int, Image>, lineage: Lineage): (r: Option<map<int, Image>>)
    ensures r.Some? <==> (1 in pages ==> HasMagic(pages[1]))
    ensures r.Some? ==> r.value == DiskImages(pages, lineage)
  {
    if 1 in pages then
      var stamped := Stamp(pages[1], lineage);
      if stamped.None? then None else Some(pages[1 := stamped.value])
    else Some(pages)
  }

  /** `images` written one by one in `order`. */
  function Written(f: seq<byte>, images: map<int, Image>, order: seq<int>): (r: seq<byte>)
    requires forall p :: p in order ==> p in images
    decreases |order|
  {
    if order == [] then f
    else
      var last := order[|order| - 1];
      WriteAt(Written(f, images, order[..|order| - 1]), PageOffset(last), images[last])
  }

  lemma WrittenNext(f: seq<byte>, images: map<int, Image>, order: seq<int>, i: nat)
    requires i < |order|
    requires forall p :: p in order ==> p in images
    ensures Written(f, images, order[..i + 1])
         == WriteAt(Written(f, images, order[..i]), PageOffset(order[i]), images[order[i]])
  {
    assert order[..i + 1][..i] == order[..i];
  }

  /** The file a flush leaves when its callback stops it after `k` page writes. */
  function Stopped(f: seq<byte>, pages: map<int, Image>, min: u32, k: nat, lineage: Lineage): (r: seq<byte>)
    requires k <= |pages.Keys|
  {
    Written(Cut(f, min), DiskImages(pages, lineage), Ascending(pages.Keys)[..k])
  }

  /** The file a whole flush leaves. */
  function Flushed(f: seq<byte>, pages: map<int, Image>, min: u32, size: u32, lineage: Lineage): (r: seq<byte>) {
    SetLen(Stopped(f, pages, min, |pages.Keys|, lineage), DbLen(size))
  }

  /** A batch without a commit writes nothing, and so does one whose page 1 is refused. */
  predicate Flushes(b: Batch) {
    b.minSize.Some? && b.size.Some? && (1 in b.pages ==> HasMagic(b.pages[1]))
  }

  predicate Refuses(b: Batch) {
    b.minSize.Some? && b.size.Some? && 1 in b.pages && !HasMagic(b.pages[1])
  }

  function AfterFlush(b: Batch): (r: Batch) {
    if b.minSize.Some? && b.size.Some? then Batch(map[], None, b.size) else b.(minSize := None)
  }

  datatype FlushOutcome = Done | Refused | StoppedAt(writes: nat)

  /** One batch of commits, changed in place. */
  class PageBatch {
    var pages: map<int, Image>
    var minSize: Option<u32>
    var size: Option<u32>

    function View(): (b: Batch)
      reads this
    {
      Batch(pages, minSize, size)
    }

    constructor ()
      ensures View() == EMPTY
    {
      pages, minSize, size := map[], None, None;
    }

    /** Starts a commit whose db size after it is `n` pages: pages past it are dropped. */
    method Begin(n: u32)
      modifies this
      ensures View() == AfterBegin(old(View()), n)
    {
      var limit := if size.Some? then size.value else U32_LIMIT - 1;
      if n < limit {
        pages := map p | p in pages && p <= n :: pages[p];
      }
      minSize := Some(if minSize.Some? && minSize.value < n then minSize.value else n);
      size := Some(n);
    }

    /** Adds an image the current commit wrote. */
    method Page(pgno: u32, image: Image)
      modifies this
      ensures View() == AfterPage(old(View()), pgno, image)
    {
      if minSize.None? {
        minSize := size;
      }
      pages := pages[pgno := image];
    }

    /**
     Writes the batch to `f`: cut to its smallest size, write the images by ascending page, set the
     last size. `stopAt` is the page write whose callback fails, if any.
     */
    method Flush(f: File, lineage: Lineage, stopAt: Option<nat>) returns (r: FlushOutcome)
      requires stopAt.Some? ==> stopAt.value >= 1
      modifies this, f
      ensures View() == AfterFlush(old(View()))
      ensures r.Refused? <==> Refuses(old(View()))
      ensures r.StoppedAt? <==> Flushes(old(View())) && stopAt.Some? && stopAt.value <= |old(pages).Keys|
      ensures r.Refused? || !Flushes(old(View())) ==> f.bytes == old(f.bytes)
      ensures r.StoppedAt? ==> r.writes == stopAt.value
                               && f.bytes == Stopped(old(f.bytes), old(pages), old(minSize).value, r.writes, lineage)
      ensures r.Done? && Flushes(old(View())) ==>
                f.bytes == Flushed(old(f.bytes), old(pages), old(minSize).value, old(size).value, lineage)
    {
      var taken := minSize;
      minSize := None;
      if taken.None? || size.None? {
        return Done;
      }
      var stamped := StampPageOne(pages, lineage);
      pages := map[];
      if stamped.None? {
        return Refused;
      }
      var batch := stamped.value;
      if |f.bytes| > DbLen(taken.value) {
        f.Truncate(DbLen(taken.value));
      }
      var ran := WriteImages(f, batch, Ascending(batch.Keys), stopAt);
      if stopAt.Some? && ran == stopAt.value {
        return StoppedAt(ran);
      }
      f.Truncate(DbLen(size.value));
      return Done;
    }
  }

  method WriteImage(f: File, images: map<int, Image>, order: seq<int>, i: nat, ghost before: seq<byte>)
    requires i < |order| && (forall p :: p in order ==> p in images)
    requires f.bytes == Written(before, images, order[..i])
    modifies f
    ensures f.bytes == Written(before, images, order[..i + 1])
  {
    WrittenNext(before, images, order, i);
    f.WriteAllAt(PageOffset(order[i]), images[order[i]]);
  }

  /** The page writes of a flush, in `order`. Returns how many ran: fewer than all when the callback stopped it. */
  method WriteImages(f: File, images: map<int, Image>, order: seq<int>, stopAt: Option<nat>) returns (ran: nat)
    requires forall p :: p in order ==> p in images
    requires stopAt.Some? ==> stopAt.value >= 1
    modifies f
    ensures ran == if stopAt.Some? && stopAt.value <= |order| then stopAt.value else |order|
    ensures f.bytes == Written(old(f.bytes), images, order[..ran])
  {
    ran := 0;
    ghost var before := f.bytes;
    while ran < |order|
      invariant ran <= |order|
      invariant stopAt.Some? ==> ran < stopAt.value
      invariant f.bytes == Written(before, images, order[..ran])
    {
      WriteImage(f, images, order, ran, before);
      ran := ran + 1;
      if stopAt == Some(ran) {
        return;
      }
    }
  }
}

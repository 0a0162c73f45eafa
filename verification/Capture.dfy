/** One write transaction followed from its WRITE lock to its commit point, and the record its commit makes. */
module Capture {
  import opened Common
  import opened Files
  import opened Wal

  /** crc32c, of which nothing but its being a function is used. */
  type Crc = seq<byte> -> int

  datatype CommitPoint = CommitPoint(dbPagesAfter: u32, pgno: u32)

  datatype CaptureError =
    | Shape(off: int, len: nat)
    | PageSize(pageSize: Option<u32>)
    | HeaderWithoutPage(off: int, pending: int)
    | PageWithoutHeader(off: int)
    | PageZero(off: int)
    | LeavesWal(read: byte, write: byte)
    | Page1Size(found: int)
    | LostWrite(pgno: int, off: int)
    | ReadBack(pgno: int, off: int)
    | CommitPage(len: nat)

  /** A frame the transaction wrote: its page and the crc of the image last written there. */
  datatype Frame = Frame(pgno: u32, crc: int)

  datatype Pending = Pending(off: int, pgno: u32, commitSize: u32)

  datatype Stage = Open(pending: Option<Pending>) | Committed

  /** Frames by the WAL offset of their page. */
  datatype Txn = Txn(frames: map<int, Frame>, stage: Stage)

  const NEW: Txn := Txn(map[], Open(None))

  datatype Taken = Taken(txn: Txn, result: Result<Option<CommitPoint>, CaptureError>)

  /** The frames a header at `off` leaves: those before it. */
  function Rewound(frames: map<int, Frame>, off: int): (r: map<int, Frame>) {
    map k | k in frames && k < off + FRAME_HDR :: frames[k]
  }

  /** The transaction after its next WAL write; a refused write changes nothing. */
  function Take(t: Txn, w: WalWrite, crc: Crc): (r: Taken)
    ensures r.result.Err? ==> r.txn == t
  {
    if t.stage.Committed? then Taken(t, Ok(None))
    else
      var pending := t.stage.pending;
      match w
      case Header(pageSize) =>
        if pageSize != Some(PAGE) then Taken(t, Err(PageSize(pageSize)))
        else if pending.Some? then Taken(t, Err(HeaderWithoutPage(0, pending.value.off)))
        else Taken(t.(frames := map[]), Ok(None))
      case FrameHeader(off, pgno, commitSize) =>
        if pending.Some? then Taken(t, Err(HeaderWithoutPage(off, pending.value.off)))
        else if pgno == 0 then Taken(t, Err(PageZero(off)))
        else Taken(Txn(Rewound(t.frames, off), Open(Some(Pending(off, pgno, commitSize)))), Ok(None))
      case Page(off, data) =>
        if pending.Some? then
          var p := pending.value;
          if p.off + FRAME_HDR != off then Taken(t, Err(PageWithoutHeader(off)))
          else
            var frames := t.frames[off := Frame(p.pgno, crc(data))];
            if p.commitSize == 0 then Taken(Txn(frames, Open(None)), Ok(None))
            else Taken(Txn(frames, Committed), Ok(Some(CommitPoint(p.commitSize, p.pgno))))
        else if off in t.frames then
          Taken(t.(frames := t.frames[off := t.frames[off].(crc := crc(data))]), Ok(None))
        else Taken(t, Err(PageWithoutHeader(off)))
      case Other(off, len) => Taken(t, Err(Shape(off, len)))
  }

  /** A page of the record to be: where its final image is in the WAL, and that image's crc. */
  datatype FinalFrame = FinalFrame(pgno: int, off: int, crc: int)

  function OffsetsOf(frames: map<int, Frame>, pgno: int): (r: set<int>) {
    set off | off in frames && frames[off].pgno == pgno
  }

  /** The pages of `frames` up to `size` but `commitPgno`. */
  function EarlierPages(frames: map<int, Frame>, size: u32, commitPgno: u32): (r: set<int>) {
    set off | off in frames && 1 <= frames[off].pgno <= size && frames[off].pgno != commitPgno :: frames[off].pgno
  }

  /** The latest frame of a page the transaction wrote: the one at the greatest offset. */
  function LatestFrame(frames: map<int, Frame>, pgno: int): (r: FinalFrame)
    requires OffsetsOf(frames, pgno) != {}
  {
    var off := Greatest(OffsetsOf(frames, pgno));
    FinalFrame(pgno, off, frames[off].crc)
  }

  lemma EarlierPageHasFrame(frames: map<int, Frame>, size: u32, commitPgno: u32, p: int)
    requires p in EarlierPages(frames, size, commitPgno)
    ensures OffsetsOf(frames, p) != {}
  {
    var off :| off in frames && frames[off].pgno == p;
    assert off in OffsetsOf(frames, p);
  }

  /** The latest frame of each of `pages`, in their order. */
  function LatestFrames(frames: map<int, Frame>, pages: seq<int>): (r: seq<FinalFrame>)
    requires forall k :: 0 <= k < |pages| ==> OffsetsOf(frames, pages[k]) != {}
    ensures |r| == |pages|
    ensures forall k :: 0 <= k < |r| ==> r[k] == LatestFrame(frames, pages[k])
    decreases |pages|
  {
    if pages == [] then []
    else LatestFrames(frames, pages[..|pages| - 1]) + [LatestFrame(frames, pages[|pages| - 1])]
  }

  function FinalFrames(frames: map<int, Frame>, size: u32, commitPgno: u32): (r: seq<FinalFrame>) {
    var pages := Ascending(EarlierPages(frames, size, commitPgno));
    assert forall k :: 0 <= k < |pages| ==> OffsetsOf(frames, pages[k]) != {} by {
      forall k | 0 <= k < |pages| ensures OffsetsOf(frames, pages[k]) != {} {
        EarlierPageHasFrame(frames, size, commitPgno, pages[k]);
      }
    }
    LatestFrames(frames, pages)
  }

  /**
   What `FinalFrames` lists: ascending pages within the size but the commit's, each by its latest
   frame, none left out.
   */
  lemma FinalFramesList(frames: map<int, Frame>, size: u32, commitPgno: u32)
    ensures var r := FinalFrames(frames, size, commitPgno);
            && (forall j, k :: 0 <= j < k < |r| ==> r[j].pgno < r[k].pgno)
            && (forall k :: 0 <= k < |r| ==>
                              && 1 <= r[k].pgno <= size && r[k].pgno != commitPgno
                              && OffsetsOf(frames, r[k].pgno) != {} && r[k] == LatestFrame(frames, r[k].pgno))
            && (forall p :: 1 <= p <= size && p != commitPgno && OffsetsOf(frames, p) != {} ==>
                              exists k :: 0 <= k < |r| && r[k].pgno == p)
  {
    var r := FinalFrames(frames, size, commitPgno);
    var pages := Ascending(EarlierPages(frames, size, commitPgno));
    forall k | 0 <= k < |r|
      ensures OffsetsOf(frames, pages[k]) != {} && r[k] == LatestFrame(frames, pages[k])
    {
      EarlierPageHasFrame(frames, size, commitPgno, pages[k]);
    }
    forall p | 1 <= p <= size && p != commitPgno && OffsetsOf(frames, p) != {}
      ensures exists k :: 0 <= k < |r| && r[k].pgno == p
    {
      var off := Greatest(OffsetsOf(frames, p));
      assert p in EarlierPages(frames, size, commitPgno);
      var k :| 0 <= k < |pages| && pages[k] == p;
      assert r[k].pgno == p;
    }
  }

  function Pages(frames: map<int, Frame>, point: CommitPoint): (n: nat) {
    |FinalFrames(frames, point.dbPagesAfter, point.pgno)| + if point.pgno <= point.dbPagesAfter then 1 else 0
  }

  /** A page of a commit record. */
  datatype Entry = Entry(pgno: int, image: Image)

  datatype CommitRecord = CommitRecord(dbPagesAfter: u32, pages: seq<Entry>)

  /** What a read of a page at a WAL offset gives, `None` when it fails. */
  type ReadAt = int -> Option<Image>

  /** The frames read back and checked against the crcs of what was written, the first failure standing. */
  function ReadFrames(frames: seq<FinalFrame>, readAt: ReadAt, crc: Crc): (r: Result<seq<Entry>, CaptureError>)
    ensures r.Ok? ==> |r.value| == |frames|
    ensures r.Ok? ==> forall k :: 0 <= k < |frames| ==>
                                    && r.value[k].pgno == frames[k].pgno
                                    && readAt(frames[k].off) == Some(r.value[k].image)
                                    && crc(r.value[k].image) == frames[k].crc
    decreases |frames|
  {
    if frames == [] then Ok([])
    else
      var before := ReadFrames(frames[..|frames| - 1], readAt, crc);
      if before.Err? then before
      else
        var last := frames[|frames| - 1];
        var image := readAt(last.off);
        if image.None? then Err(ReadBack(last.pgno, last.off))
        else if crc(image.value) != last.crc then Err(LostWrite(last.pgno, last.off))
        else Ok(before.value + [Entry(last.pgno, image.value)])
  }

  /** How many entries come before page `pgno`. */
  function PartitionPoint(pages: seq<Entry>, pgno: int): (n: nat)
    ensures n <= |pages|
    ensures forall k :: 0 <= k < n ==> pages[k].pgno < pgno
    ensures n < |pages| ==> pages[n].pgno >= pgno
    decreases |pages|
  {
    if pages == [] || pages[0].pgno >= pgno then 0 else 1 + PartitionPoint(pages[1..], pgno)
  }

  /** Page 1 keeps WAL mode and 4096-byte pages. */
  function CheckPage1(p: Image): (r: Result<(), CaptureError>)
    ensures r.Ok? <==> p[18] == 2 && p[19] == 2 && (p[16] as int) * 256 + p[17] == PAGE
  {
    if p[18] != 2 || p[19] != 2 then Err(LeavesWal(p[19], p[18]))
    else
      var size := (p[16] as int) * 256 + p[17];
      var found: int := if size == 1 then 65536 else size;
      if found != PAGE then Err(Page1Size(found)) else Ok(())
  }

  /** The commit's pages: the earlier ones and, within the commit's size, the commit frame's. */
  function RecordPages(earlier: seq<Entry>, point: CommitPoint, image: Image): (r: seq<Entry>) {
    if point.pgno <= point.dbPagesAfter
    then
      var at := PartitionPoint(earlier, point.pgno);
      earlier[..at] + [Entry(point.pgno, image)] + earlier[at..]
    else earlier
  }

  function CaptureOf(frames: map<int, Frame>, point: CommitPoint, commitPage: seq<byte>, readAt: ReadAt, crc: Crc)
    : (r: Result<CommitRecord, CaptureError>)
  {
    if |commitPage| != PAGE then Err(CommitPage(|commitPage|))
    else
      var earlier := ReadFrames(FinalFrames(frames, point.dbPagesAfter, point.pgno), readAt, crc);
      if earlier.Err? then Err(earlier.error)
      else
        var pages := RecordPages(earlier.value, point, commitPage);
        if pages != [] && pages[0].pgno == 1 && CheckPage1(pages[0].image).Err?
        then Err(CheckPage1(pages[0].image).error)
        else Ok(CommitRecord(point.dbPagesAfter, pages))
  }

  datatype TooLarge = TooLarge(bytes: nat, max: nat)

  /** `latest` holds the greatest offset of each page among the first `i` frames of `order`. */
  ghost predicate WalkedTo(frames: map<int, Frame>, order: seq<int>, i: nat, latest: map<int, FinalFrame>)
    requires i <= |order| && forall k :: 0 <= k < |order| ==> order[k] in frames
  {
    && (forall k :: 0 <= k < i ==> frames[order[k]].pgno in latest && order[k] <= latest[frames[order[k]].pgno].off)
    && (forall p :: p in latest ==> exists k :: 0 <= k < i && frames[order[k]].pgno == p
                                                && latest[p] == FinalFrame(p, order[k], frames[order[k]].crc))
  }

  lemma WalkedNext(frames: map<int, Frame>, order: seq<int>, i: nat, latest: map<int, FinalFrame>)
    requires i < |order| && forall k :: 0 <= k < |order| ==> order[k] in frames
    requires StrictlyAscending(order) && WalkedTo(frames, order, i, latest)
    ensures var f := frames[order[i]];
            WalkedTo(frames, order, i + 1, latest[f.pgno := FinalFrame(f.pgno, order[i], f.crc)])
  {
  }

  lemma WalkedAll(frames: map<int, Frame>, order: seq<int>, latest: map<int, FinalFrame>)
    requires order == Ascending(frames.Keys) && WalkedTo(frames, order, |order|, latest)
    ensures forall off :: off in frames ==> frames[off].pgno in latest
    ensures forall p :: p in latest ==> OffsetsOf(frames, p) != {} && latest[p] == LatestFrame(frames, p)
  {
    forall off | off in frames
      ensures frames[off].pgno in latest && off <= latest[frames[off].pgno].off
    {
      var k :| 0 <= k < |order| && order[k] == off;
    }
    forall p | p in latest
      ensures OffsetsOf(frames, p) != {} && latest[p] == LatestFrame(frames, p)
    {
      assert latest[p].off in OffsetsOf(frames, p);
      GreatestIs(OffsetsOf(frames, p), latest[p].off);
    }
  }

  /** The pages of `latest` a record takes from earlier frames. */
  function Wanted(latest: map<int, FinalFrame>, size: u32, commitPgno: u32): (r: set<int>)
    ensures r <= latest.Keys
  {
    set p | p in latest && 1 <= p <= size && p != commitPgno
  }

  function Listed(latest: map<int, FinalFrame>, order: seq<int>): (r: seq<FinalFrame>)
    requires forall k :: 0 <= k < |order| ==> order[k] in latest
    ensures |r| == |order|
    ensures forall k :: 0 <= k < |r| ==> r[k] == latest[order[k]]
  {
    seq(|order|, k requires 0 <= k < |order| => latest[order[k]])
  }

  lemma ListedIsFinal(frames: map<int, Frame>, size: u32, commitPgno: u32, latest: map<int, FinalFrame>,
                      r: seq<FinalFrame>)
    requires forall off :: off in frames ==> frames[off].pgno in latest
    requires forall p :: p in latest ==> OffsetsOf(frames, p) != {} && latest[p] == LatestFrame(frames, p)
    requires r == Listed(latest, Ascending(Wanted(latest, size, commitPgno)))
    ensures r == FinalFrames(frames, size, commitPgno)
  {
    var wanted := Wanted(latest, size, commitPgno);
    forall p | p in wanted ensures p in EarlierPages(frames, size, commitPgno) {
      assert LatestFrame(frames, p).off in OffsetsOf(frames, p);
    }
    assert wanted == EarlierPages(frames, size, commitPgno);
  }

  /** One write transaction, changed in place by its WAL writes. */
  class WriteTxn {
    var frames: map<int, Frame>
    var stage: Stage

    function View(): (t: Txn)
      reads this
    {
      Txn(frames, stage)
    }

    constructor ()
      ensures View() == NEW
    {
      frames, stage := map[], Open(None);
    }

    /** Takes the next WAL write; the commit point when it is the commit frame's page. */
    method OnWrite(w: WalWrite, crc: Crc) returns (r: Result<Option<CommitPoint>, CaptureError>)
      modifies this
      ensures Taken(View(), r) == Take(old(View()), w, crc)
    {
      if stage.Committed? {
        return Ok(None);
      }
      var pending := stage.pending;
      match w {
        case Header(pageSize) =>
          if pageSize != Some(PAGE) {
            return Err(PageSize(pageSize));
          }
          if pending.Some? {
            return Err(HeaderWithoutPage(0, pending.value.off));
          }
          frames := map[];
          return Ok(None);
        case FrameHeader(off, pgno, commitSize) =>
          if pending.Some? {
            return Err(HeaderWithoutPage(off, pending.value.off));
          }
          if pgno == 0 {
            return Err(PageZero(off));
          }
          frames := map k | k in frames && k < off + FRAME_HDR :: frames[k];
          stage := Open(Some(Pending(off, pgno, commitSize)));
          return Ok(None);
        case Page(off, data) =>
          var sum := crc(data);
          if pending.Some? {
            var p := pending.value;
            if p.off + FRAME_HDR != off {
              return Err(PageWithoutHeader(off));
            }
            frames := frames[off := Frame(p.pgno, sum)];
            if p.commitSize == 0 {
              stage := Open(None);
              return Ok(None);
            }
            stage := Committed;
            return Ok(Some(CommitPoint(p.commitSize, p.pgno)));
          }
          if off !in frames {
            return Err(PageWithoutHeader(off));
          }
          frames := frames[off := frames[off].(crc := sum)];
          return Ok(None);
        case Other(off, len) =>
          return Err(Shape(off, len));
      }
    }

    /** The final image of every page up to `size` but the commit frame's, by ascending page. */
    method FinalFramesOf(size: u32, commitPgno: u32) returns (r: seq<FinalFrame>)
      ensures r == FinalFrames(frames, size, commitPgno)
    {
      var order := Ascending(frames.Keys);
      var latest: map<int, FinalFrame> := map[];
      var i := 0;
      while i < |order|
        invariant 0 <= i <= |order|
        invariant WalkedTo(frames, order, i, latest)
      {
        WalkedNext(frames, order, i, latest);
        var f := frames[order[i]];
        latest := latest[f.pgno := FinalFrame(f.pgno, order[i], f.crc)];
        i := i + 1;
      }
      WalkedAll(frames, order, latest);
      r := Listed(latest, Ascending(Wanted(latest, size, commitPgno)));
      ListedIsFinal(frames, size, commitPgno, latest, r);
    }

    /** Refuses a commit of more than `max` bytes of pages, with nothing read back. */
    method CheckSize(point: CommitPoint, max: nat) returns (r: Result<(), TooLarge>)
      ensures r.Err? <==> Pages(frames, point) * PAGE > max
      ensures r.Err? ==> r.error == TooLarge(Pages(frames, point) * PAGE, max)
    {
      var earlier := FinalFramesOf(point.dbPagesAfter, point.pgno);
      var pages := if point.pgno <= point.dbPagesAfter then |earlier| + 1 else |earlier|;
      if pages * PAGE > max {
        return Err(TooLarge(pages * PAGE, max));
      }
      return Ok(());
    }

    /** The commit's record: the earlier frames read back and checked, the commit frame's page from the buffer. */
    method CaptureCommit(point: CommitPoint, commitPage: seq<byte>, readAt: ReadAt, crc: Crc)
      returns (r: Result<CommitRecord, CaptureError>)
      ensures r == CaptureOf(frames, point, commitPage, readAt, crc)
    {
      if |commitPage| != PAGE {
        return Err(CommitPage(|commitPage|));
      }
      var final := FinalFramesOf(point.dbPagesAfter, point.pgno);
      var earlier := ReadBackAll(final, readAt, crc);
      if earlier.Err? {
        return Err(earlier.error);
      }
      var pages := earlier.value;
      ghost var record := RecordPages(pages, point, commitPage);
      if point.pgno <= point.dbPagesAfter {
        var at := PartitionPoint(pages, point.pgno);
        pages := pages[..at] + [Entry(point.pgno, commitPage)] + pages[at..];
      }
      assert pages == record;
      if pages != [] && pages[0].pgno == 1 {
        var page1 := CheckPage1(pages[0].image);
        if page1.Err? {
          return Err(page1.error);
        }
      }
      return Ok(CommitRecord(point.dbPagesAfter, pages));
    }
  }

  /** Reads the frames back one by one, up to the first that fails. */
  method ReadBackAll(frames: seq<FinalFrame>, readAt: ReadAt, crc: Crc) returns (r: Result<seq<Entry>, CaptureError>)
    ensures r == ReadFrames(frames, readAt, crc)
  {
    var pages: seq<Entry> := [];
    var i := 0;
    while i < |frames|
      invariant 0 <= i <= |frames|
      invariant ReadFrames(frames[..i], readAt, crc) == Ok(pages)
    {
      assert frames[..i + 1][..i] == frames[..i];
      var image := readAt(frames[i].off);
      if image.None? {
        ReadFailsAt(frames, i + 1, readAt, crc);
        return Err(ReadBack(frames[i].pgno, frames[i].off));
      }
      if crc(image.value) != frames[i].crc {
        ReadFailsAt(frames, i + 1, readAt, crc);
        return Err(LostWrite(frames[i].pgno, frames[i].off));
      }
      pages := pages + [Entry(frames[i].pgno, image.value)];
      i := i + 1;
    }
    assert frames[..i] == frames;
    return Ok(pages);
  }

  /** The first failure of a read back stands, whatever frames come after it. */
  lemma {:induction false} ReadFailsAt(frames: seq<FinalFrame>, k: nat, readAt: ReadAt, crc: Crc)
    requires k <= |frames|
    requires ReadFrames(frames[..k], readAt, crc).Err?
    ensures ReadFrames(frames, readAt, crc) == ReadFrames(frames[..k], readAt, crc)
    decreases |frames|
  {
    if k < |frames| {
      var before := frames[..|frames| - 1];
      assert before[..k] == frames[..k];
      ReadFailsAt(before, k, readAt, crc);
    } else {
      assert frames[..k] == frames;
    }
  }
}

/**
 What a captured commit means: the db file its record leaves is the one that replaying, in offset
 order, exactly the WAL frames no later header write undid leaves.
 */
module Replay {
  import opened Common
  import opened Files
  import opened Marker
  import opened Wal
  import opened Capture
  import Applier
  import FlushPoints

  // ---------------------------------------------------------------------------------------------
  // The reference: a transaction's accepted WAL writes, read as a history.
  // ---------------------------------------------------------------------------------------------

  type History = seq<WalWrite>

  /** Writes `i` and `i + 1` are a frame: its header, then its page. */
  predicate FrameAt(h: History, i: int) {
    0 <= i && i + 1 < |h| && h[i].FrameHeader? && h[i + 1].Page? && h[i + 1].off == h[i].off + FRAME_HDR
  }

  /** Write `j` undoes every frame from header offset `off` on: a new WAL header, or a header at or below it. */
  predicate UndoneBy(h: History, off: int, j: int)
    requires 0 <= j < |h|
  {
    h[j].Header? || (h[j].FrameHeader? && h[j].off <= off)
  }

  ghost predicate Survives(h: History, i: int) {
    FrameAt(h, i) && forall j :: i < j < |h| ==> !UndoneBy(h, h[i].off, j)
  }

  /** The last frame header whose page goes at `off`, -1 for none. */
  function LastHeader(h: History, off: int): (i: int)
    ensures -1 <= i < |h|
    ensures i >= 0 ==> h[i].FrameHeader? && h[i].off + FRAME_HDR == off
    decreases |h|
  {
    if h == [] then -1
    else
      var last := h[|h| - 1];
      if last.FrameHeader? && last.off + FRAME_HDR == off then |h| - 1 else LastHeader(h[..|h| - 1], off)
  }

  /** A frame whose page is at `off` was written and no later header undid it. */
  ghost predicate SurvivesAt(h: History, off: int) {
    Survives(h, LastHeader(h, off))
  }

  /** The page offsets of the frames no later header undid. */
  ghost function Surviving(h: History): (r: set<int>) {
    set i | 0 <= i < |h| && Survives(h, i) :: h[i].off + FRAME_HDR
  }

  /** A surviving frame is the last at its offset, since another header there would undo it. */
  lemma SurvivorIsLast(h: History, i: int)
    requires Survives(h, i)
    ensures LastHeader(h, h[i].off + FRAME_HDR) == i
    decreases |h|
  {
    var last := |h| - 1;
    if i + 1 == last {
      assert LastHeader(h[..last], h[i].off + FRAME_HDR) == i;
    } else {
      assert !UndoneBy(h, h[i].off, last);
      var h' := h[..last];
      assert Survives(h', i) by {
        forall j | i < j < |h'| ensures !UndoneBy(h', h'[i].off, j) {
          assert !UndoneBy(h, h[i].off, j);
        }
      }
      SurvivorIsLast(h', i);
    }
  }

  lemma SurvivingIs(h: History, off: int)
    ensures off in Surviving(h) <==> SurvivesAt(h, off)
  {
    if off in Surviving(h) {
      var i :| 0 <= i < |h| && Survives(h, i) && h[i].off + FRAME_HDR == off;
      SurvivorIsLast(h, i);
    }
  }

  function PageNumber(h: History, off: int): (p: int)
    requires LastHeader(h, off) >= 0
  {
    h[LastHeader(h, off)].pgno
  }

  /** The last page written at `off`: a page rewritten in place has its newest image. */
  function LastPage(h: History, off: int): (r: Option<seq<byte>>)
    decreases |h|
  {
    if h == [] then None
    else
      var last := h[|h| - 1];
      if last.Page? && last.off == off then Some(last.data) else LastPage(h[..|h| - 1], off)
  }

  /** Every surviving frame has a whole page. */
  ghost predicate Whole(h: History) {
    forall off :: SurvivesAt(h, off) ==> LastPage(h, off).Some? && |LastPage(h, off).value| == PAGE
  }

  ghost function ImageAt(h: History, off: int): (r: Image)
    requires Whole(h) && SurvivesAt(h, off)
  {
    LastPage(h, off).value
  }

  /** The frames at `order` written over the db file one by one, page 1 marked as on disk. */
  ghost function ReplayFrames(f: seq<byte>, h: History, order: seq<int>, lineage: Lineage): (r: seq<byte>)
    requires Whole(h) && forall k :: 0 <= k < |order| ==> SurvivesAt(h, order[k])
    decreases |order|
  {
    if order == [] then f
    else
      var off := order[|order| - 1];
      var p := PageNumber(h, off);
      WriteAt(ReplayFrames(f, h, order[..|order| - 1], lineage), PageOffset(p), OnDisk(p, ImageAt(h, off), lineage))
  }

  /**
   The db file after the transaction: its surviving frames in offset order, then cut or grown to
   the commit's size.
   */
  ghost function Replayed(f: seq<byte>, h: History, size: u32, lineage: Lineage): (r: seq<byte>)
    requires Whole(h)
  {
    var order := Ascending(Surviving(h));
    assert forall k :: 0 <= k < |order| ==> SurvivesAt(h, order[k]) by {
      forall k | 0 <= k < |order| ensures SurvivesAt(h, order[k]) {
        SurvivingIs(h, order[k]);
      }
    }
    SetLen(ReplayFrames(f, h, order, lineage), DbLen(size))
  }

  // ---------------------------------------------------------------------------------------------
  // A transaction's run: its raw writes, the refused ones never forwarded to the WAL.
  // ---------------------------------------------------------------------------------------------

  datatype Raw = Raw(off: int, data: seq<byte>)

  datatype Run = Run(txn: Txn, wal: seq<byte>, history: History)

  function Start(wal: seq<byte>): (s: Run) {
    Run(NEW, wal, [])
  }

  function Put(wal: seq<byte>, off: int, data: seq<byte>): (r: seq<byte>) {
    if off < 0 || data == [] then wal else WriteAt(wal, off, data)
  }

  function Next(s: Run, w: Raw, crc: Crc): (r: Run) {
    var shape := Classify(w.off, w.data);
    var taken := Take(s.txn, shape, crc);
    if taken.result.Err? then s
    else Run(taken.txn, Put(s.wal, w.off, w.data), s.history + [shape])
  }

  function Fed(s: Run, raws: seq<Raw>, crc: Crc): (r: Run)
    decreases |raws|
  {
    if raws == [] then s else Fed(Next(s, raws[0], crc), raws[1..], crc)
  }

  // ---------------------------------------------------------------------------------------------
  // What every write keeps.
  // ---------------------------------------------------------------------------------------------

  ghost predicate SameFrames(frames: map<int, Frame>, h: History) {
    && (forall off :: off in frames <==> SurvivesAt(h, off))
    && (forall off :: off in frames ==> frames[off].pgno == PageNumber(h, off) >= 1)
  }

  /** Each frame's page is in the WAL as it was last written, under the crc the transaction remembers. */
  predicate InWal(frames: map<int, Frame>, h: History, wal: seq<byte>, crc: Crc) {
    forall off :: off in frames ==>
                    && PageAt(off) && off + PAGE <= |wal|
                    && LastPage(h, off) == Some(wal[off..off + PAGE])
                    && frames[off].crc == crc(wal[off..off + PAGE])
  }

  predicate PendingIs(pending: Option<Pending>, frames: map<int, Frame>, h: History) {
    if pending.None? then h == [] || !h[|h| - 1].FrameHeader?
    else
      var p := pending.value;
      && h != [] && h[|h| - 1] == FrameHeader(p.off, p.pgno, p.commitSize)
      && FrameHeaderAt(p.off) && p.pgno >= 1
      && forall off :: off in frames ==> off < p.off + FRAME_HDR
  }

  ghost predicate Follows(s: Run, crc: Crc) {
    && s.txn.stage.Open?
    && SameFrames(s.txn.frames, s.history)
    && InWal(s.txn.frames, s.history, s.wal, crc)
    && PendingIs(s.txn.stage.pending, s.txn.frames, s.history)
  }

  lemma LastHeaderNext(h: History, w: WalWrite, off: int)
    ensures LastHeader(h + [w], off) == if w.FrameHeader? && w.off + FRAME_HDR == off then |h| else LastHeader(h, off)
  {
    assert (h + [w])[..|h|] == h;
  }

  lemma HeaderUndoesAll(h: History, w: WalWrite, off: int)
    requires w.Header?
    ensures !SurvivesAt(h + [w], off)
  {
    var h' := h + [w];
    var i := LastHeader(h', off);
    if FrameAt(h', i) {
      assert UndoneBy(h', h'[i].off, |h|);
    }
  }

  /** A write that is no page right after its header leaves frame `i` as it was, unless it undoes it. */
  lemma SurvivesNext(h: History, w: WalWrite, i: int)
    requires i + 1 < |h|
    ensures Survives(h + [w], i) <==> Survives(h, i) && !UndoneBy(h + [w], h[i].off, |h|)
  {
    var h' := h + [w];
    if Survives(h, i) && !UndoneBy(h', h[i].off, |h|) {
      forall j | i < j < |h'| ensures !UndoneBy(h', h'[i].off, j) {
        if j < |h| {
          assert !UndoneBy(h, h[i].off, j);
        }
      }
    }
    if Survives(h', i) {
      assert !UndoneBy(h', h'[i].off, |h|);
      forall j | i < j < |h| ensures !UndoneBy(h, h[i].off, j) {
        assert !UndoneBy(h', h'[i].off, j);
      }
    }
  }

  /** A frame header undoes the frames at or past it and adds none: its page is still to come. */
  lemma FrameHeaderUndoes(h: History, w: WalWrite, off: int)
    requires w.FrameHeader?
    ensures SurvivesAt(h + [w], off) <==> SurvivesAt(h, off) && off < w.off + FRAME_HDR
    ensures SurvivesAt(h + [w], off) ==> PageNumber(h + [w], off) == PageNumber(h, off)
  {
    LastHeaderNext(h, w, off);
    var i := LastHeader(h, off);
    if i >= 0 && i + 1 < |h| {
      SurvivesNext(h, w, i);
    }
  }

  /** A page undoes nothing, and completes a frame exactly when the write before it is its header. */
  lemma PageCompletes(h: History, w: WalWrite, off: int)
    requires w.Page?
    ensures SurvivesAt(h + [w], off) <==>
            || SurvivesAt(h, off)
            || (off == w.off && h != [] && h[|h| - 1].FrameHeader? && h[|h| - 1].off + FRAME_HDR == off)
    ensures SurvivesAt(h + [w], off) ==> LastHeader(h + [w], off) == LastHeader(h, off)
  {
    LastHeaderNext(h, w, off);
    var i := LastHeader(h, off);
    if i >= 0 && i + 1 < |h| {
      SurvivesNext(h, w, i);
    }
  }

  lemma LastPageNext(h: History, w: WalWrite, off: int)
    ensures LastPage(h + [w], off) == if w.Page? && w.off == off then Some(w.data) else LastPage(h, off)
  {
    assert (h + [w])[..|h|] == h;
  }

  /** A write apart from the page at `off` leaves it in the WAL. */
  lemma WalKeeps(wal: seq<byte>, at: nat, data: seq<byte>, off: nat)
    requires data != [] && off + PAGE <= |wal|
    requires off + PAGE <= at || at + |data| <= off
    ensures off + PAGE <= |WriteAt(wal, at, data)|
    ensures WriteAt(wal, at, data)[off..off + PAGE] == wal[off..off + PAGE]
  {
  }

  lemma WalHolds(wal: seq<byte>, at: nat, data: seq<byte>)
    requires data != []
    ensures at + |data| <= |WriteAt(wal, at, data)|
    ensures WriteAt(wal, at, data)[at..at + |data|] == data
  {
  }

  lemma NextHeader(s: Run, w: Raw, crc: Crc)
    requires Follows(s, crc) && Classify(w.off, w.data).Header? && Take(s.txn, Classify(w.off, w.data), crc).result.Ok?
    ensures Follows(Next(s, w, crc), crc)
  {
    forall off ensures !SurvivesAt(s.history + [Classify(w.off, w.data)], off) {
      HeaderUndoesAll(s.history, Classify(w.off, w.data), off);
    }
  }

  lemma FrameHeaderKeepsFrames(frames: map<int, Frame>, h: History, w: WalWrite)
    requires SameFrames(frames, h) && w.FrameHeader?
    ensures SameFrames(Rewound(frames, w.off), h + [w])
  {
    forall off
      ensures SurvivesAt(h + [w], off) <==> SurvivesAt(h, off) && off < w.off + FRAME_HDR
      ensures SurvivesAt(h + [w], off) ==> PageNumber(h + [w], off) == PageNumber(h, off)
    {
      FrameHeaderUndoes(h, w, off);
    }
  }

  lemma NextFrameHeader(s: Run, w: Raw, crc: Crc)
    requires Follows(s, crc) && Classify(w.off, w.data).FrameHeader?
    requires Take(s.txn, Classify(w.off, w.data), crc).result.Ok?
    ensures Follows(Next(s, w, crc), crc)
  {
    var shape := Classify(w.off, w.data);
    var frames := Rewound(s.txn.frames, w.off);
    var wal := WriteAt(s.wal, w.off, w.data);
    FrameHeaderKeepsFrames(s.txn.frames, s.history, shape);
    assert InWal(frames, s.history + [shape], wal, crc) by {
      forall off | off in frames
        ensures off + PAGE <= |wal| && wal[off..off + PAGE] == s.wal[off..off + PAGE]
        ensures LastPage(s.history + [shape], off) == LastPage(s.history, off)
      {
        FramesAreApart(off, w.off);
        WalKeeps(s.wal, w.off, w.data, off);
        LastPageNext(s.history, shape, off);
      }
    }
  }

  lemma PageInWal(s: Run, w: Raw, crc: Crc, frames: map<int, Frame>)
    requires Follows(s, crc) && Classify(w.off, w.data).Page?
    requires frames.Keys == s.txn.frames.Keys + {w.off}
    requires frames[w.off].crc == crc(w.data)
    requires forall off :: off in s.txn.frames && off != w.off ==> frames[off] == s.txn.frames[off]
    ensures InWal(frames, s.history + [Classify(w.off, w.data)], Put(s.wal, w.off, w.data), crc)
  {
    var shape := Classify(w.off, w.data);
    var wal := Put(s.wal, w.off, w.data);
    forall off | off in frames
      ensures PageAt(off) && off + PAGE <= |wal|
      ensures LastPage(s.history + [shape], off) == Some(wal[off..off + PAGE])
      ensures frames[off].crc == crc(wal[off..off + PAGE])
    {
      LastPageNext(s.history, shape, off);
      if off == w.off {
        WalHolds(s.wal, w.off, w.data);
      } else {
        FramesAreApart(off, w.off);
        WalKeeps(s.wal, w.off, w.data, off);
      }
    }
  }

  /** A page keeps every frame of the history, and adds the one whose header is the write before it. */
  lemma PageKeepsFrames(frames: map<int, Frame>, h: History, w: WalWrite, frames': map<int, Frame>)
    requires SameFrames(frames, h) && w.Page?
    requires frames'.Keys == frames.Keys + {w.off}
    requires forall off :: off in frames && off != w.off ==> frames'[off] == frames[off]
    requires if h != [] && h[|h| - 1].FrameHeader?
             then w.off !in frames && w.off == h[|h| - 1].off + FRAME_HDR
                  && h[|h| - 1].pgno >= 1 && frames'[w.off].pgno == h[|h| - 1].pgno
             else w.off in frames && frames'[w.off].pgno == frames[w.off].pgno
    ensures SameFrames(frames', h + [w])
  {
    forall off
      ensures off in frames' <==> SurvivesAt(h + [w], off)
      ensures off in frames' ==> frames'[off].pgno == PageNumber(h + [w], off) >= 1
    {
      PageCompletes(h, w, off);
    }
  }

  /** A page after its header adds its frame; the commit frame's page too, before it is forwarded. */
  lemma NextFrame(s: Run, w: Raw, crc: Crc)
    requires Follows(s, crc) && Classify(w.off, w.data).Page? && s.txn.stage.pending.Some?
    requires s.txn.stage.pending.value.off + FRAME_HDR == w.off
    ensures var p := s.txn.stage.pending.value;
            var frames := s.txn.frames[w.off := Frame(p.pgno, crc(w.data))];
            var h := s.history + [Classify(w.off, w.data)];
            && SameFrames(frames, h) && InWal(frames, h, Put(s.wal, w.off, w.data), crc)
            && forall off :: off in frames ==> off <= w.off
  {
    var p := s.txn.stage.pending.value;
    var frames := s.txn.frames[w.off := Frame(p.pgno, crc(w.data))];
    PageInWal(s, w, crc, frames);
    PageKeepsFrames(s.txn.frames, s.history, Classify(w.off, w.data), frames);
  }

  lemma NextRewrite(s: Run, w: Raw, crc: Crc)
    requires Follows(s, crc) && Classify(w.off, w.data).Page? && s.txn.stage.pending.None? && w.off in s.txn.frames
    ensures Follows(Next(s, w, crc), crc)
  {
    var frames := s.txn.frames[w.off := s.txn.frames[w.off].(crc := crc(w.data))];
    PageInWal(s, w, crc, frames);
    PageKeepsFrames(s.txn.frames, s.history, Classify(w.off, w.data), frames);
  }

  /** Every write of an open transaction, accepted or refused, keeps the frames, the WAL and the history in step. */
  lemma NextFollows(s: Run, w: Raw, crc: Crc)
    requires Follows(s, crc) && Next(s, w, crc).txn.stage.Open?
    ensures Follows(Next(s, w, crc), crc)
  {
    var shape := Classify(w.off, w.data);
    if Take(s.txn, shape, crc).result.Ok? {
      match shape {
        case Header(_) => NextHeader(s, w, crc);
        case FrameHeader(_, _, _) => NextFrameHeader(s, w, crc);
        case Page(_, _) =>
          if s.txn.stage.pending.Some? {
            NextFrame(s, w, crc);
          } else {
            NextRewrite(s, w, crc);
          }
      }
    }
  }

  /** Once committed, a transaction stays committed: no second commit point is ever reported. */
  lemma {:induction false} CommittedStays(s: Run, raws: seq<Raw>, crc: Crc)
    requires s.txn.stage.Committed?
    ensures Fed(s, raws, crc).txn == s.txn
    ensures forall w :: Take(Fed(s, raws, crc).txn, w, crc).result == Ok(None)
    decreases |raws|
  {
    if raws != [] {
      CommittedStays(Next(s, raws[0], crc), raws[1..], crc);
    }
  }

  lemma {:induction false} FedFollows(s: Run, raws: seq<Raw>, crc: Crc)
    requires Follows(s, crc) && Fed(s, raws, crc).txn.stage.Open?
    ensures Follows(Fed(s, raws, crc), crc)
    decreases |raws|
  {
    if raws != [] {
      var next := Next(s, raws[0], crc);
      if next.txn.stage.Committed? {
        CommittedStays(next, raws[1..], crc);
        assert false;
      }
      NextFollows(s, raws[0], crc);
      FedFollows(next, raws[1..], crc);
    }
  }

  // ---------------------------------------------------------------------------------------------
  // The record is the replay.
  // ---------------------------------------------------------------------------------------------

  /** The last frame of page `p` in `order`. */
  function Winner(h: History, order: seq<int>, p: int): (r: Option<int>)
    requires forall k :: 0 <= k < |order| ==> LastHeader(h, order[k]) >= 0
    ensures r.Some? ==> r.value in order && LastHeader(h, r.value) >= 0 && PageNumber(h, r.value) == p
    decreases |order|
  {
    if order == [] then None
    else
      var last := order[|order| - 1];
      if PageNumber(h, last) == p then Some(last) else Winner(h, order[..|order| - 1], p)
  }

  /** Byte `i` after the frames of `order`: the last frame of its page, else the old byte, else zero. */
  ghost function ReplayedByte(f: seq<byte>, h: History, order: seq<int>, lineage: Lineage, i: nat): (b: byte)
    requires Whole(h) && forall k :: 0 <= k < |order| ==> SurvivesAt(h, order[k])
  {
    var p := PageOf(i);
    var w := Winner(h, order, p);
    if w.Some? then OnDisk(p, ImageAt(h, w.value), lineage)[i - PageOffset(p)]
    else if i < |f| then f[i]
    else 0
  }

  /** One more frame: its page's bytes are its image's, the others stay. */
  lemma FrameWrites(g: seq<byte>, p: int, image: Image, i: nat)
    requires p >= 1
    ensures var r := WriteAt(g, PageOffset(p), image);
            && |g| <= |r|
            && (PageOf(i) == p ==> i < |r| && r[i] == image[i - PageOffset(p)])
            && (PageOf(i) != p && i < |r| ==> r[i] == if i < |g| then g[i] else 0)
  {
    FlushPoints.InPage(i, p);
  }

  lemma {:induction false} ReplayFramesAt(f: seq<byte>, h: History, order: seq<int>, lineage: Lineage, i: nat)
    requires Whole(h) && forall k :: 0 <= k < |order| ==> SurvivesAt(h, order[k]) && PageNumber(h, order[k]) >= 1
    ensures var r := ReplayFrames(f, h, order, lineage);
            && |f| <= |r|
            && (Winner(h, order, PageOf(i)).Some? ==> i < |r|)
            && (i < |r| ==> r[i] == ReplayedByte(f, h, order, lineage, i))
    decreases |order|
  {
    if order != [] {
      var last := order[|order| - 1];
      var before := order[..|order| - 1];
      var p := PageNumber(h, last);
      ReplayFramesAt(f, h, before, lineage, i);
      FrameWrites(ReplayFrames(f, h, before, lineage), p, OnDisk(p, ImageAt(h, last), lineage), i);
    }
  }

  lemma {:induction false} WinnerIsGreatest(h: History, order: seq<int>, p: int)
    requires StrictlyAscending(order) && forall k :: 0 <= k < |order| ==> LastHeader(h, order[k]) >= 0
    ensures var w := Winner(h, order, p);
            forall k :: 0 <= k < |order| && PageNumber(h, order[k]) == p ==> w.Some? && order[k] <= w.value
    decreases |order|
  {
    if order != [] {
      WinnerIsGreatest(h, order[..|order| - 1], p);
    }
  }

  /** The frame a page's final image is in, as the transaction's frames and as the history have it. */
  lemma WinnerIsLatest(frames: map<int, Frame>, h: History, p: int)
    requires SameFrames(frames, h)
    ensures var order := Ascending(frames.Keys);
            && (forall k :: 0 <= k < |order| ==> SurvivesAt(h, order[k]))
            && Winner(h, order, p)
               == if OffsetsOf(frames, p) == {} then None else Some(Greatest(OffsetsOf(frames, p)))
  {
    var order := Ascending(frames.Keys);
    WinnerIsGreatest(h, order, p);
    var w := Winner(h, order, p);
    forall off | off in OffsetsOf(frames, p) ensures w.Some? && off <= w.value {
      var k :| 0 <= k < |order| && order[k] == off;
    }
    if w.Some? {
      assert w.value in OffsetsOf(frames, p);
      GreatestIs(OffsetsOf(frames, p), w.value);
    }
  }

  /** The image a record holds for page `p`. */
  function Lookup(pages: seq<Entry>, p: int): (r: Option<Image>)
    decreases |pages|
  {
    if pages == [] then None
    else
      var later := Lookup(pages[1..], p);
      if later.Some? then later else if pages[0].pgno == p then Some(pages[0].image) else None
  }

  predicate AscendingPages(pages: seq<Entry>) {
    forall i, j :: 0 <= i < j < |pages| ==> pages[i].pgno < pages[j].pgno
  }

  lemma {:induction false} LookupFinds(pages: seq<Entry>, p: int)
    requires AscendingPages(pages)
    ensures forall k :: 0 <= k < |pages| && pages[k].pgno == p ==> Lookup(pages, p) == Some(pages[k].image)
    ensures Lookup(pages, p).Some? ==> exists k :: 0 <= k < |pages| && pages[k].pgno == p
    decreases |pages|
  {
    if pages != [] {
      LookupFinds(pages[1..], p);
      forall k | 0 <= k < |pages| && pages[k].pgno == p ensures Lookup(pages, p) == Some(pages[k].image) {
        if k > 0 {
          assert pages[1..][k - 1] == pages[k];
        }
      }
      if Lookup(pages[1..], p).Some? {
        var k :| 0 <= k < |pages[1..]| && pages[1..][k].pgno == p;
        assert pages[k + 1].pgno == p;
      }
    }
  }

  function PageEvents(pages: seq<Entry>): (r: seq<FlushPoints.Event>)
    requires forall k :: 0 <= k < |pages| ==> 0 <= pages[k].pgno < U32_LIMIT
    ensures |r| == |pages|
    ensures forall k :: 0 <= k < |r| ==> r[k] == FlushPoints.Page(pages[k].pgno, pages[k].image)
  {
    seq(|pages|, k requires 0 <= k < |pages| => FlushPoints.Page(pages[k].pgno, pages[k].image))
  }

  /** How materialization feeds a record to the applier: its size, then its pages. */
  function Commit(r: CommitRecord): (e: seq<FlushPoints.Event>)
    requires forall k :: 0 <= k < |r.pages| ==> 0 <= r.pages[k].pgno < U32_LIMIT
  {
    [FlushPoints.Begin(r.dbPagesAfter)] + PageEvents(r.pages)
  }

  lemma {:induction false} PageEventsAt(f: seq<byte>, pages: seq<Entry>, size: u32, lineage: Lineage, i: nat)
    requires |f| == DbLen(size) && i < |f|
    requires forall k :: 0 <= k < |pages| ==> 1 <= pages[k].pgno <= size
    ensures var r := FlushPoints.Direct(f, PageEvents(pages), lineage);
            && |r| == |f|
            && r[i] == (var p := PageOf(i);
                        var image := Lookup(pages, p);
                        if image.Some? then OnDisk(p, image.value, lineage)[i - PageOffset(p)] else f[i])
    decreases |pages|
  {
    if pages != [] {
      var e := pages[0];
      var next := WriteAt(f, PageOffset(e.pgno), OnDisk(e.pgno, e.image, lineage));
      assert |next| == |f|;
      FlushPoints.InPage(i, e.pgno);
      PageEventsAt(next, pages[1..], size, lineage, i);
      assert PageEvents(pages)[1..] == PageEvents(pages[1..]);
    }
  }

  /** A read of the WAL as the transaction's forwarded writes left it. */
  function ReadBackFrom(wal: seq<byte>): (r: ReadAt) {
    off => if 0 <= off && off + PAGE <= |wal| then Some(wal[off..off + PAGE]) else None
  }

  /** The final image of page `p`: that of its last surviving frame in offset order. */
  ghost function FinalImage(h: History, p: int): (r: Option<Image>)
    requires Whole(h)
  {
    SurvivingAll(h);
    var w := Winner(h, Ascending(Surviving(h)), p);
    if w.None? then None else Some(ImageAt(h, w.value))
  }

  lemma SurvivingAll(h: History)
    ensures var order := Ascending(Surviving(h)); forall k :: 0 <= k < |order| ==> SurvivesAt(h, order[k])
    ensures forall off :: off in Surviving(h) <==> SurvivesAt(h, off)
  {
    forall off ensures off in Surviving(h) <==> SurvivesAt(h, off) {
      SurvivingIs(h, off);
    }
  }

  /** The transaction at its commit point: its frames, the history with the commit frame's page, the WAL without it. */
  ghost predicate AtCommit(frames: map<int, Frame>, h: History, wal: seq<byte>, crc: Crc, point: CommitPoint,
                           last: Raw) {
    && SameFrames(frames, h) && Whole(h) && |last.data| == PAGE
    && last.off in frames && frames[last.off].pgno == point.pgno
    && LastPage(h, last.off) == Some(last.data)
    && (forall off :: off in frames ==> off <= last.off)
    && (forall off :: off in frames && off != last.off ==>
                        && 0 <= off && off + PAGE <= |wal| && LastPage(h, off) == Some(wal[off..off + PAGE])
                        && frames[off].crc == crc(wal[off..off + PAGE]))
  }

  lemma ReachesCommit(s: Run, last: Raw, crc: Crc, point: CommitPoint)
    requires Follows(s, crc)
    requires Take(s.txn, Classify(last.off, last.data), crc).result == Ok(Some(point))
    ensures AtCommit(Take(s.txn, Classify(last.off, last.data), crc).txn.frames,
                     s.history + [Classify(last.off, last.data)], s.wal, crc, point, last)
  {
    var shape := Classify(last.off, last.data);
    NextFrame(s, last, crc);
    var h := s.history + [shape];
    var frames := Take(s.txn, shape, crc).txn.frames;
    forall off | off in frames
      ensures LastPage(h, off) == if off == last.off then Some(last.data) else LastPage(s.history, off)
    {
      LastPageNext(s.history, shape, off);
    }
    assert forall off :: SurvivesAt(h, off) ==> off in frames;
  }

  /** With the WAL as written, no read back fails and none reads other bytes than were written. */
  lemma {:induction false} HonestReadsSucceed(frames: seq<FinalFrame>, wal: seq<byte>, crc: Crc)
    requires forall k :: 0 <= k < |frames| ==>
                           && 0 <= frames[k].off && frames[k].off + PAGE <= |wal|
                           && frames[k].crc == crc(wal[frames[k].off..frames[k].off + PAGE])
    ensures ReadFrames(frames, ReadBackFrom(wal), crc).Ok?
    decreases |frames|
  {
    if frames != [] {
      HonestReadsSucceed(frames[..|frames| - 1], wal, crc);
    }
  }

  /** An earlier frame of the record is in the WAL as it was last written. */
  lemma EarlierFrameHolds(frames: map<int, Frame>, h: History, wal: seq<byte>, crc: Crc, point: CommitPoint,
                          last: Raw, f: FinalFrame)
    requires AtCommit(frames, h, wal, crc, point, last)
    requires f.pgno != point.pgno && OffsetsOf(frames, f.pgno) != {} && f == LatestFrame(frames, f.pgno)
    ensures 0 <= f.off && f.off + PAGE <= |wal|
    ensures SurvivesAt(h, f.off) && ImageAt(h, f.off) == wal[f.off..f.off + PAGE]
    ensures f.crc == crc(wal[f.off..f.off + PAGE])
  {
    assert f.off in OffsetsOf(frames, f.pgno);
  }

  /** The frame's bytes are in the WAL as they were last written. */
  ghost predicate Held(f: FinalFrame, wal: seq<byte>, h: History)
    requires Whole(h)
  {
    && 0 <= f.off && f.off + PAGE <= |wal| && SurvivesAt(h, f.off)
    && ImageAt(h, f.off) == wal[f.off..f.off + PAGE]
  }

  /** The entries of frames read back: ascending, each as it was last written. */
  ghost predicate ReadAs(final: seq<FinalFrame>, earlier: seq<Entry>, h: History)
    requires Whole(h)
  {
    && |earlier| == |final| && AscendingPages(earlier)
    && (forall k :: 0 <= k < |final| ==>
                      SurvivesAt(h, final[k].off) && earlier[k] == Entry(final[k].pgno, ImageAt(h, final[k].off)))
  }

  lemma EarlierEntries(frames: map<int, Frame>, h: History, wal: seq<byte>, crc: Crc, point: CommitPoint, last: Raw,
                       final: seq<FinalFrame>)
    requires AtCommit(frames, h, wal, crc, point, last) && final == FinalFrames(frames, point.dbPagesAfter, point.pgno)
    ensures ReadFrames(final, ReadBackFrom(wal), crc).Ok?
    ensures ReadAs(final, ReadFrames(final, ReadBackFrom(wal), crc).value, h)
  {
    FinalFramesList(frames, point.dbPagesAfter, point.pgno);
    forall k | 0 <= k < |final|
      ensures Held(final[k], wal, h) && final[k].crc == crc(wal[final[k].off..final[k].off + PAGE])
    {
      EarlierFrameHolds(frames, h, wal, crc, point, last, final[k]);
    }
    HonestReadsSucceed(final, wal, crc);
    EntriesAre(final, wal, crc, h);
  }

  lemma EntriesAre(final: seq<FinalFrame>, wal: seq<byte>, crc: Crc, h: History)
    requires Whole(h) && ReadFrames(final, ReadBackFrom(wal), crc).Ok?
    requires forall j, k :: 0 <= j < k < |final| ==> final[j].pgno < final[k].pgno
    requires forall k :: 0 <= k < |final| ==> Held(final[k], wal, h)
    ensures ReadAs(final, ReadFrames(final, ReadBackFrom(wal), crc).value, h)
  {
    var earlier := ReadFrames(final, ReadBackFrom(wal), crc).value;
    forall k | 0 <= k < |final|
      ensures SurvivesAt(h, final[k].off) && earlier[k] == Entry(final[k].pgno, ImageAt(h, final[k].off))
    {
      assert Held(final[k], wal, h);
    }
  }

  lemma FinalImageIs(frames: map<int, Frame>, h: History, p: int)
    requires SameFrames(frames, h) && Whole(h)
    ensures FinalImage(h, p) == if OffsetsOf(frames, p) == {} then None
                                else Some(LastPage(h, Greatest(OffsetsOf(frames, p))).value)
  {
    SurvivingAll(h);
    SameInts(Surviving(h), frames.Keys);
    WinnerIsLatest(frames, h, p);
  }

  /** The commit frame is the last of its page: its page is in the buffer. */
  lemma CommitImageIs(frames: map<int, Frame>, h: History, wal: seq<byte>, crc: Crc, point: CommitPoint, last: Raw)
    requires AtCommit(frames, h, wal, crc, point, last)
    ensures point.pgno >= 1 && FinalImage(h, point.pgno) == Some(last.data)
  {
    FinalImageIs(frames, h, point.pgno);
    assert last.off in OffsetsOf(frames, point.pgno);
    GreatestIs(OffsetsOf(frames, point.pgno), last.off);
  }

  /** The earlier entries are the final images of the pages up to the size, but the commit frame's. */
  ghost predicate EarlierAre(earlier: seq<Entry>, h: History, point: CommitPoint)
    requires Whole(h)
  {
    && AscendingPages(earlier)
    && (forall k :: 0 <= k < |earlier| ==>
                      && 1 <= earlier[k].pgno <= point.dbPagesAfter && earlier[k].pgno != point.pgno
                      && FinalImage(h, earlier[k].pgno) == Some(earlier[k].image))
    && (forall p :: 1 <= p <= point.dbPagesAfter && p != point.pgno && FinalImage(h, p).Some? ==>
                      exists k :: 0 <= k < |earlier| && earlier[k].pgno == p)
  }

  lemma EarlierFound(frames: map<int, Frame>, h: History, point: CommitPoint, final: seq<FinalFrame>,
                     earlier: seq<Entry>)
    requires SameFrames(frames, h) && Whole(h)
    requires final == FinalFrames(frames, point.dbPagesAfter, point.pgno) && |earlier| == |final|
    requires AscendingPages(earlier)
    requires forall k :: 0 <= k < |final| ==>
                           SurvivesAt(h, final[k].off) && earlier[k] == Entry(final[k].pgno, ImageAt(h, final[k].off))
    ensures EarlierAre(earlier, h, point)
  {
    FinalFramesList(frames, point.dbPagesAfter, point.pgno);
    forall k | 0 <= k < |earlier| ensures FinalImage(h, earlier[k].pgno) == Some(earlier[k].image) {
      FinalImageIs(frames, h, earlier[k].pgno);
    }
    forall p | 1 <= p <= point.dbPagesAfter && p != point.pgno && FinalImage(h, p).Some?
      ensures exists k :: 0 <= k < |earlier| && earlier[k].pgno == p
    {
      FinalImageIs(frames, h, p);
      var k :| 0 <= k < |final| && final[k].pgno == p;
      assert earlier[k].pgno == p;
    }
  }

  lemma InsertAscends(earlier: seq<Entry>, point: CommitPoint, image: Image)
    requires AscendingPages(earlier) && forall k :: 0 <= k < |earlier| ==> earlier[k].pgno != point.pgno
    ensures AscendingPages(RecordPages(earlier, point, image))
  {
  }

  lemma InsertHolds(earlier: seq<Entry>, point: CommitPoint, image: Image)
    ensures var pages := RecordPages(earlier, point, image);
            && (forall k :: 0 <= k < |earlier| ==> earlier[k] in pages)
            && (point.pgno <= point.dbPagesAfter ==> Entry(point.pgno, image) in pages)
            && (forall k :: 0 <= k < |pages| ==>
                              pages[k] in earlier
                                || (pages[k] == Entry(point.pgno, image) && point.pgno <= point.dbPagesAfter))
  {
    if point.pgno <= point.dbPagesAfter {
      var at := PartitionPoint(earlier, point.pgno);
      var pages := RecordPages(earlier, point, image);
      forall k | 0 <= k < |earlier| ensures earlier[k] in pages {
        assert if k < at then pages[k] == earlier[k] else pages[k + 1] == earlier[k];
      }
      assert pages[at] == Entry(point.pgno, image);
    }
  }

  lemma LookupOf(pages: seq<Entry>, e: Entry)
    requires AscendingPages(pages) && e in pages
    ensures Lookup(pages, e.pgno) == Some(e.image)
  {
    var k :| 0 <= k < |pages| && pages[k] == e;
    LookupFinds(pages, e.pgno);
  }

  lemma LookupInserted(earlier: seq<Entry>, point: CommitPoint, image: Image, p: int, want: Option<Image>)
    requires AscendingPages(earlier) && forall k :: 0 <= k < |earlier| ==> earlier[k].pgno != point.pgno
    requires p <= point.dbPagesAfter
    requires if p == point.pgno then want == Some(image)
             else if want.Some? then Entry(p, want.value) in earlier
             else forall k :: 0 <= k < |earlier| ==> earlier[k].pgno != p
    ensures Lookup(RecordPages(earlier, point, image), p) == want
  {
    InsertAscends(earlier, point, image);
    InsertHolds(earlier, point, image);
    var pages := RecordPages(earlier, point, image);
    if want.Some? {
      LookupOf(pages, Entry(p, want.value));
    } else {
      LookupFinds(pages, p);
    }
  }

  lemma LookupIsFinal(earlier: seq<Entry>, h: History, point: CommitPoint, image: Image, p: int)
    requires Whole(h) && EarlierAre(earlier, h, point) && FinalImage(h, point.pgno) == Some(image)
    requires 1 <= p <= point.dbPagesAfter
    ensures Lookup(RecordPages(earlier, point, image), p) == FinalImage(h, p)
  {
    var want := FinalImage(h, p);
    if p != point.pgno && want.Some? {
      var j :| 0 <= j < |earlier| && earlier[j].pgno == p;
      assert earlier[j] == Entry(p, want.value);
    }
    LookupInserted(earlier, point, image, p, want);
  }

  /** A record's pages: strictly ascending, within the size, each page's final image. */
  ghost predicate RecordIs(pages: seq<Entry>, h: History, size: u32)
    requires Whole(h)
  {
    && AscendingPages(pages)
    && (forall k :: 0 <= k < |pages| ==> 1 <= pages[k].pgno <= size)
    && (forall p :: 1 <= p <= size ==> Lookup(pages, p) == FinalImage(h, p))
  }

  lemma InsertedIs(earlier: seq<Entry>, h: History, point: CommitPoint, image: Image)
    requires Whole(h) && EarlierAre(earlier, h, point) && point.pgno >= 1 && FinalImage(h, point.pgno) == Some(image)
    ensures RecordIs(RecordPages(earlier, point, image), h, point.dbPagesAfter)
  {
    InsertAscends(earlier, point, image);
    InsertHolds(earlier, point, image);
    var pages := RecordPages(earlier, point, image);
    forall k | 0 <= k < |pages| ensures 1 <= pages[k].pgno <= point.dbPagesAfter {
      if pages[k] in earlier {
        var j :| 0 <= j < |earlier| && earlier[j] == pages[k];
      }
    }
    forall p | 1 <= p <= point.dbPagesAfter ensures Lookup(pages, p) == FinalImage(h, p) {
      LookupIsFinal(earlier, h, point, image, p);
    }
  }

  /** The pages a capture reads back and inserts, as many as were counted beforehand. */
  lemma RecordPagesAre(frames: map<int, Frame>, h: History, wal: seq<byte>, crc: Crc, point: CommitPoint, last: Raw)
    requires AtCommit(frames, h, wal, crc, point, last)
    ensures var earlier := ReadFrames(FinalFrames(frames, point.dbPagesAfter, point.pgno), ReadBackFrom(wal), crc);
            && earlier.Ok?
            && RecordIs(RecordPages(earlier.value, point, last.data), h, point.dbPagesAfter)
            && |RecordPages(earlier.value, point, last.data)| == Pages(frames, point)
  {
    var final := FinalFrames(frames, point.dbPagesAfter, point.pgno);
    EarlierEntries(frames, h, wal, crc, point, last, final);
    CommitImageIs(frames, h, wal, crc, point, last);
    var earlier := ReadFrames(final, ReadBackFrom(wal), crc).value;
    EarlierFound(frames, h, point, final, earlier);
    InsertedIs(earlier, h, point, last.data);
  }

  /** Byte `i` after a commit whose final image of its page is `image`, if it has one. */
  function CommittedByte(f: seq<byte>, image: Option<Image>, lineage: Lineage, i: nat): (b: byte) {
    if image.Some? then OnDisk(PageOf(i), image.value, lineage)[i - PageOffset(PageOf(i))]
    else if i < |f| then f[i]
    else 0
  }

  /** The db file a commit leaves, byte by byte: each page's final image, else what was there, else zero. */
  lemma ReplayedAt(f: seq<byte>, h: History, size: u32, lineage: Lineage, i: nat)
    requires Whole(h) && i < DbLen(size)
    requires forall off :: SurvivesAt(h, off) ==> PageNumber(h, off) >= 1
    ensures Replayed(f, h, size, lineage)[i]
         == CommittedByte(f, FinalImage(h, PageOf(i)), lineage, i)
  {
    SurvivingAll(h);
    ReplayFramesAt(f, h, Ascending(Surviving(h)), lineage, i);
  }

  lemma CommitAt(f: seq<byte>, r: CommitRecord, lineage: Lineage, i: nat)
    requires i < DbLen(r.dbPagesAfter)
    requires forall k :: 0 <= k < |r.pages| ==> 1 <= r.pages[k].pgno <= r.dbPagesAfter
    ensures var out := FlushPoints.Direct(f, Commit(r), lineage);
            && |out| == DbLen(r.dbPagesAfter)
            && out[i] == CommittedByte(f, Lookup(r.pages, PageOf(i)), lineage, i)
  {
    assert Commit(r)[1..] == PageEvents(r.pages);
    PageEventsAt(SetLen(f, DbLen(r.dbPagesAfter)), r.pages, r.dbPagesAfter, lineage, i);
  }

  lemma {:induction false} CommitWithinSizes(pages: seq<Entry>, size: u32)
    requires forall k :: 0 <= k < |pages| ==> 1 <= pages[k].pgno <= size
    ensures FlushPoints.WithinSizes(PageEvents(pages), Some(size))
    decreases |pages|
  {
    if pages != [] {
      CommitWithinSizes(pages[1..], size);
      assert PageEvents(pages)[1..] == PageEvents(pages[1..]);
    }
  }

  /**
   For every sequence of WAL writes of a transaction, whatever was in the WAL before, that ends in a
   commit point: the capture, its frames read back from the WAL, fails only for a page 1 that leaves
   WAL mode or 4096-byte pages, and its record is strictly ascending, within the commit's size and
   as long as counted before anything was read back. Its sizes and pages written as they come leave,
   over any db file, exactly the file that replaying the frames no later header undid leaves.
   */
  lemma CommitIsReplay(wal: seq<byte>, raws: seq<Raw>, last: Raw, crc: Crc, point: CommitPoint)
    requires var s := Fed(Start(wal), raws, crc);
             s.txn.stage.Open? && Take(s.txn, Classify(last.off, last.data), crc).result == Ok(Some(point))
    ensures var s := Fed(Start(wal), raws, crc);
            var h := s.history + [Classify(last.off, last.data)];
            var frames := Take(s.txn, Classify(last.off, last.data), crc).txn.frames;
            var captured := CaptureOf(frames, point, last.data, ReadBackFrom(s.wal), crc);
            && Whole(h)
            && (forall off :: off in frames ==> off <= last.off)
            && (captured.Ok? <==>
                (point.dbPagesAfter >= 1 && FinalImage(h, 1).Some? ==> CheckPage1(FinalImage(h, 1).value).Ok?))
            && (captured.Ok? ==>
                  var r := captured.value;
                  && r.dbPagesAfter == point.dbPagesAfter
                  && |r.pages| == Pages(frames, point)
                  && RecordIs(r.pages, h, r.dbPagesAfter)
                  && forall f, lineage :: FlushPoints.Direct(f, Commit(r), lineage)
                      == Replayed(f, h, r.dbPagesAfter, lineage))
  {
    var s := Fed(Start(wal), raws, crc);
    FedFollows(Start(wal), raws, crc);
    ReachesCommit(s, last, crc, point);
    var h := s.history + [Classify(last.off, last.data)];
    var frames := Take(s.txn, Classify(last.off, last.data), crc).txn.frames;
    CaptureIs(frames, h, s.wal, crc, point, last);
    var captured := CaptureOf(frames, point, last.data, ReadBackFrom(s.wal), crc);
    if captured.Ok? {
      forall f, lineage
        ensures FlushPoints.Direct(f, Commit(captured.value), lineage) == Replayed(f, h, point.dbPagesAfter, lineage)
      {
        SameFile(f, captured.value, h, lineage);
      }
    }
  }

  /** Page 1 is the first of a record that has it, so the check of the first entry is the check of page 1. */
  lemma CaptureIs(frames: map<int, Frame>, h: History, wal: seq<byte>, crc: Crc, point: CommitPoint, last: Raw)
    requires AtCommit(frames, h, wal, crc, point, last)
    ensures var captured := CaptureOf(frames, point, last.data, ReadBackFrom(wal), crc);
            && (captured.Ok? <==>
                (point.dbPagesAfter >= 1 && FinalImage(h, 1).Some? ==> CheckPage1(FinalImage(h, 1).value).Ok?))
            && (captured.Ok? ==>
                  && captured.value.dbPagesAfter == point.dbPagesAfter
                  && RecordIs(captured.value.pages, h, point.dbPagesAfter)
                  && |captured.value.pages| == Pages(frames, point))
  {
    RecordPagesAre(frames, h, wal, crc, point, last);
    var earlier := ReadFrames(FinalFrames(frames, point.dbPagesAfter, point.pgno), ReadBackFrom(wal), crc).value;
    var pages := RecordPages(earlier, point, last.data);
    LookupFinds(pages, 1);
    if point.dbPagesAfter >= 1 && FinalImage(h, 1).Some? {
      var k :| 0 <= k < |pages| && pages[k].pgno == 1;
      assert k == 0;
    }
  }

  lemma SameFile(f: seq<byte>, r: CommitRecord, h: History, lineage: Lineage)
    requires Whole(h) && forall off :: SurvivesAt(h, off) ==> PageNumber(h, off) >= 1
    requires RecordIs(r.pages, h, r.dbPagesAfter)
    ensures FlushPoints.Direct(f, Commit(r), lineage) == Replayed(f, h, r.dbPagesAfter, lineage)
  {
    var out := FlushPoints.Direct(f, Commit(r), lineage);
    var expected := Replayed(f, h, r.dbPagesAfter, lineage);
    CommitLen(f, r, lineage);
    forall i: nat | i < DbLen(r.dbPagesAfter) ensures out[i] == expected[i] {
      CommitAt(f, r, lineage, i);
      ReplayedAt(f, h, r.dbPagesAfter, lineage, i);
    }
  }

  lemma CommitLen(f: seq<byte>, r: CommitRecord, lineage: Lineage)
    requires forall k :: 0 <= k < |r.pages| ==> 1 <= r.pages[k].pgno <= r.dbPagesAfter
    ensures |FlushPoints.Direct(f, Commit(r), lineage)| == DbLen(r.dbPagesAfter)
  {
    if r.pages == [] {
      assert Commit(r)[1..] == [];
    } else {
      assert 1 <= r.pages[0].pgno;
      CommitAt(f, r, lineage, 0);
    }
  }
}

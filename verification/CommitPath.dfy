/** A commit from its WAL writes to the db file, through the capture's record and a batch flushed anywhere. */
module CommitPath {
  import opened Common
  import opened Files
  import opened Marker
  import opened Wal
  import opened Capture
  import opened Replay
  import Applier
  import FlushPoints

  // ---------------------------------------------------------------------------------------------
  // A stream with its flushes.
  // ---------------------------------------------------------------------------------------------

  lemma {:induction false} WithinWithFlushes(events: seq<FlushPoints.Event>, size: Option<u32>)
    requires FlushPoints.WithinSizes(FlushPoints.Unflushed(events), size)
    ensures FlushPoints.WithinSizes(events, size)
    decreases |events|
  {
    if events != [] {
      var rest := FlushPoints.Unflushed(events[1..]);
      assert ([events[0]] + rest)[1..] == rest;
      match events[0]
      case Begin(n) => WithinWithFlushes(events[1..], Some(n));
      case Page(_, _) => WithinWithFlushes(events[1..], size);
      case Flush => WithinWithFlushes(events[1..], size);
    }
  }

  /** Flushes aside, a stream's events are the same. */
  lemma {:induction false} SameEvents(events: seq<FlushPoints.Event>)
    ensures forall e :: e in FlushPoints.Unflushed(events) <==> e in events && !e.Flush?
    decreases |events|
  {
    if events != [] {
      SameEvents(events[1..]);
      assert events == [events[0]] + events[1..];
    }
  }

  lemma {:induction false} UnflushedLast(events: seq<FlushPoints.Event>)
    ensures FlushPoints.Unflushed(events + [FlushPoints.Flush]) == FlushPoints.Unflushed(events)
    decreases |events|
  {
    var all := events + [FlushPoints.Flush];
    if events == [] {
      assert all[1..] == [];
    } else {
      UnflushedLast(events[1..]);
      assert all[1..] == events[1..] + [FlushPoints.Flush];
    }
  }

  /** After a last flush the file is settled. */
  lemma {:induction false} FlushedLast(w: FlushPoints.World, events: seq<FlushPoints.Event>, lineage: Lineage)
    requires FlushPoints.Run(w, events + [FlushPoints.Flush], lineage).Some?
    ensures var r := FlushPoints.Run(w, events + [FlushPoints.Flush], lineage).value;
            r.batch.minSize.None? && FlushPoints.Settled(r, lineage) == r.file
    decreases |events|
  {
    var all := events + [FlushPoints.Flush];
    var next := FlushPoints.Step(w, all[0], lineage).value;
    if events == [] {
      assert all[1..] == [];
    } else {
      assert all[1..] == events[1..] + [FlushPoints.Flush];
      FlushedLast(next, events[1..], lineage);
    }
  }

  // ---------------------------------------------------------------------------------------------
  // A page 1 the applier refuses.
  // ---------------------------------------------------------------------------------------------

  /** The rest of a commit, in which page 1 is only ever `image`. */
  predicate OnlyPageOne(events: seq<FlushPoints.Event>, image: Image) {
    forall e :: e in events ==> !e.Begin? && (e.Page? && e.pgno == 1 ==> e.image == image)
  }

  lemma {:induction false} RefusedLater(w: FlushPoints.World, events: seq<FlushPoints.Event>, image: Image,
                                        lineage: Lineage)
    requires OnlyPageOne(events, image) && !HasMagic(image)
    requires w.batch.minSize.Some? && w.batch.size.Some? && 1 in w.batch.pages && w.batch.pages[1] == image
    ensures FlushPoints.Run(w, events + [FlushPoints.Flush], lineage).None?
    decreases |events|
  {
    var all := events + [FlushPoints.Flush];
    if events != [] && events[0].Page? {
      assert all[1..] == events[1..] + [FlushPoints.Flush];
      assert events[0] in events;
      RefusedLater(FlushPoints.Step(w, all[0], lineage).value, events[1..], image, lineage);
    } else if events != [] {
      assert events[0] in events;
    }
  }

  lemma {:induction false} RefusedFrom(w: FlushPoints.World, events: seq<FlushPoints.Event>, image: Image,
                                       lineage: Lineage)
    requires OnlyPageOne(events, image) && !HasMagic(image) && FlushPoints.Page(1, image) in events
    requires w.batch.size.Some?
    ensures FlushPoints.Run(w, events + [FlushPoints.Flush], lineage).None?
    decreases |events|
  {
    var all := events + [FlushPoints.Flush];
    assert all[1..] == events[1..] + [FlushPoints.Flush];
    assert events[0] in events && events == [events[0]] + events[1..];
    var next := FlushPoints.Step(w, all[0], lineage);
    if next.Some? {
      if events[0] == FlushPoints.Page(1, image) {
        RefusedLater(next.value, events[1..], image, lineage);
      } else {
        RefusedFrom(next.value, events[1..], image, lineage);
      }
    }
  }

  lemma {:induction false} RefusedCommit(w: FlushPoints.World, events: seq<FlushPoints.Event>, n: u32,
                                         pages: seq<FlushPoints.Event>, image: Image, lineage: Lineage)
    requires FlushPoints.Unflushed(events) == [FlushPoints.Begin(n)] + pages
    requires OnlyPageOne(pages, image) && !HasMagic(image) && FlushPoints.Page(1, image) in pages
    ensures FlushPoints.Run(w, events + [FlushPoints.Flush], lineage).None?
    decreases |events|
  {
    var all := events + [FlushPoints.Flush];
    assert all[1..] == events[1..] + [FlushPoints.Flush];
    var next := FlushPoints.Step(w, all[0], lineage);
    if events[0].Flush? {
      if next.Some? {
        RefusedCommit(next.value, events[1..], n, pages, image, lineage);
      }
    } else {
      assert FlushPoints.Unflushed(events)[1..] == FlushPoints.Unflushed(events[1..]) == pages;
      SameEvents(events[1..]);
      RefusedFrom(next.value, events[1..], image, lineage);
    }
  }

  // ---------------------------------------------------------------------------------------------
  // The whole path.
  // ---------------------------------------------------------------------------------------------

  /** The final page 1 of a commit, if it has one, is a SQLite database's. */
  ghost predicate PageOneIsSqlite(h: History, size: u32)
    requires Whole(h)
  {
    size >= 1 && FinalImage(h, 1).Some? ==> HasMagic(FinalImage(h, 1).value)
  }

  /** The page 1 events of a record are its entry for page 1. */
  lemma PageOneEvents(r: CommitRecord, h: History)
    requires Whole(h) && RecordIs(r.pages, h, r.dbPagesAfter)
    ensures forall e :: e in PageEvents(r.pages) && e.pgno == 1 ==>
                          r.dbPagesAfter >= 1 && FinalImage(h, 1) == Some(e.image)
    ensures r.dbPagesAfter >= 1 && FinalImage(h, 1).Some? ==>
              FlushPoints.Page(1, FinalImage(h, 1).value) in PageEvents(r.pages)
  {
    var events := PageEvents(r.pages);
    forall e | e in events && e.pgno == 1 ensures r.dbPagesAfter >= 1 && FinalImage(h, 1) == Some(e.image) {
      var k :| 0 <= k < |events| && events[k] == e;
      LookupOf(r.pages, r.pages[k]);
    }
    if r.dbPagesAfter >= 1 && FinalImage(h, 1).Some? {
      LookupFinds(r.pages, 1);
      var k :| 0 <= k < |r.pages| && r.pages[k].pgno == 1;
      LookupOf(r.pages, r.pages[k]);
      assert events[k] in events;
    }
  }

  predicate PageOnesFit(events: seq<FlushPoints.Event>) {
    forall e :: e in events && e.Page? && e.pgno == 1 ==> HasMagic(e.image)
  }

  lemma CommitPageOnes(r: CommitRecord, h: History)
    requires Whole(h) && RecordIs(r.pages, h, r.dbPagesAfter) && PageOneIsSqlite(h, r.dbPagesAfter)
    ensures PageOnesFit(Commit(r))
  {
    PageOneEvents(r, h);
    forall e | e in Commit(r) && e.Page? && e.pgno == 1 ensures HasMagic(e.image) {
      assert e in PageEvents(r.pages);
    }
  }

  lemma SqliteFlushes(f: seq<byte>, events: seq<FlushPoints.Event>, lineage: Lineage)
    requires PageOnesFit(FlushPoints.Unflushed(events))
    ensures FlushPoints.Run(FlushPoints.World(f, Applier.EMPTY), events + [FlushPoints.Flush], lineage).Some?
  {
    var all := events + [FlushPoints.Flush];
    SameEvents(events);
    forall i | 0 <= i < |all| && all[i].Page? && all[i].pgno == 1 ensures HasMagic(all[i].image) {
      assert all[i] in events;
    }
    FlushPoints.SqliteStreamsRun(FlushPoints.World(f, Applier.EMPTY), all, lineage);
  }

  /** No flush of a record is refused exactly when its page 1, if it has one, is a SQLite database's. */
  lemma FlushesExactly(f: seq<byte>, r: CommitRecord, h: History, events: seq<FlushPoints.Event>, lineage: Lineage)
    requires Whole(h) && RecordIs(r.pages, h, r.dbPagesAfter) && FlushPoints.Unflushed(events) == Commit(r)
    ensures FlushPoints.Run(FlushPoints.World(f, Applier.EMPTY), events + [FlushPoints.Flush], lineage).Some?
            <==> PageOneIsSqlite(h, r.dbPagesAfter)
  {
    if PageOneIsSqlite(h, r.dbPagesAfter) {
      CommitPageOnes(r, h);
      SqliteFlushes(f, events, lineage);
    } else {
      PageOneEvents(r, h);
      var image := FinalImage(h, 1).value;
      RefusedCommit(FlushPoints.World(f, Applier.EMPTY), events, r.dbPagesAfter, PageEvents(r.pages), image, lineage);
    }
  }

  /** The record of a commit, fed to a batch and flushed anywhere and at its end, leaves the directly written file. */
  lemma FlushedIsDirect(f: seq<byte>, r: CommitRecord, events: seq<FlushPoints.Event>, lineage: Lineage)
    requires forall k :: 0 <= k < |r.pages| ==> 1 <= r.pages[k].pgno <= r.dbPagesAfter
    requires FlushPoints.Unflushed(events) == Commit(r)
    requires FlushPoints.Run(FlushPoints.World(f, Applier.EMPTY), events + [FlushPoints.Flush], lineage).Some?
    ensures FlushPoints.Run(FlushPoints.World(f, Applier.EMPTY), events + [FlushPoints.Flush], lineage).value.file
         == FlushPoints.Direct(f, Commit(r), lineage)
  {
    var all := events + [FlushPoints.Flush];
    UnflushedLast(events);
    CommitWithinSizes(r.pages, r.dbPagesAfter);
    assert Commit(r)[1..] == PageEvents(r.pages);
    WithinWithFlushes(all, None);
    FlushPoints.FlushPointsDoNotMatter(f, all, lineage);
    FlushPoints.DirectIgnoresFlushes(f, all, lineage);
    FlushedLast(FlushPoints.World(f, Applier.EMPTY), events, lineage);
  }

  /** A record's size and pages, with flushes anywhere between. */
  predicate Feeds(events: seq<FlushPoints.Event>, r: CommitRecord) {
    (forall k :: 0 <= k < |r.pages| ==> 0 <= r.pages[k].pgno < U32_LIMIT) && FlushPoints.Unflushed(events) == Commit(r)
  }

  /**
   From the WAL to the file: for every sequence of WAL writes that ends in a commit point and whose
   capture succeeds, the record fed to a batch, flushed anywhere and at its end, is refused exactly
   when the commit's final page 1 is no SQLite database's, which the capture does not check; and
   otherwise leaves, over any db file, the file that replaying the surviving frames leaves.
   */
  lemma CommitReachesTheFile(wal: seq<byte>, raws: seq<Raw>, last: Raw, crc: Crc, point: CommitPoint,
                             f: seq<byte>, events: seq<FlushPoints.Event>, lineage: Lineage)
    requires var s := Fed(Start(wal), raws, crc);
             s.txn.stage.Open? && Take(s.txn, Classify(last.off, last.data), crc).result == Ok(Some(point))
    requires var s := Fed(Start(wal), raws, crc);
             var frames := Take(s.txn, Classify(last.off, last.data), crc).txn.frames;
             var captured := CaptureOf(frames, point, last.data, ReadBackFrom(s.wal), crc);
             captured.Ok? && Feeds(events, captured.value)
    ensures var s := Fed(Start(wal), raws, crc);
            var h := s.history + [Classify(last.off, last.data)];
            var ran := FlushPoints.Run(FlushPoints.World(f, Applier.EMPTY), events + [FlushPoints.Flush], lineage);
            && Whole(h)
            && (ran.Some? <==> PageOneIsSqlite(h, point.dbPagesAfter))
            && (ran.Some? ==> ran.value.file == Replayed(f, h, point.dbPagesAfter, lineage))
  {
    CommitIsReplay(wal, raws, last, crc, point);
    var s := Fed(Start(wal), raws, crc);
    var h := s.history + [Classify(last.off, last.data)];
    var frames := Take(s.txn, Classify(last.off, last.data), crc).txn.frames;
    var r := CaptureOf(frames, point, last.data, ReadBackFrom(s.wal), crc).value;
    FlushesExactly(f, r, h, events, lineage);
    if PageOneIsSqlite(h, point.dbPagesAfter) {
      FlushedIsDirect(f, r, events, lineage);
    }
  }

  // ---------------------------------------------------------------------------------------------
  // A refused commit is possible.
  // ---------------------------------------------------------------------------------------------

  /** The header of a frame that commits page 1 as the whole database. */
  const COMMITS_PAGE_ONE: seq<byte> := [0, 0, 0, 1, 0, 0, 0, 1] + seq(16, i => 0)

  /** A page 1 the capture's check lets through and the applier refuses. */
  predicate LetThrough(image: Image) {
    CheckPage1(image).Ok? && !HasMagic(image)
  }

  /** One such: 4096-byte pages in WAL mode, and no magic. */
  function NoMagic(): (image: Image)
    ensures LetThrough(image)
  {
    var image := seq(16, i => 0) + [16, 0, 2, 2] + seq(PAGE - 20, i => 0);
    assert image[..LEN][0] == 0;
    image
  }

  /** A transaction's first frame, page 1 and its commit at once: the record is that page alone. */
  lemma OnePageRecord(wal: seq<byte>, image: Image, crc: Crc)
    requires LetThrough(image)
    ensures var s := Fed(Start(wal), [Raw(WAL_HDR, COMMITS_PAGE_ONE)], crc);
            var taken := Take(s.txn, Classify(FIRST_PAGE, image), crc);
            var captured := CaptureOf(taken.txn.frames, CommitPoint(1, 1), image, ReadBackFrom(s.wal), crc);
            && s.txn.stage.Open? && taken.result == Ok(Some(CommitPoint(1, 1)))
            && captured == Ok(CommitRecord(1, [Entry(1, image)]))
  {
    var first := Raw(WAL_HDR, COMMITS_PAGE_ONE);
    var s := Fed(Start(wal), [first], crc);
    assert [first][1..] == [];
    assert Classify(first.off, first.data) == FrameHeader(WAL_HDR, 1, 1);
    var frames := Take(s.txn, Classify(FIRST_PAGE, image), crc).txn.frames;
    NoInts(EarlierPages(frames, 1, 1));
    assert RecordPages([], CommitPoint(1, 1), image) == [Entry(1, image)];
  }

  /**
   Over any WAL and any db file, a first frame that commits such a page 1 is a commit point, its
   capture succeeds, and the flush of its record is refused.
   */
  lemma RefusalReached(wal: seq<byte>, image: Image, crc: Crc, f: seq<byte>, lineage: Lineage)
    requires LetThrough(image)
    ensures var s := Fed(Start(wal), [Raw(WAL_HDR, COMMITS_PAGE_ONE)], crc);
            var taken := Take(s.txn, Classify(FIRST_PAGE, image), crc);
            var captured := CaptureOf(taken.txn.frames, CommitPoint(1, 1), image, ReadBackFrom(s.wal), crc);
            var h := s.history + [Classify(FIRST_PAGE, image)];
            && s.txn.stage.Open? && taken.result == Ok(Some(CommitPoint(1, 1)))
            && captured.Ok? && Feeds(Commit(CommitRecord(1, [Entry(1, image)])), captured.value)
            && Whole(h) && !PageOneIsSqlite(h, 1)
            && FlushPoints.Run(FlushPoints.World(f, Applier.EMPTY), Commit(captured.value) + [FlushPoints.Flush],
                               lineage).None?
  {
    OnePageRecord(wal, image, crc);
    var r := CommitRecord(1, [Entry(1, image)]);
    assert Commit(r) == [FlushPoints.Begin(1), FlushPoints.Page(1, image)];
    UnflushedIs(1, image);
    assert PageEvents(r.pages)[0] in PageEvents(r.pages);
    RefusedCommit(FlushPoints.World(f, Applier.EMPTY), Commit(r), 1, PageEvents(r.pages), image, lineage);
    CommitReachesTheFile(wal, [Raw(WAL_HDR, COMMITS_PAGE_ONE)], Raw(FIRST_PAGE, image), crc, CommitPoint(1, 1), f,
                         Commit(r), lineage);
  }

  lemma UnflushedIs(n: u32, image: Image)
    ensures var events := [FlushPoints.Begin(n), FlushPoints.Page(1, image)];
            FlushPoints.Unflushed(events) == events
  {
    var events := [FlushPoints.Begin(n), FlushPoints.Page(1, image)];
    assert events[1..] == [FlushPoints.Page(1, image)] && events[1..][1..] == [];
    assert FlushPoints.Unflushed(events[1..]) == events[1..];
  }
}

/** The WAL file's layout and the shape of every write to it, as section 4.1 of the SQLite file format lays it out. */
module Wal {
  import opened Common
  import opened Files

  const WAL_HDR: nat := 32
  const FRAME_HDR: nat := 24
  const FRAME: nat := FRAME_HDR + PAGE
  const FIRST_PAGE: nat := WAL_HDR + FRAME_HDR

  /** Whether `off` is where a frame's page starts. */
  predicate PageAt(off: int) {
    off >= FIRST_PAGE && (off - FIRST_PAGE) % FRAME == 0
  }

  /** Whether `off` is where a frame's header starts. */
  predicate FrameHeaderAt(off: int) {
    off >= WAL_HDR && (off - WAL_HDR) % FRAME == 0
  }

  /** The big-endian u32 at `at`, if `b` reaches that far. */
  function Be32(b: seq<byte>, at: nat): (r: Option<u32>)
    ensures r.Some? <==> at + 4 <= |b|
  {
    if at + 4 <= |b|
    then Some((((b[at] as int) * 256 + b[at + 1]) * 256 + b[at + 2]) * 256 + b[at + 3])
    else None
  }

  datatype WalWrite =
    | Header(pageSize: Option<u32>)
    | FrameHeader(off: int, pgno: u32, commitSize: u32)
    | Page(off: int, data: seq<byte>)
    | Other(off: int, len: nat)

  /** Names the WAL write of `data` at `off`. */
  function Classify(off: int, data: seq<byte>): (w: WalWrite)
    ensures w.Header? <==> off == 0 && |data| == WAL_HDR
    ensures w.FrameHeader? <==> FrameHeaderAt(off) && |data| == FRAME_HDR
    ensures w.Page? <==> PageAt(off) && |data| == PAGE
    ensures !w.Header? ==> w.off == off
    ensures w.Page? ==> w.data == data
  {
    if |data| == WAL_HDR && off == 0 then Header(Be32(data, 8))
    else if |data| == FRAME_HDR && FrameHeaderAt(off) then
      FrameHeader(off, Be32(data, 0).value, Be32(data, 4).value)
    else if |data| == PAGE && PageAt(off) then Page(off, data)
    else Other(off, |data|)
  }

  /** The pages of two frames never overlap, and no header overlaps a page. */
  lemma FramesAreApart(a: int, b: int)
    requires PageAt(a)
    ensures PageAt(b) && a != b ==> a + PAGE <= b || b + PAGE <= a
    ensures FrameHeaderAt(b) ==> a + PAGE <= b || b + FRAME_HDR <= a
    ensures WAL_HDR <= a
  {
    var j := (a - FIRST_PAGE) / FRAME;
    assert a == FIRST_PAGE + j * FRAME;
    if PageAt(b) && a != b {
      var k := (b - FIRST_PAGE) / FRAME;
      assert b == FIRST_PAGE + k * FRAME;
    }
    if FrameHeaderAt(b) {
      var k := (b - WAL_HDR) / FRAME;
      assert b == WAL_HDR + k * FRAME;
    }
  }
}

/** The page-1 marker: bytes 0..16 of a generation's db file on disk stand in for SQLite's magic. */
module Marker {
  import opened Common
  import opened Files

  /** "SQLite format 3\0" */
  const SQLITE_MAGIC: seq<byte> := [83, 81, 76, 105, 116, 101, 32, 102, 111, 114, 109, 97, 116, 32, 51, 0]

  /** "Ursula08" */
  const MARKER: seq<byte> := [85, 114, 115, 117, 108, 97, 48, 56]

  const LEN: nat := 16

  type Lineage = s: seq<byte> | |s| == 16 witness seq(16, i => 0)

  function Mark(lineage: Lineage): (m: seq<byte>)
    ensures |m| == LEN
  {
    MARKER + lineage[..8]
  }

  predicate HasMagic(page: Image) {
    page[..LEN] == SQLITE_MAGIC
  }

  /** A page image with its first 16 bytes replaced by the marker. */
  function Marked(page: Image, lineage: Lineage): (r: Image) {
    Mark(lineage) + page[LEN..]
  }

  /** What page `pgno` holds on disk: only page 1 carries the marker. */
  function OnDisk(pgno: int, page: Image, lineage: Lineage): (r: Image) {
    if pgno == 1 then Marked(page, lineage) else page
  }

  /** Stamps a page-1 image about to be written; one without SQLite's magic is refused. */
  function Stamp(page: Image, lineage: Lineage): (r: Option<Image>)
    ensures r.Some? <==> HasMagic(page)
  {
    if page[..LEN] == SQLITE_MAGIC then Some(Marked(page, lineage)) else None
  }

  /** The marker and the magic differ whatever the lineage, so a marked page is refused, never stamped twice. */
  lemma MarkedIsRefused(page: Image, lineage: Lineage)
    ensures Stamp(Marked(page, lineage), lineage).None?
  {
    assert Marked(page, lineage)[..LEN][0] == 85;
  }
}

/** Files as byte sequences, and the two calls the client makes on them: `set_len` and `write_all_at`. */
module Files {
  type byte = x: int | 0 <= x < 256

  const PAGE: nat := 4096

  const U32_LIMIT: nat := 0x1_0000_0000

  type u32 = x: int | 0 <= x < U32_LIMIT

  type Image = s: seq<byte> | |s| == PAGE witness seq(PAGE, i => 0)

  /** The file cut, or grown with zeros, to `n` bytes. */
  function SetLen(f: seq<byte>, n: nat): (r: seq<byte>)
    ensures |r| == n
    ensures forall i :: 0 <= i < n ==> r[i] == if i < |f| then f[i] else 0
  {
    if n <= |f| then f[..n] else f + seq(n - |f|, i => 0)
  }

  /** `data` written at `off`: a write past the end leaves zeros between. */
  function WriteAt(f: seq<byte>, off: nat, data: seq<byte>): (r: seq<byte>)
    requires data != []
    ensures |r| == if |f| < off + |data| then off + |data| else |f|
    ensures forall i :: 0 <= i < |r| ==>
                          r[i] == if off <= i < off + |data| then data[i - off] else if i < |f| then f[i] else 0
  {
    var g := if |f| < off + |data| then SetLen(f, off + |data|) else f;
    g[..off] + data + g[off + |data|..]
  }

  /** The length of a db file of `pages` pages. */
  function DbLen(pages: u32): (n: nat) {
    pages * PAGE
  }

  /** Where page `pgno` starts; page 0, which names no page, shares page 1's offset. */
  function PageOffset(pgno: int): (n: nat) {
    if pgno <= 0 then 0 else (pgno - 1) * PAGE
  }

  /** The page that holds byte `i`. */
  function PageOf(i: nat): (p: nat)
    ensures p >= 1
    ensures (p - 1) * PAGE <= i < p * PAGE
  {
    i / PAGE + 1
  }

  /** An open file, changed in place. */
  class File {
    var bytes: seq<byte>

    constructor (bytes: seq<byte>)
      ensures this.bytes == bytes
    {
      this.bytes := bytes;
    }

    method Truncate(n: nat)
      modifies this
      ensures bytes == SetLen(old(bytes), n)
    {
      bytes := SetLen(bytes, n);
    }

    method WriteAllAt(off: nat, data: seq<byte>)
      requires data != []
      modifies this
      ensures bytes == WriteAt(old(bytes), off, data)
    {
      bytes := WriteAt(bytes, off, data);
    }
  }
}

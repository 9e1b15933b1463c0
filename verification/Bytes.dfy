/** Memory as C sees it: one cell per byte, 32-bit integers stored little-endian in two's
    complement. */
module Bytes {
  import opened Arrays

  const INT_SPAN := 0x1_0000_0000
  const INT_HALF := 0x8000_0000

  predicate IsInt(v: int) {
    -INT_HALF <= v < INT_HALF
  }

  /** The unsigned pattern of a 32-bit integer. */
  function Pattern(v: int): int {
    if v < 0 then v + INT_SPAN else v
  }

  /** The four bytes of an int. */
  function IntBytes(v: int): (b: seq<int>)
    ensures |b| == INT_BYTES
  {
    var u := Pattern(v);
    [u % 256, u / 256 % 256, u / 65536 % 256, u / 16777216 % 256]
  }

  /** The int at byte offset `off`. */
  function IntAt(m: seq<int>, off: nat): int
    requires off + INT_BYTES <= |m|
  {
    var u := m[off] + 256 * m[off + 1] + 65536 * m[off + 2] + 16777216 * m[off + 3];
    if u >= INT_HALF then u - INT_SPAN else u
  }

  /** An int read where it was stored is the int stored. */
  lemma IntRoundTrip(v: int, m: seq<int>, off: nat)
    requires IsInt(v) && off + INT_BYTES <= |m| && m[off..off + INT_BYTES] == IntBytes(v)
    ensures IntAt(m, off) == v
  {
    var u := Pattern(v);
    var b := m[off..off + INT_BYTES];
    assert b[0] == m[off] && b[1] == m[off + 1] && b[2] == m[off + 2] && b[3] == m[off + 3];
    assert u / 65536 == (u / 256) / 256;
    assert u / 16777216 == (u / 65536) / 256;
  }

  /** A row of ints, as consecutive words. */
  function WordBytes(ws: seq<int>): (b: seq<int>)
    ensures |b| == INT_BYTES * |ws|
  {
    if ws == [] then [] else WordBytes(ws[..|ws| - 1]) + IntBytes(ws[|ws| - 1])
  }

  lemma {:induction false} WordAt(ws: seq<int>, i: nat)
    requires i < |ws|
    ensures WordBytes(ws)[INT_BYTES * i..INT_BYTES * i + INT_BYTES] == IntBytes(ws[i])
  {
    var front := ws[..|ws| - 1];
    if i < |front| {
      WordAt(front, i);
      assert front[i] == ws[i];
    }
  }

  lemma WordsExtend(ws: seq<int>, i: nat)
    requires i < |ws|
    ensures WordBytes(ws[..i + 1]) == WordBytes(ws[..i]) + IntBytes(ws[i])
  {
    assert ws[..i + 1][..i] == ws[..i];
  }

  /** Storing an int leaves the rest of memory alone. */
  method StoreInt(mem: array<int>, off: nat, v: int)
    requires off + INT_BYTES <= mem.Length
    modifies mem
    ensures mem[..] == old(mem[..off]) + IntBytes(v) + old(mem[off + INT_BYTES..])
  {
    var b := IntBytes(v);
    mem[off], mem[off + 1], mem[off + 2], mem[off + 3] := b[0], b[1], b[2], b[3];
  }

  /** memcpy of `data` to byte offset `off`. */
  method CopyIn(mem: array<int>, off: nat, data: seq<int>)
    requires off + |data| <= mem.Length
    modifies mem
    ensures mem[..] == old(mem[..off]) + data + old(mem[off + |data|..])
  {
    var j := 0;
    while j < |data|
      invariant j <= |data|
      invariant mem[..off] == old(mem[..off])
      invariant mem[off..off + j] == data[..j]
      invariant mem[off + j..] == old(mem[off + j..])
    {
      mem[off + j] := data[j];
      assert mem[off..off + j + 1] == mem[off..off + j] + [data[j]];
      assert mem[off + j + 1..] == mem[off + j..][1..];
      assert old(mem[off + j + 1..]) == old(mem[off + j..])[1..];
      j := j + 1;
    }
    assert data[..|data|] == data;
    assert mem[..] == mem[..off] + mem[off..off + |data|] + mem[off + |data|..];
  }
}

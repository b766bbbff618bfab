/**
 * 32-bit memory-mapped register words viewed as four 8-bit fields.
 * The seven-segment display registers hold one digit pattern per byte,
 * the lowest digit position in the lowest byte. Field indices are
 * unsigned 32-bit values, as the C code's `uint32_t position` is, so the
 * shift amount `position * 8` is computed in the same width.
 */
module Registers {

  /** Byte `k` (0 = least significant) of a register word. */
  function ByteAt(w: bv32, k: bv32): bv8
    requires k < 4
  {
    ((w >> (k * 8)) & 0xFF) as bv8
  }

  /** The first half of a byte write: clear field `k` with the inverted mask `~(0xFF << 8k)`. */
  function ClearByte(w: bv32, k: bv32): bv32
    requires k < 4
  {
    w & !(0xFF << (k * 8))
  }

  /** The second half of a byte write: OR the new pattern, shifted into place, into the word. */
  function OrByte(w: bv32, k: bv32, b: bv8): bv32
    requires k < 4
  {
    w | ((b as bv32) << (k * 8))
  }

  /** Read-modify-write of byte `k`: clear the field, then OR in the new pattern. */
  function SetByte(w: bv32, k: bv32, b: bv8): bv32
    requires k < 4
  {
    OrByte(ClearByte(w, k), k, b)
  }

  /** The four bytes of a word, lowest first. */
  function Bytes(w: bv32): (r: seq<bv8>)
    ensures |r| == 4
  {
    [ByteAt(w, 0), ByteAt(w, 1), ByteAt(w, 2), ByteAt(w, 3)]
  }

  /** Reading back any field after writing field `k`. */
  lemma ByteAtSetByte(w: bv32, k: bv32, b: bv8, j: bv32)
    requires k < 4 && j < 4
    ensures ByteAt(SetByte(w, k, b), j) == if j == k then b else ByteAt(w, j)
  {
  }

  /** Writing byte `k` sets that field to `b` and leaves the other three as they were. */
  lemma SetByteFields(w: bv32, k: bv32, b: bv8)
    requires k < 4
    ensures Bytes(SetByte(w, k, b)) == Bytes(w)[k as int := b]
  {
    ByteAtSetByte(w, k, b, 0);
    ByteAtSetByte(w, k, b, 1);
    ByteAtSetByte(w, k, b, 2);
    ByteAtSetByte(w, k, b, 3);
    var r := SetByte(w, k, b);
    var s := [ByteAt(r, 0), ByteAt(r, 1), ByteAt(r, 2), ByteAt(r, 3)];
    assert Bytes(r) == s;
    if k == 0 {
      assert s == Bytes(w)[0 := b];
    } else if k == 1 {
      assert s == Bytes(w)[1 := b];
    } else if k == 2 {
      assert s == Bytes(w)[2 := b];
    } else {
      assert s == Bytes(w)[3 := b];
    }
  }

  /** A word is determined by its four bytes. */
  lemma BytesInjective(v: bv32, w: bv32)
    requires Bytes(v) == Bytes(w)
    ensures v == w
  {
    assert ByteAt(v, 0) == ByteAt(w, 0);
    assert ByteAt(v, 1) == ByteAt(w, 1);
    assert ByteAt(v, 2) == ByteAt(w, 2);
    assert ByteAt(v, 3) == ByteAt(w, 3);
  }

  /** Updating an element of the left part of a concatenation. */
  lemma UpdateLeft<T>(a: seq<T>, c: seq<T>, i: nat, x: T)
    requires i < |a|
    ensures (a + c)[i := x] == a[i := x] + c
  {
  }

  /** Updating an element of the right part of a concatenation. */
  lemma UpdateRight<T>(a: seq<T>, c: seq<T>, i: nat, x: T)
    requires i < |c|
    ensures (a + c)[|a| + i := x] == a + c[i := x]
  {
  }
}

/** Unsigned integers as bytes, least significant first. */
module LittleEndian {
  import opened Types

  const U16: nat := 0x1_0000
  const U32: nat := 0x1_0000_0000

  /** How many numbers `width` bytes tell apart. */
  function Range(width: nat): nat
  {
    if width == 0 then 1 else 0x100 * Range(width - 1)
  }

  lemma Ranges()
    ensures Range(2) == U16 && Range(4) == U32
  {
    assert Range(1) == 0x100 && Range(3) == 0x100 * Range(2);
  }

  /** The number in the `width` bytes from `i`. */
  function LeAt(b: Bytes, i: nat, width: nat): nat
    requires i + width <= |b|
    decreases width
  {
    if width == 0 then 0 else b[i] + 0x100 * LeAt(b, i + 1, width - 1)
  }

  function At16(b: Bytes, i: nat): nat
    requires i + 2 <= |b|
  {
    LeAt(b, i, 2)
  }

  function At32(b: Bytes, i: nat): nat
    requires i + 4 <= |b|
  {
    LeAt(b, i, 4)
  }

  /** The first byte counts least. */
  lemma LeastFirst(b: Bytes, i: nat)
    ensures i + 2 <= |b| ==> var x: nat, y: nat := b[i], b[i + 1]; At16(b, i) == x + 0x100 * y
    ensures i + 4 <= |b| ==>
              var x: nat, y: nat, u: nat, v: nat := b[i], b[i + 1], b[i + 2], b[i + 3];
              At32(b, i) == x + 0x100 * y + 0x1_0000 * u + 0x100_0000 * v
  {
    if i + 4 <= |b| {
      var u: nat := b[i + 2];
      assert LeAt(b, i + 2, 2) == u + 0x100 * LeAt(b, i + 3, 1);
    }
  }

  /** The same bytes hold the same number. */
  lemma {:induction false} LeAtSame(a: Bytes, i: nat, b: Bytes, j: nat, width: nat)
    requires i + width <= |a| && j + width <= |b| && a[i..i + width] == b[j..j + width]
    ensures LeAt(a, i, width) == LeAt(b, j, width)
    decreases width
  {
    if width > 0 {
      assert a[i..i + width][0] == b[j..j + width][0];
      assert a[i + 1..i + width] == a[i..i + width][1..];
      assert b[j + 1..j + width] == b[j..j + width][1..];
      LeAtSame(a, i + 1, b, j + 1, width - 1);
    }
  }

  /** A number reads the same inside a larger sequence. */
  lemma LeAtSlice(b: Bytes, lo: nat, hi: nat, i: nat, width: nat)
    requires lo <= hi <= |b| && lo + i + width <= hi
    ensures LeAt(b[lo..hi], i, width) == LeAt(b, lo + i, width)
  {
    var part := b[lo..hi];
    assert |part| == hi - lo && forall k :: 0 <= k < |part| ==> part[k] == b[lo + k];
    assert part[i..i + width] == b[lo + i..lo + i + width];
    LeAtSame(part, i, b, lo + i, width);
  }

  lemma AtPrefix(a: Bytes, b: Bytes)
    requires |a| >= 4
    ensures At32(a + b, 0) == At32(a, 0)
  {
    assert (a + b)[0..4] == a[0..4];
    LeAtSame(a + b, 0, a, 0, 4);
  }

  // ----- Writing into a buffer, as `writeUInt16LE` and `writeUInt32LE` do -----

  function PutLe(b: Bytes, at: nat, v: nat, width: nat): (r: Bytes)
    requires at + width <= |b|
    ensures |r| == |b|
    decreases width
  {
    if width == 0 then b else PutLe(b[at := v % 0x100], at + 1, v / 0x100, width - 1)
  }

  lemma {:induction false} PutElsewhere(b: Bytes, at: nat, v: nat, width: nat, lo: nat, hi: nat)
    requires at + width <= |b| && lo <= hi <= |b| && (hi <= at || at + width <= lo)
    ensures PutLe(b, at, v, width)[lo..hi] == b[lo..hi]
    decreases width
  {
    if width > 0 {
      assert b[at := v % 0x100][lo..hi] == b[lo..hi];
      PutElsewhere(b[at := v % 0x100], at + 1, v / 0x100, width - 1, lo, hi);
    }
  }

  lemma {:induction false} PutReadsBack(b: Bytes, at: nat, v: nat, width: nat)
    requires at + width <= |b| && v < Range(width)
    ensures LeAt(PutLe(b, at, v, width), at, width) == v
    decreases width
  {
    if width > 0 {
      var c := b[at := v % 0x100];
      PutReadsBack(c, at + 1, v / 0x100, width - 1);
      PutElsewhere(c, at + 1, v / 0x100, width - 1, at, at + 1);
      assert PutLe(b, at, v, width)[at..at + 1][0] == c[at..at + 1][0] == v % 0x100;
    }
  }

  function Le32(n: nat): (r: Bytes)
    ensures |r| == 4
  {
    PutLe([0, 0, 0, 0], 0, n, 4)
  }

  lemma Le32RoundTrip(n: nat)
    requires n < U32
    ensures At32(Le32(n), 0) == n
  {
    Ranges();
    PutReadsBack([0, 0, 0, 0], 0, n, 4);
  }

  datatype Write = Write(at: nat, width: nat, value: nat) {
    predicate Apart(other: Write) { at + width <= other.at || other.at + other.width <= at }

    /** Whether the value is what `b` holds where it was written. */
    predicate ReadsBack(b: Bytes)
    {
      at + width <= |b| && value == LeAt(b, at, width)
    }
  }

  function W16(at: nat, value: nat): Write { Write(at, 2, value) }
  function W32(at: nat, value: nat): Write { Write(at, 4, value) }

  function Put(b: Bytes, w: Write): (r: Bytes)
    ensures |r| == |b|
  {
    if w.at + w.width > |b| then b else PutLe(b, w.at, w.value, w.width)
  }

  /** A zeroed buffer of `size` bytes after `writes`, in order. */
  function Written(size: nat, writes: seq<Write>): (r: Bytes)
    ensures |r| == size
  {
    if writes == [] then seq(size, _ => 0)
    else Put(Written(size, writes[..|writes| - 1]), writes[|writes| - 1])
  }

  lemma PutKeeps(b: Bytes, w: Write, x: Write)
    requires x.ReadsBack(b) && x.Apart(w)
    ensures x.ReadsBack(Put(b, w))
  {
    if w.at + w.width <= |b| {
      PutElsewhere(b, w.at, w.value, w.width, x.at, x.at + x.width);
      LeAtSame(Put(b, w), x.at, b, x.at, x.width);
    }
  }

  lemma {:induction false} ZerosAreZero(b: Bytes, at: nat, width: nat)
    requires at + width <= |b| && forall i :: 0 <= i < |b| ==> b[i] == 0
    ensures LeAt(b, at, width) == 0
    decreases width
  {
    if width > 0 { ZerosAreZero(b, at + 1, width - 1); }
  }

  /** A field no later write touches keeps what it was. */
  lemma {:induction false} LaterWritesKeep(size: nat, writes: seq<Write>, k: nat, x: Write)
    requires k <= |writes| && x.ReadsBack(Written(size, writes[..k]))
    requires forall i :: k <= i < |writes| ==> x.Apart(writes[i])
    ensures x.ReadsBack(Written(size, writes))
    decreases |writes|
  {
    var n := |writes|;
    if k == n {
      assert writes[..k] == writes;
    } else {
      assert writes[..n - 1][..k] == writes[..k];
      LaterWritesKeep(size, writes[..n - 1], k, x);
      PutKeeps(Written(size, writes[..n - 1]), writes[n - 1], x);
    }
  }

  /** What no later write touches can be read back. */
  lemma WriteReadsBack(size: nat, writes: seq<Write>, k: nat)
    requires k < |writes| && writes[k].at + writes[k].width <= size && writes[k].value < Range(writes[k].width)
    requires forall i :: k < i < |writes| ==> writes[k].Apart(writes[i])
    ensures writes[k].ReadsBack(Written(size, writes))
  {
    assert writes[..k + 1][..k] == writes[..k];
    PutReadsBack(Written(size, writes[..k]), writes[k].at, writes[k].value, writes[k].width);
    LaterWritesKeep(size, writes, k + 1, writes[k]);
  }

  /** What no write touches is zero. */
  lemma UnwrittenIsZero(size: nat, writes: seq<Write>, at: nat, width: nat)
    requires at + width <= size && forall i :: 0 <= i < |writes| ==> Write(at, width, 0).Apart(writes[i])
    ensures LeAt(Written(size, writes), at, width) == 0
  {
    assert writes[..0] == [];
    ZerosAreZero(Written(size, []), at, width);
    LaterWritesKeep(size, writes, 0, Write(at, width, 0));
  }
}

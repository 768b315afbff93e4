/** 64 KiB chunk arithmetic, shared by uploads and downloads. */
module Chunks {
  import opened Protocol

  const CHUNK_SIZE: nat := 65536
  const U32_MAX: nat := 0xFFFF_FFFF
  const U64_LIMIT: nat := 0x1_0000_0000_0000_0000
  const F64_EXACT: nat := 0x20_0000_0000_0000  // 2^53

  /** How many chunks a file has, exactly. */
  function CeilDiv(size: nat): nat {
    (size + CHUNK_SIZE - 1) / CHUNK_SIZE
  }

  // --- the agent's floating-point chunk count -----------------------------------------

  /** The distance between neighbouring doubles around `n`. */
  function Spacing(n: nat): (u: nat)
    ensures u > 0
  {
    if n < F64_EXACT then 1 else 2 * Spacing(n / 2)
  }

  /** A 64-bit integer as a double: exact below 2^53, else rounded to the nearest
      representable value, ties to even. */
  function ToF64(n: nat): nat {
    var u := Spacing(n);
    var q, r := n / u, n % u;
    if 2 * r < u || (2 * r == u && q % 2 == 0) then q * u else (q + 1) * u
  }

  function Ceil(x: real): int {
    -((-x).Floor)
  }

  /** `((size as f64) / 65536.0).ceil() as u32`: dividing a double by a power of two is
      exact, and the cast saturates. */
  function TotalChunks(size: nat): nat {
    var c := Ceil(ToF64(size) as real / 65536.0);
    if c <= 0 then 0 else if c > U32_MAX then U32_MAX else c
  }

  lemma CeilOfQuotient(n: nat)
    ensures Ceil(n as real / 65536.0) == CeilDiv(n)
  {
    var q := CeilDiv(n);
    assert (q - 1) * CHUNK_SIZE < n <= q * CHUNK_SIZE;
    var x := n as real / 65536.0;
    assert x * 65536.0 == n as real;
    assert (q - 1) as real * 65536.0 < x * 65536.0 <= q as real * 65536.0;
    assert -(q as real) <= -x < -(q as real) + 1.0;
    assert (-x).Floor == -q;
  }

  /** Rounding never drops below 2^53 what was not below it. */
  lemma {:induction false} RoundingStaysLarge(n: nat)
    requires n >= F64_EXACT
    ensures ToF64(n) >= F64_EXACT
  {
    SpacingDivides(n);
    var u := Spacing(n);
    assert n / u * u >= F64_EXACT;
  }

  lemma {:induction false} SpacingDivides(n: nat)
    requires n >= F64_EXACT
    ensures n / Spacing(n) * Spacing(n) >= F64_EXACT
  {
    var u := Spacing(n / 2);
    if n / 2 < F64_EXACT {
      assert u == 1 && Spacing(n) == 2;
    } else {
      SpacingDivides(n / 2);
      HalfQuotient(n, u);
    }
  }

  lemma HalfQuotient(n: nat, u: nat)
    requires u > 0 && n / 2 / u * u >= F64_EXACT
    ensures n / (2 * u) * (2 * u) >= F64_EXACT
  {
    var q := n / 2 / u;
    assert n >= 2 * (q * u);
    QuotientAtLeast(n, 2 * u, q);
    var p := n / (2 * u);
    assert p * (2 * u) >= q * (2 * u) by { MulMono(q, p, 2 * u); }
    assert q * (2 * u) == 2 * (q * u);
  }

  lemma QuotientAtLeast(n: nat, d: nat, q: nat)
    requires d > 0 && q * d <= n
    ensures n / d >= q
  {
    if n / d < q {
      var p := n / d;
      assert n < (p + 1) * d by { assert n == p * d + n % d; }
      MulMono(p + 1, q, d);
      assert false;
    }
  }

  lemma MulMono(a: nat, b: nat, c: nat)
    requires a <= b
    ensures a * c <= b * c
  {
  }

  /** The float computation is the exact ceiling precisely for the sizes whose exact
      chunk count fits 32 bits. */
  lemma TotalChunksExactIff(size: nat)
    requires size < U64_LIMIT
    ensures TotalChunks(size) == CeilDiv(size) <==> size <= U32_MAX * CHUNK_SIZE
  {
    CeilOfQuotient(ToF64(size));
    if size < F64_EXACT {
      assert Spacing(size) == 1;
      assert ToF64(size) == size;
    } else {
      RoundingStaysLarge(size);
    }
  }

  /** Chunk positions fit 64 bits for every 32-bit index. */
  lemma OffsetFits(index: nat)
    requires index <= U32_MAX
    ensures index * CHUNK_SIZE + CHUNK_SIZE < U64_LIMIT
  {
  }

  // --- the chunks of a file ---------------------------------------------------------------

  function Min(a: nat, b: nat): nat {
    if a < b then a else b
  }

  /** Chunk `i` of a file; empty from the end of the file on. */
  function ChunkAt(file: Bytes, i: nat): Bytes {
    file[Min(i * CHUNK_SIZE, |file|)..Min((i + 1) * CHUNK_SIZE, |file|)]
  }

  function Concat(parts: seq<Bytes>): Bytes {
    if parts == [] then [] else Concat(parts[..|parts| - 1]) + parts[|parts| - 1]
  }

  lemma ConcatSnoc(parts: seq<Bytes>, part: Bytes)
    ensures Concat(parts + [part]) == Concat(parts) + part
  {
    assert (parts + [part])[..|parts|] == parts;
  }

  function Split(file: Bytes, count: nat): (parts: seq<Bytes>)
    ensures |parts| == count
    ensures forall i :: 0 <= i < count ==> parts[i] == ChunkAt(file, i)
  {
    seq(count, i requires 0 <= i < count => ChunkAt(file, i))
  }

  /** The first `count` chunks are the first `count * 65536` bytes. */
  lemma {:induction false} ChunksTilePrefix(file: Bytes, count: nat)
    ensures Concat(Split(file, count)) == file[..Min(count * CHUNK_SIZE, |file|)]
  {
    if count > 0 {
      ChunksTilePrefix(file, count - 1);
      assert Split(file, count) == Split(file, count - 1) + [ChunkAt(file, count - 1)];
      ConcatSnoc(Split(file, count - 1), ChunkAt(file, count - 1));
    }
  }

  /** The chunks of a file, in order, are the file; all but the last are full and none is
      empty. */
  lemma ChunksTile(file: Bytes)
    ensures Concat(Split(file, CeilDiv(|file|))) == file
    ensures forall i :: 0 <= i < CeilDiv(|file|) ==> 0 < |ChunkAt(file, i)| <= CHUNK_SIZE
    ensures forall i :: 0 <= i < CeilDiv(|file|) - 1 ==> |ChunkAt(file, i)| == CHUNK_SIZE
  {
    ChunksTilePrefix(file, CeilDiv(|file|));
  }
}

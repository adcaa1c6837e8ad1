/**
 The static tile schedulers of the prefill and the decode kernels. Persistent
 blocks walk the linear work indices with the grid size as stride; otherwise each
 block of the grid has one work tile. Either way every work coordinate is taken by
 exactly one block, once.
 */
module TileScheduler {
  import opened Arith

  // ---- the persistent walk ----

  /** The linear indices a block takes: its own, then every stride-th below n. */
  function Walk(start: nat, stride: nat, n: nat): seq<nat>
    requires stride > 0
    decreases n - start
  {
    if start >= n then [] else [start] + Walk(start + stride, stride, n)
  }

  lemma {:induction false} WalkAt(start: nat, stride: nat, n: nat, i: nat)
    requires stride > 0
    ensures i < |Walk(start, stride, n)| <==> start + i * stride < n
    ensures i < |Walk(start, stride, n)| ==> Walk(start, stride, n)[i] == start + i * stride
    decreases i
  {
    if start < n && i > 0 {
      WalkAt(start + stride, stride, n, i - 1);
      assert start + stride + (i - 1) * stride == start + i * stride;
    } else if i > 0 {
      TimesGrows(0, i, stride);
    }
  }

  /** Block c takes index k as its i-th work tile. */
  predicate Takes(c: nat, i: nat, stride: nat, n: nat, k: nat)
    requires stride > 0
  {
    c < stride && i < |Walk(c, stride, n)| && Walk(c, stride, n)[i] == k
  }

  /** Every index is taken, by one block, once. */
  lemma WalksPartition(stride: nat, n: nat, k: nat, c: nat, i: nat)
    requires stride > 0 && k < n
    ensures Takes(c, i, stride, n, k) <==> (c == k % stride && i == k / stride)
  {
    WalkAt(c, stride, n, i);
    assert k == (k / stride) * stride + k % stride;
    if Takes(c, i, stride, n, k) {
      DivModIs(k, stride, i, c);
    }
  }

  lemma WalksStayInside(stride: nat, n: nat, k: nat, c: nat, i: nat)
    requires stride > 0 && Takes(c, i, stride, n, k)
    ensures k < n
  {
    WalkAt(c, stride, n, i);
  }

  // ---- coordinates ----

  /** Splitting an index by a radix, and putting it together again. */
  lemma Digits(k: nat, radix: nat, rest: nat)
    requires radix > 0 && k < radix * rest
    ensures k / radix < rest && (k / radix) * radix + k % radix == k
  {
    assert k == (k / radix) * radix + k % radix;
    LessByTimes(k / radix, rest, radix);
  }

  lemma Undigits(d: nat, high: nat, radix: nat, rest: nat)
    requires d < radix && high < rest
    ensures high * radix + d < radix * rest
    ensures (high * radix + d) / radix == high && (high * radix + d) % radix == d
  {
    DivModIs(high * radix + d, radix, high, d);
    TimesGrows(high + 1, rest, radix);
  }

  // ---- the prefill scheduler ----

  /** Work of the prefill kernel: row blocks, batches and heads. */
  datatype Shape = Shape(m: nat, b: nat, h: nat) {
    predicate Valid() { m > 0 && b > 0 && h > 0 }
    function Size(): nat { m * (b * h) }
  }

  datatype Coord = Coord(m: nat, b: nat, h: nat)

  predicate InShape(s: Shape, x: Coord) { x.m < s.m && x.b < s.b && x.h < s.h }

  function CoordOf(s: Shape, k: nat): Coord
    requires s.Valid()
  {
    Coord(k % s.m, (k / s.m) % s.b, k / s.m / s.b)
  }

  function IndexOf(s: Shape, x: Coord): nat {
    (x.h * s.b + x.b) * s.m + x.m
  }

  lemma CoordRoundTrip(s: Shape, k: nat)
    requires s.Valid() && k < s.Size()
    ensures InShape(s, CoordOf(s, k)) && IndexOf(s, CoordOf(s, k)) == k
  {
    Digits(k, s.m, s.b * s.h);
    Digits(k / s.m, s.b, s.h);
  }

  lemma IndexRoundTrip(s: Shape, x: Coord)
    requires InShape(s, x)
    ensures s.Valid() && IndexOf(s, x) < s.Size() && CoordOf(s, IndexOf(s, x)) == x
  {
    Undigits(x.b, x.h, s.b, s.h);
    Undigits(x.m, x.h * s.b + x.b, s.m, s.b * s.h);
  }

  /** The blocks launched: at most one per multiprocessor when persistent. */
  function GridSize(s: Shape, smCount: nat): nat {
    Min(smCount, s.Size())
  }

  /** A block's scheduler; `current` is its linear index, `block` its place in a full grid. */
  class PrefillScheduler {
    const persistent: bool
    const shape: Shape
    const stride: nat
    const block: Coord
    var current: nat
    var first: bool

    constructor (persistent: bool, shape: Shape, stride: nat, linear: nat, block: Coord)
      ensures this.persistent == persistent && this.shape == shape && this.stride == stride
      ensures this.block == block && current == linear && first
    {
      this.persistent, this.shape, this.stride, this.block := persistent, shape, stride, block;
      current, first := linear, true;
    }

    /** The current work tile, and whether there is one. */
    function CurrentWork(): (Coord, bool)
      reads this
      requires shape.Valid()
    {
      if persistent then (CoordOf(shape, current), current < shape.Size()) else (block, first)
    }

    method Advance()
      modifies this
      ensures current == old(current) + (if persistent then stride else 0) && !first
    {
      if persistent {
        current := current + stride;
      }
      first := false;
    }
  }

  function Coords(s: Shape, ks: seq<nat>): (xs: seq<Coord>)
    requires s.Valid()
    ensures |xs| == |ks| && forall i :: 0 <= i < |ks| ==> xs[i] == CoordOf(s, ks[i])
  {
    seq(|ks|, i requires 0 <= i < |ks| => CoordOf(s, ks[i]))
  }

  lemma CoordsMore(s: Shape, ks: seq<nat>, k: nat)
    requires s.Valid()
    ensures Coords(s, ks + [k]) == Coords(s, ks) + [CoordOf(s, k)]
  {
  }

  lemma WalkMore(done: seq<nat>, k: nat, stride: nat, n: nat)
    requires stride > 0 && k < n
    ensures done + Walk(k, stride, n) == done + [k] + Walk(k + stride, stride, n)
  {
  }

  /** The work loop of a persistent block ends, having visited the coordinates of its walk. */
  method PrefillWork(shape: Shape, stride: nat, linear: nat) returns (visited: seq<Coord>)
    requires shape.Valid() && stride > 0
    ensures visited == Coords(shape, Walk(linear, stride, shape.Size()))
  {
    var sched := new PrefillScheduler(true, shape, stride, linear, Coord(0, 0, 0));
    visited := [];
    ghost var all := Walk(linear, stride, shape.Size());
    ghost var done := [];
    var work := sched.CurrentWork();
    while work.1
      invariant work == (CoordOf(shape, sched.current), sched.current < shape.Size())
      invariant all == done + Walk(sched.current, stride, shape.Size())
      invariant visited == Coords(shape, done)
      decreases shape.Size() - sched.current
    {
      CoordsMore(shape, done, sched.current);
      WalkMore(done, sched.current, stride, shape.Size());
      visited := visited + [work.0];
      done := done + [sched.current];
      sched.Advance();
      work := sched.CurrentWork();
    }
    assert all == done;
  }

  /** The work loop of a block of the full grid visits its own coordinate. */
  method PrefillWorkOnce(shape: Shape, block: Coord) returns (visited: seq<Coord>)
    requires shape.Valid()
    ensures visited == [block]
  {
    var sched := new PrefillScheduler(false, shape, shape.Size(), block.m, block);
    visited := [];
    var work := sched.CurrentWork();
    while work.1
      invariant sched.first ==> visited == []
      invariant !sched.first ==> visited == [block]
      invariant work == (block, sched.first)
      decreases sched.first
    {
      visited := visited + [work.0];
      sched.Advance();
      work := sched.CurrentWork();
    }
  }

  /** Whatever the number of multiprocessors, each coordinate is the work of exactly one block, once. */
  lemma PrefillCoverage(s: Shape, smCount: nat, x: Coord, c: nat, i: nat)
    requires s.Valid() && smCount > 0 && InShape(s, x) && c < GridSize(s, smCount)
    ensures var stride := GridSize(s, smCount); var k := IndexOf(s, x);
            var visited := Coords(s, Walk(c, stride, s.Size()));
            i < |visited| && visited[i] == x <==> c == k % stride && i == k / stride
  {
    var stride := GridSize(s, smCount);
    IndexRoundTrip(s, x);
    WalksPartition(stride, s.Size(), IndexOf(s, x), c, i);
    if i < |Walk(c, stride, s.Size())| {
      PrefillInside(s, stride, Walk(c, stride, s.Size())[i], c, i);
    }
  }

  /** And nothing else is visited. */
  lemma PrefillInside(s: Shape, stride: nat, k: nat, c: nat, i: nat)
    requires s.Valid() && stride > 0 && Takes(c, i, stride, s.Size(), k)
    ensures InShape(s, CoordOf(s, k)) && IndexOf(s, CoordOf(s, k)) == k
  {
    WalksStayInside(stride, s.Size(), k, c, i);
    CoordRoundTrip(s, k);
  }

  // ---- the decode scheduler ----

  /** Work of the decode kernel: blocks of a cluster, query tiles, batches and key/value splits. */
  datatype DecodeShape = DecodeShape(cluster: nat, s: nat, b: nat, split: nat) {
    predicate Valid() { cluster > 0 && s > 0 && b > 0 && split > 0 }
    function Size(): nat { cluster * (s * (b * split)) }
  }

  datatype DecodeCoord = DecodeCoord(cluster: nat, s: nat, b: nat, split: nat)

  predicate InDecodeShape(d: DecodeShape, x: DecodeCoord) {
    x.cluster < d.cluster && x.s < d.s && x.b < d.b && x.split < d.split
  }

  function DecodeCoordOf(d: DecodeShape, k: nat): DecodeCoord
    requires d.Valid()
  {
    var clusterBatch := k / d.cluster;
    var sBatch := clusterBatch / d.s;
    DecodeCoord(k % d.cluster, clusterBatch % d.s, sBatch % d.b, sBatch / d.b % d.split)
  }

  function DecodeIndexOf(d: DecodeShape, x: DecodeCoord): nat {
    ((x.split * d.b + x.b) * d.s + x.s) * d.cluster + x.cluster
  }

  lemma DecodeCoordRoundTrip(d: DecodeShape, k: nat)
    requires d.Valid() && k < d.Size()
    ensures InDecodeShape(d, DecodeCoordOf(d, k)) && DecodeIndexOf(d, DecodeCoordOf(d, k)) == k
  {
    Digits(k, d.cluster, d.s * (d.b * d.split));
    Digits(k / d.cluster, d.s, d.b * d.split);
    Digits(k / d.cluster / d.s, d.b, d.split);
    DivModIs(k / d.cluster / d.s / d.b, d.split, 0, k / d.cluster / d.s / d.b);
  }

  lemma DecodeIndexRoundTrip(d: DecodeShape, x: DecodeCoord)
    requires InDecodeShape(d, x)
    ensures d.Valid() && DecodeIndexOf(d, x) < d.Size() && DecodeCoordOf(d, DecodeIndexOf(d, x)) == x
  {
    Undigits(x.b, x.split, d.b, d.split);
    Undigits(x.s, x.split * d.b + x.b, d.s, d.b * d.split);
    Undigits(x.cluster, (x.split * d.b + x.b) * d.s + x.s, d.cluster, d.s * (d.b * d.split));
    DivModIs(x.split, d.split, 0, x.split);
  }

  /** The coordinate of a block of the full grid, whose second axis runs over batches, then query tiles. */
  function GridCoord(d: DecodeShape, x: nat, y: nat, z: nat): DecodeCoord
    requires d.Valid()
  {
    DecodeCoord(x, y / d.b, y % d.b, z)
  }

  /** The full grid has exactly one block for every coordinate. */
  lemma GridCoverage(d: DecodeShape, c: DecodeCoord, x: nat, y: nat, z: nat)
    requires d.Valid() && InDecodeShape(d, c)
    ensures c.s * d.b + c.b < d.b * d.s
    ensures GridCoord(d, x, y, z) == c <==> x == c.cluster && y == c.s * d.b + c.b && z == c.split
  {
    Undigits(c.b, c.s, d.b, d.s);
    assert y == (y / d.b) * d.b + y % d.b;
  }

  lemma GridInside(d: DecodeShape, x: nat, y: nat, z: nat)
    requires d.Valid() && x < d.cluster && y < d.b * d.s && z < d.split
    ensures InDecodeShape(d, GridCoord(d, x, y, z))
  {
    Digits(y, d.b, d.s);
  }

  /** The blocks launched when persistent; clusters have `clusterRest` blocks for each one in the first direction. */
  function DecodeGridSize(d: DecodeShape, maxActive: nat, clusterRest: nat): nat {
    Min(maxActive * (d.cluster * clusterRest), d.Size())
  }

  lemma DecodeGridInClusters(d: DecodeShape, maxActive: nat, clusterRest: nat)
    requires d.Valid() && maxActive > 0 && clusterRest > 0
    ensures var g := DecodeGridSize(d, maxActive, clusterRest);
            g > 0 && g % d.cluster == 0 && d.Size() % d.cluster == 0
  {
    var a := maxActive * (d.cluster * clusterRest);
    assert a == (maxActive * clusterRest) * d.cluster;
    DivModIs(a, d.cluster, maxActive * clusterRest, 0);
    DivModIs(d.Size(), d.cluster, d.s * (d.b * d.split), 0);
    assert maxActive * clusterRest >= 1;
    TimesGrows(1, maxActive * clusterRest, d.cluster);
    assert d.b * d.split >= 1;
    assert d.s * (d.b * d.split) >= 1;
    TimesGrows(1, d.s * (d.b * d.split), d.cluster);
  }

  /** A block's scheduler for decode. */
  class DecodeScheduler {
    const persistent: bool
    const shape: DecodeShape
    const stride: nat
    const x: nat
    const y: nat
    const z: nat
    var current: nat
    var valid: bool

    constructor (persistent: bool, shape: DecodeShape, stride: nat, x: nat, y: nat, z: nat)
      ensures this.persistent == persistent && this.shape == shape && this.stride == stride
      ensures this.x == x && this.y == y && this.z == z && current == x && valid
    {
      this.persistent, this.shape, this.stride := persistent, shape, stride;
      this.x, this.y, this.z := x, y, z;
      current, valid := x, true;
    }

    function CurrentWork(): (DecodeCoord, bool)
      reads this
      requires shape.Valid()
    {
      if persistent then (DecodeCoordOf(shape, current), current < shape.Size())
      else (GridCoord(shape, x, y, z), valid)
    }

    method Advance()
      modifies this
      ensures persistent ==> current == old(current) + stride && valid == old(valid)
      ensures !persistent ==> current == old(current) && !valid
    {
      if persistent {
        current := current + stride;
      } else {
        valid := false;
      }
    }
  }

  function DecodeCoords(d: DecodeShape, ks: seq<nat>): (xs: seq<DecodeCoord>)
    requires d.Valid()
    ensures |xs| == |ks| && forall i :: 0 <= i < |ks| ==> xs[i] == DecodeCoordOf(d, ks[i])
  {
    seq(|ks|, i requires 0 <= i < |ks| => DecodeCoordOf(d, ks[i]))
  }

  /** The work loop of a decode block, in either mode. */
  method DecodeWork(persistent: bool, d: DecodeShape, stride: nat, x: nat, y: nat, z: nat)
    returns (visited: seq<DecodeCoord>)
    requires d.Valid() && stride > 0
    ensures persistent ==> visited == DecodeCoords(d, Walk(x, stride, d.Size()))
    ensures !persistent ==> visited == [GridCoord(d, x, y, z)]
  {
    var sched := new DecodeScheduler(persistent, d, stride, x, y, z);
    visited := [];
    ghost var all := Walk(x, stride, d.Size());
    ghost var done := [];
    var work := sched.CurrentWork();
    while work.1
      invariant persistent ==> work == (DecodeCoordOf(d, sched.current), sched.current < d.Size())
      invariant persistent ==> all == done + Walk(sched.current, stride, d.Size())
      invariant persistent ==> visited == DecodeCoords(d, done)
      invariant !persistent ==> work == (GridCoord(d, x, y, z), sched.valid)
      invariant !persistent ==> visited == if sched.valid then [] else [GridCoord(d, x, y, z)]
      decreases d.Size() - sched.current, sched.valid
    {
      visited := visited + [work.0];
      done := done + [sched.current];
      sched.Advance();
      work := sched.CurrentWork();
    }
    assert persistent ==> all == done;
  }

  /** Each decode coordinate is the work of exactly one persistent block, once. */
  lemma DecodeCoverage(d: DecodeShape, maxActive: nat, clusterRest: nat, x: DecodeCoord, c: nat, i: nat)
    requires d.Valid() && InDecodeShape(d, x) && c < DecodeGridSize(d, maxActive, clusterRest)
    ensures var stride := DecodeGridSize(d, maxActive, clusterRest); var k := DecodeIndexOf(d, x);
            var visited := DecodeCoords(d, Walk(c, stride, d.Size()));
            i < |visited| && visited[i] == x <==> c == k % stride && i == k / stride
  {
    var stride := DecodeGridSize(d, maxActive, clusterRest);
    DecodeIndexRoundTrip(d, x);
    WalksPartition(stride, d.Size(), DecodeIndexOf(d, x), c, i);
    if i < |Walk(c, stride, d.Size())| {
      DecodeInside(d, stride, Walk(c, stride, d.Size())[i], c, i);
    }
  }

  lemma DecodeInside(d: DecodeShape, stride: nat, k: nat, c: nat, i: nat)
    requires d.Valid() && stride > 0 && Takes(c, i, stride, d.Size(), k)
    ensures InDecodeShape(d, DecodeCoordOf(d, k)) && DecodeIndexOf(d, DecodeCoordOf(d, k)) == k
  {
    WalksStayInside(stride, d.Size(), k, c, i);
    DecodeCoordRoundTrip(d, k);
  }

  /** The index a block of cluster q with rank r has in iteration i. */
  function ClusterIndex(d: DecodeShape, stride: nat, q: nat, r: nat, i: nat): nat {
    q * d.cluster + r + i * stride
  }

  /**
   In every iteration the blocks of a cluster work on the same query tile, batch and
   split, each with its own cluster index, and either all or none of them have work.
   */
  lemma ClusterTogether(d: DecodeShape, maxActive: nat, clusterRest: nat, q: nat, r: nat, i: nat)
    requires d.Valid() && maxActive > 0 && clusterRest > 0 && r < d.cluster
    ensures var stride := DecodeGridSize(d, maxActive, clusterRest);
            var k, k0 := ClusterIndex(d, stride, q, r, i), ClusterIndex(d, stride, q, 0, i);
            && DecodeCoordOf(d, k) == DecodeCoordOf(d, k0).(cluster := r)
            && (k < d.Size() <==> k0 < d.Size())
  {
    var stride := DecodeGridSize(d, maxActive, clusterRest);
    DecodeGridInClusters(d, maxActive, clusterRest);
    ClusterBase(d.cluster, stride, q, i);
    var base := q + i * (stride / d.cluster);
    DivModIs(base * d.cluster + r, d.cluster, base, r);
    DivModIs(base * d.cluster, d.cluster, base, 0);
    ClusterInside(d.cluster, d.s * (d.b * d.split), base, r);
  }

  lemma ClusterBase(cluster: nat, stride: nat, q: nat, i: nat)
    requires cluster > 0 && stride % cluster == 0
    ensures q * cluster + i * stride == (q + i * (stride / cluster)) * cluster
  {
    var per := stride / cluster;
    assert stride == per * cluster;
    assert i * (per * cluster) == (i * per) * cluster;
  }

  lemma ClusterInside(cluster: nat, rest: nat, base: nat, r: nat)
    requires r < cluster
    ensures base * cluster + r < cluster * rest <==> base * cluster < cluster * rest
  {
    if base * cluster < rest * cluster {
      LessByTimes(base, rest, cluster);
      TimesGrows(base + 1, rest, cluster);
    }
  }
}

/**
 How the decode kernel's work is cut up: query rows into tiles by folding or
 packing, and keys into uniform partitions.
 */
module MlaDecode {
  import opened Wrappers
  import opened Arith

  // ---- query tiles ----

  datatype TileLayout = TileLayout(totalRows: nat, numTiles: nat, tailRows: nat)

  /** Rows, tiles and valid rows of the last tile when query rows are packed. */
  function QTileLayout(heads: int, queries: int, tile: int): Result<TileLayout> {
    if Min(heads, Min(queries, tile)) <= 0 || heads > tile then Err("Require positive H, Sq and M, with H <= M")
    else
      assert heads * queries > 0;
      var total := heads * queries;
      var tiles := CeilDiv(total, tile);
      CeilIs(total, tile);
      LastTile(total, tile);
      Ok(TileLayout(total, tiles, total - (tiles - 1) * tile))
  }

  lemma LastTile(total: nat, tile: nat)
    requires total > 0 && tile > 0
    ensures var n := CeilDiv(total, tile); n >= 1 && 1 <= total - (n - 1) * tile <= tile
  {
    CeilIs(total, tile);
    var n := CeilDiv(total, tile);
    LessByTimes(0, n, tile);
    assert n * tile == (n - 1) * tile + tile;
  }

  predicate Tight(l: TileLayout, total: int, tile: int) {
    && l.totalRows == total == (l.numTiles - 1) * tile + l.tailRows
    && 1 <= l.tailRows <= tile && l.numTiles >= 1
  }

  /** All tiles but the last are full, and the last holds between one row and a tile of them. */
  lemma LayoutIsTight(heads: int, queries: int, tile: int)
    requires QTileLayout(heads, queries, tile).Ok?
    ensures var l := QTileLayout(heads, queries, tile).value;
            Tight(l, heads * queries, tile) && heads > 0 && queries > 0
  {
    LastTile(heads * queries, tile);
  }

  /** Where the row of a query token and head goes. */
  function RowOf(heads: nat, tile: nat, token: nat, head: nat): (nat, nat)
    requires tile > 0
  {
    var row := token * heads + head;
    (row / tile, row % tile)
  }

  /** The token and head of a row of a tile. */
  function TokenOf(heads: nat, tile: nat, at: (nat, nat)): (nat, nat)
    requires heads > 0
  {
    var row := at.0 * tile + at.1;
    (row / heads, row % heads)
  }

  /** A valid row of a tile: any row of a full tile, or one below the tail of the last. */
  predicate ValidRow(l: TileLayout, tile: nat, at: (nat, nat)) {
    at.0 < l.numTiles && at.1 < (if at.0 == l.numTiles - 1 then l.tailRows else tile)
  }

  lemma PackRoundTrip(heads: nat, queries: nat, tile: nat, token: nat, head: nat)
    requires QTileLayout(heads, queries, tile).Ok? && token < queries && head < heads
    ensures var at := RowOf(heads, tile, token, head);
            TokenOf(heads, tile, at) == (token, head) && ValidRow(QTileLayout(heads, queries, tile).value, tile, at)
  {
    var row := token * heads + head;
    LayoutIsTight(heads, queries, tile);
    RowBelow(heads, queries, token, head);
    RowFits(row, QTileLayout(heads, queries, tile).value, heads * queries, tile);
    PackedBack(heads, tile, token, head, row);
  }

  lemma RowBelow(heads: nat, queries: nat, token: nat, head: nat)
    requires token < queries && head < heads
    ensures token * heads + head < heads * queries
  {
    TimesGrows(token + 1, queries, heads);
  }

  lemma PackedBack(heads: nat, tile: nat, token: nat, head: nat, row: nat)
    requires head < heads && tile > 0 && row == token * heads + head
    ensures TokenOf(heads, tile, (row / tile, row % tile)) == (token, head)
  {
    assert row == (row / tile) * tile + row % tile;
    DivModIs(row, heads, token, head);
  }

  lemma RowFits(row: nat, l: TileLayout, total: nat, tile: nat)
    requires Tight(l, total, tile) && row < total
    ensures ValidRow(l, tile, (row / tile, row % tile))
  {
    assert row == (row / tile) * tile + row % tile;
    assert l.numTiles * tile == (l.numTiles - 1) * tile + tile;
    LessByTimes(row / tile, l.numTiles, tile);
  }

  lemma UnpackRoundTrip(heads: nat, queries: nat, tile: nat, at: (nat, nat))
    requires QTileLayout(heads, queries, tile).Ok? && ValidRow(QTileLayout(heads, queries, tile).value, tile, at)
    ensures var (token, head) := TokenOf(heads, tile, at);
            token < queries && head < heads && RowOf(heads, tile, token, head) == at
  {
    LayoutIsTight(heads, queries, tile);
    RowInside(at, QTileLayout(heads, queries, tile).value, heads * queries, tile);
    UnpackedBack(heads, queries, tile, at, at.0 * tile + at.1);
  }

  lemma UnpackedBack(heads: nat, queries: nat, tile: nat, at: (nat, nat), row: nat)
    requires heads > 0 && at.1 < tile && row == at.0 * tile + at.1 < heads * queries
    ensures var token, head := row / heads, row % heads;
            token < queries && head < heads && RowOf(heads, tile, token, head) == at
  {
    DivModIs(row, tile, at.0, at.1);
    TokenInside(row, heads, queries);
  }

  lemma RowInside(at: (nat, nat), l: TileLayout, total: nat, tile: nat)
    requires Tight(l, total, tile) && ValidRow(l, tile, at)
    ensures at.1 < tile && at.0 * tile + at.1 < total
  {
    if at.0 < l.numTiles - 1 {
      TimesGrows(at.0 + 1, l.numTiles - 1, tile);
    }
  }

  lemma TokenInside(row: nat, heads: nat, queries: nat)
    requires heads > 0 && row < heads * queries
    ensures row / heads < queries && (row / heads) * heads + row % heads == row
  {
    assert row == (row / heads) * heads + row % heads;
    LessByTimes(row / heads, queries, heads);
  }

  // ---- folding ----

  /** A fold factor: a number of query tokens whose heads fit one tile and that divides the query length. */
  predicate LegalFold(heads: nat, queries: nat, tile: nat, f: nat) {
    f > 0 && queries % f == 0 && heads * f <= tile
  }

  /** The largest legal fold, or 1 if there is none. */
  ghost predicate IsFold(heads: nat, queries: nat, tile: nat, f: nat) {
    && f >= 1 && queries % f == 0
    && (f == 1 || LegalFold(heads, queries, tile, f))
    && forall g: nat :: LegalFold(heads, queries, tile, g) ==> g <= f
  }

  method FoldSqFactor(heads: int, queries: int, tile: int) returns (f: nat)
    ensures heads <= 0 || queries <= 0 || tile <= 0 ==> f == 1
    ensures heads > 0 && queries > 0 && tile > 0 ==> IsFold(heads, queries, tile, f)
  {
    if heads <= 0 || queries <= 0 || tile <= 0 {
      return 1;
    }
    var maxFold := Min(queries, tile / heads);
    forall g: nat | LegalFold(heads, queries, tile, g)
      ensures g <= maxFold
    {
      BelowFloor(g, tile, heads);
      DividesBelow(queries, g);
    }
    var candidate := maxFold;
    while candidate > 1
      invariant candidate <= maxFold
      invariant forall g: nat :: LegalFold(heads, queries, tile, g) && candidate < g ==> g <= 1
    {
      if queries % candidate == 0 {
        FloorIs(tile, heads);
        TimesGrows(candidate, tile / heads, heads);
        return candidate;
      }
      candidate := candidate - 1;
    }
    return 1;
  }

  lemma DividesBelow(n: nat, g: nat)
    requires n > 0 && g > 0 && n % g == 0
    ensures g <= n
  {
    assert n == (n / g) * g;
    if n / g >= 1 {
      TimesGrows(1, n / g, g);
    }
  }

  /** Folding by f takes one tile per group of f tokens; packing never takes more. */
  lemma PackingNeverMore(heads: nat, queries: nat, tile: nat, f: nat)
    requires heads > 0 && queries > 0 && tile > 0 && LegalFold(heads, queries, tile, f)
    ensures CeilDiv(heads * queries, tile) <= queries / f
  {
    var groups := queries / f;
    assert queries == groups * f;
    TimesGrows(heads * f, tile, groups);
    assert heads * queries == (heads * f) * groups;
    assert tile * groups == groups * tile;
    CeilIs(heads * queries, tile);
    LessByTimes(CeilDiv(heads * queries, tile) - 1, groups, tile);
  }

  /** A head count over the tile size packs into more tiles than there are queries. */
  lemma TooManyHeads(heads: nat, queries: nat, tile: nat)
    requires heads > tile > 0 && queries > 0
    ensures CeilDiv(heads * queries, tile) > queries
  {
    TimesGrows(tile + 1, heads, queries);
    assert (tile + 1) * queries == queries * tile + queries;
    CeilIs(heads * queries, tile);
    LessByTimes(queries, CeilDiv(heads * queries, tile), tile);
  }

  /** The effective heads and query length the kernel is launched with. */
  datatype Effective = Effective(heads: nat, queries: nat, fold: nat, packed: bool)

  /**
   The fold-or-pack choice. `contiguous` says the rows of adjacent query tokens
   follow one another; packing then is chosen exactly when it saves tiles. With f
   the best fold, no layout of either kind takes fewer tiles than the chosen one.
   */
  method ChooseLayout(heads: nat, queries: nat, tile: nat, contiguous: bool) returns (e: Effective, f: nat)
    requires heads > 0 && queries > 0 && tile > 0
    ensures IsFold(heads, queries, tile, f)
    ensures e.packed <==> tile == 128 && contiguous && CeilDiv(heads * queries, tile) < queries / f
    ensures !e.packed ==> e == Effective(heads * f, queries / f, f, false)
    ensures e.packed ==> e == Effective(tile, CeilDiv(heads * queries, tile), 1, true) && heads <= tile
    ensures tile == 128 && contiguous ==> e.queries == Min(CeilDiv(heads * queries, tile), queries / f)
    ensures tile == 128 && contiguous
            ==> forall g: nat :: LegalFold(heads, queries, tile, g) ==> e.queries <= queries / g
  {
    f := FoldSqFactor(heads, queries, tile);
    e := Effective(heads * f, queries / f, f, false);
    var packQ := tile == 128 && CeilDiv(heads * queries, tile) < e.queries && contiguous;
    if heads > tile {
      TooManyHeads(heads, queries, tile);
      QuotientBelow(queries, f);
    }
    if packQ {
      var layout := QTileLayout(heads, queries, tile);
      e := Effective(tile, layout.value.numTiles, 1, true);
    }
    forall g: nat | LegalFold(heads, queries, tile, g)
      ensures CeilDiv(heads * queries, tile) <= queries / g
    {
      PackingNeverMore(heads, queries, tile, g);
    }
  }

  lemma QuotientBelow(n: nat, f: nat)
    requires f > 0
    ensures n / f <= n
  {
    assert n == (n / f) * f + n % f;
    TimesGrows(1, f, n / f);
  }

  // ---- the window of a decode step ----

  /** The sequence length the split is sized for, or the reason the request is refused. */
  function ClampedLength(maxSeqLen: int, windowLeft: int, queries: nat): Result<int> {
    if maxSeqLen <= 0 then Err("max_seq_len must be > 0")
    else if windowLeft < -1 then Err("window_left must be -1 or non-negative")
    else if 0 <= windowLeft < queries - 1 then Err("window_left is smaller than the query block")
    else if windowLeft >= 0 then Ok(Min(maxSeqLen, windowLeft + queries))
    else Ok(maxSeqLen)
  }

  /** Row i of a block of queries at the end of a sequence of n keys may attend to key k. */
  predicate InWindow(n: int, queries: nat, windowLeft: int, i: nat, k: int) {
    0 <= k < n && (windowLeft >= 0 ==> -windowLeft <= k - (n - queries + i) <= windowLeft)
  }

  /** The block and the history the kernel keeps visible, for a request of n keys. */
  function WindowStart(n: int, queries: nat, windowLeft: int): int {
    if windowLeft >= 0 then Max(0, n - queries - windowLeft) else 0
  }

  /**
   An accepted window admits every pair of rows of the block, every key a row may
   attend to is kept, and no request keeps more keys than the clamped length.
   */
  lemma WindowKept(maxSeqLen: int, windowLeft: int, queries: nat, n: int, i: nat, k: int)
    requires ClampedLength(maxSeqLen, windowLeft, queries).Ok? && i < queries <= n <= maxSeqLen
    ensures InWindow(n, queries, windowLeft, i, k) ==> WindowStart(n, queries, windowLeft) <= k < n
    ensures n - queries <= k < n ==> InWindow(n, queries, windowLeft, i, k)
    ensures n - WindowStart(n, queries, windowLeft) <= ClampedLength(maxSeqLen, windowLeft, queries).value
  {
  }

  // ---- splitting the keys ----

  /** The partitions that have tiles, when the candidate's uniform width is kept. */
  function Normalized(tiles: nat, split: nat): int
    requires tiles > 0 && split > 0
  {
    WidthIs(tiles, split);
    CeilDiv(tiles, CeilDiv(tiles, split))
  }

  lemma WidthIs(tiles: nat, split: nat)
    requires tiles > 0 && split > 0
    ensures CeilDiv(tiles, split) >= 1
    ensures (CeilDiv(tiles, split) - 1) * split < tiles <= CeilDiv(tiles, split) * split
  {
    CeilIs(tiles, split);
    LessByTimes(0, CeilDiv(tiles, split), split);
  }

  lemma CeilIsOnly(a: nat, n: nat, c: nat)
    requires n > 0 && (c - 1) * n < a <= c * n
    ensures CeilDiv(a, n) == c
  {
    CeilIs(a, n);
    var d := CeilDiv(a, n);
    LessByTimes(d - 1, c, n);
    LessByTimes(c - 1, d, n);
  }

  /** Normalizing keeps the width, drops only empty partitions and is idempotent. */
  lemma NormalizedSplit(tiles: nat, split: nat)
    requires tiles > 0 && split > 0
    ensures var n := Normalized(tiles, split); var width := CeilDiv(tiles, split);
            && 1 <= n <= split
            && (n - 1) * width < tiles <= n * width
            && CeilDiv(tiles, n) == width
            && Normalized(tiles, n) == n
  {
    WidthIs(tiles, split);
    var width := CeilDiv(tiles, split);
    WidthIs(tiles, width);
    var n := Normalized(tiles, split);
    assert (n - 1) * width < split * width;
    LessByTimes(n - 1, split, width);
    TimesGrows(n, split, width - 1);
    assert n * (width - 1) == (width - 1) * n && split * (width - 1) == (width - 1) * split;
    assert n * width == width * n;
    CeilIsOnly(tiles, n, width);
  }

  /** The tiles of partition p, for any request: from `lo` on, `width` at a time. */
  function PartitionStart(lo: int, width: int, p: nat): int { lo + p * width }

  function PartitionCount(lo: int, total: int, width: int, p: nat): int {
    Max(0, Min(total, PartitionStart(lo, width, p) + width) - PartitionStart(lo, width, p))
  }

  predicate InPartition(lo: int, total: int, width: int, p: nat, tile: int) {
    PartitionStart(lo, width, p) <= tile < PartitionStart(lo, width, p) + PartitionCount(lo, total, width, p)
  }

  /** Every tile of a request is in exactly one of the partitions, whatever their number. */
  lemma PartitionsCover(lo: int, total: int, split: nat, tile: int, p: nat)
    requires 0 <= lo <= tile < total && split > 0
    ensures var width := CeilDiv(total - lo, split);
            && width >= 1 && (tile - lo) / width < split
            && (InPartition(lo, total, width, p, tile) <==> p == (tile - lo) / width)
  {
    WidthIs(total - lo, split);
    var width := CeilDiv(total - lo, split);
    var d := tile - lo;
    FloorIs(d, width);
    assert split * width == width * split;
    LessByTimes(d / width, split, width);
    if InPartition(lo, total, width, p, tile) {
      DivModIs(d, width, p, d - p * width);
    }
  }

  /** The first tile of a request of n keys that its window reaches, and the number of its tiles. */
  function FirstTile(n: int, queries: nat, windowLeft: int, tileN: nat): int
    requires tileN > 0
  {
    WindowStart(n, queries, windowLeft) / tileN
  }

  /**
   A request reaches at most one tile more than the split is sized for, and only with a
   window, whose start need not be the start of a tile.
   */
  lemma SpanBounds(maxSeqLen: int, windowLeft: int, queries: nat, n: int, tileN: nat)
    requires ClampedLength(maxSeqLen, windowLeft, queries).Ok? && 0 < queries <= n <= maxSeqLen && tileN > 0
    ensures var tiles := CeilDiv(ClampedLength(maxSeqLen, windowLeft, queries).value, tileN);
            var span := CeilDiv(n, tileN) - FirstTile(n, queries, windowLeft, tileN);
            && 1 <= span <= tiles + 1
            && (windowLeft < 0 ==> span <= tiles && (n == maxSeqLen ==> span == tiles))
  {
    var clamped, start := ClampedLength(maxSeqLen, windowLeft, queries).value, WindowStart(n, queries, windowLeft);
    WindowKept(maxSeqLen, windowLeft, queries, n, 0, 0);
    SpanOf(n, start, clamped, tileN);
    if windowLeft < 0 {
      CeilGrows(n, maxSeqLen, tileN);
    }
  }

  lemma CeilGrows(a: int, b: int, n: nat)
    requires a <= b && n > 0
    ensures CeilDiv(a, n) <= CeilDiv(b, n)
  {
    CeilIs(a, n);
    CeilIs(b, n);
    LessByTimes(CeilDiv(a, n) - 1, CeilDiv(b, n), n);
  }

  lemma SpanOf(n: int, start: int, clamped: int, tileN: nat)
    requires 0 <= start < n && n - start <= clamped && tileN > 0
    ensures 1 <= CeilDiv(n, tileN) - start / tileN <= CeilDiv(clamped, tileN) + 1
  {
    var total, lo, tiles := CeilDiv(n, tileN), start / tileN, CeilDiv(clamped, tileN);
    CeilIs(n, tileN);
    CeilIs(clamped, tileN);
    FloorIs(start, tileN);
    LessByTimes(lo, total, tileN);
    assert (total - 1) * tileN < (tiles + lo + 1) * tileN by {
      assert (tiles + lo + 1) * tileN == tiles * tileN + (lo + 1) * tileN;
    }
    LessByTimes(total - 1, tiles + lo + 1, tileN);
  }

  /** No partition of a request that reaches the tiles from `lo` to `total` is empty. */
  ghost predicate NoneEmpty(lo: int, total: int, split: nat)
    requires split > 0
  {
    forall p: nat :: p < split ==> HasTile(lo, total, split, p)
  }

  predicate HasTile(lo: int, total: int, split: nat, p: nat)
    requires split > 0
  {
    PartitionCount(lo, total, CeilDiv(total - lo, split), p) >= 1
  }

  /** For any request and any split: none is empty if and only if the last one starts inside. */
  lemma NoneEmptyIff(lo: int, total: int, split: nat)
    requires lo < total && split > 0
    ensures NoneEmpty(lo, total, split) <==> (split - 1) * CeilDiv(total - lo, split) < total - lo
  {
    WidthIs(total - lo, split);
    var width := CeilDiv(total - lo, split);
    if (split - 1) * width < total - lo {
      forall p: nat | p < split
        ensures HasTile(lo, total, split, p)
      {
        TimesGrows(p, split - 1, width);
      }
    } else {
      assert !HasTile(lo, total, split, split - 1);
    }
  }

  /**
   With a normalized split, no partition of a request that reaches as many tiles as the
   split is sized for is empty; and of one that reaches a tile more, if and only if the
   split does not divide the tiles or is at most one more than the tiles of a partition.
   */
  lemma NoEmptyPartition(tiles: nat, candidate: nat, lo: int, total: int)
    requires tiles > 0 && candidate > 0 && tiles <= total - lo <= tiles + 1
    ensures var split := Normalized(tiles, candidate);
            && split > 0
            && (NoneEmpty(lo, total, split)
               <==> total - lo == tiles || tiles % split != 0 || split <= tiles / split + 1)
  {
    NormalizedSplit(tiles, candidate);
    var split := Normalized(tiles, candidate);
    NoneEmptyIff(lo, total, split);
    if total - lo == tiles + 1 {
      WidthIs(tiles, split);
      OneTileMore(tiles, split, CeilDiv(tiles, candidate));
    }
  }

  lemma OneTileMore(tiles: nat, split: nat, width: nat)
    requires split > 0 && width > 0 && (split - 1) * width < tiles && (width - 1) * split < tiles <= width * split
    ensures (split - 1) * CeilDiv(tiles + 1, split) < tiles + 1 <==> tiles % split != 0 || split <= tiles / split + 1
  {
    if tiles == width * split {
      FullTileMore(split, width, tiles);
    } else {
      CeilIsOnly(tiles + 1, split, width);
      NoMultiple(tiles, split, width);
    }
  }

  lemma FullTileMore(split: nat, width: nat, tiles: nat)
    requires split > 0 && width > 0 && tiles == width * split
    ensures tiles % split == 0 && tiles / split == width
    ensures (split - 1) * CeilDiv(tiles + 1, split) < tiles + 1 <==> split <= width + 1
  {
    DivModIs(tiles, split, width, 0);
    assert (width + 1) * split == width * split + split;
    CeilIsOnly(tiles + 1, split, width + 1);
    assert (split - 1) * (width + 1) == width * split + split - width - 1;
  }

  lemma NoMultiple(tiles: nat, split: nat, width: nat)
    requires split > 0 && (width - 1) * split < tiles < width * split
    ensures tiles % split != 0
  {
    var q := tiles / split;
    assert tiles == q * split + tiles % split;
    if tiles % split == 0 {
      LessByTimes(q, width, split);
      LessByTimes(width - 1, q, split);
    }
  }

  /** A window of 511 keys before one query, in tiles of 128, may be split into four partitions. */
  lemma WindowedSplit()
    ensures ClampedLength(576, 511, 1) == Ok(512) && CeilDiv(512, 128) == Normalized(4, 4) == 4
  {
  }

  /** A request of 576 keys reaches the tiles from the first to the fifth. */
  lemma WindowedSpan()
    ensures FirstTile(576, 1, 511, 128) == 0 && CeilDiv(576, 128) == 5
  {
  }

  /** Of five tiles the last of four partitions gets none. */
  lemma WindowedEmpty()
    ensures !NoneEmpty(0, 5, 4)
  {
    assert !HasTile(0, 5, 4, 3);
  }

  const MAX_SPLITS := 256
  const INT32_LIMIT := 0x8000_0000

  /**
   The split count of the shared-layout kernels: the occupancy candidate raised to the minimum,
   normalized for 8-bit keys.
   */
  function SharedSplit(candidate: nat, minSplit: nat, maxSeqLen: nat, tileN: nat, isFp8: bool): (split: nat)
    requires candidate > 0 && maxSeqLen > 0 && tileN > 0
    ensures 1 <= split <= Max(candidate, minSplit)
  {
    var raised := Max(candidate, minSplit);
    if isFp8 then
      WidthIs(maxSeqLen, tileN);
      NormalizedSplit(CeilDiv(maxSeqLen, tileN), raised);
      Normalized(CeilDiv(maxSeqLen, tileN), raised)
    else raised
  }

  /** It is refused when a minimum was asked for whose workspace, of the given size for each split, is too large. */
  method SplitKv(candidate: nat, minSplit: nat, maxSeqLen: nat, tileN: nat, isFp8: bool, workspace: nat -> nat)
    returns (r: Result<(nat, nat)>)
    requires candidate > 0 && maxSeqLen > 0 && tileN > 0
    ensures var split := SharedSplit(candidate, minSplit, maxSeqLen, tileN, isFp8);
            && (r.Ok? <==> !(minSplit > 1 && workspace(split) >= INT32_LIMIT))
            && (r.Ok? ==> r.value == (split, workspace(split)))
  {
    var split := Max(candidate, minSplit);
    if isFp8 {
      var kTiles := CeilDiv(maxSeqLen, tileN);
      WidthIs(maxSeqLen, tileN);
      NormalizedSplit(kTiles, split);
      var tilesPerSplit := CeilDiv(kTiles, split);
      split := CeilDiv(kTiles, tilesPerSplit);
    }
    var workspaceSize := workspace(split);
    if minSplit > 1 && workspaceSize >= INT32_LIMIT {
      return Err("min_split_kv requires workspace beyond the Int32 offset limit");
    }
    return Ok((split, workspaceSize));
  }

  /** The split count of the packed 256-row kernel, with its limits. */
  method Sm107SplitKv(candidate: nat, minSplit: nat, maxSeqLen: nat, rows: nat, rank: nat) returns (r: Result<nat>)
    requires candidate > 0 && maxSeqLen > 0
    ensures var tiles := CeilDiv(maxSeqLen, 128);
            && tiles > 0
            && var n := Normalized(tiles, Max(candidate, minSplit));
               && (r.Ok? ==> r.value == n)
               && (r.Ok? <==> n <= MAX_SPLITS && (n > 1 ==> rows * n * (rank + 1) < INT32_LIMIT))
  {
    var split := Max(candidate, minSplit);
    var kTiles := CeilDiv(maxSeqLen, 128);
    WidthIs(maxSeqLen, 128);
    NormalizedSplit(kTiles, split);
    split := CeilDiv(kTiles, CeilDiv(kTiles, split));
    if split > MAX_SPLITS {
      return Err("split_kv exceeds MAX_SPLITS");
    }
    if split > 1 && rows * split * (rank + 1) >= INT32_LIMIT {
      return Err("split-KV workspace exceeds the Int32 offset limit");
    }
    return Ok(split);
  }

  // ---- the reducer ----

  function BitLength(n: nat): nat {
    if n == 0 then 0 else 1 + BitLength(n / 2)
  }

  function ReducerMaxSplits(split: nat): nat
    requires split > 0
  {
    Max(4, Pow2(BitLength(split - 1)))
  }

  lemma {:induction false} BitLengthIs(n: nat)
    ensures n < Pow2(BitLength(n))
    ensures n > 0 ==> Pow2(BitLength(n) - 1) <= n
  {
    if n > 0 {
      BitLengthIs(n / 2);
    }
  }

  lemma {:induction false} Pow2Grows(a: nat, b: nat)
    ensures a <= b ==> Pow2(a) <= Pow2(b)
    ensures Pow2(a) < Pow2(b) ==> a < b
    decreases a + b
  {
    if a > 0 && b > 0 {
      Pow2Grows(a - 1, b - 1);
    } else if b > 0 {
      Pow2Grows(a, b - 1);
    } else if a > 0 {
      Pow2Grows(a - 1, b);
    }
  }

  /** The least power of two that is at least four and covers the splits. */
  lemma ReducerIsLeast(split: nat, n: nat)
    requires split > 0
    ensures ReducerMaxSplits(split) >= 4 && ReducerMaxSplits(split) >= split
    ensures exists m :: ReducerMaxSplits(split) == Pow2(m)
    ensures Pow2(n) >= 4 && Pow2(n) >= split ==> ReducerMaxSplits(split) <= Pow2(n)
  {
    var m := BitLength(split - 1);
    BitLengthIs(split - 1);
    assert Pow2(2) == 4;
    assert ReducerMaxSplits(split) == Pow2(if m < 2 then 2 else m) by {
      Pow2Grows(m, 2);
      Pow2Grows(2, m);
    }
    if Pow2(n) >= split && m > 0 {
      Pow2Grows(m - 1, n);
      Pow2Grows(m, n);
    } else {
      Pow2Grows(0, n);
    }
  }
}

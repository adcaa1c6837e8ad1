/**
 Attention masks by tiles: which key tiles a query block visits, how many of them
 are visited under a mask at the front and at the back, and the masking of a tile.
 `Visible` is the reference mask, key by key.
 */
module FusedMask {
  import opened Wrappers
  import opened Arith

  datatype MaskType = ResidualMask | WindowMask | WindowMaskInference

  /** A mask; window sizes count keys before and after the diagonal. */
  datatype Mask = Mask(kind: MaskType, left: Option<nat>, right: Option<nat>)

  datatype Score = NegInf | Fin(value: real)

  /** A block of query rows, cut into key tiles. */
  datatype Block = Block(index: nat, rows: nat, keys: nat, seqlenQ: nat, seqlenK: nat)

  function Offset(mask: Mask, b: Block): int {
    if mask.kind == WindowMaskInference then b.seqlenK - b.seqlenQ else 0
  }

  /** What the scheduler and the callers guarantee of a block. */
  predicate ValidBlock(mask: Mask, b: Block) {
    && b.rows > 0 && b.keys > 0
    && b.index * b.rows < b.seqlenQ
    && (if mask.kind == ResidualMask then mask.left.None? && mask.right.None? && b.seqlenK >= 1
        else b.seqlenK >= b.seqlenQ)
  }

  /** Row q of the block may attend to key k. */
  predicate Visible(mask: Mask, b: Block, q: int, k: int) {
    && 0 <= k < b.seqlenK && q < b.seqlenQ
    && (mask.right.Some? ==> k <= q + Offset(mask, b) + mask.right.value)
    && (mask.left.Some? ==> q + Offset(mask, b) - mask.left.value <= k)
  }

  predicate InBlock(b: Block, q: int) {
    b.index * b.rows <= q < (b.index + 1) * b.rows && q < b.seqlenQ
  }

  // ---- the counts ----

  function TripStart(mask: Mask, b: Block): int
    requires b.keys > 0
  {
    if mask.kind != ResidualMask && mask.left.Some? then
      Max((b.index * b.rows + Offset(mask, b) - mask.left.value) / b.keys, 0)
    else 0
  }

  function TripEnd(mask: Mask, b: Block): int
    requires b.keys > 0
  {
    var all := CeilDiv(b.seqlenK, b.keys);
    if mask.kind != ResidualMask && mask.right.Some? then
      Min(all, CeilDiv((b.index + 1) * b.rows + Offset(mask, b) + mask.right.value, b.keys))
    else all
  }

  function TripCount(mask: Mask, b: Block): int
    requires b.keys > 0
  {
    TripEnd(mask, b) - TripStart(mask, b)
  }

  /** The last tile under the leading mask. */
  function LeadingEnd(mask: Mask, b: Block): int
    requires b.keys > 0
  {
    var begin := TripStart(mask, b);
    if mask.kind == ResidualMask then begin
    else if mask.left.Some? then
      Min(CeilDiv((b.index + 1) * b.rows + Offset(mask, b) - mask.left.value, b.keys) - 1,
          TripCount(mask, b) + begin - 1)
    else begin - 1
  }

  /** The first tile under the trailing mask. */
  function TrailingBegin(mask: Mask, b: Block): int
    requires b.keys > 0
  {
    var last := TripCount(mask, b) + TripStart(mask, b) - 1;
    if mask.right.Some? then
      Min((b.index * b.rows + Offset(mask, b) + mask.right.value) / b.keys, last)
    else last
  }

  predicate Windowed(mask: Mask) {
    mask.kind != ResidualMask && (mask.left.Some? || mask.right.Some?)
  }

  function LeadingCount(mask: Mask, b: Block): int
    requires b.keys > 0
  {
    if Windowed(mask) then Max(LeadingEnd(mask, b) - TripStart(mask, b) + 1, 0) else 0
  }

  function TrailingCount(mask: Mask, b: Block): int
    requires b.keys > 0
  {
    if Windowed(mask) then
      var end := TripCount(mask, b) + TripStart(mask, b) - 1;
      if TrailingBegin(mask, b) <= LeadingEnd(mask, b) then Max(end - LeadingEnd(mask, b), 0)
      else Max(end - TrailingBegin(mask, b) + 1, 0)
    else if mask.kind != ResidualMask then 0
    else if b.seqlenK % b.keys != 0 then 1
    else 0
  }

  function UnmaskedCount(mask: Mask, b: Block): int
    requires b.keys > 0
  {
    TripCount(mask, b) - LeadingCount(mask, b) - TrailingCount(mask, b)
  }

  /** The i-th visited tile is visited under the mask. */
  predicate MaskedStep(mask: Mask, b: Block, i: int)
    requires b.keys > 0
  {
    i < LeadingCount(mask, b) || LeadingCount(mask, b) + UnmaskedCount(mask, b) <= i
  }

  // ---- every block visits at least one tile ----

  lemma StartBounds(mask: Mask, b: Block)
    requires ValidBlock(mask, b)
    ensures 0 <= TripStart(mask, b)
    ensures TripStart(mask, b) * b.keys <= b.index * b.rows + Max(Offset(mask, b), 0) < b.seqlenK
            || TripStart(mask, b) == 0
    ensures mask.kind != ResidualMask && mask.left.Some? ==>
              var a := b.index * b.rows + Offset(mask, b) - mask.left.value;
              TripStart(mask, b) * b.keys <= Max(a, 0)
  {
  }

  lemma EndBounds(mask: Mask, b: Block)
    requires ValidBlock(mask, b)
    ensures (TripEnd(mask, b) - 1) * b.keys < b.seqlenK
    ensures mask.kind == ResidualMask || mask.right.None? ==> b.seqlenK <= TripEnd(mask, b) * b.keys
    ensures mask.kind != ResidualMask && mask.right.Some? ==>
              var a := (b.index + 1) * b.rows + Offset(mask, b) + mask.right.value;
              Min(b.seqlenK, a) <= TripEnd(mask, b) * b.keys
  {
    CeilIs(b.seqlenK, b.keys);
    if mask.kind != ResidualMask && mask.right.Some? {
      var a := (b.index + 1) * b.rows + Offset(mask, b) + mask.right.value;
      CeilIs(a, b.keys);
      TimesGrows(TripEnd(mask, b) - 1, CeilDiv(b.seqlenK, b.keys) - 1, b.keys);
    }
  }

  lemma SomeTile(mask: Mask, b: Block)
    requires ValidBlock(mask, b)
    ensures TripCount(mask, b) >= 1
  {
    StartBounds(mask, b);
    EndBounds(mask, b);
    assert (b.index + 1) * b.rows == b.index * b.rows + b.rows;
    assert TripStart(mask, b) * b.keys < TripEnd(mask, b) * b.keys;
    LessByTimes(TripStart(mask, b), TripEnd(mask, b), b.keys);
  }

  /** The three loops together visit every tile once, and none a negative number of times. */
  lemma CountsTile(mask: Mask, b: Block)
    requires ValidBlock(mask, b)
    ensures TripCount(mask, b) >= 1
    ensures LeadingCount(mask, b) >= 0 && UnmaskedCount(mask, b) >= 0 && TrailingCount(mask, b) >= 0
    ensures LeadingCount(mask, b) + UnmaskedCount(mask, b) + TrailingCount(mask, b) == TripCount(mask, b)
  {
    SomeTile(mask, b);
    if Windowed(mask) {
      TrailingInside(mask, b);
      if TrailingBegin(mask, b) <= LeadingEnd(mask, b) {
        LeadingReachesStart(mask, b);
      }
    }
  }

  lemma TrailingInside(mask: Mask, b: Block)
    requires ValidBlock(mask, b) && Windowed(mask)
    ensures TripStart(mask, b) <= TrailingBegin(mask, b) < TripEnd(mask, b)
  {
    SomeTile(mask, b);
    if mask.right.Some? {
      var a := b.index * b.rows + Offset(mask, b) + mask.right.value;
      StartBounds(mask, b);
      BelowFloor(TripStart(mask, b), a, b.keys);
    }
  }

  lemma LeadingReachesStart(mask: Mask, b: Block)
    requires ValidBlock(mask, b) && Windowed(mask) && TrailingBegin(mask, b) <= LeadingEnd(mask, b)
    ensures TripStart(mask, b) <= LeadingEnd(mask, b) < TripEnd(mask, b)
  {
    TrailingInside(mask, b);
  }

  /** Whatever a row of the block may attend to lies in a visited tile. */
  lemma VisibleIsVisited(mask: Mask, b: Block, q: int, k: int)
    requires ValidBlock(mask, b) && InBlock(b, q) && Visible(mask, b, q, k)
    ensures TripStart(mask, b) * b.keys <= k < TripEnd(mask, b) * b.keys
  {
    StartBounds(mask, b);
    EndBounds(mask, b);
  }

  /** The key on the diagonal, or the first one, is always visible. */
  function SomeKey(mask: Mask, b: Block, q: int): int {
    if mask.kind == ResidualMask then 0 else q + Offset(mask, b)
  }

  lemma SomeKeyVisible(mask: Mask, b: Block, q: int)
    requires ValidBlock(mask, b) && InBlock(b, q)
    ensures Visible(mask, b, q, SomeKey(mask, b, q))
  {
  }

  // ---- tiles visited without a mask ----

  /** The mask type leaves no invisible key unmasked, decided from the shapes alone. */
  predicate Covered(mask: Mask, b: Block)
    requires b.keys > 0
  {
    mask.kind == ResidualMask || mask.left.Some? || mask.right.Some? || b.seqlenK % b.keys == 0
  }

  lemma LastTileFull(b: Block, t: int, end: int)
    requires b.keys > 0 && t < end && (end - 1) * b.keys < b.seqlenK
    requires t < end - 1 || b.seqlenK % b.keys == 0
    ensures (t + 1) * b.keys <= b.seqlenK
  {
    if t < end - 1 {
      TimesGrows(t + 1, end - 1, b.keys);
    } else {
      var c := b.seqlenK / b.keys;
      assert b.seqlenK == c * b.keys;
      LessByTimes(end - 1, c, b.keys);
      TimesGrows(end, c, b.keys);
    }
  }

  /** A tile between the masked ones is inside the sequence, the right window and the left window. */
  lemma UnmaskedInside(mask: Mask, b: Block, t: int)
    requires ValidBlock(mask, b) && Covered(mask, b)
    requires Unmasked(mask, b, t)
    ensures 0 <= t * b.keys && (t + 1) * b.keys <= b.seqlenK
    ensures mask.right.Some? ==> (t + 1) * b.keys <= b.index * b.rows + Offset(mask, b) + mask.right.value
    ensures mask.left.Some? ==> (b.index + 1) * b.rows + Offset(mask, b) - mask.left.value <= t * b.keys
  {
    CountsTile(mask, b);
    StartBounds(mask, b);
    EndBounds(mask, b);
    var end := TripEnd(mask, b);
    if Windowed(mask) {
      UnmaskedBetween(mask, b, t);
      if mask.right.Some? {
        var a := b.index * b.rows + Offset(mask, b) + mask.right.value;
        FloorIs(a, b.keys);
        TimesGrows(t + 1, a / b.keys, b.keys);
      }
      if mask.left.Some? {
        var a := (b.index + 1) * b.rows + Offset(mask, b) - mask.left.value;
        CeilIs(a, b.keys);
        TimesGrows(CeilDiv(a, b.keys), t, b.keys);
      }
    } else if mask.kind == ResidualMask && b.seqlenK % b.keys != 0 {
      assert t < end - 1;
    }
    LastTileFull(b, t, end);
  }

  lemma UnmaskedBetween(mask: Mask, b: Block, t: int)
    requires ValidBlock(mask, b) && Windowed(mask)
    requires Unmasked(mask, b, t)
    ensures LeadingEnd(mask, b) < t < TrailingBegin(mask, b)
  {
    CountsTile(mask, b);
    TrailingInside(mask, b);
  }

  lemma RowsBelow(b: Block, q: int)
    requires InBlock(b, q)
    ensures b.index * b.rows <= q && q + 1 <= (b.index + 1) * b.rows
  {
  }

  /** Every key of a tile visited without a mask is visible to every row of the block. */
  lemma UnmaskedIsVisible(mask: Mask, b: Block, t: int, q: int, k: int)
    requires ValidBlock(mask, b) && Covered(mask, b)
    requires Unmasked(mask, b, t)
    requires InBlock(b, q) && InTile(b, t, k)
    ensures Visible(mask, b, q, k)
  {
    UnmaskedInside(mask, b, t);
    RowsBelow(b, q);
  }

  /** No tile visited without a mask holds a key invisible to a row of the block. */
  ghost predicate UnmaskedClean(mask: Mask, b: Block)
    requires b.keys > 0
  {
    forall t, q, k :: Unmasked(mask, b, t) && InBlock(b, q) && InTile(b, t, k) ==> Visible(mask, b, q, k)
  }

  predicate Unmasked(mask: Mask, b: Block, t: int)
    requires b.keys > 0
  {
    var from := TripStart(mask, b) + LeadingCount(mask, b);
    from <= t < from + UnmaskedCount(mask, b)
  }

  predicate InTile(b: Block, t: int, k: int) {
    t * b.keys <= k < (t + 1) * b.keys
  }

  /** A window mask without windows visits its partial last tile unmasked. */
  lemma UncoveredLeaks(mask: Mask, b: Block)
    requires ValidBlock(mask, b) && !Covered(mask, b)
    ensures Unmasked(mask, b, TripEnd(mask, b) - 1) && InTile(b, TripEnd(mask, b) - 1, b.seqlenK)
  {
    SomeTile(mask, b);
    EndBounds(mask, b);
    if b.seqlenK == TripEnd(mask, b) * b.keys {
      DivModIs(b.seqlenK, b.keys, TripEnd(mask, b), 0);
    }
  }

  /** The tiling is sound exactly when the shapes are covered. */
  lemma CleanIffCovered(mask: Mask, b: Block)
    requires ValidBlock(mask, b)
    ensures UnmaskedClean(mask, b) <==> Covered(mask, b)
  {
    if Covered(mask, b) {
      forall t, q, k | Unmasked(mask, b, t) && InBlock(b, q) && InTile(b, t, k)
        ensures Visible(mask, b, q, k)
      {
        UnmaskedIsVisible(mask, b, t, q, k);
      }
    } else {
      UncoveredLeaks(mask, b);
      var q := b.index * b.rows;
      assert InBlock(b, q) && !Visible(mask, b, q, b.seqlenK);
    }
  }

  /** One row against a hundred keys in tiles of 128, under a window mask without windows. */
  lemma WindowlessLeak()
    ensures var mask := Mask(WindowMask, None, None); var b := Block(0, 256, 128, 1, 100);
            ValidBlock(mask, b) && !UnmaskedClean(mask, b)
  {
    CleanIffCovered(Mask(WindowMask, None, None), Block(0, 256, 128, 1, 100));
  }

  // ---- masking a tile in place ----

  /** A score under the mask. */
  function Masked(mask: Mask, b: Block, q: int, k: int, s: Score): Score {
    if Visible(mask, b, q, k) then s else NegInf
  }

  /** A window mask without windows masks nothing. */
  predicate Masks(mask: Mask) {
    mask.kind == ResidualMask || mask.left.Some? || mask.right.Some?
  }

  /** Masks the scores of row q against keys k0, k0 + 1, ... in place. */
  method ApplyMask(mask: Mask, b: Block, q: int, k0: nat, acc: array<Score>)
    modifies acc
    ensures forall i :: 0 <= i < acc.Length ==>
              acc[i] == if Masks(mask) then Masked(mask, b, q, k0 + i, old(acc[i])) else old(acc[i])
  {
    var offset := Offset(mask, b);
    for i := 0 to acc.Length
      invariant forall j :: 0 <= j < i ==>
                  acc[j] == if Masks(mask) then Masked(mask, b, q, k0 + j, old(acc[j])) else old(acc[j])
      invariant forall j :: i <= j < acc.Length ==> acc[j] == old(acc[j])
    {
      var k := k0 + i;
      if mask.left.Some? || mask.right.Some? {
        if mask.left.None? {
          if q + offset + mask.right.value < k { acc[i] := NegInf; }
          if k >= b.seqlenK || q >= b.seqlenQ { acc[i] := NegInf; }
        } else if mask.right.None? {
          if q + offset - mask.left.value > k { acc[i] := NegInf; }
          if k >= b.seqlenK || q >= b.seqlenQ { acc[i] := NegInf; }
        } else {
          var maxK := Min(q + offset + mask.right.value, b.seqlenK);
          var minK := Max(0, q + offset - mask.left.value);
          if k > maxK || k < minK { acc[i] := NegInf; }
          if k >= b.seqlenK || q >= b.seqlenQ { acc[i] := NegInf; }
        }
      }
      if mask.kind == ResidualMask {
        if k >= b.seqlenK || q >= b.seqlenQ { acc[i] := NegInf; }
      }
    }
  }
}

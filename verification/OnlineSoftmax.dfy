/**
 The softmax of the attention kernel, one query row and one output column at a
 time, over the reals: scores arrive tile by tile, the running sum and output are
 kept relative to a carried maximum that is raised only when it is exceeded by
 more than a threshold, and fully masked tiles fall back to a maximum of zero.
 The reference is the softmax-weighted mean over the visible keys.
 */
module OnlineSoftmax {
  import opened FusedMask

  // ---- exponentials and logarithms, as far as the kernel relies on them ----

  function At(f: real -> real, x: real): real { f(x) }

  ghost predicate AddLaw(e: real -> real, x: real, y: real) {
    At(e, x + y) == At(e, x) * At(e, y)
  }

  ghost predicate GrowLaw(e: real -> real, x: real, y: real) {
    x <= y ==> At(e, x) <= At(e, y)
  }

  lemma Adds(e: real -> real, x: real, y: real, z: real)
    requires Exp2(e) && z == x + y
    ensures At(e, x) * At(e, y) == At(e, z)
  {
    assert AddLaw(e, x, y);
  }

  lemma UnitAtZero(e: real -> real)
    requires Exp2(e)
    ensures At(e, 0.0) == 1.0
  {
    Adds(e, 0.0, 0.0, 0.0);
    Positive(e, 0.0);
  }

  lemma Grows(e: real -> real, x: real, y: real)
    requires Exp2(e)
    ensures x <= y ==> At(e, x) <= At(e, y)
  {
    assert GrowLaw(e, x, y);
  }

  lemma Positive(e: real -> real, x: real)
    requires Exp2(e)
    ensures At(e, x) > 0.0
  {
  }

  ghost predicate Exp2(e: real -> real) {
    && (forall x :: At(e, x) > 0.0)
    && (forall x, y :: AddLaw(e, x, y))
    && (forall x, y :: GrowLaw(e, x, y))
    && At(e, 1.0) == 2.0
  }

  ghost predicate LogLaw(log: real -> real, a: real, b: real) {
    a > 0.0 && b > 0.0 ==> At(log, Times(a, b)) == At(log, a) + At(log, b)
  }

  ghost predicate LogOfExp(log: real -> real, e: real -> real, ln2: real, x: real) {
    At(log, At(e, x)) == x * ln2
  }

  ghost predicate Log(log: real -> real, e: real -> real, ln2: real) {
    (forall a, b :: LogLaw(log, a, b)) && (forall x :: LogOfExp(log, e, ln2, x))
  }

  /** The kernel's constants; `scale` is the softmax scale times the base-2 logarithm of e. */
  datatype Settings = Settings(
    e: real -> real, log2e: real, scaleSoftmax: real, scale: real, threshold: real, prescale: real)
  {
    function Exp(x: real): real { At(e, Base2(x)) }

    function Base2(x: real): real { x * log2e }
  }

  ghost predicate ValidSettings(cfg: Settings) {
    && Exp2(cfg.e)
    && cfg.scale == cfg.scaleSoftmax * cfg.log2e && cfg.scale > 0.0
    && cfg.threshold >= 0.0
  }

  // ---- one step ----

  datatype RowState = RowState(sum: real, max: Score)

  const START_ROW := RowState(0.0, NegInf)

  function ScoreMax(a: Score, b: Score): Score {
    if a.NegInf? then b else if b.NegInf? || b.value <= a.value then a else b
  }

  function TileMax(s: seq<Score>): Score {
    if s == [] then NegInf else ScoreMax(TileMax(s[..|s| - 1]), s[|s| - 1])
  }

  /** The maximum carried on: raised lazily, zero if everything so far is masked. */
  function NewMax(cfg: Settings, was: Score, s: seq<Score>): real {
    Raised(cfg, was, ScoreMax(was, TileMax(s)))
  }

  function Raised(cfg: Settings, was: Score, m: Score): real {
    var safe := if m.NegInf? then 0.0 else m.value;
    if cfg.threshold > 0.0 && was.Fin? && Excess(safe, was.value, cfg.scale) <= cfg.threshold then was.value
    else safe
  }

  /** The factor by which a raised maximum shrinks what was summed before. */
  function Ratio(cfg: Settings, was: Score, now: real): real {
    if was.NegInf? then 0.0 else At(cfg.e, RatioExponent(cfg, was.value, now))
  }

  function RatioExponent(cfg: Settings, was: real, now: real): real {
    cfg.scale * (was - now)
  }

  function Shift(cfg: Settings, max: real): real {
    (0.0 - max) * cfg.scale + cfg.prescale
  }

  function ExpShifted(cfg: Settings, s: Score, shift: real): real {
    if s.NegInf? then 0.0 else At(cfg.e, Fma(s.value, cfg.scale, shift))
  }

  function Fma(x: real, y: real, z: real): real {
    x * y + z
  }

  function Prob(cfg: Settings, max: real, s: Score): real {
    ExpShifted(cfg, s, Shift(cfg, max))
  }

  function Probs(cfg: Settings, max: real, s: seq<Score>): (p: seq<real>)
    ensures |p| == |s| && forall i :: 0 <= i < |s| ==> p[i] == Prob(cfg, max, s[i])
  {
    seq(|s|, i requires 0 <= i < |s| => Prob(cfg, max, s[i]))
  }

  function Total(p: seq<real>): real {
    if p == [] then 0.0 else Total(p[..|p| - 1]) + p[|p| - 1]
  }

  function Dot(p: seq<real>, v: seq<real>): real
    requires |p| == |v|
  {
    if p == [] then 0.0 else Dot(p[..|p| - 1], v[..|v| - 1]) + Times(p[|p| - 1], v[|v| - 1])
  }

  function StateWith(cfg: Settings, st: RowState, now: real, s: seq<Score>): RowState {
    RowState(Times(st.sum, Ratio(cfg, st.max, now)) + Total(Probs(cfg, now, s)), Fin(now))
  }

  function NextState(cfg: Settings, st: RowState, s: seq<Score>): RowState {
    StateWith(cfg, st, NewMax(cfg, st.max, s), s)
  }

  // ---- the step as the kernel performs it ----

  lemma MaxAssociates(a: Score, b: Score, c: Score)
    ensures ScoreMax(ScoreMax(a, b), c) == ScoreMax(a, ScoreMax(b, c))
    ensures ScoreMax(a, b) == ScoreMax(b, a)
  {
  }

  lemma TileMaxTake(s: seq<Score>, i: nat)
    requires i < |s|
    ensures TileMax(s[..i + 1]) == ScoreMax(TileMax(s[..i]), s[i])
  {
    assert s[..i + 1][..i] == s[..i];
  }

  /** The maximum of masked scores, in one chain. */
  method ReduceMax(acc: array<Score>) returns (m: Score)
    ensures m == TileMax(acc[..])
  {
    m := NegInf;
    for i := 0 to acc.Length
      invariant m == TileMax(acc[..i])
    {
      TileMaxTake(acc[..], i);
      assert acc[..][..i] == acc[..i] && acc[..][..i + 1] == acc[..i + 1];
      m := ScoreMax(m, acc[i]);
    }
    assert acc[..acc.Length] == acc[..];
  }

  lemma FourMore(s: seq<Score>, i: nat, a: Score, b: Score)
    requires i + 4 <= |s| && ScoreMax(a, b) == TileMax(s[..i])
    ensures ScoreMax(ScoreMax(ScoreMax(a, s[i]), s[i + 1]), ScoreMax(ScoreMax(b, s[i + 2]), s[i + 3]))
            == TileMax(s[..i + 4])
  {
    TileMaxTake(s, i);
    TileMaxTake(s, i + 1);
    TileMaxTake(s, i + 2);
    TileMaxTake(s, i + 3);
    var m := ScoreMax(a, b);
    assert ScoreMax(ScoreMax(ScoreMax(a, s[i]), s[i + 1]), ScoreMax(ScoreMax(b, s[i + 2]), s[i + 3]))
        == ScoreMax(ScoreMax(ScoreMax(ScoreMax(m, s[i]), s[i + 1]), s[i + 2]), s[i + 3]);
  }

  /** The maximum of unmasked scores, in two chains over groups of four. */
  method PairedMax(acc: array<Score>) returns (m: Score)
    requires acc.Length % 4 == 0
    ensures m == TileMax(acc[..])
  {
    m := NegInf;
    var m2 := NegInf;
    var i := 0;
    while i < acc.Length
      invariant 0 <= i <= acc.Length && i % 4 == 0
      invariant ScoreMax(m, m2) == TileMax(acc[..i])
    {
      assert acc[..][..i] == acc[..i] && acc[..][..i + 4] == acc[..i + 4];
      FourMore(acc[..], i, m, m2);
      m := ScoreMax(m, acc[i]);
      m := ScoreMax(m, acc[i + 1]);
      m2 := ScoreMax(m2, acc[i + 2]);
      m2 := ScoreMax(m2, acc[i + 3]);
      i := i + 4;
    }
    assert acc[..acc.Length] == acc[..];
    m := ScoreMax(m, m2);
  }

  lemma TotalTakeTwo(p: seq<real>, i: nat)
    requires i + 2 <= |p|
    ensures Total(p[..i + 2]) == Total(p[..i]) + p[i] + p[i + 1]
  {
    assert p[..i + 2][..i + 1] == p[..i + 1] && p[..i + 1][..i] == p[..i];
  }

  function Finite(p: seq<real>): (s: seq<Score>)
    ensures |s| == |p| && forall i :: 0 <= i < |p| ==> s[i] == Fin(p[i])
  {
    seq(|p|, i requires 0 <= i < |p| => Fin(p[i]))
  }

  function Exps(f: Score -> real, s: seq<Score>): (p: seq<real>)
    ensures |p| == |s| && forall i :: 0 <= i < |s| ==> p[i] == f(s[i])
  {
    seq(|s|, i requires 0 <= i < |s| => f(s[i]))
  }

  /** Turns scores into probabilities in place with f, summing them into two lanes. */
  method Exponentiate(f: Score -> real, lane: real, acc: array<Score>) returns (sum: real)
    requires acc.Length % 2 == 0
    modifies acc
    ensures acc[..] == Finite(Exps(f, old(acc[..])))
    ensures sum == lane + lane + Total(Exps(f, old(acc[..])))
  {
    ghost var s := acc[..];
    ghost var p := Exps(f, s);
    var lane0, lane1 := lane, lane;
    var i := 0;
    while i < acc.Length
      invariant 0 <= i <= acc.Length && i % 2 == 0
      invariant forall j :: 0 <= j < i ==> acc[j] == Fin(p[j])
      invariant forall j :: i <= j < acc.Length ==> acc[j] == s[j]
      invariant lane0 + lane1 == lane + lane + Total(p[..i])
    {
      var a, b := f(acc[i]), f(acc[i + 1]);
      TotalTakeTwo(p, i);
      acc[i], acc[i + 1] := Fin(a), Fin(b);
      lane0, lane1 := lane0 + a, lane1 + b;
      i := i + 2;
    }
    assert p[..acc.Length] == p;
    sum := lane0 + lane1;
  }

  method RaiseMax(cfg: Settings, was: Score, rowMax: Score) returns (safe: real)
    ensures safe == Raised(cfg, was, rowMax)
  {
    safe := 0.0;
    if rowMax.Fin? {
      safe := rowMax.value;
    }
    if cfg.threshold > 0.0 {
      if was.Fin? && (safe - was.value) * cfg.scale <= cfg.threshold {
        safe := was.value;
      }
    }
  }

  /** Each of the two lanes starts with half of the rescaled sum. */
  function Lane(sum: real, ratio: real): real {
    sum * (ratio * 0.5)
  }

  lemma LanesAdd(cfg: Settings, st: RowState, now: real, s: seq<Score>, lane: real, sum: real)
    requires lane == Lane(st.sum, Ratio(cfg, st.max, now)) && sum == lane + lane + Total(Probs(cfg, now, s))
    ensures RowState(sum, Fin(now)) == StateWith(cfg, st, now, s)
  {
  }

  /** The second half of a step, once the new maximum is known. */
  method FinishStep(cfg: Settings, acc: array<Score>, st: RowState, now: real) returns (next: RowState)
    requires acc.Length % 4 == 0
    modifies acc
    ensures next == StateWith(cfg, st, now, old(acc[..]))
    ensures acc[..] == Finite(Probs(cfg, now, old(acc[..])))
  {
    ghost var s := acc[..];
    var shift := Shift(cfg, now);
    var lane := Lane(st.sum, Ratio(cfg, st.max, now));
    var f := (x: Score) => ExpShifted(cfg, x, shift);
    var sum := Exponentiate(f, lane, acc);
    assert Exps(f, s) == Probs(cfg, now, s);
    LanesAdd(cfg, st, now, s, lane, sum);
    next := RowState(sum, Fin(now));
  }

  /** The scores a step uses. */
  function StepTile(mask: Mask, b: Block, q: int, k0: nat, whetherApplyMask: bool, s: seq<Score>): (t: seq<Score>)
    ensures |t| == |s|
  {
    if whetherApplyMask && Masks(mask) then MaskedTile(mask, b, q, k0, s) else s
  }

  /** Masks the scores if asked to, and takes the maximum of them and the old maximum. */
  method MaskedMax(mask: Mask, b: Block, q: int, k0: nat, whetherApplyMask: bool, acc: array<Score>, was: Score)
    returns (rowMax: Score)
    requires acc.Length % 4 == 0
    modifies acc
    ensures acc[..] == StepTile(mask, b, q, k0, whetherApplyMask, old(acc[..]))
    ensures rowMax == ScoreMax(was, TileMax(acc[..]))
  {
    if whetherApplyMask {
      ApplyMask(mask, b, q, k0, acc);
      var m := ReduceMax(acc);
      rowMax := ScoreMax(was, m);
    } else {
      var m := PairedMax(acc);
      rowMax := ScoreMax(m, was);
      MaxAssociates(m, was, NegInf);
    }
  }

  /**
   One softmax step: the scores in `acc` become probabilities, the old and new
   maximum go to correction, and the state moves on.
   */
  method SoftmaxStep(cfg: Settings, mask: Mask, b: Block, q: int, k0: nat, whetherApplyMask: bool,
                     acc: array<Score>, st: RowState)
    returns (next: RowState, vec: (Score, real))
    requires acc.Length % 4 == 0
    modifies acc
    ensures var s := StepTile(mask, b, q, k0, whetherApplyMask, old(acc[..]));
            && next == NextState(cfg, st, s)
            && vec == (st.max, NewMax(cfg, st.max, s))
            && acc[..] == Finite(Probs(cfg, NewMax(cfg, st.max, s), s))
  {
    var rowMax := MaskedMax(mask, b, q, k0, whetherApplyMask, acc, st.max);
    var safe := RaiseMax(cfg, st.max, rowMax);
    vec := (st.max, safe);
    next := FinishStep(cfg, acc, st, safe);
  }

  function MaskedTile(mask: Mask, b: Block, q: int, k0: nat, s: seq<Score>): (t: seq<Score>)
    ensures |t| == |s| && forall i :: 0 <= i < |s| ==> t[i] == Masked(mask, b, q, k0 + i, s[i])
  {
    seq(|s|, i requires 0 <= i < |s| => Masked(mask, b, q, k0 + i, s[i]))
  }

  // ---- the reference ----

  /** A query row against all keys: raw scores, which keys it may see, and one column of the values. */
  datatype Row = Row(cfg: Settings, raw: nat -> real, vis: nat -> bool, val: nat -> real)

  function RefWeight(x: Row, k: nat): real {
    if x.vis(k) then x.cfg.Exp(ScaledScore(x, k)) else 0.0
  }

  function ScaledScore(x: Row, k: nat): real {
    x.raw(k) * x.cfg.scaleSoftmax
  }

  function RefMass(x: Row, a: nat, b: nat): real {
    if b <= a then 0.0 else RefMass(x, a, b - 1) + RefWeight(x, b - 1)
  }

  function RefMix(x: Row, a: nat, b: nat): real {
    if b <= a then 0.0 else RefMix(x, a, b - 1) + Times(RefWeight(x, b - 1), x.val(b - 1))
  }

  function ScoreOf(x: Row, k: nat): Score {
    if x.vis(k) then Fin(x.raw(k)) else NegInf
  }

  function TileScores(x: Row, k0: nat, n: nat): (s: seq<Score>)
    ensures |s| == n
  {
    seq(n, i requires 0 <= i < n => ScoreOf(x, k0 + i))
  }

  function TileValues(x: Row, k0: nat, n: nat): (v: seq<real>)
    ensures |v| == n
  {
    seq(n, i requires 0 <= i < n => x.val(k0 + i))
  }

  /** What a carried maximum multiplies every weight by. */
  function Factor(cfg: Settings, max: real): real {
    At(cfg.e, FactorExponent(cfg, max))
  }

  function FactorExponent(cfg: Settings, max: real): real {
    cfg.prescale - cfg.scale * max
  }

  /** The mass and the mix of the keys in [a, b), relative to a carried maximum. */
  function MassAt(x: Row, max: real, a: nat, b: nat): real {
    Times(RefMass(x, a, b), Factor(x.cfg, max))
  }

  function MixAt(x: Row, max: real, a: nat, b: nat): real {
    Times(RefMix(x, a, b), Factor(x.cfg, max))
  }

  function Times(a: real, b: real): real { a * b }

  lemma Exponents(raw: real, max: real, pre: real, ss: real, l2: real)
    ensures raw * (ss * l2) + ((0.0 - max) * (ss * l2) + pre) == raw * ss * l2 + (pre - (ss * l2) * max)
  {
  }

  lemma ProbExponent(x: Row, max: real, k: nat)
    requires ValidSettings(x.cfg)
    ensures Fma(x.raw(k), x.cfg.scale, Shift(x.cfg, max))
            == x.cfg.Base2(ScaledScore(x, k)) + FactorExponent(x.cfg, max)
  {
    Exponents(x.raw(k), max, x.cfg.prescale, x.cfg.scaleSoftmax, x.cfg.log2e);
  }

  lemma ProbIsWeight(x: Row, max: real, k: nat)
    requires ValidSettings(x.cfg)
    ensures Prob(x.cfg, max, ScoreOf(x, k)) == Times(RefWeight(x, k), Factor(x.cfg, max))
  {
    var cfg := x.cfg;
    if x.vis(k) {
      ProbExponent(x, max, k);
      Adds(cfg.e, cfg.Base2(ScaledScore(x, k)), FactorExponent(cfg, max), Fma(x.raw(k), cfg.scale, Shift(cfg, max)));
    }
  }

  lemma {:induction false} MassSplit(x: Row, a: nat, b: nat, c: nat)
    requires a <= b <= c
    ensures RefMass(x, a, c) == RefMass(x, a, b) + RefMass(x, b, c)
    ensures RefMix(x, a, c) == RefMix(x, a, b) + RefMix(x, b, c)
  {
    if b < c {
      MassSplit(x, a, b, c - 1);
    }
  }

  lemma {:induction false} MassEmpty(x: Row, a: nat, b: nat)
    requires forall k :: a <= k < b ==> !x.vis(k)
    ensures RefMass(x, a, b) == 0.0 && RefMix(x, a, b) == 0.0
  {
    if a < b {
      MassEmpty(x, a, b - 1);
    }
  }

  lemma {:induction false} MassPositive(x: Row, a: nat, b: nat)
    requires ValidSettings(x.cfg)
    ensures RefMass(x, a, b) >= 0.0
    ensures (exists k :: a <= k < b && x.vis(k)) ==> RefMass(x, a, b) > 0.0
  {
    if a < b {
      MassPositive(x, a, b - 1);
      Positive(x.cfg.e, x.cfg.Base2(ScaledScore(x, b - 1)));
    }
  }

  /** Keys outside [a, b) and outside [0, n) contribute nothing. */
  lemma MassTrim(x: Row, a: nat, b: nat, n: nat)
    requires a <= b && forall k: nat :: x.vis(k) ==> a <= k < b && k < n
    ensures RefMass(x, a, b) == RefMass(x, 0, n) && RefMix(x, a, b) == RefMix(x, 0, n)
  {
    var top := if b < n then n else b;
    MassSplit(x, 0, a, top);
    MassSplit(x, a, b, top);
    MassSplit(x, 0, n, top);
    MassEmpty(x, 0, a);
    MassEmpty(x, b, top);
    MassEmpty(x, n, top);
  }

  // ---- a tile's sums ----

  lemma ProbsTake(x: Row, max: real, k0: nat, n: nat)
    requires n > 0
    ensures Probs(x.cfg, max, TileScores(x, k0, n))[..n - 1] == Probs(x.cfg, max, TileScores(x, k0, n - 1))
    ensures TileValues(x, k0, n)[..n - 1] == TileValues(x, k0, n - 1)
    ensures Probs(x.cfg, max, TileScores(x, k0, n))[n - 1] == Prob(x.cfg, max, ScoreOf(x, k0 + n - 1))
    ensures TileValues(x, k0, n)[n - 1] == x.val(k0 + n - 1)
  {
  }

  lemma Distribute(a: real, w: real, y: real, f: real, all: real)
    requires all == a + Times(w, y)
    ensures Times(all, f) == Times(a, f) + Times(Times(w, f), y)
  {
  }

  lemma MassAtGrows(x: Row, max: real, a: nat, b: nat)
    requires a < b
    ensures MassAt(x, max, a, b) == MassAt(x, max, a, b - 1) + Times(RefWeight(x, b - 1), Factor(x.cfg, max))
    ensures MixAt(x, max, a, b)
            == MixAt(x, max, a, b - 1) + Times(Times(RefWeight(x, b - 1), Factor(x.cfg, max)), x.val(b - 1))
  {
    var f, w := Factor(x.cfg, max), RefWeight(x, b - 1);
    Sums(RefMass(x, a, b - 1), w, RefMass(x, a, b), f);
    Distribute(RefMix(x, a, b - 1), w, x.val(b - 1), f, RefMix(x, a, b));
  }

  lemma TotalsLast(p: seq<real>, v: seq<real>)
    requires |p| == |v| > 0
    ensures Total(p) == Total(p[..|p| - 1]) + p[|p| - 1]
    ensures Dot(p, v) == Dot(p[..|p| - 1], v[..|p| - 1]) + Times(p[|p| - 1], v[|p| - 1])
  {
  }

  lemma {:induction false} TileSums(x: Row, max: real, k0: nat, n: nat)
    requires ValidSettings(x.cfg)
    ensures Total(Probs(x.cfg, max, TileScores(x, k0, n))) == MassAt(x, max, k0, k0 + n)
    ensures Dot(Probs(x.cfg, max, TileScores(x, k0, n)), TileValues(x, k0, n)) == MixAt(x, max, k0, k0 + n)
  {
    if n > 0 {
      var p, v := Probs(x.cfg, max, TileScores(x, k0, n)), TileValues(x, k0, n);
      TileSums(x, max, k0, n - 1);
      ProbIsWeight(x, max, k0 + n - 1);
      ProbsTake(x, max, k0, n);
      MassAtGrows(x, max, k0, k0 + n);
      TotalsLast(p, v);
    }
  }

  // ---- the lazy-rescale invariant ----

  /** The state after the keys in [a, b): relative to the carried maximum, or nothing seen. */
  ghost predicate Fits(x: Row, st: RowState, a: nat, b: nat) {
    if st.max.NegInf? then st.sum == 0.0 && a == b
    else st.sum == MassAt(x, st.max.value, a, b)
  }

  ghost predicate OutputFits(x: Row, st: RowState, o: real, a: nat, b: nat) {
    st.max.Fin? && o == MixAt(x, st.max.value, a, b)
  }

  lemma ExponentMoves(cfg: Settings, was: real, now: real)
    ensures FactorExponent(cfg, was) + RatioExponent(cfg, was, now) == FactorExponent(cfg, now)
  {
  }

  lemma RatioMoves(cfg: Settings, was: real, now: real)
    requires ValidSettings(cfg)
    ensures Factor(cfg, was) * Ratio(cfg, Fin(was), now) == Factor(cfg, now)
  {
    ExponentMoves(cfg, was, now);
    Adds(cfg.e, FactorExponent(cfg, was), RatioExponent(cfg, was, now), FactorExponent(cfg, now));
  }

  /** Moving a sum from factor f to factor g = f * ratio. */
  lemma Moves(m: real, f: real, ratio: real, g: real)
    requires f * ratio == g
    ensures Times(Times(m, f), ratio) == Times(m, g)
  {
    assert (m * f) * ratio == m * (f * ratio);
  }

  lemma MassAtMoves(x: Row, was: real, now: real, a: nat, b: nat)
    requires ValidSettings(x.cfg)
    ensures Times(MassAt(x, was, a, b), Ratio(x.cfg, Fin(was), now)) == MassAt(x, now, a, b)
    ensures Times(MixAt(x, was, a, b), Ratio(x.cfg, Fin(was), now)) == MixAt(x, now, a, b)
  {
    RatioMoves(x.cfg, was, now);
    Moves(RefMass(x, a, b), Factor(x.cfg, was), Ratio(x.cfg, Fin(was), now), Factor(x.cfg, now));
    Moves(RefMix(x, a, b), Factor(x.cfg, was), Ratio(x.cfg, Fin(was), now), Factor(x.cfg, now));
  }

  lemma MassAtSplit(x: Row, max: real, a: nat, b: nat, c: nat)
    requires a <= b <= c
    ensures MassAt(x, max, a, c) == MassAt(x, max, a, b) + MassAt(x, max, b, c)
    ensures MixAt(x, max, a, c) == MixAt(x, max, a, b) + MixAt(x, max, b, c)
  {
    MassSplit(x, a, b, c);
    Sums(RefMass(x, a, b), RefMass(x, b, c), RefMass(x, a, c), Factor(x.cfg, max));
    Sums(RefMix(x, a, b), RefMix(x, b, c), RefMix(x, a, c), Factor(x.cfg, max));
  }

  lemma Sums(a: real, b: real, c: real, f: real)
    requires c == a + b
    ensures Times(c, f) == Times(a, f) + Times(b, f)
  {
  }

  lemma NothingYet(x: Row, max: real, a: nat, ratio: real)
    ensures MassAt(x, max, a, a) == 0.0 && Times(0.0, ratio) == 0.0
  {
  }

  /** Every step keeps the sum relative to the maximum it carries on. */
  lemma StepFits(x: Row, st: RowState, a: nat, k0: nat, n: nat)
    requires ValidSettings(x.cfg) && a <= k0 && Fits(x, st, a, k0)
    ensures Fits(x, NextState(x.cfg, st, TileScores(x, k0, n)), a, k0 + n)
  {
    var now := NewMax(x.cfg, st.max, TileScores(x, k0, n));
    TileSums(x, now, k0, n);
    MassAtSplit(x, now, a, k0, k0 + n);
    if st.max.Fin? {
      MassAtMoves(x, st.max.value, now, a, k0);
    } else {
      NothingYet(x, now, a, Ratio(x.cfg, NegInf, now));
    }
  }

  /** Rescaling the output and adding the next product keeps it relative to the new maximum. */
  lemma OutputStepFits(x: Row, st: RowState, o: real, a: nat, k0: nat, n: nat)
    requires ValidSettings(x.cfg) && a <= k0 && OutputFits(x, st, o, a, k0)
    ensures var s := TileScores(x, k0, n); var now := NewMax(x.cfg, st.max, s);
            OutputFits(x, NextState(x.cfg, st, s),
                       Times(o, Ratio(x.cfg, st.max, now)) + Dot(Probs(x.cfg, now, s), TileValues(x, k0, n)), a, k0 + n)
  {
    var now := NewMax(x.cfg, st.max, TileScores(x, k0, n));
    TileSums(x, now, k0, n);
    MassAtSplit(x, now, a, k0, k0 + n);
    MassAtMoves(x, st.max.value, now, a, k0);
  }

  /** The first product of a tile starts the output afresh. */
  lemma OutputStarts(x: Row, k0: nat, n: nat)
    requires ValidSettings(x.cfg)
    ensures var s := TileScores(x, k0, n); var now := NewMax(x.cfg, NegInf, s);
            OutputFits(x, NextState(x.cfg, START_ROW, s), Dot(Probs(x.cfg, now, s), TileValues(x, k0, n)), k0, k0 + n)
  {
    TileSums(x, NewMax(x.cfg, NegInf, TileScores(x, k0, n)), k0, n);
  }

  /** Correction skips a warp whose maxima did not move: the factor is one there. */
  lemma EqualNeedsNoRescale(cfg: Settings, m: real)
    requires ValidSettings(cfg)
    ensures Ratio(cfg, Fin(m), m) == 1.0
  {
    UnitAtZero(cfg.e);
    assert RatioExponent(cfg, m, m) == 0.0;
  }

  // ---- a row over several tiles ----

  /** The first key of the i-th tile of n keys from key a on. */
  function KeyAt(a: nat, n: nat, i: nat): nat { a + i * n }

  lemma KeyNext(a: nat, n: nat, i: nat)
    ensures KeyAt(a, n, i) + n == KeyAt(a, n, i + 1)
    ensures a <= KeyAt(a, n, i)
  {
  }

  function TileAt(x: Row, a: nat, n: nat, i: nat): seq<Score> {
    TileScores(x, KeyAt(a, n, i), n)
  }

  function ColumnAt(x: Row, a: nat, n: nat, i: nat): seq<real> {
    TileValues(x, KeyAt(a, n, i), n)
  }

  /** The state after i tiles of n keys from key a on. */
  function RowAfter(x: Row, a: nat, n: nat, i: nat): RowState {
    if i == 0 then START_ROW else NextState(x.cfg, RowAfter(x, a, n, i - 1), TileAt(x, a, n, i - 1))
  }

  function MaxAfter(x: Row, a: nat, n: nat, i: nat): real
    requires i > 0
  {
    NewMax(x.cfg, RowAfter(x, a, n, i - 1).max, TileAt(x, a, n, i - 1))
  }

  function ProductAfter(x: Row, a: nat, n: nat, i: nat): real
    requires i > 0
  {
    Dot(Probs(x.cfg, MaxAfter(x, a, n, i), TileAt(x, a, n, i - 1)), ColumnAt(x, a, n, i - 1))
  }

  /** The output after i tiles: rescaled as the maximum moves, products added. */
  function OutputAfter(x: Row, a: nat, n: nat, i: nat): real
    requires i > 0
  {
    if i == 1 then ProductAfter(x, a, n, i)
    else
      Times(OutputAfter(x, a, n, i - 1), Ratio(x.cfg, RowAfter(x, a, n, i - 1).max, MaxAfter(x, a, n, i)))
      + ProductAfter(x, a, n, i)
  }

  lemma {:induction false} RowAfterFits(x: Row, a: nat, n: nat, i: nat)
    requires ValidSettings(x.cfg)
    ensures Fits(x, RowAfter(x, a, n, i), a, KeyAt(a, n, i))
  {
    if i > 0 {
      KeyNext(a, n, i - 1);
      RowAfterFits(x, a, n, i - 1);
      StepFits(x, RowAfter(x, a, n, i - 1), a, KeyAt(a, n, i - 1), n);
    }
  }

  lemma OutputFirst(x: Row, a: nat, n: nat)
    requires ValidSettings(x.cfg)
    ensures OutputFits(x, RowAfter(x, a, n, 1), OutputAfter(x, a, n, 1), a, KeyAt(a, n, 1))
  {
    KeyNext(a, n, 0);
    assert KeyAt(a, n, 0) == a;
    OutputStarts(x, a, n);
  }

  lemma OutputMore(x: Row, a: nat, n: nat, i: nat, k0: nat, k: nat)
    requires ValidSettings(x.cfg) && i > 1 && a <= k0 == KeyAt(a, n, i - 1) && k == k0 + n
    requires OutputFits(x, RowAfter(x, a, n, i - 1), OutputAfter(x, a, n, i - 1), a, k0)
    ensures OutputFits(x, RowAfter(x, a, n, i), OutputAfter(x, a, n, i), a, k)
  {
    assert TileAt(x, a, n, i - 1) == TileScores(x, k0, n) && ColumnAt(x, a, n, i - 1) == TileValues(x, k0, n);
    OutputStepFits(x, RowAfter(x, a, n, i - 1), OutputAfter(x, a, n, i - 1), a, k0, n);
  }

  lemma {:induction false} OutputAfterFits(x: Row, a: nat, n: nat, i: nat)
    requires ValidSettings(x.cfg) && i > 0
    ensures OutputFits(x, RowAfter(x, a, n, i), OutputAfter(x, a, n, i), a, KeyAt(a, n, i))
  {
    if i == 1 {
      OutputFirst(x, a, n);
    } else {
      OutputAfterFits(x, a, n, i - 1);
      KeyNext(a, n, i - 1);
      OutputMore(x, a, n, i, KeyAt(a, n, i - 1), KeyAt(a, n, i));
    }
  }

  // ---- the end of a row ----

  /** The reference output: the weighted mean of the values over the first n keys. */
  function Attention(x: Row, n: nat, scaleOutput: real): real
    requires RefMass(x, 0, n) > 0.0
  {
    Times(Quotient(RefMix(x, 0, n), RefMass(x, 0, n)), scaleOutput)
  }

  function Quotient(a: real, b: real): real
    requires b != 0.0
  {
    a / b
  }

  /** What the epilogue stores. */
  function Normalized(st: RowState, o: real, scaleOutput: real): real
    requires st.sum != 0.0
  {
    Times(o, Quotient(scaleOutput, st.sum))
  }

  function LogSumExp(cfg: Settings, log: real -> real, st: RowState): real
    requires st.max.Fin?
  {
    At(log, st.sum) + Times(cfg.scaleSoftmax, st.max.value)
  }

  lemma Cancels(o: real, sum: real, m: real, w: real, f: real, c: real)
    requires w > 0.0 && f > 0.0 && o == Times(m, f) && sum == Times(w, f)
    ensures sum > 0.0 && Times(o, Quotient(c, sum)) == Times(Quotient(m, w), c)
  {
    assert sum > 0.0;
    var t := c / sum;
    assert t * sum == c;
    var u := m / w;
    assert u * w == m;
    assert o * t == (u * w * f) * t == u * (t * (w * f));
  }

  lemma EndOfRow(x: Row, st: RowState, o: real, a: nat, b: nat, n: nat, scaleOutput: real)
    requires ValidSettings(x.cfg) && a <= b && Fits(x, st, a, b) && OutputFits(x, st, o, a, b)
    requires forall k: nat :: x.vis(k) ==> a <= k < b && k < n
    requires exists k :: x.vis(k)
    ensures RefMass(x, 0, n) > 0.0 && st.sum > 0.0
    ensures Normalized(st, o, scaleOutput) == Attention(x, n, scaleOutput)
  {
    MassTrim(x, a, b, n);
    MassPositive(x, 0, n);
    var f := Factor(x.cfg, st.max.value);
    Positive(x.cfg.e, FactorExponent(x.cfg, st.max.value));
    MassAtTrim(x, st.max.value, a, b, n);
    Cancels(MixAt(x, st.max.value, 0, n), MassAt(x, st.max.value, 0, n), RefMix(x, 0, n), RefMass(x, 0, n), f,
            scaleOutput);
  }

  lemma MassAtTrim(x: Row, max: real, a: nat, b: nat, n: nat)
    requires RefMass(x, a, b) == RefMass(x, 0, n) && RefMix(x, a, b) == RefMix(x, 0, n)
    ensures MassAt(x, max, a, b) == MassAt(x, max, 0, n) && MixAt(x, max, a, b) == MixAt(x, max, 0, n)
  {
  }

  /** The stored log-sum-exp is the reference plus the prescale, which the epilogue does not take back. */
  lemma LseIsOff(x: Row, log: real -> real, ln2: real, st: RowState, a: nat, b: nat, n: nat)
    requires ValidSettings(x.cfg) && Log(log, x.cfg.e, ln2) && ln2 > 0.0 && ln2 * x.cfg.log2e == 1.0
    requires a <= b && Fits(x, st, a, b) && st.max.Fin?
    requires forall k: nat :: x.vis(k) ==> a <= k < b && k < n
    requires exists k :: x.vis(k)
    ensures LogSumExp(x.cfg, log, st) == At(log, RefMass(x, 0, n)) + Times(x.cfg.prescale, ln2)
  {
    MassTrim(x, a, b, n);
    MassPositive(x, 0, n);
    var cfg, max := x.cfg, st.max.value;
    var y := FactorExponent(cfg, max);
    Positive(cfg.e, y);
    MassAtTrim(x, max, a, b, n);
    LogSplits(log, cfg.e, ln2, RefMass(x, 0, n), y);
    assert At(log, st.sum) == At(log, RefMass(x, 0, n)) + Times(y, ln2);
    LogExponent(cfg.prescale, cfg.scaleSoftmax, cfg.log2e, max, ln2);
  }

  lemma LogAdds(log: real -> real, e: real -> real, ln2: real, a: real, b: real)
    requires Log(log, e, ln2) && a > 0.0 && b > 0.0
    ensures At(log, Times(a, b)) == At(log, a) + At(log, b)
  {
    assert LogLaw(log, a, b);
  }

  lemma LogSplits(log: real -> real, e: real -> real, ln2: real, a: real, x: real)
    requires Log(log, e, ln2) && a > 0.0 && At(e, x) > 0.0
    ensures At(log, Times(a, At(e, x))) == At(log, a) + Times(x, ln2)
  {
    LogAdds(log, e, ln2, a, At(e, x));
    assert LogOfExp(log, e, ln2, x);
  }

  lemma LogExponent(pre: real, ss: real, l2: real, max: real, ln2: real)
    requires ln2 * l2 == 1.0
    ensures Times(pre - ss * l2 * max, ln2) == Times(pre, ln2) - Times(ss, max)
  {
    assert ss * l2 * max * ln2 == ss * max * (ln2 * l2);
  }

  // ---- how large a probability gets ----

  lemma {:induction false} TileMaxBounds(s: seq<Score>, i: nat)
    requires i < |s| && s[i].Fin?
    ensures TileMax(s).Fin? && s[i].value <= TileMax(s).value
  {
    if i < |s| - 1 {
      TileMaxBounds(s[..|s| - 1], i);
    }
  }

  /** How far v is above a maximum, scaled. */
  function Excess(v: real, max: real, scale: real): real { (v - max) * scale }

  lemma ExcessGrows(v: real, m: real, max: real, scale: real)
    requires v <= m && scale >= 0.0
    ensures Excess(v, max, scale) <= Excess(m, max, scale)
  {
    assert (m - max) * scale - (v - max) * scale == (m - v) * scale;
  }

  lemma NoExcess(v: real, m: real, scale: real)
    requires v <= m && scale >= 0.0
    ensures Excess(v, m, scale) <= 0.0
  {
  }

  lemma RaisedBounds(cfg: Settings, was: Score, m: real, v: real)
    requires cfg.scale >= 0.0 && cfg.threshold >= 0.0 && v <= m
    ensures Excess(v, Raised(cfg, was, Fin(m)), cfg.scale) <= cfg.threshold
  {
    NoExcess(v, m, cfg.scale);
    if was.Fin? {
      ExcessGrows(v, m, was.value, cfg.scale);
    }
  }

  lemma NewMaxBounds(cfg: Settings, was: Score, s: seq<Score>, i: nat)
    requires ValidSettings(cfg) && i < |s| && s[i].Fin?
    ensures Excess(s[i].value, NewMax(cfg, was, s), cfg.scale) <= cfg.threshold
  {
    TileMaxBounds(s, i);
    RaisedBounds(cfg, was, ScoreMax(was, TileMax(s)).value, s[i].value);
  }

  lemma ExponentIsExcess(cfg: Settings, v: real, now: real)
    ensures Fma(v, cfg.scale, Shift(cfg, now)) == Excess(v, now, cfg.scale) + cfg.prescale
  {
    assert (v - now) * cfg.scale == v * cfg.scale + (0.0 - now) * cfg.scale;
  }

  lemma ProbBounded(cfg: Settings, was: Score, s: seq<Score>, i: nat)
    requires ValidSettings(cfg) && i < |s|
    ensures 0.0 <= Prob(cfg, NewMax(cfg, was, s), s[i]) <= At(cfg.e, cfg.threshold + cfg.prescale)
  {
    var top := cfg.threshold + cfg.prescale;
    Positive(cfg.e, top);
    if s[i].Fin? {
      NewMaxBounds(cfg, was, s, i);
      var v, now := s[i].value, NewMax(cfg, was, s);
      var x := Fma(v, cfg.scale, Shift(cfg, now));
      ExponentIsExcess(cfg, v, now);
      Grows(cfg.e, x, top);
      Positive(cfg.e, x);
    }
  }

  /** The threshold and the prescale the kernel chooses; `log448` is the base-2 logarithm of 448. */
  function Threshold(enableSkipCorrection: bool): real {
    if enableSkipCorrection then 8.0 else 0.0
  }

  function Prescale(log448: real, threshold: real): real {
    var f := (log448 - threshold).Floor as real;
    if f > 0.0 then f else 0.0
  }

  function AppliedPrescale(width: nat, log448: real, threshold: real): real {
    if width == 8 && Prescale(log448, threshold) > 0.0 then Prescale(log448, threshold) else 0.0
  }

  lemma PowersOfTwo(e: real -> real)
    requires Exp2(e)
    ensures At(e, 8.0) == 256.0 && At(e, 9.0) == 512.0
  {
    Adds(e, 1.0, 1.0, 2.0);
    Adds(e, 2.0, 2.0, 4.0);
    Adds(e, 4.0, 4.0, 8.0);
    Adds(e, 8.0, 1.0, 9.0);
  }

  lemma Log448(e: real -> real, log448: real)
    requires Exp2(e) && At(e, log448) == 448.0
    ensures 8.0 < log448 < 9.0
  {
    PowersOfTwo(e);
    assert GrowLaw(e, log448, 8.0) && GrowLaw(e, 9.0, log448);
  }

  lemma PrescaleIs(e: real -> real, log448: real, skip: bool)
    requires Exp2(e) && At(e, log448) == 448.0
    ensures Prescale(log448, Threshold(skip)) == if skip then 0.0 else 8.0
  {
    Log448(e, log448);
  }

  /** A probability, prescaled or not, fits the 8-bit range. */
  lemma ProbFits448(cfg: Settings, log448: real, skip: bool, width: nat, was: Score, s: seq<Score>, i: nat)
    requires ValidSettings(cfg) && At(cfg.e, log448) == 448.0 && i < |s|
    requires cfg.threshold == Threshold(skip) && cfg.prescale == AppliedPrescale(width, log448, cfg.threshold)
    ensures 0.0 <= Prob(cfg, NewMax(cfg, was, s), s[i]) <= 448.0
  {
    ProbBounded(cfg, was, s, i);
    Log448(cfg.e, log448);
    PrescaleIs(cfg.e, log448, skip);
    Grows(cfg.e, cfg.threshold + cfg.prescale, log448);
  }

  /** The stored log-sum-exp is wrong exactly for 8-bit queries without skipped corrections. */
  lemma LseRightIff(x: Row, log: real -> real, ln2: real, st: RowState, a: nat, b: nat, n: nat,
                    log448: real, skip: bool, width: nat)
    requires ValidSettings(x.cfg) && Log(log, x.cfg.e, ln2) && ln2 > 0.0 && ln2 * x.cfg.log2e == 1.0
    requires a <= b && Fits(x, st, a, b) && st.max.Fin?
    requires forall k: nat :: x.vis(k) ==> a <= k < b && k < n
    requires exists k :: x.vis(k)
    requires At(x.cfg.e, log448) == 448.0
    requires x.cfg.threshold == Threshold(skip) && x.cfg.prescale == AppliedPrescale(width, log448, x.cfg.threshold)
    ensures LogSumExp(x.cfg, log, st) == At(log, RefMass(x, 0, n)) <==> !(width == 8 && !skip)
  {
    LseIsOff(x, log, ln2, st, a, b, n);
    PrescaleIs(x.cfg.e, log448, skip);
  }

  /** A row that may see one key, with score zero and value one. */
  function OneKey(cfg: Settings): Row {
    Row(cfg, (k: nat) => 0.0, (k: nat) => k == 0, (k: nat) => 1.0)
  }

  lemma OneKeyMass(cfg: Settings)
    requires ValidSettings(cfg)
    ensures RefMass(OneKey(cfg), 0, 1) == 1.0
  {
    var x := OneKey(cfg);
    UnitAtZero(cfg.e);
    assert cfg.Base2(ScaledScore(x, 0)) == 0.0;
    assert RefMass(x, 0, 0) == 0.0;
  }

  /** For that row, with 8-bit queries and no skipped corrections, 8 ln 2 is stored for a log-sum-exp of zero. */
  lemma LseOffAtOneKey(cfg: Settings, log: real -> real, ln2: real, log448: real)
    requires ValidSettings(cfg) && Log(log, cfg.e, ln2) && ln2 > 0.0 && ln2 * cfg.log2e == 1.0
    requires At(cfg.e, log448) == 448.0
    requires cfg.threshold == Threshold(false) && cfg.prescale == AppliedPrescale(8, log448, cfg.threshold)
    ensures At(log, RefMass(OneKey(cfg), 0, 1)) == 0.0
    ensures var st := RowAfter(OneKey(cfg), 0, 1, 1);
            st.max.Fin? && LogSumExp(cfg, log, st) == Times(8.0, ln2) && Times(8.0, ln2) > 0.0
  {
    var x := OneKey(cfg);
    var st := RowAfter(x, 0, 1, 1);
    RowAfterFits(x, 0, 1, 1);
    OneKeyMass(cfg);
    UnitAtZero(cfg.e);
    assert LogOfExp(log, cfg.e, ln2, 0.0);
    PrescaleIs(cfg.e, log448, false);
    assert x.vis(0);
    LseIsOff(x, log, ln2, st, 0, 1, 1);
  }
}

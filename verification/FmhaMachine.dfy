/**
 The attention kernel with values in its memory: the concurrent roles compute what
 a sequential evaluation of the tiles computes, whatever the interleaving.

 An `Algebra` supplies the arithmetic. `ScoreAt`, `StateAt`, `StatsAt`, `ProbsAt`,
 `SumAt`, `ScaledAt` and `OutAt` evaluate it round by round with no memory at all;
 the machine evaluates it through aliased tensor memory, rings and registers.
 */
module FmhaMachine {
  import opened FmhaProgram
  import opened FmhaProtocol
  import opened FmhaProgress
  import opened FmhaOrder
  import opened FmhaMemory
  import opened FmhaReads

  datatype Algebra<!V> = Algebra(
    query: (Half, nat) -> V,        // rows of a half, for the tile starting in a round
    key: nat -> V,                  // the keys loaded in a round
    value: nat -> V,                // the values loaded in a round
    score: (V, V) -> V,             // S = Q K
    left: V -> V,                   // the parts of S in the three column groups
    middle: V -> V,
    right: V -> V,
    join: (V, V, V) -> V,           // S as read back from them
    start: V,                       // the softmax state at the start of a tile
    step: (Half, nat, V, V) -> V,   // the state after a round's scores
    stats: (V, V) -> V,             // what is stored for correction, from the old and new state
    final: V -> V,                  // what is stored for the epilogue
    probs: (Half, nat, V, V, V) -> V, // P, from the old state, the new state and the scores
    product: (V, V) -> V,           // O = P V
    accumulate: (V, V, V) -> V,     // O + P V
    rescale: (V, V) -> V,           // O, from the statistics and O
    finish: (V, V) -> V             // the output, from the final statistics and O
  )

  /** Reading S back from its columns gives S. */
  ghost predicate Joins<V(!new)>(alg: Algebra<V>) {
    forall q, k :: var x := alg.score(q, k); alg.join(alg.left(x), alg.middle(x), alg.right(x)) == x
  }

  // ---- the sequential evaluation ----

  function ScoreAt<V>(w: seq<Kind>, alg: Algebra<V>, h: Half, r: nat): V
    requires r < |w|
  {
    alg.score(alg.query(h, TileStart(w, r)), alg.key(r))
  }

  /** The state before a round's scores. */
  function OldState<V>(w: seq<Kind>, alg: Algebra<V>, h: Half, r: nat): V
    requires r < |w|
    decreases r, 0
  {
    if r == 0 || w[r] == First then alg.start else StateAt(w, alg, h, r - 1)
  }

  function StateAt<V>(w: seq<Kind>, alg: Algebra<V>, h: Half, r: nat): V
    requires r < |w|
    decreases r, 1
  {
    alg.step(h, r, OldState(w, alg, h, r), ScoreAt(w, alg, h, r))
  }

  function StatsAt<V>(w: seq<Kind>, alg: Algebra<V>, h: Half, r: nat): V
    requires r < |w|
  {
    if w[r] == Last then alg.final(OldState(w, alg, h, r))
    else alg.stats(OldState(w, alg, h, r), StateAt(w, alg, h, r))
  }

  function ProbsAt<V>(w: seq<Kind>, alg: Algebra<V>, h: Half, r: nat): V
    requires r < |w|
  {
    alg.probs(h, r, OldState(w, alg, h, r), StateAt(w, alg, h, r), ScoreAt(w, alg, h, r))
  }

  /** O after the product of a round, which uses P of the round before. */
  function SumAt<V>(w: seq<Kind>, alg: Algebra<V>, h: Half, r: nat): V
    requires 0 < r < |w|
    decreases r, 0
  {
    if r > 1 && w[r - 1] == Middle then
      alg.accumulate(ScaledAt(w, alg, h, r - 1), ProbsAt(w, alg, h, r - 1), alg.value(r))
    else alg.product(ProbsAt(w, alg, h, r - 1), alg.value(r))
  }

  function ScaledAt<V>(w: seq<Kind>, alg: Algebra<V>, h: Half, r: nat): V
    requires 0 < r < |w|
    decreases r, 1
  {
    alg.rescale(StatsAt(w, alg, h, r), SumAt(w, alg, h, r))
  }

  function OutAt<V>(w: seq<Kind>, alg: Algebra<V>, h: Half, r: nat): V
    requires 0 < r < |w|
  {
    alg.finish(StatsAt(w, alg, h, r), SumAt(w, alg, h, r))
  }

  // ---- evaluating one tile ----

  /** The states before and after each step of a tile, P, what moves, and O before and after rescaling. */
  datatype Trace<V> = Trace(state: seq<V>, probs: seq<V>, moved: seq<V>, sum: seq<V>, scaled: seq<V>)

  predicate Sized<V>(tr: Trace<V>, last: nat) {
    |tr.state| == |tr.sum| == last + 1 && |tr.probs| == |tr.moved| == |tr.scaled| == last
  }

  /** From its values so far, scores s and values v, round r computes the trace's next values. */
  ghost predicate ObeysIn<V>(alg: Algebra<V>, h: Half, r: nat, s: V, v: V, last: nat, tr: Trace<V>, i: nat)
    requires Sized(tr, last) && i < last
  {
    && alg.step(h, r, tr.state[i], s) == tr.state[i + 1]
    && alg.probs(h, r, tr.state[i], tr.state[i + 1], s) == tr.probs[i]
    && alg.stats(tr.state[i], tr.state[i + 1]) == tr.moved[i]
    && (i == 0 ==> alg.product(tr.probs[0], v) == tr.sum[1])
    && (i > 0 ==> alg.rescale(tr.moved[i], tr.sum[i]) == tr.scaled[i])
    && (i > 0 ==> alg.accumulate(tr.scaled[i], tr.probs[i], v) == tr.sum[i + 1])
  }

  /** Step i of the tile that starts in round t does. */
  ghost predicate Obeys<V>(w: seq<Kind>, alg: Algebra<V>, h: Half, t: nat, last: nat, tr: Trace<V>, i: nat)
    requires Sized(tr, last) && i < last && t + i < |w|
  {
    ObeysIn(alg, h, t + i, ScoreAt(w, alg, h, t + i), alg.value(t + i + 1), last, tr, i)
  }

  /** Rounds t to t + last are one tile, and the trace obeys the algebra throughout. */
  ghost predicate Traces<V>(w: seq<Kind>, alg: Algebra<V>, h: Half, t: nat, last: nat, tr: Trace<V>) {
    && Sized(tr, last) && 0 < last && t + last < |w|
    && w[t] == First && w[t + last] == Last && (forall r :: t < r < t + last ==> w[r] == Middle)
    && tr.state[0] == alg.start
    && forall i :: 0 <= i < last ==> Obeys(w, alg, h, t, last, tr, i)
  }

  lemma {:induction false} StateTraced<V>(w: seq<Kind>, alg: Algebra<V>, h: Half, t: nat, last: nat, tr: Trace<V>,
                                          i: nat)
    requires Traces(w, alg, h, t, last, tr) && i < last
    ensures OldState(w, alg, h, t + i) == tr.state[i] && StateAt(w, alg, h, t + i) == tr.state[i + 1]
  {
    assert Obeys(w, alg, h, t, last, tr, i);
    if i > 0 {
      StateTraced(w, alg, h, t, last, tr, i - 1);
    }
  }

  lemma ProbsTraced<V>(w: seq<Kind>, alg: Algebra<V>, h: Half, t: nat, last: nat, tr: Trace<V>, i: nat)
    requires Traces(w, alg, h, t, last, tr) && i < last
    ensures ProbsAt(w, alg, h, t + i) == tr.probs[i] && StatsAt(w, alg, h, t + i) == tr.moved[i]
  {
    assert Obeys(w, alg, h, t, last, tr, i);
    StateTraced(w, alg, h, t, last, tr, i);
  }

  lemma SumFollows<V>(w: seq<Kind>, alg: Algebra<V>, h: Half, t: nat, last: nat, tr: Trace<V>, i: nat)
    requires Sized(tr, last) && 0 < i <= last && t + i < |w| && Obeys(w, alg, h, t, last, tr, i - 1)
    requires ProbsAt(w, alg, h, t + i - 1) == tr.probs[i - 1]
    requires if i == 1 then w[t] == First
             else w[t + i - 1] == Middle && ScaledAt(w, alg, h, t + i - 1) == tr.scaled[i - 1]
    ensures SumAt(w, alg, h, t + i) == tr.sum[i]
  {
  }

  lemma {:induction false} SumTraced<V>(w: seq<Kind>, alg: Algebra<V>, h: Half, t: nat, last: nat, tr: Trace<V>, i: nat)
    requires Traces(w, alg, h, t, last, tr) && 0 < i <= last
    ensures SumAt(w, alg, h, t + i) == tr.sum[i]
    decreases i, 0
  {
    assert Obeys(w, alg, h, t, last, tr, i - 1);
    ProbsTraced(w, alg, h, t, last, tr, i - 1);
    if i > 1 {
      ScaledTraced(w, alg, h, t, last, tr, i - 1);
    }
    SumFollows(w, alg, h, t, last, tr, i);
  }

  lemma {:induction false} ScaledTraced<V>(w: seq<Kind>, alg: Algebra<V>, h: Half, t: nat, last: nat, tr: Trace<V>,
                                           i: nat)
    requires Traces(w, alg, h, t, last, tr) && 0 < i < last
    ensures ScaledAt(w, alg, h, t + i) == tr.scaled[i]
    decreases i, 1
  {
    assert Obeys(w, alg, h, t, last, tr, i);
    SumTraced(w, alg, h, t, last, tr, i);
    ProbsTraced(w, alg, h, t, last, tr, i);
  }

  /** The output of a tile is the end of its trace. */
  lemma OutTraced<V>(w: seq<Kind>, alg: Algebra<V>, h: Half, t: nat, last: nat, tr: Trace<V>)
    requires Traces(w, alg, h, t, last, tr)
    ensures OutAt(w, alg, h, t + last) == alg.finish(alg.final(tr.state[last]), tr.sum[last])
  {
    StateTraced(w, alg, h, t, last, tr, last - 1);
    SumTraced(w, alg, h, t, last, tr, last);
  }

  // ---- the machine ----

  /** The registers of a softmax warpgroup. */
  datatype Regs<V> = Regs(state: V, stats: V, probs: V)

  /** Memory, registers, the statistics correction has read, and the stored outputs. */
  datatype Machine<V> = Machine(
    mem: Mem<V>, soft0: Regs<V>, soft1: Regs<V>, vec0: V, vec1: V, out: map<(Half, nat), V>)
  {
    function Soft(h: Half): Regs<V> { if h == H0 then soft0 else soft1 }
    function Vec(h: Half): V { if h == H0 then vec0 else vec1 }
    function SetSoft(h: Half, g: Regs<V>): Machine<V> { if h == H0 then this.(soft0 := g) else this.(soft1 := g) }
    function SetVec(h: Half, v: V): Machine<V> { if h == H0 then this.(vec0 := v) else this.(vec1 := v) }
  }

  function LoadStep<V>(w: seq<Kind>, kv: nat, alg: Algebra<V>, s: Ctl, e: LoadOp, r: nat, x: Machine<V>): Machine<V>
    requires ValidCtl(w, s) && r < |w| && kv > 0 && |x.mem.ring| == kv
  {
    var m := x.mem;
    if e.PutK? then x.(mem := m.(ring := m.ring[Puts(w, s) % kv := alg.key(r)]))
    else if e.PutV? then x.(mem := m.(ring := m.ring[Puts(w, s) % kv := alg.value(r)]))
    else if e.PutQ? then x.(mem := m.SetQ(QSlot(w, s), alg.query(e.q, r)))
    else x
  }

  function TensorStep<V>(w: seq<Kind>, kv: nat, alg: Algebra<V>, e: TensorOp, r: nat, x: Machine<V>): Machine<V>
    requires r < |w| && kv > 0 && |x.mem.ring| == kv
  {
    var m := x.mem;
    if e.QK? then
      var v := alg.score(m.Q(e.h), m.ring[KIndex(w, r) % kv]);
      x.(mem := m.SetBuf(e.h, Buffer(alg.left(v), alg.middle(v), alg.right(v))))
    else if e.PV? then
      var p, v := m.Buf(Other(e.h)).p, m.ring[VIndex(w, r) % kv];
      x.(mem := m.SetO(e.h, if r > 1 && w[r - 1] == Middle then alg.accumulate(m.O(e.h), p, v) else alg.product(p, v)))
    else x
  }

  /** Softmax computes when it reads S, and stores what it computed later. */
  function SoftStep<V>(w: seq<Kind>, alg: Algebra<V>, h: Half, e: SoftOp, r: nat, x: Machine<V>): Machine<V>
    requires r < |w|
  {
    var m, g := x.mem, x.Soft(h);
    if e.ReadS? then
      var v := alg.join(m.Buf(h).vec, m.Buf(h).p, m.Buf(h).rest);
      var was := if w[r] == First then alg.start else g.state;
      var now := alg.step(h, r, was, v);
      x.SetSoft(h, Regs(now, alg.stats(was, now), alg.probs(h, r, was, now, v)))
    else if e.PutVec? then
      x.(mem := m.SetBuf(h, m.Buf(h).(vec := if w[r] == Last then alg.final(g.state) else g.stats)))
    else if e.PutP? then
      x.(mem := m.SetBuf(Other(h), m.Buf(Other(h)).(p := g.probs)))
    else x
  }

  function CorrStep<V>(w: seq<Kind>, alg: Algebra<V>, e: CorrOp, r: nat, x: Machine<V>): Machine<V>
    requires r < |w|
  {
    if e.ReadVec? then x.SetVec(e.h, x.mem.Buf(e.h).vec)
    else if e.UseO? && w[r] == Middle then
      x.(mem := x.mem.SetO(e.h, alg.rescale(x.Vec(e.h), x.mem.O(e.h))))
    else if e.UseO? && w[r] == Last then
      x.(out := x.out[(e.h, r) := alg.finish(x.Vec(e.h), x.mem.O(e.h))])
    else x
  }

  function StepOf<V>(w: seq<Kind>, kv: nat, alg: Algebra<V>, s: Ctl, e: Op, r: nat, x: Machine<V>): Machine<V>
    requires ValidCtl(w, s) && r < |w| && kv > 0 && |x.mem.ring| == kv
  {
    match e
    case L(o) => LoadStep(w, kv, alg, s, o, r, x)
    case M(_) => x
    case T(o) => TensorStep(w, kv, alg, o, r, x)
    case S(h, o) => SoftStep(w, alg, h, o, r, x)
    case C(o) => CorrStep(w, alg, o, r, x)
  }

  // ---- a value stands for a tag ----

  ghost predicate VecMeans<V>(w: seq<Kind>, alg: Algebra<V>, h: Half, t: Tag, v: V) {
    && (t.Scores? && 0 <= t.r < |w| ==> v == alg.left(ScoreAt(w, alg, h, t.r)))
    && (t.Stats? && 0 <= t.r < |w| ==> v == StatsAt(w, alg, h, t.r))
  }

  ghost predicate PMeans<V>(w: seq<Kind>, alg: Algebra<V>, h: Half, t: Tag, v: V) {
    && (t.Scores? && 0 <= t.r < |w| ==> v == alg.middle(ScoreAt(w, alg, h, t.r)))
    && (t.Probs? && 0 <= t.r < |w| ==> v == ProbsAt(w, alg, Other(h), t.r))
  }

  ghost predicate RestMeans<V>(w: seq<Kind>, alg: Algebra<V>, h: Half, t: Tag, v: V) {
    t.Scores? && 0 <= t.r < |w| ==> v == alg.right(ScoreAt(w, alg, h, t.r))
  }

  ghost predicate OMeans<V>(w: seq<Kind>, alg: Algebra<V>, h: Half, t: Tag, v: V) {
    && (t.Sum? && 0 < t.r < |w| ==> v == SumAt(w, alg, h, t.r))
    && (t.Scaled? && 0 < t.r < |w| ==> v == ScaledAt(w, alg, h, t.r))
  }

  ghost predicate LoadMeans<V>(alg: Algebra<V>, t: Tag, v: V) {
    && (t.KTile? && t.r >= 0 ==> v == alg.key(t.r))
    && (t.VTile? && t.r >= 0 ==> v == alg.value(t.r))
    && (t.QTile? && t.r >= 0 ==> v == alg.query(t.h, t.r))
  }

  ghost predicate HalfMeans<V>(w: seq<Kind>, alg: Algebra<V>, m: Mem<Tag>, y: Mem<V>, h: Half) {
    && VecMeans(w, alg, h, m.Buf(h).vec, y.Buf(h).vec)
    && PMeans(w, alg, h, m.Buf(h).p, y.Buf(h).p)
    && RestMeans(w, alg, h, m.Buf(h).rest, y.Buf(h).rest)
    && OMeans(w, alg, h, m.O(h), y.O(h))
    && LoadMeans(alg, m.Q(h), y.Q(h))
  }

  ghost predicate MemMeans<V>(w: seq<Kind>, alg: Algebra<V>, m: Mem<Tag>, y: Mem<V>) {
    && |m.ring| == |y.ring|
    && (forall i :: 0 <= i < |m.ring| ==> LoadMeans(alg, m.ring[i], y.ring[i]))
    && HalfMeans(w, alg, m, y, H0) && HalfMeans(w, alg, m, y, H1)
  }

  ghost predicate SoftMeans<V>(w: seq<Kind>, alg: Algebra<V>, s: Ctl, x: Machine<V>, h: Half)
    requires ValidCtl(w, s)
  {
    var a := LastRound(w, s, S(h, ReadS));
    0 <= a < |w| ==>
      && x.Soft(h).state == StateAt(w, alg, h, a)
      && x.Soft(h).probs == ProbsAt(w, alg, h, a)
      && x.Soft(h).stats == alg.stats(OldState(w, alg, h, a), StateAt(w, alg, h, a))
  }

  ghost predicate CorrMeans<V>(w: seq<Kind>, alg: Algebra<V>, s: Ctl, x: Machine<V>, h: Half)
    requires ValidCtl(w, s)
  {
    var a := LastRound(w, s, C(ReadVec(h)));
    0 <= a < |w| ==> x.Vec(h) == StatsAt(w, alg, h, a)
  }

  /** Every output stored so far is the sequential one. */
  ghost predicate OutMeans<V>(w: seq<Kind>, alg: Algebra<V>, s: Ctl, x: Machine<V>) {
    forall h, r: nat :: Done(w, s, C(UseO(h)), r) && w[r] == Last && r > 0 ==>
      (h, r) in x.out && x.out[(h, r)] == OutAt(w, alg, h, r)
  }

  // ---- the registers hold the round the role is in ----

  lemma ReadSRounds(w: seq<Kind>, s: Ctl, h: Half)
    requires Tiled(w) && ValidCtl(w, s) && Placed(w, s, S(h, ReadS)) && w[s.At(Soft(h)).r] != First
    ensures LastRound(w, s, S(h, ReadS)) == s.At(Soft(h)).r - 1
  {
  }

  lemma PutVecRounds(w: seq<Kind>, s: Ctl, h: Half)
    requires Tiled(w) && ValidCtl(w, s) && Placed(w, s, S(h, PutVec))
    ensures var r := s.At(Soft(h)).r; LastRound(w, s, S(h, ReadS)) == if w[r] == Last then r - 1 else r
  {
  }

  lemma PutPRounds(w: seq<Kind>, s: Ctl, h: Half)
    requires Tiled(w) && ValidCtl(w, s) && Placed(w, s, S(h, PutP))
    ensures var r := s.At(Soft(h)).r; LastRound(w, s, S(h, ReadS)) == if h == H0 then r else r - 1
  {
  }

  lemma UseORounds(w: seq<Kind>, s: Ctl, h: Half)
    requires ValidCtl(w, s) && Placed(w, s, C(UseO(h)))
    ensures LastRound(w, s, C(ReadVec(h))) == s.corr.r
  {
  }

  // ---- what is written is what the tag stands for ----

  lemma LoadMeansKept<V>(w: seq<Kind>, kv: nat, alg: Algebra<V>, s: Ctl, e: LoadOp, r: nat, m: Mem<Tag>, x: Machine<V>)
    requires ValidCtl(w, s) && r < |w| && kv > 0 && |m.ring| == kv && MemMeans(w, alg, m, x.mem)
    ensures MemMeans(w, alg, Effect(w, kv, s, L(e), r, m), LoadStep(w, kv, alg, s, e, r, x).mem)
  {
  }

  lemma QKMeans<V>(w: seq<Kind>, kv: nat, alg: Algebra<V>, s: Ctl, h: Half, r: nat, m: Mem<Tag>, x: Machine<V>)
    requires ValidCtl(w, s) && r < |w| && kv > 0 && |m.ring| == kv && MemMeans(w, alg, m, x.mem)
    requires ReadsRight(w, kv, T(QK(h)), r, m)
    ensures MemMeans(w, alg, Effect(w, kv, s, T(QK(h)), r, m), TensorStep(w, kv, alg, QK(h), r, x).mem)
  {
    assert LoadMeans(alg, m.Q(h), x.mem.Q(h));
    var i := KIndex(w, r) % kv;
    assert LoadMeans(alg, m.ring[i], x.mem.ring[i]);
    assert alg.score(x.mem.Q(h), x.mem.ring[i]) == ScoreAt(w, alg, h, r);
  }

  /** A product of the right operands is the sequential one. */
  lemma PVWrites<V>(w: seq<Kind>, kv: nat, alg: Algebra<V>, h: Half, r: nat, m: Mem<Tag>, x: Machine<V>)
    requires Tiled(w) && 0 < r < |w| && kv > 0 && |m.ring| == kv && MemMeans(w, alg, m, x.mem)
    requires ReadsRight(w, kv, T(PV(h)), r, m)
    ensures TensorStep(w, kv, alg, PV(h), r, x).mem.O(h) == SumAt(w, alg, h, r)
  {
    var i := VIndex(w, r) % kv;
    assert LoadMeans(alg, m.ring[i], x.mem.ring[i]);
    assert PMeans(w, alg, Other(h), m.Buf(Other(h)).p, x.mem.Buf(Other(h)).p);
    assert OMeans(w, alg, h, m.O(h), x.mem.O(h));
  }

  lemma PVMeans<V>(w: seq<Kind>, kv: nat, alg: Algebra<V>, s: Ctl, h: Half, r: nat, m: Mem<Tag>, x: Machine<V>)
    requires Tiled(w) && ValidCtl(w, s) && 0 < r < |w| && kv > 0 && |m.ring| == kv && MemMeans(w, alg, m, x.mem)
    requires ReadsRight(w, kv, T(PV(h)), r, m)
    ensures MemMeans(w, alg, Effect(w, kv, s, T(PV(h)), r, m), TensorStep(w, kv, alg, PV(h), r, x).mem)
  {
    PVWrites(w, kv, alg, h, r, m, x);
  }

  lemma PutVecMeans<V>(w: seq<Kind>, kv: nat, alg: Algebra<V>, s: Ctl, h: Half, m: Mem<Tag>, x: Machine<V>)
    requires Tiled(w) && ValidCtl(w, s) && kv > 0 && |m.ring| == kv && MemMeans(w, alg, m, x.mem)
    requires Placed(w, s, S(h, PutVec)) && SoftMeans(w, alg, s, x, h)
    ensures var r := s.At(Soft(h)).r;
            MemMeans(w, alg, Effect(w, kv, s, S(h, PutVec), r, m), SoftStep(w, alg, h, PutVec, r, x).mem)
  {
    var r := s.At(Soft(h)).r;
    PutVecRounds(w, s, h);
    assert SoftStep(w, alg, h, PutVec, r, x).mem.Buf(h).vec == StatsAt(w, alg, h, r);
  }

  lemma PutPMeans<V>(w: seq<Kind>, kv: nat, alg: Algebra<V>, s: Ctl, h: Half, m: Mem<Tag>, x: Machine<V>)
    requires Tiled(w) && ValidCtl(w, s) && kv > 0 && |m.ring| == kv && MemMeans(w, alg, m, x.mem)
    requires Placed(w, s, S(h, PutP)) && SoftMeans(w, alg, s, x, h)
    ensures var r := s.At(Soft(h)).r;
            MemMeans(w, alg, Effect(w, kv, s, S(h, PutP), r, m), SoftStep(w, alg, h, PutP, r, x).mem)
  {
    PutPRounds(w, s, h);
  }

  lemma UseOMeans<V>(w: seq<Kind>, kv: nat, alg: Algebra<V>, s: Ctl, h: Half, m: Mem<Tag>, x: Machine<V>)
    requires Tiled(w) && ValidCtl(w, s) && kv > 0 && |m.ring| == kv && MemMeans(w, alg, m, x.mem)
    requires Placed(w, s, C(UseO(h))) && CorrMeans(w, alg, s, x, h) && ReadsRight(w, kv, C(UseO(h)), s.corr.r, m)
    ensures MemMeans(w, alg, Effect(w, kv, s, C(UseO(h)), s.corr.r, m), CorrStep(w, alg, UseO(h), s.corr.r, x).mem)
    ensures w[s.corr.r] == Last && s.corr.r > 0 ==>
              alg.finish(x.Vec(h), x.mem.O(h)) == OutAt(w, alg, h, s.corr.r)
  {
    UseORounds(w, s, h);
    assert OMeans(w, alg, h, m.O(h), x.mem.O(h));
  }

  /** The values of memory keep standing for its tags. */
  lemma MemMeansKept<V>(w: seq<Kind>, kv: nat, alg: Algebra<V>, s: Ctl, e: Op, m: Mem<Tag>, x: Machine<V>)
    requires Tiled(w) && ValidCtl(w, s) && kv > 0 && |m.ring| == kv && MemMeans(w, alg, m, x.mem) && Placed(w, s, e)
    requires ReadsRight(w, kv, e, s.At(RoleOf(e)).r, m)
    requires forall h :: SoftMeans(w, alg, s, x, h) && CorrMeans(w, alg, s, x, h)
    ensures var r := s.At(RoleOf(e)).r;
            MemMeans(w, alg, Effect(w, kv, s, e, r, m), StepOf(w, kv, alg, s, e, r, x).mem)
  {
    var r := s.At(RoleOf(e)).r;
    match e
    case L(o) => LoadMeansKept(w, kv, alg, s, o, r, m, x);
    case T(QK(h)) => QKMeans(w, kv, alg, s, h, r, m, x);
    case T(PV(h)) => PVMeans(w, kv, alg, s, h, r, m, x);
    case S(h, PutVec) => PutVecMeans(w, kv, alg, s, h, m, x);
    case S(h, PutP) => PutPMeans(w, kv, alg, s, h, m, x);
    case C(UseO(h)) => UseOMeans(w, kv, alg, s, h, m, x);
    case _ =>
  }

  lemma ReadSMeans<V(!new)>(w: seq<Kind>, kv: nat, alg: Algebra<V>, s: Ctl, h: Half, m: Mem<Tag>, x: Machine<V>)
    requires Joins(alg) && Tiled(w) && ValidCtl(w, s) && kv > 0 && |m.ring| == kv && MemMeans(w, alg, m, x.mem)
    requires Placed(w, s, S(h, ReadS)) && SoftMeans(w, alg, s, x, h)
    requires ReadsRight(w, kv, S(h, ReadS), s.At(Soft(h)).r, m)
    ensures var r := s.At(Soft(h)).r; var g := SoftStep(w, alg, h, ReadS, r, x).Soft(h);
            && g.state == StateAt(w, alg, h, r) && g.probs == ProbsAt(w, alg, h, r)
            && g.stats == alg.stats(OldState(w, alg, h, r), StateAt(w, alg, h, r))
  {
    var r := s.At(Soft(h)).r;
    if w[r] != First {
      ReadSRounds(w, s, h);
    }
    var b, y := m.Buf(h), x.mem.Buf(h);
    assert VecMeans(w, alg, h, b.vec, y.vec) && PMeans(w, alg, h, b.p, y.p) && RestMeans(w, alg, h, b.rest, y.rest);
    assert alg.join(y.vec, y.p, y.rest) == ScoreAt(w, alg, h, r);
  }

  lemma SoftMeansKept<V(!new)>(w: seq<Kind>, kv: nat, alg: Algebra<V>, s: Ctl, e: Op, m: Mem<Tag>, x: Machine<V>,
                               h: Half)
    requires Joins(alg) && Tiled(w) && ValidCtl(w, s) && kv > 0 && |m.ring| == kv && MemMeans(w, alg, m, x.mem)
    requires Next(w, s, e) && ReadsRight(w, kv, e, s.At(RoleOf(e)).r, m) && SoftMeans(w, alg, s, x, h)
    ensures ValidCtl(w, After(w, s, e))
    ensures SoftMeans(w, alg, After(w, s, e), StepOf(w, kv, alg, s, e, s.At(RoleOf(e)).r, x), h)
  {
    LastAfter(w, s, e, S(h, ReadS));
    if e == S(h, ReadS) {
      NextPlaced(w, s, e);
      ReadSMeans(w, kv, alg, s, h, m, x);
    }
  }

  lemma CorrMeansKept<V>(w: seq<Kind>, kv: nat, alg: Algebra<V>, s: Ctl, e: Op, m: Mem<Tag>, x: Machine<V>, h: Half)
    requires Tiled(w) && ValidCtl(w, s) && kv > 0 && |m.ring| == kv && MemMeans(w, alg, m, x.mem)
    requires Next(w, s, e) && ReadsRight(w, kv, e, s.At(RoleOf(e)).r, m) && CorrMeans(w, alg, s, x, h)
    ensures ValidCtl(w, After(w, s, e))
    ensures CorrMeans(w, alg, After(w, s, e), StepOf(w, kv, alg, s, e, s.At(RoleOf(e)).r, x), h)
  {
    LastAfter(w, s, e, C(ReadVec(h)));
    if e == C(ReadVec(h)) {
      assert VecMeans(w, alg, h, m.Buf(h).vec, x.mem.Buf(h).vec);
    }
  }

  lemma OutFrame<V>(w: seq<Kind>, kv: nat, alg: Algebra<V>, s: Ctl, e: Op, r: nat, x: Machine<V>)
    requires ValidCtl(w, s) && r < |w| && kv > 0 && |x.mem.ring| == kv
    requires !(e.C? && e.c.UseO?)
    ensures StepOf(w, kv, alg, s, e, r, x).out == x.out
  {
  }

  lemma OutMeansKept<V>(w: seq<Kind>, kv: nat, alg: Algebra<V>, s: Ctl, e: Op, m: Mem<Tag>, x: Machine<V>)
    requires Tiled(w) && ValidCtl(w, s) && kv > 0 && |m.ring| == kv && MemMeans(w, alg, m, x.mem)
    requires Next(w, s, e) && ReadsRight(w, kv, e, s.At(RoleOf(e)).r, m) && OutMeans(w, alg, s, x)
    requires forall h :: CorrMeans(w, alg, s, x, h)
    ensures OutMeans(w, alg, After(w, s, e), StepOf(w, kv, alg, s, e, s.At(RoleOf(e)).r, x))
  {
    var x' := StepOf(w, kv, alg, s, e, s.At(RoleOf(e)).r, x);
    if e.C? && e.c.UseO? {
      NextPlaced(w, s, e);
      UseOMeans(w, kv, alg, s, e.c.h, m, x);
    } else {
      OutFrame(w, kv, alg, s, e, s.At(RoleOf(e)).r, x);
    }
    forall h, r: nat | Done(w, After(w, s, e), C(UseO(h)), r) && w[r] == Last && r > 0
      ensures (h, r) in x'.out && x'.out[(h, r)] == OutAt(w, alg, h, r)
    {
      AfterDone(w, s, e, C(UseO(h)), r);
    }
  }
}

/**
 Whole runs of the attention kernel, for every sequence of tiles with at least one
 key/value step each and every key/value ring of at least two stages: every read
 finds the sequential value, handshakes and barriers never run ahead, every run
 can be continued until all roles are done, no run is longer than the work there
 is, and a run that cannot be continued has stored the sequential output.
 */
module FmhaRuns {
  import opened FmhaProgram
  import opened FmhaProtocol
  import opened FmhaProgress
  import opened FmhaOrder
  import opened FmhaMemory
  import opened FmhaReads
  import opened FmhaMachine

  datatype Config<V> = Config(ctl: Ctl, x: Machine<V>)

  ghost predicate Steps<V>(w: seq<Kind>, kv: nat, alg: Algebra<V>, c: Config<V>, e: Op, c': Config<V>) {
    && ValidCtl(w, c.ctl) && kv > 0 && |c.x.mem.ring| == kv
    && Enabled(w, kv, c.ctl, e)
    && c'.ctl == After(w, c.ctl, e)
    && c'.x == StepOf(w, kv, alg, c.ctl, e, c.ctl.At(RoleOf(e)).r, c.x)
  }

  /** Configurations cs[0], cs[1], ... with memory initially arbitrary, joined by the operations es. */
  ghost predicate Run<V>(w: seq<Kind>, kv: nat, alg: Algebra<V>, cs: seq<Config<V>>, es: seq<Op>) {
    && |cs| == |es| + 1
    && cs[0].ctl == START && |cs[0].x.mem.ring| == kv
    && forall i {:trigger es[i]} :: 0 <= i < |es| ==> Steps(w, kv, alg, cs[i], es[i], cs[i + 1])
  }

  /** A run no operation of any role can continue. */
  ghost predicate Maximal<V(!new)>(w: seq<Kind>, kv: nat, alg: Algebra<V>, cs: seq<Config<V>>, es: seq<Op>) {
    Run(w, kv, alg, cs, es) && forall e, c :: !Run(w, kv, alg, cs + [c], es + [e])
  }

  /** The values an operation reads are the sequential ones. */
  ghost predicate ReadsValues<V>(w: seq<Kind>, kv: nat, alg: Algebra<V>, x: Machine<V>, e: Op, r: nat)
    requires r < |w| && kv > 0 && |x.mem.ring| == kv
  {
    match e
    case T(QK(h)) =>
      x.mem.ring[KIndex(w, r) % kv] == alg.key(r) && x.mem.Q(h) == alg.query(h, TileStart(w, r))
    case T(PV(h)) =>
      && r > 0
      && x.mem.ring[VIndex(w, r) % kv] == alg.value(r)
      && x.mem.Buf(Other(h)).p == ProbsAt(w, alg, h, r - 1)
      && (r > 1 && w[r - 1] == Middle ==> x.mem.O(h) == ScaledAt(w, alg, h, r - 1))
    case S(h, ReadS) =>
      var b := x.mem.Buf(h);
      alg.join(b.vec, b.p, b.rest) == ScoreAt(w, alg, h, r)
    case C(ReadVec(h)) => x.mem.Buf(h).vec == StatsAt(w, alg, h, r)
    case C(UseO(h)) => r > 0 && x.mem.O(h) == SumAt(w, alg, h, r) && x.Vec(h) == StatsAt(w, alg, h, r)
    case _ => true
  }

  /** What holds in every configuration of a run, with the tags that describe its memory. */
  ghost predicate Good<V>(w: seq<Kind>, kv: nat, alg: Algebra<V>, c: Config<V>, m: Mem<Tag>) {
    && Ok(w, kv, c.ctl) && MemHolds(w, kv, c.ctl, m) && MemMeans(w, alg, m, c.x.mem)
    && OutMeans(w, alg, c.ctl, c.x)
    && forall h :: SoftMeans(w, alg, c.ctl, c.x, h) && CorrMeans(w, alg, c.ctl, c.x, h)
  }

  lemma NothingDone(w: seq<Kind>, e: Op)
    requires ValidCtl(w, START)
    ensures LastRound(w, START, e) == -1 && Times(w, START, e) == 0
    ensures forall r: nat :: !Done(w, START, e, r)
  {
  }

  const CLEAR := Buffer(Nothing, Nothing, Nothing)

  lemma GoodAtStart<V>(w: seq<Kind>, kv: nat, alg: Algebra<V>, c: Config<V>) returns (m: Mem<Tag>)
    requires Tiled(w) && kv > 0 && c.ctl == START && |c.x.mem.ring| == kv
    ensures Good(w, kv, alg, c, m)
  {
    InStepAtStart(w, kv);
    m := Mem(CLEAR, CLEAR, Nothing, Nothing, Nothing, Nothing, seq(kv, _ => Nothing));
    MemAtStart(w, kv, m);
    forall e: Op
      ensures LastRound(w, START, e) == -1 && forall r: nat :: !Done(w, START, e, r)
    {
      NothingDone(w, e);
    }
  }

  lemma MemAtStart(w: seq<Kind>, kv: nat, m: Mem<Tag>)
    requires ValidCtl(w, START) && kv > 0
    requires m == Mem(CLEAR, CLEAR, Nothing, Nothing, Nothing, Nothing, seq(kv, _ => Nothing))
    ensures MemHolds(w, kv, START, m)
  {
    forall e: Op
      ensures LastRound(w, START, e) == -1 && forall r: nat :: !Done(w, START, e, r)
    {
      NothingDone(w, e);
    }
  }

  lemma RoundsPositive(w: seq<Kind>, s: Ctl, e: Op)
    requires Tiled(w) && Placed(w, s, e) && ClassOf(e) == NotFirst
    ensures s.At(RoleOf(e)).r > 0
  {
  }

  lemma PVReads<V>(w: seq<Kind>, kv: nat, alg: Algebra<V>, m: Mem<Tag>, x: Machine<V>, h: Half, r: nat)
    requires Tiled(w) && 0 < r < |w| && kv > 0 && |m.ring| == kv && MemMeans(w, alg, m, x.mem)
    requires ReadsRight(w, kv, T(PV(h)), r, m)
    ensures ReadsValues(w, kv, alg, x, T(PV(h)), r)
  {
  }

  lemma OtherReads<V(!new)>(w: seq<Kind>, kv: nat, alg: Algebra<V>, m: Mem<Tag>, x: Machine<V>, e: Op, r: nat)
    requires Joins(alg) && r < |w| && kv > 0 && |m.ring| == kv && MemMeans(w, alg, m, x.mem)
    requires ReadsRight(w, kv, e, r, m) && !(e.T? && e.t.PV?) && !(e.C? && e.c.UseO?)
    ensures ReadsValues(w, kv, alg, x, e, r)
  {
  }

  /** Right tags, standing for sequential values, are right values. */
  lemma GoodReads<V(!new)>(w: seq<Kind>, kv: nat, alg: Algebra<V>, c: Config<V>, m: Mem<Tag>, e: Op)
    requires Joins(alg) && Good(w, kv, alg, c, m) && Enabled(w, kv, c.ctl, e)
    ensures ReadsValues(w, kv, alg, c.x, e, c.ctl.At(RoleOf(e)).r)
  {
    EnabledReadsRight(w, kv, c.ctl, m, e);
    NextPlaced(w, c.ctl, e);
    var r := c.ctl.At(RoleOf(e)).r;
    if e.T? && e.t.PV? {
      RoundsPositive(w, c.ctl, e);
      PVReads(w, kv, alg, m, c.x, e.t.h, r);
    } else if e.C? && e.c.UseO? {
      RoundsPositive(w, c.ctl, e);
      UseORounds(w, c.ctl, e.c.h);
      assert CorrMeans(w, alg, c.ctl, c.x, e.c.h);
      assert HalfMeans(w, alg, m, c.x.mem, e.c.h);
    } else {
      OtherReads(w, kv, alg, m, c.x, e, r);
    }
  }

  lemma GoodKept<V(!new)>(w: seq<Kind>, kv: nat, alg: Algebra<V>, c: Config<V>, m: Mem<Tag>, e: Op, c': Config<V>)
    returns (m': Mem<Tag>)
    requires Joins(alg) && Good(w, kv, alg, c, m) && Steps(w, kv, alg, c, e, c')
    ensures Good(w, kv, alg, c', m')
  {
    var r := c.ctl.At(RoleOf(e)).r;
    m' := Effect(w, kv, c.ctl, e, r, m);
    InStepKept(w, kv, c.ctl, e);
    MemKept(w, kv, c.ctl, m, e);
    EnabledReadsRight(w, kv, c.ctl, m, e);
    NextPlaced(w, c.ctl, e);
    MemMeansKept(w, kv, alg, c.ctl, e, m, c.x);
    OutMeansKept(w, kv, alg, c.ctl, e, m, c.x);
    forall h
      ensures SoftMeans(w, alg, c'.ctl, c'.x, h) && CorrMeans(w, alg, c'.ctl, c'.x, h)
    {
      SoftMeansKept(w, kv, alg, c.ctl, e, m, c.x, h);
      CorrMeansKept(w, kv, alg, c.ctl, e, m, c.x, h);
    }
  }

  /** What the start has and every step keeps holds all along a run. */
  lemma {:induction false} Along<C(!new), E(!new)>(inv: (nat, C) -> bool, link: (C, E, C) -> bool, cs: seq<C>,
                                                   es: seq<E>, i: nat)
    requires |cs| == |es| + 1 && i < |cs| && inv(0, cs[0])
    requires forall j {:trigger es[j]} :: 0 <= j < |es| ==> link(cs[j], es[j], cs[j + 1])
    requires forall n: nat, c, e, c' :: inv(n, c) && link(c, e, c') ==> inv(n + 1, c')
    ensures inv(i, cs[i])
  {
    if i > 0 {
      Along(inv, link, cs, es, i - 1);
      var e := es[i - 1];
      assert link(cs[i - 1], e, cs[i]);
    }
  }

  ghost predicate SomeGood<V>(w: seq<Kind>, kv: nat, alg: Algebra<V>, c: Config<V>) {
    exists m :: Good(w, kv, alg, c, m)
  }

  lemma SomeGoodKept<V(!new)>(w: seq<Kind>, kv: nat, alg: Algebra<V>, c: Config<V>, e: Op, c': Config<V>)
    requires Joins(alg) && SomeGood(w, kv, alg, c) && Steps(w, kv, alg, c, e, c')
    ensures SomeGood(w, kv, alg, c')
  {
    var m :| Good(w, kv, alg, c, m);
    var m' := GoodKept(w, kv, alg, c, m, e, c');
  }

  lemma RunGood<V(!new)>(w: seq<Kind>, kv: nat, alg: Algebra<V>, cs: seq<Config<V>>, es: seq<Op>, i: nat)
    returns (m: Mem<Tag>)
    requires Joins(alg) && Tiled(w) && kv > 0 && Run(w, kv, alg, cs, es) && i < |cs|
    ensures Good(w, kv, alg, cs[i], m)
  {
    var inv := (n: nat, c: Config<V>) => SomeGood(w, kv, alg, c);
    var link := (c: Config<V>, e: Op, c': Config<V>) => Steps(w, kv, alg, c, e, c');
    m := GoodAtStart(w, kv, alg, cs[0]);
    forall n: nat, c, e, c' | inv(n, c) && link(c, e, c')
      ensures inv(n + 1, c')
    {
      SomeGoodKept(w, kv, alg, c, e, c');
    }
    Along(inv, link, cs, es, i);
    m :| Good(w, kv, alg, cs[i], m);
  }

  // ---- how much work is left ----

  /** The operations of a role from a round on. */
  function Ahead(w: seq<Kind>, role: Role, r: nat): nat
    requires r <= |w|
    decreases |w| - r
  {
    if r == |w| then 0 else Len(role, w[r]) + Ahead(w, role, r + 1)
  }

  function LeftOf(w: seq<Kind>, role: Role, p: Pos): int
    requires p.r <= |w|
  {
    Ahead(w, role, p.r) - p.k
  }

  function Left(w: seq<Kind>, s: Ctl): int
    requires ValidCtl(w, s)
  {
    assert forall role :: ValidPos(w, role, s.At(role));
    var load, mma, tensor := s.At(Load), s.At(Mma), s.At(Tensor);
    var soft0, soft1, corr := s.At(Soft(H0)), s.At(Soft(H1)), s.At(Corr);
    LeftOf(w, Load, load) + LeftOf(w, Mma, mma) + LeftOf(w, Tensor, tensor)
    + LeftOf(w, Soft(H0), soft0) + LeftOf(w, Soft(H1), soft1) + LeftOf(w, Corr, corr)
  }

  lemma AdvanceLeft(w: seq<Kind>, role: Role, p: Pos)
    requires ValidPos(w, role, p) && p.r < |w|
    ensures LeftOf(w, role, Advance(w, role, p)) == LeftOf(w, role, p) - 1
  {
  }

  lemma LeftAfter(w: seq<Kind>, s: Ctl, e: Op)
    requires ValidCtl(w, s) && s.At(RoleOf(e)).r < |w|
    ensures ValidCtl(w, After(w, s, e)) && Left(w, After(w, s, e)) == Left(w, s) - 1
  {
    AfterValid(w, s, e);
    assert ValidPos(w, RoleOf(e), s.At(RoleOf(e)));
    AdvanceLeft(w, RoleOf(e), s.At(RoleOf(e)));
  }

  lemma LeftOfNonNegative(w: seq<Kind>, role: Role, p: Pos)
    requires ValidPos(w, role, p)
    ensures LeftOf(w, role, p) >= 0
  {
  }

  lemma LeftNonNegative(w: seq<Kind>, s: Ctl)
    requires ValidCtl(w, s)
    ensures Left(w, s) >= 0
    ensures Finished(w, s) ==> Left(w, s) == 0
  {
    forall role
      ensures LeftOf(w, role, s.At(role)) >= 0
    {
      assert ValidPos(w, role, s.At(role));
      LeftOfNonNegative(w, role, s.At(role));
    }
    if Finished(w, s) {
      forall role
        ensures LeftOf(w, role, s.At(role)) == 0
      {
        assert ValidPos(w, role, s.At(role));
      }
    }
  }

  lemma StepUsesOne<V>(w: seq<Kind>, kv: nat, alg: Algebra<V>, c: Config<V>, e: Op, c': Config<V>)
    requires Steps(w, kv, alg, c, e, c')
    ensures ValidCtl(w, c'.ctl) && Left(w, c'.ctl) == Left(w, c.ctl) - 1
    ensures |c'.x.mem.ring| == |c.x.mem.ring|
  {
    LeftAfter(w, c.ctl, e);
    RingKeepsSize(w, kv, alg, c.ctl, e, c.ctl.At(RoleOf(e)).r, c.x);
  }

  lemma RingKeepsSize<V>(w: seq<Kind>, kv: nat, alg: Algebra<V>, s: Ctl, e: Op, r: nat, x: Machine<V>)
    requires ValidCtl(w, s) && r < |w| && kv > 0 && |x.mem.ring| == kv
    ensures |StepOf(w, kv, alg, s, e, r, x).mem.ring| == kv
  {
  }

  /** n operations of a run are done, each having used up one unit of the work there is. */
  ghost predicate Spent<V>(w: seq<Kind>, kv: nat, n: nat, c: Config<V>) {
    ValidCtl(w, START) && ValidCtl(w, c.ctl) && n + Left(w, c.ctl) == Left(w, START) && |c.x.mem.ring| == kv
  }

  lemma SpentKept<V>(w: seq<Kind>, kv: nat, alg: Algebra<V>, n: nat, c: Config<V>, e: Op, c': Config<V>)
    requires Spent(w, kv, n, c) && Steps(w, kv, alg, c, e, c')
    ensures Spent(w, kv, n + 1, c')
  {
    StepUsesOne(w, kv, alg, c, e, c');
  }

  lemma RunLength<V(!new)>(w: seq<Kind>, kv: nat, alg: Algebra<V>, cs: seq<Config<V>>, es: seq<Op>, i: nat)
    requires ValidCtl(w, START) && Run(w, kv, alg, cs, es) && i < |cs|
    ensures Spent(w, kv, i, cs[i])
  {
    var inv := (n: nat, c: Config<V>) => Spent(w, kv, n, c);
    var link := (c: Config<V>, e: Op, c': Config<V>) => Steps(w, kv, alg, c, e, c');
    forall n: nat, c, e, c' | inv(n, c) && link(c, e, c')
      ensures inv(n + 1, c')
    {
      SpentKept(w, kv, alg, n, c, e, c');
    }
    Along(inv, link, cs, es, i);
  }

  // ---- the theorems ----

  /** No read finds data that was overwritten early or is not there yet. */
  lemma EveryReadIsRight<V(!new)>(trips: seq<nat>, kv: nat, alg: Algebra<V>, cs: seq<Config<V>>, es: seq<Op>, i: nat)
    requires forall j :: 0 <= j < |trips| ==> trips[j] >= 1
    requires Joins(alg) && kv > 0 && Run(Rounds(trips), kv, alg, cs, es) && i < |es|
    ensures var w := Rounds(trips); var r := cs[i].ctl.At(RoleOf(es[i])).r;
            r < |w| && |cs[i].x.mem.ring| == kv && ReadsValues(w, kv, alg, cs[i].x, es[i], r)
  {
    var w := Rounds(trips);
    RoundsTiled(trips);
    var m := RunGood(w, kv, alg, cs, es, i);
    assert Steps(w, kv, alg, cs[i], es[i], cs[i + 1]);
    GoodReads(w, kv, alg, cs[i], m, es[i]);
  }

  /** The signals of half h and of the other half, against the waits they answer. */
  ghost predicate Abreast(w: seq<Kind>, s: Ctl, h: Half)
    requires ValidCtl(w, s)
  {
    var first := if h == H0 then 1 else 0;
    && Times(w, s, S(Other(h), WaitH)) <= Times(w, s, S(h, CmtH)) <= Times(w, s, S(Other(h), WaitH)) + 1
    && Times(w, s, S(h, Sync)) <= Times(w, s, S(Other(h), Arrive)) + first <= Times(w, s, S(h, Sync)) + 1
  }

  lemma OkAbreast(w: seq<Kind>, kv: nat, s: Ctl, h: Half)
    requires Ok(w, kv, s)
    ensures Abreast(w, s, h)
  {
    HandshakeBounded(w, kv, s, h);
    BarrierBounded(w, kv, s, h);
    assert Used(w, s, S(Other(h), WaitH)) <= Granted(w, kv, s, S(Other(h), WaitH));
    assert Used(w, s, S(h, Sync)) <= Granted(w, kv, s, S(h, Sync));
  }

  /** A handshake or barrier is never signalled a second time before its waiter has passed. */
  lemma NeverRunsAhead<V(!new)>(trips: seq<nat>, kv: nat, alg: Algebra<V>, cs: seq<Config<V>>, es: seq<Op>, i: nat,
                                h: Half)
    requires forall j :: 0 <= j < |trips| ==> trips[j] >= 1
    requires Joins(alg) && kv > 0 && Run(Rounds(trips), kv, alg, cs, es) && i < |cs|
    ensures ValidCtl(Rounds(trips), cs[i].ctl) && Abreast(Rounds(trips), cs[i].ctl, h)
  {
    RoundsTiled(trips);
    var _ := RunGood(Rounds(trips), kv, alg, cs, es, i);
    OkAbreast(Rounds(trips), kv, cs[i].ctl, h);
  }

  lemma RunExtends<V>(w: seq<Kind>, kv: nat, alg: Algebra<V>, cs: seq<Config<V>>, es: seq<Op>, e: Op, c: Config<V>)
    requires Run(w, kv, alg, cs, es) && Steps(w, kv, alg, cs[|es|], e, c)
    ensures Run(w, kv, alg, cs + [c], es + [e])
  {
  }

  /** A run that is not over can be continued, and none is longer than the work there is. */
  lemma RunsContinue<V(!new)>(trips: seq<nat>, kv: nat, alg: Algebra<V>, cs: seq<Config<V>>, es: seq<Op>)
    returns (e: Op, c: Config<V>)
    requires forall j :: 0 <= j < |trips| ==> trips[j] >= 1
    requires kv >= 2 && Run(Rounds(trips), kv, alg, cs, es)
    ensures var w := Rounds(trips);
            && ValidCtl(w, START) && |es| <= Left(w, START)
            && (Finished(w, cs[|es|].ctl) ==> |es| == Left(w, START))
            && (!Finished(w, cs[|es|].ctl) ==> Run(w, kv, alg, cs + [c], es + [e]))
  {
    var w, last := Rounds(trips), cs[|es|];
    RoundsTiled(trips);
    InStepAtStart(w, kv);
    RunLength(w, kv, alg, cs, es, |es|);
    LeftNonNegative(w, last.ctl);
    e, c := M(WaitK), last;
    if !Finished(w, last.ctl) {
      e := NeverStuck(w, kv, last.ctl);
      c := Config(After(w, last.ctl, e), StepOf(w, kv, alg, last.ctl, e, last.ctl.At(RoleOf(e)).r, last.x));
      RunExtends(w, kv, alg, cs, es, e, c);
    }
  }

  /** A run with no possible continuation has stored the sequential output of every tile and half. */
  lemma MaximalRunIsRight<V(!new)>(trips: seq<nat>, kv: nat, alg: Algebra<V>, cs: seq<Config<V>>, es: seq<Op>, h: Half,
                                   r: nat)
    requires forall j :: 0 <= j < |trips| ==> trips[j] >= 1
    requires Joins(alg) && kv >= 2 && Maximal(Rounds(trips), kv, alg, cs, es)
    requires 0 < r < |Rounds(trips)| && Rounds(trips)[r] == Last
    ensures Finished(Rounds(trips), cs[|es|].ctl)
    ensures (h, r) in cs[|es|].x.out && cs[|es|].x.out[(h, r)] == OutAt(Rounds(trips), alg, h, r)
  {
    var w, last := Rounds(trips), cs[|es|];
    RoundsTiled(trips);
    var _, _ := RunsContinue(trips, kv, alg, cs, es);
    var _ := RunGood(w, kv, alg, cs, es, |es|);
    FinishedStored(w, alg, last, h, r);
  }

  lemma FinishedStored<V>(w: seq<Kind>, alg: Algebra<V>, c: Config<V>, h: Half, r: nat)
    requires Finished(w, c.ctl) && OutMeans(w, alg, c.ctl, c.x) && 0 < r < |w| && w[r] == Last
    ensures (h, r) in c.x.out && c.x.out[(h, r)] == OutAt(w, alg, h, r)
  {
    assert Done(w, c.ctl, C(UseO(h)), r);
  }
}

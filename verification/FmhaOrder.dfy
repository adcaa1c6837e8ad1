/**
 Which operations precede which in every run, derived from the counters alone.
 `Done(w, s, e, r)` says e has been performed in round r; each lemma says that
 one operation being done forces another to be done.
 */
module FmhaOrder {
  import opened FmhaProgram
  import opened FmhaProtocol
  import opened FmhaProgress

  ghost predicate Ok(w: seq<Kind>, kv: nat, s: Ctl) {
    Tiled(w) && ValidCtl(w, s) && InStep(w, kv, s)
  }

  /** Being past a slot of round r is the same as having counted more rounds of its class. */
  lemma PastIsCount(w: seq<Kind>, c: Class, p: Pos, r: nat, slot: nat, here: bool)
    requires r < |w| && p.r <= |w| && InKind(c, w[r])
    requires here ==> p.r < |w| && InKind(c, w[p.r])
    requires p.r == r ==> (here <==> slot < p.k)
    ensures (r < p.r || (r == p.r && slot < p.k)) <==> Before(w, c, p.r) + (if here then 1 else 0) > Before(w, c, r)
  {
    if r < p.r {
      BeforeGrows(w, c, r + 1, p.r);
    } else if p.r < r {
      BeforeGrows(w, c, p.r + 1, r);
    }
  }

  /** Doing e in round r is the same as having done it more often than the earlier rounds ask. */
  lemma DoneIsTimes(w: seq<Kind>, s: Ctl, e: Op, r: nat)
    requires ValidCtl(w, s) && r < |w| && Present(e, w[r])
    ensures Done(w, s, e, r) <==> Times(w, s, e) > Before(w, ClassOf(e), r)
  {
    var p := s.At(RoleOf(e));
    assert ValidPos(w, RoleOf(e), p);
    PastIsCount(w, ClassOf(e), p, r, Slot(e, w[r]), DoneAt(w, e, p.r, p));
  }

  /** A role's own earlier operations are done. */
  lemma OwnOrder(w: seq<Kind>, s: Ctl, e: Op, r: nat, f: Op, q: nat)
    requires Done(w, s, e, r) && RoleOf(f) == RoleOf(e) && q < |w| && Present(f, w[q])
    requires q < r || (q == r && Slot(f, w[q]) <= Slot(e, w[r]))
    ensures Done(w, s, f, q)
  {
  }

  /** Same class, never ahead: e in round r comes after f in round r. */
  lemma Follows(w: seq<Kind>, s: Ctl, e: Op, f: Op, r: nat)
    requires ValidCtl(w, s) && ClassOf(e) == ClassOf(f)
    requires Times(w, s, e) <= Times(w, s, f)
    requires Done(w, s, e, r)
    ensures Done(w, s, f, r)
  {
    DoneIsTimes(w, s, e, r);
    DoneIsTimes(w, s, f, r);
  }

  /** Same class, at most one ahead: e in round r comes after f in every earlier round. */
  lemma Lags(w: seq<Kind>, s: Ctl, e: Op, f: Op, r: nat, q: nat)
    requires ValidCtl(w, s) && ClassOf(e) == ClassOf(f)
    requires Times(w, s, e) <= Times(w, s, f) + 1
    requires Done(w, s, e, r) && q < r && Present(f, w[q])
    ensures Done(w, s, f, q)
  {
    DoneIsTimes(w, s, e, r);
    DoneIsTimes(w, s, f, q);
    BeforeGrows(w, ClassOf(f), q + 1, r);
  }

  // ---- chains through the rings ----

  lemma WaitSAfterQK(w: seq<Kind>, kv: nat, s: Ctl, h: Half, r: nat)
    requires Ok(w, kv, s) && Done(w, s, S(h, WaitS), r)
    ensures Done(w, s, T(CmtS(h)), r) && Done(w, s, T(QK(h)), r)
  {
    assert Used(w, s, S(h, WaitS)) <= Granted(w, kv, s, S(h, WaitS));
    Follows(w, s, S(h, WaitS), T(CmtS(h)), r);
  }

  lemma QKAfterMma(w: seq<Kind>, kv: nat, s: Ctl, h: Half, r: nat)
    requires Ok(w, kv, s) && Done(w, s, T(QK(h)), r)
    ensures Done(w, s, M(IssQK(h)), r) && Done(w, s, M(GetVec(h)), r) && Done(w, s, M(AcqS(h)), r)
  {
    assert Used(w, s, T(QK(h))) <= Granted(w, kv, s, T(QK(h)));
    Follows(w, s, T(QK(h)), M(IssQK(h)), r);
  }

  lemma PVAfterMma(w: seq<Kind>, kv: nat, s: Ctl, h: Half, r: nat)
    requires Ok(w, kv, s) && Done(w, s, T(PV(h)), r)
    ensures Done(w, s, M(IssPV(h)), r) && Done(w, s, M(WaitP(h)), r) && Done(w, s, M(AcqO(h)), r)
  {
    assert Used(w, s, T(PV(h))) <= Granted(w, kv, s, T(PV(h)));
    Follows(w, s, T(PV(h)), M(IssPV(h)), r);
  }

  /** S of a later round is written only after S of this round was released. */
  lemma QKAfterRelS(w: seq<Kind>, kv: nat, s: Ctl, h: Half, r: nat, q: nat)
    requires Ok(w, kv, s) && Done(w, s, T(QK(h)), r) && q < r && w[q] != Last
    ensures Done(w, s, S(h, RelS), q)
  {
    QKAfterMma(w, kv, s, h, r);
    assert Used(w, s, M(AcqS(h))) <= Granted(w, kv, s, M(AcqS(h)));
    Lags(w, s, M(AcqS(h)), S(h, RelS), r, q);
  }

  /** S is written only after correction released the statistics of every earlier round. */
  lemma QKAfterRelVec(w: seq<Kind>, kv: nat, s: Ctl, h: Half, r: nat, q: nat)
    requires Ok(w, kv, s) && Done(w, s, T(QK(h)), r) && q < r
    ensures Done(w, s, C(RelVec(h)), q)
  {
    QKAfterMma(w, kv, s, h, r);
    assert Used(w, s, M(GetVec(h))) <= Granted(w, kv, s, M(GetVec(h)));
    Lags(w, s, M(GetVec(h)), C(RelVec(h)), r, q);
  }

  lemma AcqVecAfterRelVec(w: seq<Kind>, kv: nat, s: Ctl, h: Half, r: nat, q: nat)
    requires Ok(w, kv, s) && Done(w, s, S(h, AcqVec), r) && q < r
    ensures Done(w, s, C(RelVec(h)), q)
  {
    assert Used(w, s, S(h, AcqVec)) <= Granted(w, kv, s, S(h, AcqVec));
    Lags(w, s, S(h, AcqVec), C(RelVec(h)), r, q);
  }

  lemma WaitVecAfterCmtVec(w: seq<Kind>, kv: nat, s: Ctl, h: Half, r: nat)
    requires Ok(w, kv, s) && Done(w, s, C(WaitVec(h)), r)
    ensures Done(w, s, S(h, CmtVec), r)
  {
    assert Used(w, s, C(WaitVec(h))) <= Granted(w, kv, s, C(WaitVec(h)));
    Follows(w, s, C(WaitVec(h)), S(h, CmtVec), r);
  }

  /** Softmax1 passes its handshake of round r after softmax0 read S of round r. */
  lemma Wait1AfterCmt0(w: seq<Kind>, kv: nat, s: Ctl, r: nat)
    requires Ok(w, kv, s) && Done(w, s, S(H1, WaitH), r)
    ensures Done(w, s, S(H0, CmtH), r)
  {
    assert Used(w, s, S(H1, WaitH)) <= Granted(w, kv, s, S(H1, WaitH));
    Follows(w, s, S(H1, WaitH), S(H0, CmtH), r);
  }

  /** Softmax0 passes its handshake of round r after softmax1 read S of round r. */
  lemma Wait0AfterCmt1(w: seq<Kind>, kv: nat, s: Ctl, r: nat)
    requires Ok(w, kv, s) && Done(w, s, S(H0, WaitH), r)
    ensures Done(w, s, S(H1, CmtH), r)
  {
    assert Used(w, s, S(H0, WaitH)) <= Granted(w, kv, s, S(H0, WaitH));
    Follows(w, s, S(H0, WaitH), S(H1, CmtH), r);
  }

  /** P of softmax0's round r is committed before the product of the next round. */
  lemma PV0AfterP(w: seq<Kind>, kv: nat, s: Ctl, r: nat)
    requires Ok(w, kv, s) && Done(w, s, M(WaitP(H0)), r + 1) && w[r] != Last
    ensures Done(w, s, S(H0, CmtP), r)
  {
    assert Used(w, s, M(WaitP(H0))) <= Granted(w, kv, s, M(WaitP(H0)));
    DoneIsTimes(w, s, M(WaitP(H0)), r + 1);
    DoneIsTimes(w, s, S(H0, CmtP), r);
    Tally(w, r + 1);
  }

  lemma PV1AfterP(w: seq<Kind>, kv: nat, s: Ctl, r: nat)
    requires Ok(w, kv, s) && Done(w, s, M(WaitP(H1)), r)
    ensures Done(w, s, S(H1, CmtP), r)
  {
    assert Used(w, s, M(WaitP(H1))) <= Granted(w, kv, s, M(WaitP(H1)));
    Follows(w, s, M(WaitP(H1)), S(H1, CmtP), r);
  }

  /** Softmax0 stores P of round r only after the product that used its P of the round before. */
  lemma P0AfterPV(w: seq<Kind>, kv: nat, s: Ctl, r: nat)
    requires Ok(w, kv, s) && Done(w, s, S(H0, AcqP), r) && w[r] != First
    ensures Done(w, s, T(RelP(H0)), r)
  {
    assert Used(w, s, S(H0, AcqP)) <= Granted(w, kv, s, S(H0, AcqP));
    DoneIsTimes(w, s, S(H0, AcqP), r);
    DoneIsTimes(w, s, T(RelP(H0)), r);
    Tally(w, r);
  }

  lemma P1AfterPV(w: seq<Kind>, kv: nat, s: Ctl, r: nat, q: nat)
    requires Ok(w, kv, s) && Done(w, s, S(H1, AcqP), r) && q < r && w[q] != First
    ensures Done(w, s, T(RelP(H1)), q)
  {
    assert Used(w, s, S(H1, AcqP)) <= Granted(w, kv, s, S(H1, AcqP));
    Lags(w, s, S(H1, AcqP), T(RelP(H1)), r, q);
  }

  /** Of two operations of a role in the same rounds, the later one is done as often or once less. */
  lemma OwnCount(w: seq<Kind>, s: Ctl, a: Op, b: Op)
    requires ValidCtl(w, s) && RoleOf(a) == RoleOf(b) && ClassOf(a) == ClassOf(b)
    requires forall kind :: Present(a, kind) ==> Slot(a, kind) < Slot(b, kind)
    ensures Times(w, s, b) <= Times(w, s, a) <= Times(w, s, b) + 1
  {
  }

  /** Both counters of a two-stage ring, from one of them, for a role that alternates. */
  lemma Alternates(w: seq<Kind>, s: Ctl, a: Op, b: Op, r: nat)
    requires ValidCtl(w, s) && RoleOf(a) == RoleOf(b) && ClassOf(a) == ClassOf(b)
    requires r < |w| && Present(a, w[r]) && forall kind :: Present(a, kind) ==> Slot(a, kind) < Slot(b, kind)
    ensures !Done(w, s, a, r) ==> Times(w, s, a) + Times(w, s, b) <= 2 * Before(w, ClassOf(a), r)
    ensures !Done(w, s, b, r) ==> Times(w, s, a) + Times(w, s, b) <= 2 * Before(w, ClassOf(a), r) + 1
    ensures Done(w, s, a, r) ==> Times(w, s, a) + Times(w, s, b) >= 2 * Before(w, ClassOf(a), r) + 1
    ensures Done(w, s, b, r) ==> Times(w, s, a) + Times(w, s, b) >= 2 * Before(w, ClassOf(a), r) + 2
  {
    OwnCount(w, s, a, b);
    DoneIsTimes(w, s, a, r);
    DoneIsTimes(w, s, b, r);
  }

  /** Correction takes O of round r after the product of round r landed. */
  lemma WaitOAfterPV(w: seq<Kind>, kv: nat, s: Ctl, h: Half, r: nat)
    requires Ok(w, kv, s) && Done(w, s, C(WaitO(h)), r)
    ensures Done(w, s, T(CmtO(h)), r) && Done(w, s, T(PV(h)), r)
  {
    assert Used(w, s, C(WaitO(h))) <= Granted(w, kv, s, C(WaitO(h)));
    Alternates(w, s, C(WaitO(H0)), C(WaitO(H1)), r);
    Alternates(w, s, T(CmtO(H0)), T(CmtO(H1)), r);
  }

  /** O is acquired for round r after correction released it in every earlier round. */
  lemma AcqOAfterRelO(w: seq<Kind>, kv: nat, s: Ctl, h: Half, r: nat, q: nat)
    requires Ok(w, kv, s) && Done(w, s, M(AcqO(h)), r) && q < r && w[q] != First
    ensures Done(w, s, C(RelO(h)), q)
  {
    assert Used(w, s, M(AcqO(h))) <= Granted(w, kv, s, M(AcqO(h)));
    Alternates(w, s, M(AcqO(H0)), M(AcqO(H1)), r);
    Alternates(w, s, C(RelO(H0)), C(RelO(H1)), q);
    BeforeGrows(w, NotFirst, q + 1, r);
  }

  lemma PVAfterRelO(w: seq<Kind>, kv: nat, s: Ctl, h: Half, r: nat, q: nat)
    requires Ok(w, kv, s) && Done(w, s, T(PV(h)), r) && q < r && w[q] != First
    ensures Done(w, s, C(RelO(h)), q)
  {
    PVAfterMma(w, kv, s, h, r);
    AcqOAfterRelO(w, kv, s, h, r, q);
  }

  // ---- the shared key/value ring ----

  /** The positions of a round's K and V tiles among all loads through the shared ring. */
  function KIndex(w: seq<Kind>, r: nat): nat
    requires r < |w|
  {
    Before(w, NotLast, r) + Before(w, NotFirst, r)
  }

  function VIndex(w: seq<Kind>, r: nat): nat
    requires r < |w|
  {
    KIndex(w, r) + if w[r] == Middle then 1 else 0
  }

  /** How many tiles a role at p has served that serves K, as ka says, before V, as vb says. */
  function Served(w: seq<Kind>, p: Pos, ka: bool, vb: bool): nat
    requires p.r <= |w|
  {
    Before(w, NotLast, p.r) + (if ka then 1 else 0) + Before(w, NotFirst, p.r) + (if vb then 1 else 0)
  }

  lemma PastIsServed(w: seq<Kind>, p: Pos, r: nat, ka: bool, vb: bool)
    requires r < |w| && p.r <= |w| && (ka ==> p.r < |w| && w[p.r] != Last) && (vb ==> p.r < |w| && w[p.r] != First)
    requires p.r < |w| && w[p.r] == Middle && vb ==> ka
    ensures w[r] != Last ==> (r < p.r || (r == p.r && ka) <==> Served(w, p, ka, vb) > KIndex(w, r))
    ensures w[r] != First ==> (r < p.r || (r == p.r && vb) <==> Served(w, p, ka, vb) > VIndex(w, r))
  {
    if r < p.r {
      BeforeGrows(w, NotLast, r + 1, p.r);
      BeforeGrows(w, NotFirst, r + 1, p.r);
    } else if p.r < r {
      BeforeGrows(w, NotLast, p.r + 1, r);
      BeforeGrows(w, NotFirst, p.r + 1, r);
    }
  }

  /** A role that serves K before V in every round is past a tile just when its count is. */
  lemma RingCount(w: seq<Kind>, s: Ctl, a: Op, b: Op, r: nat)
    requires ValidCtl(w, s) && RoleOf(a) == RoleOf(b) && ClassOf(a) == NotLast && ClassOf(b) == NotFirst
    requires r < |w| && Slot(a, Middle) < Slot(b, Middle)
    ensures w[r] != Last ==> (Done(w, s, a, r) <==> Times(w, s, a) + Times(w, s, b) > KIndex(w, r))
    ensures w[r] != First ==> (Done(w, s, b, r) <==> Times(w, s, a) + Times(w, s, b) > VIndex(w, r))
  {
    var p := s.At(RoleOf(a));
    assert ValidPos(w, RoleOf(a), p);
    PastIsServed(w, p, r, DoneAt(w, a, p.r, p), DoneAt(w, b, p.r, p));
  }

  /** A tile the MMA warp has waited for is the one the load warp put at that index. */
  lemma WaitAfterPut(w: seq<Kind>, kv: nat, s: Ctl, r: nat)
    requires Ok(w, kv, s)
    ensures Done(w, s, M(WaitK), r) ==> Done(w, s, L(PutK), r)
    ensures Done(w, s, M(WaitV), r) ==> Done(w, s, L(PutV), r)
  {
    if r < |w| {
      assert Used(w, s, M(WaitK)) <= Granted(w, kv, s, M(WaitK));
      RingCount(w, s, M(WaitK), M(WaitV), r);
      RingCount(w, s, L(PutK), L(PutV), r);
    }
  }

  /** Until a tile is released, the ring holds it: fewer than kv tiles follow. */
  lemma PutsBounded(w: seq<Kind>, kv: nat, s: Ctl, r: nat)
    requires Ok(w, kv, s) && r < |w|
    ensures w[r] != Last && !Done(w, s, T(RelK), r) ==> Times(w, s, L(PutK)) + Times(w, s, L(PutV)) <= KIndex(w, r) + kv
    ensures w[r] != First && !Done(w, s, T(RelV), r)
            ==> Times(w, s, L(PutK)) + Times(w, s, L(PutV)) <= VIndex(w, r) + kv
  {
    assert Used(w, s, L(AcqK)) <= Granted(w, kv, s, L(AcqK));
    OwnCount(w, s, L(AcqK), L(PutK));
    OwnCount(w, s, L(AcqV), L(PutV));
    RingCount(w, s, T(RelK), T(RelV), r);
  }

  // ---- the query tiles ----

  /** The first round of the tile a round belongs to. */
  function TileStart(w: seq<Kind>, r: nat): nat
    requires r < |w|
  {
    if r == 0 || w[r] == First then r else TileStart(w, r - 1)
  }

  lemma {:induction false} TileStartIs(w: seq<Kind>, r: nat)
    requires Tiled(w) && r < |w|
    ensures TileStart(w, r) <= r && w[TileStart(w, r)] == First
    ensures Before(w, OnlyLast, r) == Before(w, OnlyLast, TileStart(w, r))
    ensures forall q :: TileStart(w, r) < q <= r ==> w[q] != First
  {
    if r > 0 && w[r] != First {
      TileStartIs(w, r - 1);
    }
  }

  lemma WaitQAfterPut(w: seq<Kind>, kv: nat, s: Ctl, h: Half, f: nat)
    requires Ok(w, kv, s) && Done(w, s, M(WaitQ(h)), f)
    ensures Done(w, s, L(PutQ(h)), f)
  {
    assert Used(w, s, M(WaitQ(h))) <= Granted(w, kv, s, M(WaitQ(h)));
    Alternates(w, s, M(WaitQ(H0)), M(WaitQ(H1)), f);
    Alternates(w, s, L(PutQ(H0)), L(PutQ(H1)), f);
  }

  /** Queries of a later tile are loaded only after this tile released its own. */
  lemma PutQAfterRelQ(w: seq<Kind>, kv: nat, s: Ctl, h: Half, f: nat, r: nat)
    requires Ok(w, kv, s) && Done(w, s, L(PutQ(h)), f) && r < f && w[r] != Last
    ensures s.tensor.r > r
  {
    TileStartIs(w, r);
    var t := TileStart(w, r);
    assert Used(w, s, L(AcqQ(h))) <= Granted(w, kv, s, L(AcqQ(h)));
    OwnOrder(w, s, L(PutQ(h)), f, L(AcqQ(h)), f);
    Alternates(w, s, L(AcqQ(H0)), L(AcqQ(H1)), f);
    BeforeGrows(w, OnlyFirst, t + 1, f);
    Tally(w, t);
    if s.tensor.r <= r {
      BeforeGrows(w, OnlyLast, s.tensor.r, r);
      var _ := (Times(w, s, T(RelQ(H0))), Times(w, s, T(RelQ(H1))));
      if s.tensor.r < r {
        BeforeGrows(w, OnlyLast, s.tensor.r + 1, r);
      }
    }
  }
}

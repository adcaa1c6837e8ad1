/**
 What the reads of the attention kernel find. First, for each reading operation,
 which stores are the latest when it is about to be performed; then the theorem
 that whatever is read is what the algorithm asks for.
 */
module FmhaReads {
  import opened FmhaProgram
  import opened FmhaProtocol
  import opened FmhaProgress
  import opened FmhaOrder
  import opened FmhaMemory

  // ---- softmax reads S ----

  lemma ReadSFindsQK(w: seq<Kind>, kv: nat, s: Ctl, h: Half)
    requires Ok(w, kv, s) && Placed(w, s, S(h, ReadS))
    ensures LastRound(w, s, T(QK(h))) == s.At(Soft(h)).r
  {
    var r := s.At(Soft(h)).r;
    LastIs(w, s, T(QK(h)));
    assert Done(w, s, S(h, WaitS), r);
    WaitSAfterQK(w, kv, s, h, r);
    if LastRound(w, s, T(QK(h))) > r {
      QKAfterRelS(w, kv, s, h, LastRound(w, s, T(QK(h))), r);
      assert false;
    }
  }

  lemma ReadSBeforeVec(w: seq<Kind>, kv: nat, s: Ctl, h: Half)
    requires Ok(w, kv, s) && Placed(w, s, S(h, ReadS))
    ensures LastRound(w, s, S(h, PutVec)) < s.At(Soft(h)).r
  {
  }

  /** The other half stores its P into these columns only after the handshake. */
  lemma ReadSBeforeP(w: seq<Kind>, kv: nat, s: Ctl, h: Half)
    requires Ok(w, kv, s) && Placed(w, s, S(h, ReadS))
    ensures LastRound(w, s, S(Other(h), PutP)) < s.At(Soft(h)).r
  {
    var r := s.At(Soft(h)).r;
    LastIs(w, s, S(Other(h), PutP));
    var u := LastRound(w, s, S(Other(h), PutP));
    if u >= r {
      OwnOrder(w, s, S(Other(h), PutP), u, S(Other(h), WaitH), r);
      if h == H0 {
        Wait1AfterCmt0(w, kv, s, r);
      } else {
        Wait0AfterCmt1(w, kv, s, r);
      }
    }
  }

  lemma ReadSRight(w: seq<Kind>, kv: nat, s: Ctl, m: Mem<Tag>, h: Half)
    requires Ok(w, kv, s) && MemHolds(w, kv, s, m) && Placed(w, s, S(h, ReadS))
    ensures ReadsRight(w, kv, S(h, ReadS), s.At(Soft(h)).r, m)
  {
    assert VecHolds(w, s, m, h) && PHolds(w, s, m, h) && RestHolds(w, s, m, h);
    ReadSFindsQK(w, kv, s, h);
    ReadSBeforeVec(w, kv, s, h);
    ReadSBeforeP(w, kv, s, h);
  }

  // ---- correction reads the statistics and O ----

  lemma ReadVecFindsPut(w: seq<Kind>, kv: nat, s: Ctl, h: Half)
    requires Ok(w, kv, s) && Placed(w, s, C(ReadVec(h)))
    ensures LastRound(w, s, S(h, PutVec)) == s.corr.r
  {
    var r := s.corr.r;
    LastIs(w, s, S(h, PutVec));
    assert Done(w, s, C(WaitVec(h)), r);
    WaitVecAfterCmtVec(w, kv, s, h, r);
    OwnOrder(w, s, S(h, CmtVec), r, S(h, PutVec), r);
    var u := LastRound(w, s, S(h, PutVec));
    if u > r {
      OwnOrder(w, s, S(h, PutVec), u, S(h, AcqVec), u);
      AcqVecAfterRelVec(w, kv, s, h, u, r);
    }
  }

  lemma ReadVecBeforeQK(w: seq<Kind>, kv: nat, s: Ctl, h: Half)
    requires Ok(w, kv, s) && Placed(w, s, C(ReadVec(h)))
    ensures LastRound(w, s, T(QK(h))) <= s.corr.r
  {
    LastIs(w, s, T(QK(h)));
    if LastRound(w, s, T(QK(h))) > s.corr.r {
      QKAfterRelVec(w, kv, s, h, LastRound(w, s, T(QK(h))), s.corr.r);
    }
  }

  lemma ReadVecRight(w: seq<Kind>, kv: nat, s: Ctl, m: Mem<Tag>, h: Half)
    requires Ok(w, kv, s) && MemHolds(w, kv, s, m) && Placed(w, s, C(ReadVec(h)))
    ensures ReadsRight(w, kv, C(ReadVec(h)), s.corr.r, m)
  {
    assert VecHolds(w, s, m, h);
    ReadVecFindsPut(w, kv, s, h);
    ReadVecBeforeQK(w, kv, s, h);
  }

  lemma UseORight(w: seq<Kind>, kv: nat, s: Ctl, m: Mem<Tag>, h: Half)
    requires Ok(w, kv, s) && MemHolds(w, kv, s, m) && Placed(w, s, C(UseO(h)))
    ensures ReadsRight(w, kv, C(UseO(h)), s.corr.r, m)
  {
    assert OHolds(w, s, m, h);
    UseOFindsSum(w, kv, s, h);
    OUsed(w, kv, s, m, h);
  }

  // ---- the tensor core reads Q, K, P, V and accumulates into O ----

  /** What the tensor core is able to start has been issued by the MMA warp. */
  lemma StartedIsIssued(w: seq<Kind>, kv: nat, s: Ctl, e: Op, f: Op)
    requires Ok(w, kv, s) && Placed(w, s, e) && e.T? && Used(w, s, e) < Granted(w, kv, s, e)
    requires (e.t.QK? && f == M(IssQK(e.t.h))) || (e.t.PV? && f == M(IssPV(e.t.h)))
    ensures Done(w, s, f, s.tensor.r)
  {
    OwnTimes(w, s, e, e);
    DoneIsTimes(w, s, f, s.tensor.r);
  }

  lemma KFound(w: seq<Kind>, kv: nat, s: Ctl, m: Mem<Tag>, h: Half)
    requires Ok(w, kv, s) && RingHolds(w, kv, s, m) && Placed(w, s, T(QK(h)))
    requires Done(w, s, M(IssQK(h)), s.tensor.r)
    ensures m.ring[KIndex(w, s.tensor.r) % kv] == KTile(s.tensor.r)
  {
    var r := s.tensor.r;
    OwnOrder(w, s, M(IssQK(h)), r, M(WaitK), r);
    WaitAfterPut(w, kv, s, r);
    PutsBounded(w, kv, s, r);
  }

  lemma QLoaded(w: seq<Kind>, kv: nat, s: Ctl, h: Half, t: nat)
    requires Ok(w, kv, s) && Placed(w, s, T(QK(h))) && t == TileStart(w, s.tensor.r)
    requires Done(w, s, M(IssQK(h)), s.tensor.r)
    ensures Done(w, s, L(PutQ(h)), t)
  {
    TileStartIs(w, s.tensor.r);
    OwnOrder(w, s, M(IssQK(h)), s.tensor.r, M(WaitQ(h)), t);
    WaitQAfterPut(w, kv, s, h, t);
  }

  lemma QNotReloaded(w: seq<Kind>, kv: nat, s: Ctl, h: Half, f: nat)
    requires Ok(w, kv, s) && Placed(w, s, T(QK(h))) && Done(w, s, L(PutQ(h)), f)
    ensures f <= TileStart(w, s.tensor.r)
  {
    TileStartIs(w, s.tensor.r);
    if f > s.tensor.r {
      PutQAfterRelQ(w, kv, s, h, f, s.tensor.r);
    }
  }

  lemma QFound(w: seq<Kind>, kv: nat, s: Ctl, m: Mem<Tag>, h: Half)
    requires Ok(w, kv, s) && QHolds(w, s, m, h) && Placed(w, s, T(QK(h)))
    requires Done(w, s, M(IssQK(h)), s.tensor.r)
    ensures m.Q(h) == QTile(h, TileStart(w, s.tensor.r))
  {
    var t := TileStart(w, s.tensor.r);
    LastIs(w, s, L(PutQ(h)));
    QLoaded(w, kv, s, h, t);
    QNotReloaded(w, kv, s, h, LastRound(w, s, L(PutQ(h))));
  }

  lemma QKRight(w: seq<Kind>, kv: nat, s: Ctl, m: Mem<Tag>, h: Half)
    requires Ok(w, kv, s) && MemHolds(w, kv, s, m)
    requires Placed(w, s, T(QK(h))) && Used(w, s, T(QK(h))) < Granted(w, kv, s, T(QK(h)))
    ensures ReadsRight(w, kv, T(QK(h)), s.tensor.r, m)
  {
    StartedIsIssued(w, kv, s, T(QK(h)), M(IssQK(h)));
    assert QHolds(w, s, m, h);
    KFound(w, kv, s, m, h);
    QFound(w, kv, s, m, h);
  }

  lemma VFound(w: seq<Kind>, kv: nat, s: Ctl, m: Mem<Tag>, h: Half)
    requires Ok(w, kv, s) && RingHolds(w, kv, s, m) && Placed(w, s, T(PV(h)))
    requires Done(w, s, M(IssPV(h)), s.tensor.r)
    ensures m.ring[VIndex(w, s.tensor.r) % kv] == VTile(s.tensor.r)
  {
    var r := s.tensor.r;
    OwnOrder(w, s, M(IssPV(h)), r, M(WaitV), r);
    WaitAfterPut(w, kv, s, r);
    PutsBounded(w, kv, s, r);
  }

  lemma P0IsLast(w: seq<Kind>, kv: nat, s: Ctl)
    requires Ok(w, kv, s) && Placed(w, s, T(PV(H0))) && Done(w, s, M(IssPV(H0)), s.tensor.r)
    ensures LastRound(w, s, S(H0, PutP)) == s.tensor.r - 1
  {
    var r := s.tensor.r;
    LastIs(w, s, S(H0, PutP));
    OwnOrder(w, s, M(IssPV(H0)), r, M(WaitP(H0)), r);
    PV0AfterP(w, kv, s, r - 1);
    OwnOrder(w, s, S(H0, CmtP), r - 1, S(H0, PutP), r - 1);
    var u := LastRound(w, s, S(H0, PutP));
    if u >= r {
      OwnOrder(w, s, S(H0, PutP), u, S(H0, AcqP), u);
      P0Early(w, kv, s, u);
    }
  }

  /** Softmax0 does not store its next P before this round's product has released the last. */
  lemma P0Early(w: seq<Kind>, kv: nat, s: Ctl, u: nat)
    requires Ok(w, kv, s) && Placed(w, s, T(PV(H0))) && Done(w, s, S(H0, AcqP), u)
    ensures u < s.tensor.r
  {
    var r := s.tensor.r;
    if u >= r {
      var _ := (Used(w, s, S(H0, AcqP)), Granted(w, kv, s, S(H0, AcqP)));
      DoneIsTimes(w, s, S(H0, AcqP), u);
      DoneIsTimes(w, s, T(RelP(H0)), r);
      BeforeGrows(w, NotLast, r, u);
      Tally(w, r);
    }
  }

  lemma P1IsLast(w: seq<Kind>, kv: nat, s: Ctl)
    requires Ok(w, kv, s) && Placed(w, s, T(PV(H1))) && Done(w, s, M(IssPV(H1)), s.tensor.r)
    ensures LastRound(w, s, S(H1, PutP)) == s.tensor.r
  {
    var r := s.tensor.r;
    LastIs(w, s, S(H1, PutP));
    OwnOrder(w, s, M(IssPV(H1)), r, M(WaitP(H1)), r);
    PV1AfterP(w, kv, s, r);
    OwnOrder(w, s, S(H1, CmtP), r, S(H1, PutP), r);
    var u := LastRound(w, s, S(H1, PutP));
    if u > r {
      OwnOrder(w, s, S(H1, PutP), u, S(H1, AcqP), u);
      P1AfterPV(w, kv, s, u, r);
    }
  }

  /** No S has been written over the P a product is about to read. */
  lemma PVBeforeQK(w: seq<Kind>, kv: nat, s: Ctl, h: Half)
    requires ValidCtl(w, s) && Placed(w, s, T(PV(h)))
    ensures LastRound(w, s, T(QK(Other(h)))) <= if h == H0 then s.tensor.r - 1 else s.tensor.r
  {
    LastIs(w, s, T(QK(Other(h))));
  }

  lemma PFound(w: seq<Kind>, kv: nat, s: Ctl, m: Mem<Tag>, h: Half)
    requires Ok(w, kv, s) && PHolds(w, s, m, Other(h)) && Placed(w, s, T(PV(h)))
    requires Done(w, s, M(IssPV(h)), s.tensor.r)
    ensures m.Buf(Other(h)).p == Probs(s.tensor.r - 1)
  {
    PVBeforeQK(w, kv, s, h);
    if h == H0 {
      P0IsLast(w, kv, s);
    } else {
      P1IsLast(w, kv, s);
    }
  }

  /** Correction has rescaled O of the round before, and nothing has been added since. */
  lemma OScaled(w: seq<Kind>, kv: nat, s: Ctl, m: Mem<Tag>, h: Half)
    requires Ok(w, kv, s) && OHolds(w, s, m, h) && Placed(w, s, T(PV(h)))
    requires Done(w, s, M(IssPV(h)), s.tensor.r) && s.tensor.r > 0 && w[s.tensor.r - 1] == Middle
    ensures m.O(h) == Scaled(s.tensor.r - 1)
  {
    ORescaled(w, kv, s, h);
    NotYet(w, s, T(PV(h)));
  }

  lemma ORescaled(w: seq<Kind>, kv: nat, s: Ctl, h: Half)
    requires Ok(w, kv, s) && Placed(w, s, T(PV(h)))
    requires Done(w, s, M(IssPV(h)), s.tensor.r) && s.tensor.r > 0 && w[s.tensor.r - 1] == Middle
    ensures LastRound(w, s, C(UseO(h))) == s.tensor.r - 1
  {
    var r := s.tensor.r;
    PVFindsOld(w, kv, s, h);
    LastIs(w, s, C(UseO(h)));
    OwnOrder(w, s, M(IssPV(h)), r, M(AcqO(h)), r);
    AcqOAfterRelO(w, kv, s, h, r, r - 1);
    OwnOrder(w, s, C(RelO(h)), r - 1, C(UseO(h)), r - 1);
  }

  lemma PVRight(w: seq<Kind>, kv: nat, s: Ctl, m: Mem<Tag>, h: Half)
    requires Ok(w, kv, s) && MemHolds(w, kv, s, m)
    requires Placed(w, s, T(PV(h))) && Used(w, s, T(PV(h))) < Granted(w, kv, s, T(PV(h)))
    ensures ReadsRight(w, kv, T(PV(h)), s.tensor.r, m)
  {
    StartedIsIssued(w, kv, s, T(PV(h)), M(IssPV(h)));
    assert PHolds(w, s, m, Other(h)) && OHolds(w, s, m, h);
    VFound(w, kv, s, m, h);
    PFound(w, kv, s, m, h);
    if s.tensor.r > 0 && w[s.tensor.r - 1] == Middle {
      OScaled(w, kv, s, m, h);
    }
  }

  /** Whatever an operation that can be performed reads, it reads the right data. */
  lemma EnabledReadsRight(w: seq<Kind>, kv: nat, s: Ctl, m: Mem<Tag>, e: Op)
    requires Ok(w, kv, s) && MemHolds(w, kv, s, m) && Enabled(w, kv, s, e)
    ensures ReadsRight(w, kv, e, s.At(RoleOf(e)).r, m)
  {
    NextPlaced(w, s, e);
    match e
    case T(QK(h)) => QKRight(w, kv, s, m, h);
    case T(PV(h)) => PVRight(w, kv, s, m, h);
    case S(h, ReadS) => ReadSRight(w, kv, s, m, h);
    case C(ReadVec(h)) => ReadVecRight(w, kv, s, m, h);
    case C(UseO(h)) => UseORight(w, kv, s, m, h);
    case _ =>
  }

  lemma MemKept(w: seq<Kind>, kv: nat, s: Ctl, m: Mem<Tag>, e: Op)
    requires Ok(w, kv, s) && MemHolds(w, kv, s, m) && Next(w, s, e)
    ensures ValidCtl(w, After(w, s, e))
    ensures MemHolds(w, kv, After(w, s, e), Effect(w, kv, s, e, s.At(RoleOf(e)).r, m))
  {
    AfterValid(w, s, e);
    var s', m' := After(w, s, e), Effect(w, kv, s, e, s.At(RoleOf(e)).r, m);
    RingKept(w, kv, s, m, e);
    forall h
      ensures VecHolds(w, s', m', h) && PHolds(w, s', m', h) && RestHolds(w, s', m', h)
      ensures OHolds(w, s', m', h) && QHolds(w, s', m', h)
    {
      VecKept(w, kv, s, m, e, h);
      PKept(w, kv, s, m, e, h);
      RestKept(w, kv, s, m, e, h);
      OKept(w, kv, s, m, e, h);
      QKept(w, kv, s, m, e, h);
    }
  }

  // ---- handshakes and barriers have no release side ----

  /** A role's count of an operation, from the last round in which it was performed. */
  lemma CountOf(w: seq<Kind>, s: Ctl, e: Op)
    requires ValidCtl(w, s)
    ensures -1 <= LastRound(w, s, e) < |w|
    ensures LastRound(w, s, e) >= 0 ==> Times(w, s, e) == Before(w, ClassOf(e), LastRound(w, s, e)) + 1
    ensures LastRound(w, s, e) < 0 ==> Times(w, s, e) == 0
  {
    LastIs(w, s, e);
    var p := s.At(RoleOf(e));
    assert ValidPos(w, RoleOf(e), p);
    BeforeLatest(w, ClassOf(e), p.r);
  }

  lemma {:induction false} BeforeLatest(w: seq<Kind>, c: Class, r: nat)
    requires r <= |w|
    ensures -1 <= Latest(w, c, r) < r
    ensures Latest(w, c, r) >= 0 ==> InKind(c, w[Latest(w, c, r)])
    ensures Latest(w, c, r) >= 0 ==> Before(w, c, r) == Before(w, c, Latest(w, c, r)) + 1
    ensures Latest(w, c, r) < 0 ==> Before(w, c, r) == 0
  {
    if r > 0 {
      BeforeLatest(w, c, r - 1);
    }
  }

  /** Softmax0's commit of a round follows softmax1's wait of the round before. */
  lemma Cmt0AfterWait1(w: seq<Kind>, kv: nat, s: Ctl, r: nat)
    requires Ok(w, kv, s) && Done(w, s, S(H0, CmtH), r) && r > 0
    ensures Done(w, s, S(H1, WaitH), r - 1)
  {
    if w[r] == First {
      ReopenAfterWait1(w, kv, s, r);
    } else {
      OwnOrder(w, s, S(H0, CmtH), r, S(H0, WaitH), r - 1);
      Wait0AfterCmt1(w, kv, s, r - 1);
      OwnOrder(w, s, S(H1, CmtH), r - 1, S(H1, WaitH), r - 1);
    }
  }

  /** The first scores of a tile are written after the products that end the tile before. */
  lemma ReopenAfterP(w: seq<Kind>, kv: nat, s: Ctl, r: nat)
    requires Ok(w, kv, s) && Done(w, s, T(QK(H0)), r) && r > 0 && w[r] == First
    ensures w[r - 1] == Last && Done(w, s, S(H1, CmtP), r - 1)
  {
    assert w[r - 1] == Last;
    OwnOrder(w, s, T(QK(H0)), r, T(PV(H1)), r - 1);
    PVAfterMma(w, kv, s, H1, r - 1);
    PV1AfterP(w, kv, s, r - 1);
  }

  /** Across tiles, through the products that end the tile before. */
  lemma ReopenAfterWait1(w: seq<Kind>, kv: nat, s: Ctl, r: nat)
    requires Ok(w, kv, s) && Done(w, s, S(H0, CmtH), r) && r > 0 && w[r] == First
    ensures Done(w, s, S(H1, WaitH), r - 1)
  {
    OwnOrder(w, s, S(H0, CmtH), r, S(H0, WaitS), r);
    WaitSAfterQK(w, kv, s, H0, r);
    ReopenAfterP(w, kv, s, r);
    OwnOrder(w, s, S(H1, CmtP), r - 1, S(H1, WaitH), r - 1);
  }

  lemma Handshake0Bounded(w: seq<Kind>, kv: nat, s: Ctl)
    requires Ok(w, kv, s)
    ensures Times(w, s, S(H0, CmtH)) <= Times(w, s, S(H1, WaitH)) + 1
  {
    LastIs(w, s, S(H0, CmtH));
    var r := LastRound(w, s, S(H0, CmtH));
    CountOf(w, s, S(H0, CmtH));
    if r > 0 {
      Cmt0AfterWait1(w, kv, s, r);
      DoneIsTimes(w, s, S(H1, WaitH), r - 1);
      Tally(w, r - 1);
    }
    if r >= 0 {
      Tally(w, r);
    }
  }

  lemma Handshake1Bounded(w: seq<Kind>, kv: nat, s: Ctl)
    requires Ok(w, kv, s)
    ensures Times(w, s, S(H1, CmtH)) <= Times(w, s, S(H0, WaitH)) + 1
  {
    LastIs(w, s, S(H1, CmtH));
    var r := LastRound(w, s, S(H1, CmtH));
    CountOf(w, s, S(H1, CmtH));
    if r >= 0 {
      BeforeLatest(w, NotLast, r);
      var q := Latest(w, NotLast, r);
      if q >= 0 {
        OwnOrder(w, s, S(H1, CmtH), r, S(H1, WaitH), r);
        Wait1AfterCmt0(w, kv, s, r);
        OwnOrder(w, s, S(H0, CmtH), r, S(H0, WaitH), q);
        DoneIsTimes(w, s, S(H0, WaitH), q);
      }
    }
  }

  /** A one-stage handshake is never committed twice before its waiter has passed once. */
  lemma HandshakeBounded(w: seq<Kind>, kv: nat, s: Ctl, h: Half)
    requires Ok(w, kv, s)
    ensures Times(w, s, S(h, CmtH)) <= Times(w, s, S(Other(h), WaitH)) + 1
  {
    if h == H0 {
      Handshake0Bounded(w, kv, s);
    } else {
      Handshake1Bounded(w, kv, s);
    }
  }

  /** Nor is a sequence barrier arrived at twice, counting the arrival before the first tile. */
  lemma BarrierBounded(w: seq<Kind>, kv: nat, s: Ctl, h: Half)
    requires Ok(w, kv, s)
    ensures Times(w, s, S(Other(h), Arrive)) + (if h == H0 then 1 else 0) <= Times(w, s, S(h, Sync)) + 1
  {
    OwnCount(w, s, S(Other(h), Sync), S(Other(h), Arrive));
    OwnCount(w, s, S(h, Sync), S(h, Arrive));
    assert Used(w, s, S(Other(h), Sync)) <= Granted(w, kv, s, S(Other(h), Sync));
  }
}

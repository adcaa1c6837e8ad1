/**
 Tensor and shared memory of the attention kernel. P of one half and the
 statistics of the other live inside the columns of an S buffer, so every
 operation below overwrites something another role reads. Each cell holds a tag
 naming the round whose data it contains; the theorem is that in every run every
 read finds the tag the algorithm asks for.
 */
module FmhaMemory {
  import opened FmhaProgram
  import opened FmhaProtocol
  import opened FmhaProgress
  import opened FmhaOrder
  import opened Arith

  /** The data of a round: scores, probabilities, statistics, output sum, loaded tiles. */
  datatype Tag =
    | Nothing
    | Scores(r: int) | Probs(r: int) | Stats(r: int)
    | Sum(r: int) | Scaled(r: int)
    | KTile(r: int) | VTile(r: int) | QTile(h: Half, r: int)

  /** The columns of an S buffer: the statistics', the other half's P's, and the rest. */
  datatype Buffer<T> = Buffer(vec: T, p: T, rest: T)

  /** Tensor and shared memory; a cell holds a tag here and a value in the machine built on it. */
  datatype Mem<T> = Mem(s0: Buffer<T>, s1: Buffer<T>, o0: T, o1: T, q0: T, q1: T, ring: seq<T>) {
    function Buf(h: Half): Buffer<T> { if h == H0 then s0 else s1 }
    function O(h: Half): T { if h == H0 then o0 else o1 }
    function Q(h: Half): T { if h == H0 then q0 else q1 }
    function SetBuf(h: Half, b: Buffer<T>): Mem<T> { if h == H0 then this.(s0 := b) else this.(s1 := b) }
    function SetO(h: Half, t: T): Mem<T> { if h == H0 then this.(o0 := t) else this.(o1 := t) }
    function SetQ(h: Half, t: T): Mem<T> { if h == H0 then this.(q0 := t) else this.(q1 := t) }
  }

  function Puts(w: seq<Kind>, s: Ctl): nat
    requires ValidCtl(w, s)
  {
    Times(w, s, L(PutK)) + Times(w, s, L(PutV))
  }

  /** The two query stages are filled in turn. */
  function QSlot(w: seq<Kind>, s: Ctl): Half
    requires ValidCtl(w, s)
  {
    if (Times(w, s, L(PutQ(H0))) + Times(w, s, L(PutQ(H1)))) % Q_STAGE == 0 then H0 else H1
  }

  /** What softmax h stores as P in round r: its own scores, softmax1 one round late. */
  function StoredP(h: Half, r: int): Tag {
    Probs(if h == H0 then r else r - 1)
  }

  /** The writes of an operation performed in round r. */
  function Effect(w: seq<Kind>, kv: nat, s: Ctl, e: Op, r: nat, m: Mem<Tag>): Mem<Tag>
    requires ValidCtl(w, s) && r < |w| && kv > 0 && |m.ring| == kv
  {
    match e
    case L(x) =>
      if x.PutK? then m.(ring := m.ring[Puts(w, s) % kv := KTile(r)])
      else if x.PutV? then m.(ring := m.ring[Puts(w, s) % kv := VTile(r)])
      else if x.PutQ? then m.SetQ(QSlot(w, s), QTile(x.q, r))
      else m
    case M(_) => m
    case T(x) =>
      if x.QK? then m.SetBuf(x.h, Buffer(Scores(r), Scores(r), Scores(r)))
      else if x.PV? then m.SetO(x.h, Sum(r))
      else m
    case S(h, x) =>
      if x.PutVec? then m.SetBuf(h, m.Buf(h).(vec := Stats(r)))
      else if x.PutP? then m.SetBuf(Other(h), m.Buf(Other(h)).(p := StoredP(h, r)))
      else m
    case C(x) => if x.UseO? && w[r] == Middle then m.SetO(x.h, Scaled(r)) else m
  }

  /** The data an operation reads in round r, as the algorithm asks for it. */
  predicate ReadsRight(w: seq<Kind>, kv: nat, e: Op, r: nat, m: Mem<Tag>)
    requires r < |w| && kv > 0 && |m.ring| == kv
  {
    match e
    case T(QK(h)) => m.ring[KIndex(w, r) % kv] == KTile(r) && m.Q(h) == QTile(h, TileStart(w, r))
    case T(PV(h)) =>
      && m.ring[VIndex(w, r) % kv] == VTile(r)
      && m.Buf(Other(h)).p == Probs(r - 1)
      // the first product of a tile does not accumulate
      && (r > 0 && w[r - 1] == Middle ==> m.O(h) == Scaled(r - 1))
    case S(h, ReadS) => m.Buf(h) == Buffer(Scores(r), Scores(r), Scores(r))
    case C(ReadVec(h)) => m.Buf(h).vec == Stats(r)
    case C(UseO(h)) => m.O(h) == Sum(r)
    case _ => true
  }

  // ---- the last round in which an operation was performed ----

  function Latest(w: seq<Kind>, c: Class, r: nat): int
    requires r <= |w|
  {
    if r == 0 then -1 else if InKind(c, w[r - 1]) then r - 1 else Latest(w, c, r - 1)
  }

  function LastRound(w: seq<Kind>, s: Ctl, e: Op): int
    requires ValidCtl(w, s)
  {
    var p := s.At(RoleOf(e));
    assert ValidPos(w, RoleOf(e), p);
    if DoneAt(w, e, p.r, p) then p.r else Latest(w, ClassOf(e), p.r)
  }

  lemma {:induction false} LatestIs(w: seq<Kind>, c: Class, r: nat)
    requires r <= |w|
    ensures -1 <= Latest(w, c, r) < r
    ensures Latest(w, c, r) >= 0 ==> InKind(c, w[Latest(w, c, r)])
    ensures forall q :: Latest(w, c, r) < q < r ==> !InKind(c, w[q])
  {
    if r > 0 {
      LatestIs(w, c, r - 1);
    }
  }

  lemma LastIs(w: seq<Kind>, s: Ctl, e: Op)
    requires ValidCtl(w, s)
    ensures -1 <= LastRound(w, s, e) < |w|
    ensures LastRound(w, s, e) >= 0 ==> Done(w, s, e, LastRound(w, s, e))
    ensures forall r: nat {:trigger Done(w, s, e, r)} :: Done(w, s, e, r) ==> r <= LastRound(w, s, e)
  {
    var p := s.At(RoleOf(e));
    assert ValidPos(w, RoleOf(e), p);
    LatestIs(w, ClassOf(e), p.r);
  }

  lemma LastAfter(w: seq<Kind>, s: Ctl, e: Op, f: Op)
    requires ValidCtl(w, s) && Next(w, s, e)
    ensures ValidCtl(w, After(w, s, e))
    ensures LastRound(w, After(w, s, e), f) == if f == e then s.At(RoleOf(e)).r else LastRound(w, s, f)
  {
    AfterValid(w, s, e);
    var s' := After(w, s, e);
    var r := s.At(RoleOf(e)).r;
    LastIs(w, s, f);
    LastIs(w, s', f);
    AfterDone(w, s, e, f, r);
    if LastRound(w, s, f) >= 0 {
      AfterDone(w, s, e, f, LastRound(w, s, f));
    }
    if LastRound(w, s', f) >= 0 {
      AfterDone(w, s, e, f, LastRound(w, s', f));
    }
    if f == e {
      NextPlaced(w, s, e);
      NotYet(w, s, e);
    }
  }

  /** An operation that is next has not been performed in its round or later. */
  lemma NotYet(w: seq<Kind>, s: Ctl, e: Op)
    requires ValidCtl(w, s) && Placed(w, s, e)
    ensures LastRound(w, s, e) < s.At(RoleOf(e)).r
  {
    LatestIs(w, ClassOf(e), s.At(RoleOf(e)).r);
  }

  lemma NextPlaced(w: seq<Kind>, s: Ctl, e: Op)
    requires Next(w, s, e)
    ensures Placed(w, s, e)
  {
    var p := s.At(RoleOf(e));
    Listed(RoleOf(e), w[p.r], p.k);
  }

  // ---- what each cell holds ----

  function ScoresOf(q: int): Tag {
    if q >= 0 then Scores(q) else Nothing
  }

  ghost predicate VecHolds(w: seq<Kind>, s: Ctl, m: Mem<Tag>, h: Half)
    requires ValidCtl(w, s)
  {
    var q, u := LastRound(w, s, T(QK(h))), LastRound(w, s, S(h, PutVec));
    m.Buf(h).vec == if 0 <= u && q <= u then Stats(u) else ScoresOf(q)
  }

  ghost predicate PHolds(w: seq<Kind>, s: Ctl, m: Mem<Tag>, h: Half)
    requires ValidCtl(w, s)
  {
    var q, u := LastRound(w, s, T(QK(h))), LastRound(w, s, S(Other(h), PutP));
    m.Buf(h).p == if 0 <= u && q <= u then StoredP(Other(h), u) else ScoresOf(q)
  }

  ghost predicate RestHolds(w: seq<Kind>, s: Ctl, m: Mem<Tag>, h: Half)
    requires ValidCtl(w, s)
  {
    m.Buf(h).rest == ScoresOf(LastRound(w, s, T(QK(h))))
  }

  ghost predicate OHolds(w: seq<Kind>, s: Ctl, m: Mem<Tag>, h: Half)
    requires ValidCtl(w, s)
  {
    LastIs(w, s, C(UseO(h)));
    var q, u := LastRound(w, s, T(PV(h))), LastRound(w, s, C(UseO(h)));
    m.O(h) == if 0 <= u && q <= u && w[u] == Middle then Scaled(u) else if q >= 0 then Sum(q) else Nothing
  }

  ghost predicate QHolds(w: seq<Kind>, s: Ctl, m: Mem<Tag>, h: Half)
    requires ValidCtl(w, s)
  {
    var u := LastRound(w, s, L(PutQ(h)));
    m.Q(h) == if u >= 0 then QTile(h, u) else Nothing
  }

  /** The last kv loads are in their slots. */
  ghost predicate RingHolds(w: seq<Kind>, kv: nat, s: Ctl, m: Mem<Tag>)
    requires ValidCtl(w, s)
  {
    && kv > 0 && |m.ring| == kv
    && (forall r :: 0 <= r < |w| && Done(w, s, L(PutK), r) && Puts(w, s) <= KIndex(w, r) + kv
                    ==> m.ring[KIndex(w, r) % kv] == KTile(r))
    && (forall r :: 0 <= r < |w| && Done(w, s, L(PutV), r) && Puts(w, s) <= VIndex(w, r) + kv
                    ==> m.ring[VIndex(w, r) % kv] == VTile(r))
  }

  ghost predicate MemHolds(w: seq<Kind>, kv: nat, s: Ctl, m: Mem<Tag>)
    requires ValidCtl(w, s)
  {
    && RingHolds(w, kv, s, m)
    && forall h :: VecHolds(w, s, m, h) && PHolds(w, s, m, h) && RestHolds(w, s, m, h)
                   && OHolds(w, s, m, h) && QHolds(w, s, m, h)
  }

  // ---- nothing is overwritten early ----

  /** When S of round r is written, the statistics in its columns are from an earlier round. */
  lemma QKFindsOldVec(w: seq<Kind>, kv: nat, s: Ctl, h: Half)
    requires Ok(w, kv, s) && Placed(w, s, T(QK(h)))
    ensures LastRound(w, s, S(h, PutVec)) < s.tensor.r
  {
    var r := s.tensor.r;
    NotYet(w, s, T(QK(h)));
    LastIs(w, s, T(QK(h)));
    LastIs(w, s, S(h, PutVec));
    if LastRound(w, s, S(h, PutVec)) >= r {
      OwnOrder(w, s, S(h, PutVec), LastRound(w, s, S(h, PutVec)), S(h, WaitS), r);
      WaitSAfterQK(w, kv, s, h, r);
    }
  }

  lemma HandshakeAfterQK(w: seq<Kind>, kv: nat, s: Ctl, h: Half, r: nat)
    requires Ok(w, kv, s) && Done(w, s, S(Other(h), WaitH), r) && w[r] != Last
    ensures Done(w, s, T(QK(h)), r)
  {
    if h == H0 {
      Wait1AfterCmt0(w, kv, s, r);
    } else {
      Wait0AfterCmt1(w, kv, s, r);
    }
    OwnOrder(w, s, S(h, CmtH), r, S(h, WaitS), r);
    WaitSAfterQK(w, kv, s, h, r);
  }

  /** Likewise the P of the other half. */
  lemma QKFindsOldP(w: seq<Kind>, kv: nat, s: Ctl, h: Half)
    requires Ok(w, kv, s) && Placed(w, s, T(QK(h)))
    ensures LastRound(w, s, S(Other(h), PutP)) < s.tensor.r
  {
    var r := s.tensor.r;
    NotYet(w, s, T(QK(h)));
    LastIs(w, s, T(QK(h)));
    LastIs(w, s, S(Other(h), PutP));
    if LastRound(w, s, S(Other(h), PutP)) >= r {
      OwnOrder(w, s, S(Other(h), PutP), LastRound(w, s, S(Other(h), PutP)), S(Other(h), WaitH), r);
      HandshakeAfterQK(w, kv, s, h, r);
    }
  }

  /** When the statistics of round r are stored, no later S has been written over them. */
  lemma PutVecFindsRoom(w: seq<Kind>, kv: nat, s: Ctl, h: Half)
    requires Ok(w, kv, s) && Placed(w, s, S(h, PutVec))
    ensures LastRound(w, s, T(QK(h))) <= s.At(Soft(h)).r
  {
    var r := s.At(Soft(h)).r;
    NotYet(w, s, S(h, PutVec));
    LastIs(w, s, T(QK(h)));
    if LastRound(w, s, T(QK(h))) > r {
      QKAfterRelVec(w, kv, s, h, LastRound(w, s, T(QK(h))), r);
      OwnOrder(w, s, C(RelVec(h)), r, C(WaitVec(h)), r);
      WaitVecAfterCmtVec(w, kv, s, h, r);
      assert false;
    }
  }

  /** When P is stored into the other half's S buffer, no later S has been written there. */
  lemma PutP0FindsRoom(w: seq<Kind>, kv: nat, s: Ctl)
    requires Ok(w, kv, s) && Placed(w, s, S(H0, PutP))
    ensures LastRound(w, s, T(QK(H1))) <= s.soft0.r
  {
    var r := s.soft0.r;
    NotYet(w, s, S(H0, PutP));
    LastIs(w, s, T(QK(H1)));
    var q := LastRound(w, s, T(QK(H1)));
    if q > r {
      OwnOrder(w, s, T(QK(H1)), q, T(PV(H0)), r + 1);
      PVAfterMma(w, kv, s, H0, r + 1);
      PV0AfterP(w, kv, s, r);
      assert false;
    }
  }

  lemma PutP1FindsRoom(w: seq<Kind>, kv: nat, s: Ctl)
    requires Ok(w, kv, s) && Placed(w, s, S(H1, PutP))
    ensures LastRound(w, s, T(QK(H0))) <= s.soft1.r
  {
    var r := s.soft1.r;
    NotYet(w, s, S(H1, PutP));
    LastIs(w, s, T(QK(H0)));
    var q := LastRound(w, s, T(QK(H0)));
    if q > r {
      OwnOrder(w, s, T(QK(H0)), q, T(PV(H1)), r);
      PVAfterMma(w, kv, s, H1, r);
      PV1AfterP(w, kv, s, r);
      assert false;
    }
  }

  /** When a product of round r lands in O, correction has not yet used O of round r. */
  lemma PVFindsOld(w: seq<Kind>, kv: nat, s: Ctl, h: Half)
    requires Ok(w, kv, s) && Placed(w, s, T(PV(h)))
    ensures LastRound(w, s, C(UseO(h))) < s.tensor.r
  {
    var r := s.tensor.r;
    NotYet(w, s, T(PV(h)));
    LastIs(w, s, C(UseO(h)));
    LastIs(w, s, T(PV(h)));
    if LastRound(w, s, C(UseO(h))) >= r {
      OwnOrder(w, s, C(UseO(h)), LastRound(w, s, C(UseO(h))), C(WaitO(h)), r);
      WaitOAfterPV(w, kv, s, h, r);
    }
  }

  /** When correction rescales O of round r, the product of round r is the last to have landed. */
  lemma UseOFindsSum(w: seq<Kind>, kv: nat, s: Ctl, h: Half)
    requires Ok(w, kv, s) && Placed(w, s, C(UseO(h)))
    ensures LastRound(w, s, T(PV(h))) == s.corr.r
  {
    var r := s.corr.r;
    NotYet(w, s, C(UseO(h)));
    LastIs(w, s, T(PV(h)));
    assert Done(w, s, C(WaitO(h)), r);
    WaitOAfterPV(w, kv, s, h, r);
    if LastRound(w, s, T(PV(h))) > r {
      PVAfterRelO(w, kv, s, h, LastRound(w, s, T(PV(h))), r);
      assert false;
    }
  }

  // ---- each cell is kept ----

  lemma VecKept(w: seq<Kind>, kv: nat, s: Ctl, m: Mem<Tag>, e: Op, h: Half)
    requires Ok(w, kv, s) && Next(w, s, e) && VecHolds(w, s, m, h) && kv > 0 && |m.ring| == kv
    ensures ValidCtl(w, After(w, s, e))
    ensures VecHolds(w, After(w, s, e), Effect(w, kv, s, e, s.At(RoleOf(e)).r, m), h)
  {
    NextPlaced(w, s, e);
    LastAfter(w, s, e, T(QK(h)));
    LastAfter(w, s, e, S(h, PutVec));
    if e == T(QK(h)) {
      QKFindsOldVec(w, kv, s, h);
    } else if e == S(h, PutVec) {
      PutVecFindsRoom(w, kv, s, h);
    } else {
      VecFrame(w, kv, s, e, m, h);
    }
  }

  lemma VecFrame(w: seq<Kind>, kv: nat, s: Ctl, e: Op, m: Mem<Tag>, h: Half)
    requires ValidCtl(w, s) && s.At(RoleOf(e)).r < |w| && kv > 0 && |m.ring| == kv
    requires e != T(QK(h)) && e != S(h, PutVec)
    ensures Effect(w, kv, s, e, s.At(RoleOf(e)).r, m).Buf(h).vec == m.Buf(h).vec
  {
  }

  lemma PKept(w: seq<Kind>, kv: nat, s: Ctl, m: Mem<Tag>, e: Op, h: Half)
    requires Ok(w, kv, s) && Next(w, s, e) && PHolds(w, s, m, h) && kv > 0 && |m.ring| == kv
    ensures ValidCtl(w, After(w, s, e))
    ensures PHolds(w, After(w, s, e), Effect(w, kv, s, e, s.At(RoleOf(e)).r, m), h)
  {
    NextPlaced(w, s, e);
    LastAfter(w, s, e, T(QK(h)));
    LastAfter(w, s, e, S(Other(h), PutP));
    if e == T(QK(h)) {
      QKFindsOldP(w, kv, s, h);
    } else if e == S(Other(h), PutP) {
      if h == H0 {
        PutP1FindsRoom(w, kv, s);
      } else {
        PutP0FindsRoom(w, kv, s);
      }
    } else {
      PFrame(w, kv, s, e, m, h);
    }
  }

  lemma PFrame(w: seq<Kind>, kv: nat, s: Ctl, e: Op, m: Mem<Tag>, h: Half)
    requires ValidCtl(w, s) && s.At(RoleOf(e)).r < |w| && kv > 0 && |m.ring| == kv
    requires e != T(QK(h)) && e != S(Other(h), PutP)
    ensures Effect(w, kv, s, e, s.At(RoleOf(e)).r, m).Buf(h).p == m.Buf(h).p
  {
  }

  lemma RestKept(w: seq<Kind>, kv: nat, s: Ctl, m: Mem<Tag>, e: Op, h: Half)
    requires Ok(w, kv, s) && Next(w, s, e) && RestHolds(w, s, m, h) && kv > 0 && |m.ring| == kv
    ensures ValidCtl(w, After(w, s, e))
    ensures RestHolds(w, After(w, s, e), Effect(w, kv, s, e, s.At(RoleOf(e)).r, m), h)
  {
    LastAfter(w, s, e, T(QK(h)));
  }

  lemma OKept(w: seq<Kind>, kv: nat, s: Ctl, m: Mem<Tag>, e: Op, h: Half)
    requires Ok(w, kv, s) && Next(w, s, e) && OHolds(w, s, m, h) && kv > 0 && |m.ring| == kv
    ensures ValidCtl(w, After(w, s, e))
    ensures OHolds(w, After(w, s, e), Effect(w, kv, s, e, s.At(RoleOf(e)).r, m), h)
  {
    NextPlaced(w, s, e);
    LastAfter(w, s, e, T(PV(h)));
    LastAfter(w, s, e, C(UseO(h)));
    if e == T(PV(h)) {
      PVFindsOld(w, kv, s, h);
    } else if e == C(UseO(h)) {
      UseOFindsSum(w, kv, s, h);
      OUsed(w, kv, s, m, h);
    } else {
      OFrame(w, kv, s, e, m, h);
    }
  }

  lemma OUsed(w: seq<Kind>, kv: nat, s: Ctl, m: Mem<Tag>, h: Half)
    requires ValidCtl(w, s) && Placed(w, s, C(UseO(h))) && OHolds(w, s, m, h) && kv > 0 && |m.ring| == kv
    requires LastRound(w, s, T(PV(h))) == s.corr.r
    ensures m.O(h) == Sum(s.corr.r)
    ensures Effect(w, kv, s, C(UseO(h)), s.corr.r, m).O(h)
            == if w[s.corr.r] == Middle then Scaled(s.corr.r) else Sum(s.corr.r)
  {
    NotYet(w, s, C(UseO(h)));
  }

  lemma OFrame(w: seq<Kind>, kv: nat, s: Ctl, e: Op, m: Mem<Tag>, h: Half)
    requires ValidCtl(w, s) && s.At(RoleOf(e)).r < |w| && kv > 0 && |m.ring| == kv
    requires e != T(PV(h)) && e != C(UseO(h))
    ensures Effect(w, kv, s, e, s.At(RoleOf(e)).r, m).O(h) == m.O(h)
  {
  }

  lemma QKept(w: seq<Kind>, kv: nat, s: Ctl, m: Mem<Tag>, e: Op, h: Half)
    requires Ok(w, kv, s) && Next(w, s, e) && QHolds(w, s, m, h) && kv > 0 && |m.ring| == kv
    ensures ValidCtl(w, After(w, s, e))
    ensures QHolds(w, After(w, s, e), Effect(w, kv, s, e, s.At(RoleOf(e)).r, m), h)
  {
    NextPlaced(w, s, e);
    LastAfter(w, s, e, L(PutQ(h)));
    if e.L? && e.l.PutQ? {
      OwnTimes(w, s, e, L(PutQ(H0)));
      OwnTimes(w, s, e, L(PutQ(H1)));
    } else {
      QFrame(w, kv, s, e, m, h);
    }
  }

  lemma QFrame(w: seq<Kind>, kv: nat, s: Ctl, e: Op, m: Mem<Tag>, h: Half)
    requires ValidCtl(w, s) && s.At(RoleOf(e)).r < |w| && kv > 0 && |m.ring| == kv
    requires !(e.L? && e.l.PutQ?)
    ensures Effect(w, kv, s, e, s.At(RoleOf(e)).r, m).Q(h) == m.Q(h)
  {
  }

  // ---- the shared key/value ring ----

  /** The load warp fills the ring in the order of the indices. */
  lemma PutIndex(w: seq<Kind>, s: Ctl, e: Op)
    requires Tiled(w) && ValidCtl(w, s) && Placed(w, s, e) && (e == L(PutK) || e == L(PutV))
    ensures Puts(w, s) == if e == L(PutK) then KIndex(w, s.load.r) else VIndex(w, s.load.r)
  {
  }

  lemma RingPut(w: seq<Kind>, kv: nat, s: Ctl, m: Mem<Tag>, e: Op)
    requires Ok(w, kv, s) && Next(w, s, e) && RingHolds(w, kv, s, m) && (e == L(PutK) || e == L(PutV))
    ensures ValidCtl(w, After(w, s, e))
    ensures RingHolds(w, kv, After(w, s, e), Effect(w, kv, s, e, s.load.r, m))
  {
    AfterValid(w, s, e);
    AfterTimes(w, s, e, L(PutK));
    AfterTimes(w, s, e, L(PutV));
    NextPlaced(w, s, e);
    PutIndex(w, s, e);
    var s', m', n := After(w, s, e), Effect(w, kv, s, e, s.load.r, m), Puts(w, s);
    forall r: nat
      ensures r < |w| && Done(w, s', L(PutK), r) && Puts(w, s') <= KIndex(w, r) + kv
              ==> m'.ring[KIndex(w, r) % kv] == KTile(r)
      ensures r < |w| && Done(w, s', L(PutV), r) && Puts(w, s') <= VIndex(w, r) + kv
              ==> m'.ring[VIndex(w, r) % kv] == VTile(r)
    {
      AfterDone(w, s, e, L(PutK), r);
      AfterDone(w, s, e, L(PutV), r);
      if r < |w| {
        RingCount(w, s, L(PutK), L(PutV), r);
      }
      if Done(w, s, L(PutK), r) && n + 1 <= KIndex(w, r) + kv {
        ModDistinct(KIndex(w, r), n, kv);
      }
      if Done(w, s, L(PutV), r) && n + 1 <= VIndex(w, r) + kv {
        ModDistinct(VIndex(w, r), n, kv);
      }
    }
  }

  lemma RingFrame(w: seq<Kind>, kv: nat, s: Ctl, e: Op, m: Mem<Tag>)
    requires ValidCtl(w, s) && s.At(RoleOf(e)).r < |w| && kv > 0 && |m.ring| == kv
    requires e != L(PutK) && e != L(PutV)
    ensures Effect(w, kv, s, e, s.At(RoleOf(e)).r, m).ring == m.ring
  {
  }

  /** Loads that have been done, and their number, do not change by another operation. */
  lemma PutsFrame(w: seq<Kind>, s: Ctl, e: Op)
    requires ValidCtl(w, s) && Next(w, s, e) && e != L(PutK) && e != L(PutV)
    ensures ValidCtl(w, After(w, s, e)) && Puts(w, After(w, s, e)) == Puts(w, s)
    ensures forall r: nat :: Done(w, After(w, s, e), L(PutK), r) == Done(w, s, L(PutK), r)
    ensures forall r: nat :: Done(w, After(w, s, e), L(PutV), r) == Done(w, s, L(PutV), r)
  {
    AfterTimes(w, s, e, L(PutK));
    AfterTimes(w, s, e, L(PutV));
    forall r: nat
      ensures Done(w, After(w, s, e), L(PutK), r) == Done(w, s, L(PutK), r)
      ensures Done(w, After(w, s, e), L(PutV), r) == Done(w, s, L(PutV), r)
    {
      AfterDone(w, s, e, L(PutK), r);
      AfterDone(w, s, e, L(PutV), r);
    }
  }

  lemma RingKept(w: seq<Kind>, kv: nat, s: Ctl, m: Mem<Tag>, e: Op)
    requires Ok(w, kv, s) && Next(w, s, e) && RingHolds(w, kv, s, m)
    ensures ValidCtl(w, After(w, s, e))
    ensures RingHolds(w, kv, After(w, s, e), Effect(w, kv, s, e, s.At(RoleOf(e)).r, m))
  {
    AfterValid(w, s, e);
    if e == L(PutK) || e == L(PutV) {
      RingPut(w, kv, s, m, e);
    } else {
      RingFrame(w, kv, s, e, m);
      PutsFrame(w, s, e);
    }
  }
}

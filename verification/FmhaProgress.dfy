/**
 Deadlock freedom of the attention kernel, for any sequence of tiles, any number
 of key/value steps per tile and any key/value ring of at least two stages.

 `Rank` orders the operations of one round so that whatever an operation waits
 for inside its own round ranks below it. The role whose next operation is least
 in (round, rank) is then always able to move.
 */
module FmhaProgress {
  import opened FmhaProgram
  import opened FmhaProtocol

  function MmaRank(kind: Kind, k: nat): nat {
    match kind
    case First => if k < 6 then 10 + k else 34 + k
    case Middle => if k < 5 then 10 + k else if k < 9 then 26 + k else if k < 13 then 31 + k else 37 + k
    case Last => if k < 1 then 10 + k else if k < 5 then 30 + k else if k < 8 then 45 + k else 52 + k
  }

  function TensorRank(kind: Kind, k: nat): nat {
    match kind
    case First => if k < 2 then 16 + k else 43 + k
    case Middle => if k < 2 then 16 + k else if k < 5 then 33 + k else if k < 8 then 40 + k else 46 + k
    case Last => if k < 2 then 16 + k else if k < 5 then 33 + k else 49 + k
  }

  /** The place of a role's k-th operation in the round's reference order. */
  function Rank(role: Role, kind: Kind, k: nat): nat {
    match role
    case Load => k
    case Mma => MmaRank(kind, k)
    case Tensor => TensorRank(kind, k)
    case Soft(h) =>
      if h == H0 then if k < 9 then 18 + k else 71 + k
      else if kind == First then if k < 1 then 27 else 64 + k
      else if k < 4 then 27 + k else 64 + k
    case Corr => 90 + k
  }

  function OpRank(e: Op, kind: Kind): nat {
    Rank(RoleOf(e), kind, Slot(e, kind))
  }

  lemma RankIncreases(role: Role, kind: Kind, j: nat, k: nat)
    requires j < k
    ensures Rank(role, kind, j) < Rank(role, kind, k)
  {
  }

  /** A role's next operation is not before the given place of the reference order. */
  predicate Reached(w: seq<Kind>, role: Role, p: Pos, r: nat, rank: nat) {
    p.r > r || (p.r == r && r < |w| && Rank(role, w[r], p.k) >= rank)
  }

  lemma BeforeGrows(w: seq<Kind>, c: Class, q: nat, r: nat)
    requires q <= r <= |w|
    ensures Before(w, c, q) <= Before(w, c, r)
    decreases r - q
  {
  }

  lemma RankReached(role: Role, kind: Kind, k: nat, slot: nat, rank: nat)
    requires Rank(role, kind, slot) < rank <= Rank(role, kind, k)
    ensures slot < k
  {
    if k < slot {
      RankIncreases(role, kind, k, slot);
    }
  }

  lemma TimesAtLeast(w: seq<Kind>, e: Op, p: Pos, r: nat)
    requires r <= p.r <= |w| && r < |w|
    ensures TimesAt(w, e, p) >= Before(w, ClassOf(e), r) + if DoneAt(w, e, r, p) then 1 else 0
  {
    if r < p.r {
      BeforeGrows(w, ClassOf(e), r + 1, p.r);
    }
  }

  lemma ReachedDone(w: seq<Kind>, f: Op, p: Pos, r: nat, rank: nat)
    requires r < |w| && Reached(w, RoleOf(f), p, r, rank)
    requires Present(f, w[r]) && OpRank(f, w[r]) < rank
    ensures DoneAt(w, f, r, p)
  {
    var role, kind, slot := RoleOf(f), w[r], Slot(f, w[r]);
    if p.r == r {
      RankReached(role, kind, p.k, slot, rank);
    }
  }

  /** What has been done, at least, by a role that has reached a place. */
  lemma ReachedTimes(w: seq<Kind>, s: Ctl, f: Op, r: nat, rank: nat)
    requires ValidCtl(w, s) && r < |w|
    requires Reached(w, RoleOf(f), s.At(RoleOf(f)), r, rank)
    ensures Times(w, s, f) >= Before(w, ClassOf(f), r)
              + if Present(f, w[r]) && OpRank(f, w[r]) < rank then 1 else 0
  {
    var p := s.At(RoleOf(f));
    assert ValidPos(w, RoleOf(f), p);
    TimesAtLeast(w, f, p, r);
    if Present(f, w[r]) && OpRank(f, w[r]) < rank {
      ReachedDone(w, f, p, r, rank);
    }
  }

  /** How the classes relate at the start of a round. */
  lemma {:induction false} Tally(w: seq<Kind>, r: nat)
    requires Tiled(w) && r <= |w|
    ensures Before(w, Always, r) == r
    ensures Before(w, NotLast, r) + Before(w, OnlyLast, r) == r
    ensures Before(w, NotFirst, r) + Before(w, OnlyFirst, r) == r
    ensures Before(w, OnlyFirst, r) == Before(w, OnlyLast, r) + if r < |w| && w[r] != First then 1 else 0
  {
    if r > 0 {
      Tally(w, r - 1);
    }
  }

  /** The role of e stands at the slot of e. */
  predicate Placed(w: seq<Kind>, s: Ctl, e: Op) {
    var p := s.At(RoleOf(e));
    p.r < |w| && Present(e, w[p.r]) && Slot(e, w[p.r]) == p.k
  }

  /** Every role has reached the place of e, which is next in its own role. */
  ghost predicate Foremost(w: seq<Kind>, s: Ctl, e: Op) {
    && Placed(w, s, e)
    && var r := s.At(RoleOf(e)).r;
       forall role {:trigger s.At(role)} :: Reached(w, role, s.At(role), r, OpRank(e, w[r]))
  }

  lemma ForemostGrants(w: seq<Kind>, s: Ctl, e: Op, f: Op)
    requires ValidCtl(w, s) && Tiled(w) && Foremost(w, s, e)
    ensures var r := s.At(RoleOf(e)).r;
            Times(w, s, f) >= Before(w, ClassOf(f), r)
              + if Present(f, w[r]) && OpRank(f, w[r]) < OpRank(e, w[r]) then 1 else 0
  {
    var r := s.At(RoleOf(e)).r;
    assert Reached(w, RoleOf(f), s.At(RoleOf(f)), r, OpRank(e, w[r]));
    ReachedTimes(w, s, f, r, OpRank(e, w[r]));
  }

  /** A role's own count of its next operation, and of one later or earlier in the list. */
  lemma OwnTimes(w: seq<Kind>, s: Ctl, e: Op, f: Op)
    requires ValidCtl(w, s) && Placed(w, s, e) && RoleOf(f) == RoleOf(e)
    ensures var r := s.At(RoleOf(e)).r;
            Times(w, s, f) == Before(w, ClassOf(f), r)
              + if Present(f, w[r]) && Slot(f, w[r]) < Slot(e, w[r]) then 1 else 0
  {
  }

  lemma LoadAcquiresQ(w: seq<Kind>, kv: nat, s: Ctl, h: Half)
    requires ValidCtl(w, s) && Tiled(w) && Foremost(w, s, L(AcqQ(h)))
    ensures Used(w, s, L(AcqQ(h))) < Granted(w, kv, s, L(AcqQ(h)))
  {
    Tally(w, s.load.r);
    OwnTimes(w, s, L(AcqQ(h)), L(AcqQ(H0)));
    OwnTimes(w, s, L(AcqQ(h)), L(AcqQ(H1)));
    ForemostGrants(w, s, L(AcqQ(h)), T(RelQ(H0)));
    ForemostGrants(w, s, L(AcqQ(h)), T(RelQ(H1)));
  }

  lemma LoadAcquiresKV(w: seq<Kind>, kv: nat, s: Ctl, x: LoadOp)
    requires ValidCtl(w, s) && Tiled(w) && kv >= 2 && Foremost(w, s, L(x)) && (x == AcqK || x == AcqV)
    ensures Used(w, s, L(x)) < Granted(w, kv, s, L(x))
  {
    Tally(w, s.load.r);
    OwnTimes(w, s, L(x), L(AcqK));
    OwnTimes(w, s, L(x), L(AcqV));
    ForemostGrants(w, s, L(x), T(RelK));
    ForemostGrants(w, s, L(x), T(RelV));
  }

  lemma LoadMoves(w: seq<Kind>, kv: nat, s: Ctl, x: LoadOp)
    requires ValidCtl(w, s) && Tiled(w) && kv >= 2 && Foremost(w, s, L(x))
    ensures Used(w, s, L(x)) < Granted(w, kv, s, L(x))
  {
    match x
    case AcqQ(h) => LoadAcquiresQ(w, kv, s, h);
    case AcqK | AcqV => LoadAcquiresKV(w, kv, s, x);
    case PutQ(_) | PutK | PutV =>
  }

  lemma MmaWaitsQ(w: seq<Kind>, kv: nat, s: Ctl, h: Half)
    requires ValidCtl(w, s) && Tiled(w) && Foremost(w, s, M(WaitQ(h)))
    ensures Used(w, s, M(WaitQ(h))) < Granted(w, kv, s, M(WaitQ(h)))
  {
    Tally(w, s.mma.r);
    OwnTimes(w, s, M(WaitQ(h)), M(WaitQ(H0)));
    OwnTimes(w, s, M(WaitQ(h)), M(WaitQ(H1)));
    ForemostGrants(w, s, M(WaitQ(h)), L(PutQ(H0)));
    ForemostGrants(w, s, M(WaitQ(h)), L(PutQ(H1)));
  }

  lemma MmaWaitsK(w: seq<Kind>, kv: nat, s: Ctl)
    requires ValidCtl(w, s) && Tiled(w) && Foremost(w, s, M(WaitK))
    ensures Used(w, s, M(WaitK)) < Granted(w, kv, s, M(WaitK))
  {
    Tally(w, s.mma.r);
    OwnTimes(w, s, M(WaitK), M(WaitK));
    OwnTimes(w, s, M(WaitK), M(WaitV));
    ForemostGrants(w, s, M(WaitK), L(PutK));
    ForemostGrants(w, s, M(WaitK), L(PutV));
  }

  lemma MmaWaitsV(w: seq<Kind>, kv: nat, s: Ctl)
    requires ValidCtl(w, s) && Tiled(w) && Foremost(w, s, M(WaitV))
    ensures Used(w, s, M(WaitV)) < Granted(w, kv, s, M(WaitV))
  {
    Tally(w, s.mma.r);
    OwnTimes(w, s, M(WaitV), M(WaitK));
    OwnTimes(w, s, M(WaitV), M(WaitV));
    ForemostGrants(w, s, M(WaitV), L(PutK));
    ForemostGrants(w, s, M(WaitV), L(PutV));
  }

  lemma MmaWaitsP(w: seq<Kind>, kv: nat, s: Ctl, h: Half)
    requires ValidCtl(w, s) && Tiled(w) && Foremost(w, s, M(WaitP(h)))
    ensures Used(w, s, M(WaitP(h))) < Granted(w, kv, s, M(WaitP(h)))
  {
    Tally(w, s.mma.r);
    OwnTimes(w, s, M(WaitP(h)), M(WaitP(h)));
    ForemostGrants(w, s, M(WaitP(h)), S(h, CmtP));
  }

  lemma MmaAcquiresS(w: seq<Kind>, kv: nat, s: Ctl, h: Half)
    requires ValidCtl(w, s) && Tiled(w) && Foremost(w, s, M(AcqS(h)))
    ensures Used(w, s, M(AcqS(h))) < Granted(w, kv, s, M(AcqS(h)))
  {
    OwnTimes(w, s, M(AcqS(h)), M(AcqS(h)));
    ForemostGrants(w, s, M(AcqS(h)), S(h, RelS));
  }

  lemma MmaAcquiresVec(w: seq<Kind>, kv: nat, s: Ctl, h: Half)
    requires ValidCtl(w, s) && Tiled(w) && Foremost(w, s, M(GetVec(h)))
    ensures Used(w, s, M(GetVec(h))) < Granted(w, kv, s, M(GetVec(h)))
  {
    OwnTimes(w, s, M(GetVec(h)), M(GetVec(h)));
    ForemostGrants(w, s, M(GetVec(h)), C(RelVec(h)));
  }

  lemma MmaAcquiresO(w: seq<Kind>, kv: nat, s: Ctl, h: Half)
    requires ValidCtl(w, s) && Tiled(w) && Foremost(w, s, M(AcqO(h)))
    ensures Used(w, s, M(AcqO(h))) < Granted(w, kv, s, M(AcqO(h)))
  {
    OwnTimes(w, s, M(AcqO(h)), M(AcqO(H0)));
    OwnTimes(w, s, M(AcqO(h)), M(AcqO(H1)));
    ForemostGrants(w, s, M(AcqO(h)), C(RelO(H0)));
    ForemostGrants(w, s, M(AcqO(h)), C(RelO(H1)));
  }

  lemma MmaMoves(w: seq<Kind>, kv: nat, s: Ctl, x: MmaOp)
    requires ValidCtl(w, s) && Tiled(w) && Foremost(w, s, M(x))
    ensures Used(w, s, M(x)) < Granted(w, kv, s, M(x))
  {
    match x
    case WaitQ(h) => MmaWaitsQ(w, kv, s, h);
    case WaitK => MmaWaitsK(w, kv, s);
    case WaitV => MmaWaitsV(w, kv, s);
    case WaitP(h) => MmaWaitsP(w, kv, s, h);
    case AcqS(h) => MmaAcquiresS(w, kv, s, h);
    case GetVec(h) => MmaAcquiresVec(w, kv, s, h);
    case AcqO(h) => MmaAcquiresO(w, kv, s, h);
    case OkVec(_) | IssQK(_) | IssPV(_) | IssRelQ =>
  }

  lemma TensorMoves(w: seq<Kind>, kv: nat, s: Ctl, x: TensorOp)
    requires ValidCtl(w, s) && Tiled(w) && Foremost(w, s, T(x))
    ensures Used(w, s, T(x)) < Granted(w, kv, s, T(x))
  {
    var r := s.tensor.r;
    if x.QK? || x.PV? || x.RelQ? {
      OwnTimes(w, s, T(x), T(x));
      ForemostGrants(w, s, T(x), if x.QK? then M(IssQK(x.h)) else if x.PV? then M(IssPV(x.h)) else M(IssRelQ));
    }
  }

  lemma SoftWaitsS(w: seq<Kind>, kv: nat, s: Ctl, h: Half)
    requires ValidCtl(w, s) && Tiled(w) && Foremost(w, s, S(h, WaitS))
    ensures Used(w, s, S(h, WaitS)) < Granted(w, kv, s, S(h, WaitS))
  {
    Tally(w, s.At(Soft(h)).r);
    OwnTimes(w, s, S(h, WaitS), S(h, WaitS));
    ForemostGrants(w, s, S(h, WaitS), T(CmtS(h)));
  }

  lemma SoftAcquiresVec(w: seq<Kind>, kv: nat, s: Ctl, h: Half)
    requires ValidCtl(w, s) && Tiled(w) && Foremost(w, s, S(h, AcqVec))
    ensures Used(w, s, S(h, AcqVec)) < Granted(w, kv, s, S(h, AcqVec))
  {
    Tally(w, s.At(Soft(h)).r);
    OwnTimes(w, s, S(h, AcqVec), S(h, AcqVec));
    ForemostGrants(w, s, S(h, AcqVec), C(RelVec(h)));
  }

  lemma SoftSyncs(w: seq<Kind>, kv: nat, s: Ctl, h: Half)
    requires ValidCtl(w, s) && Tiled(w) && Foremost(w, s, S(h, Sync))
    ensures Used(w, s, S(h, Sync)) < Granted(w, kv, s, S(h, Sync))
  {
    Tally(w, s.At(Soft(h)).r);
    OwnTimes(w, s, S(h, Sync), S(h, Sync));
    ForemostGrants(w, s, S(h, Sync), S(Other(h), Arrive));
  }

  lemma SoftWaitsH(w: seq<Kind>, kv: nat, s: Ctl, h: Half)
    requires ValidCtl(w, s) && Tiled(w) && Foremost(w, s, S(h, WaitH))
    ensures Used(w, s, S(h, WaitH)) < Granted(w, kv, s, S(h, WaitH))
  {
    Tally(w, s.At(Soft(h)).r);
    OwnTimes(w, s, S(h, WaitH), S(h, WaitH));
    ForemostGrants(w, s, S(h, WaitH), S(Other(h), CmtH));
  }

  lemma SoftAcquiresP(w: seq<Kind>, kv: nat, s: Ctl, h: Half)
    requires ValidCtl(w, s) && Tiled(w) && Foremost(w, s, S(h, AcqP))
    ensures Used(w, s, S(h, AcqP)) < Granted(w, kv, s, S(h, AcqP))
  {
    Tally(w, s.At(Soft(h)).r);
    OwnTimes(w, s, S(h, AcqP), S(h, AcqP));
    ForemostGrants(w, s, S(h, AcqP), T(RelP(h)));
  }

  lemma SoftMoves(w: seq<Kind>, kv: nat, s: Ctl, h: Half, x: SoftOp)
    requires ValidCtl(w, s) && Tiled(w) && Foremost(w, s, S(h, x))
    ensures Used(w, s, S(h, x)) < Granted(w, kv, s, S(h, x))
  {
    match x
    case WaitS => SoftWaitsS(w, kv, s, h);
    case AcqVec => SoftAcquiresVec(w, kv, s, h);
    case Sync => SoftSyncs(w, kv, s, h);
    case WaitH => SoftWaitsH(w, kv, s, h);
    case AcqP => SoftAcquiresP(w, kv, s, h);
    case ReadS | RelS | CmtH | PutVec | CmtVec | Arrive | PutP | CmtP =>
  }

  lemma CorrWaitsVec(w: seq<Kind>, kv: nat, s: Ctl, h: Half)
    requires ValidCtl(w, s) && Tiled(w) && Foremost(w, s, C(WaitVec(h)))
    ensures Used(w, s, C(WaitVec(h))) < Granted(w, kv, s, C(WaitVec(h)))
  {
    OwnTimes(w, s, C(WaitVec(h)), C(WaitVec(h)));
    ForemostGrants(w, s, C(WaitVec(h)), M(OkVec(h)));
    ForemostGrants(w, s, C(WaitVec(h)), S(h, CmtVec));
  }

  lemma CorrWaitsO(w: seq<Kind>, kv: nat, s: Ctl, h: Half)
    requires ValidCtl(w, s) && Tiled(w) && Foremost(w, s, C(WaitO(h)))
    ensures Used(w, s, C(WaitO(h))) < Granted(w, kv, s, C(WaitO(h)))
  {
    OwnTimes(w, s, C(WaitO(h)), C(WaitO(H0)));
    OwnTimes(w, s, C(WaitO(h)), C(WaitO(H1)));
    ForemostGrants(w, s, C(WaitO(h)), T(CmtO(H0)));
    ForemostGrants(w, s, C(WaitO(h)), T(CmtO(H1)));
  }

  lemma CorrMoves(w: seq<Kind>, kv: nat, s: Ctl, x: CorrOp)
    requires ValidCtl(w, s) && Tiled(w) && Foremost(w, s, C(x))
    ensures Used(w, s, C(x)) < Granted(w, kv, s, C(x))
  {
    match x
    case WaitVec(h) => CorrWaitsVec(w, kv, s, h);
    case WaitO(h) => CorrWaitsO(w, kv, s, h);
    case ReadVec(_) | RelVec(_) | UseO(_) | RelO(_) =>
  }

  lemma ForemostMoves(w: seq<Kind>, kv: nat, s: Ctl, e: Op)
    requires ValidCtl(w, s) && Tiled(w) && kv >= 2 && Foremost(w, s, e) && Next(w, s, e)
    ensures Enabled(w, kv, s, e)
  {
    match e
    case L(x) => LoadMoves(w, kv, s, x);
    case M(x) => MmaMoves(w, kv, s, x);
    case T(x) => TensorMoves(w, kv, s, x);
    case S(h, x) => SoftMoves(w, kv, s, h, x);
    case C(x) => CorrMoves(w, kv, s, x);
  }

  /** A role is no later than another in (round, rank). */
  predicate NoLater(w: seq<Kind>, s: Ctl, a: Role, b: Role) {
    var p, q := s.At(a), s.At(b);
    p.r < q.r || (p.r == q.r && (p.r >= |w| || Rank(a, w[p.r], p.k) <= Rank(b, w[q.r], q.k)))
  }

  function Earlier(w: seq<Kind>, s: Ctl, a: Role, b: Role): Role {
    if NoLater(w, s, a, b) then a else b
  }

  function Least(w: seq<Kind>, s: Ctl): Role {
    Earlier(w, s, Load, Earlier(w, s, Mma, Earlier(w, s, Tensor,
      Earlier(w, s, Soft(H0), Earlier(w, s, Soft(H1), Corr)))))
  }

  lemma LeastIsLeast(w: seq<Kind>, s: Ctl, role: Role)
    ensures NoLater(w, s, Least(w, s), role)
  {
  }

  /** No state is stuck: unless every role has finished, some operation can be performed. */
  lemma NeverStuck(w: seq<Kind>, kv: nat, s: Ctl) returns (e: Op)
    requires ValidCtl(w, s) && Tiled(w) && kv >= 2 && !Finished(w, s)
    ensures Enabled(w, kv, s, e)
  {
    var role := Least(w, s);
    var p := s.At(role);
    assert ValidPos(w, role, p);
    forall other {:trigger s.At(other)}
      ensures NoLater(w, s, role, other)
      ensures ValidPos(w, other, s.At(other))
    {
      LeastIsLeast(w, s, other);
    }
    assert p.r < |w| by {
      if p.r == |w| {
        var _ := (s.At(Load), s.At(Mma), s.At(Tensor), s.At(Soft(H0)), s.At(Soft(H1)), s.At(Corr));
      }
    }
    e := OpAt(role, w[p.r], p.k);
    Listed(role, w[p.r], p.k);
    ForemostMoves(w, kv, s, e);
  }
}

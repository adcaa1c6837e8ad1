/**
 The kernel's roles as a transition system over ring, handshake and barrier
 counters, and what every run keeps true between the counters.

 Acquiring a ring of n stages for the (i+1)-st time needs i + 1 - n releases;
 waiting for the (i+1)-st time needs i + 1 arrivals of every producer group. The
 vec rings have two producer groups, the softmax warpgroup and the MMA warp.
 Copies into shared memory land when the load warp issues them; the tensor core
 performs the products and arrivals the MMA warp issues, later and in order.
 */
module FmhaProtocol {
  import opened FmhaProgram

  /** The next operation of a role: its round and its place in that round's list. */
  datatype Pos = Pos(r: nat, k: nat)

  datatype Ctl = Ctl(load: Pos, mma: Pos, tensor: Pos, soft0: Pos, soft1: Pos, corr: Pos) {
    function At(role: Role): Pos {
      match role
      case Load => load
      case Mma => mma
      case Tensor => tensor
      case Soft(h) => if h == H0 then soft0 else soft1
      case Corr => corr
    }

    function Set(role: Role, p: Pos): Ctl {
      match role
      case Load => this.(load := p)
      case Mma => this.(mma := p)
      case Tensor => this.(tensor := p)
      case Soft(h) => if h == H0 then this.(soft0 := p) else this.(soft1 := p)
      case Corr => this.(corr := p)
    }
  }

  const START := Ctl(Pos(0, 0), Pos(0, 0), Pos(0, 0), Pos(0, 0), Pos(0, 0), Pos(0, 0))

  predicate ValidPos(w: seq<Kind>, role: Role, p: Pos) {
    && p.r <= |w|
    && (if p.r < |w| then p.k < Len(role, w[p.r]) else p.k == 0)
  }

  ghost predicate ValidCtl(w: seq<Kind>, s: Ctl) {
    forall role :: ValidPos(w, role, s.At(role))
  }

  predicate Finished(w: seq<Kind>, s: Ctl) {
    s.load.r == s.mma.r == s.tensor.r == s.soft0.r == s.soft1.r == s.corr.r == |w|
  }

  /** How many of the first r rounds contain the operations of a class. */
  function Before(w: seq<Kind>, c: Class, r: nat): nat
    requires r <= |w|
  {
    if r == 0 then 0 else Before(w, c, r - 1) + if InKind(c, w[r - 1]) then 1 else 0
  }

  predicate Past(p: Pos, r: nat, slot: nat) {
    r < p.r || (r == p.r && slot < p.k)
  }

  /** A role at p has performed e in round r. */
  predicate DoneAt(w: seq<Kind>, e: Op, r: nat, p: Pos) {
    r < |w| && Present(e, w[r]) && Past(p, r, Slot(e, w[r]))
  }

  /** How often a role at p has performed e. */
  function TimesAt(w: seq<Kind>, e: Op, p: Pos): nat
    requires p.r <= |w|
  {
    Before(w, ClassOf(e), p.r) + if DoneAt(w, e, p.r, p) then 1 else 0
  }

  predicate Done(w: seq<Kind>, s: Ctl, e: Op, r: nat) {
    DoneAt(w, e, r, s.At(RoleOf(e)))
  }

  function Times(w: seq<Kind>, s: Ctl, e: Op): nat
    requires ValidCtl(w, s)
  {
    assert ValidPos(w, RoleOf(e), s.At(RoleOf(e)));
    TimesAt(w, e, s.At(RoleOf(e)))
  }

  function Other(h: Half): Half {
    if h == H0 then H1 else H0
  }

  const Q_STAGE := 2
  const O_STAGE := 2

  /** How many of the resources e asks for its side has already taken. */
  function Used(w: seq<Kind>, s: Ctl, e: Op): nat
    requires ValidCtl(w, s)
  {
    match e
    case L(x) =>
      if x.AcqQ? then Times(w, s, L(AcqQ(H0))) + Times(w, s, L(AcqQ(H1)))
      else if x.AcqK? || x.AcqV? then Times(w, s, L(AcqK)) + Times(w, s, L(AcqV))
      else 0
    case M(x) =>
      if x.WaitQ? then Times(w, s, M(WaitQ(H0))) + Times(w, s, M(WaitQ(H1)))
      else if x.WaitK? || x.WaitV? then Times(w, s, M(WaitK)) + Times(w, s, M(WaitV))
      else if x.AcqO? then Times(w, s, M(AcqO(H0))) + Times(w, s, M(AcqO(H1)))
      else if x.AcqS? || x.GetVec? || x.WaitP? then Times(w, s, e)
      else 0
    case T(x) => if x.QK? || x.PV? || x.RelQ? then Times(w, s, e) else 0
    case S(_, x) =>
      if x.WaitS? || x.AcqVec? || x.Sync? || x.WaitH? || x.AcqP? then Times(w, s, e) else 0
    case C(x) =>
      if x.WaitVec? then Times(w, s, e)
      else if x.WaitO? then Times(w, s, C(WaitO(H0))) + Times(w, s, C(WaitO(H1)))
      else 0
  }

  /** How many the other sides have made available so far. */
  function Granted(w: seq<Kind>, kv: nat, s: Ctl, e: Op): nat
    requires ValidCtl(w, s)
  {
    match e
    case L(x) =>
      if x.AcqQ? then Times(w, s, T(RelQ(H0))) + Times(w, s, T(RelQ(H1))) + Q_STAGE
      else if x.AcqK? || x.AcqV? then Times(w, s, T(RelK)) + Times(w, s, T(RelV)) + kv
      else 1
    case M(x) =>
      if x.WaitQ? then Times(w, s, L(PutQ(H0))) + Times(w, s, L(PutQ(H1)))
      else if x.WaitK? || x.WaitV? then Times(w, s, L(PutK)) + Times(w, s, L(PutV))
      else if x.AcqO? then Times(w, s, C(RelO(H0))) + Times(w, s, C(RelO(H1))) + O_STAGE
      else if x.AcqS? then Times(w, s, S(x.h, RelS)) + 1
      else if x.GetVec? then Times(w, s, C(RelVec(x.h))) + 1
      else if x.WaitP? then Times(w, s, S(x.h, CmtP))
      else 1
    case T(x) =>
      if x.QK? then Times(w, s, M(IssQK(x.h)))
      else if x.PV? then Times(w, s, M(IssPV(x.h)))
      else if x.RelQ? then Times(w, s, M(IssRelQ))
      else 1
    case S(h, x) =>
      if x.WaitS? then Times(w, s, T(CmtS(h)))
      else if x.AcqVec? then Times(w, s, C(RelVec(h))) + 1
      // softmax1 arrives once before the first tile
      else if x.Sync? then Times(w, s, S(Other(h), Arrive)) + if h == H0 then 1 else 0
      else if x.WaitH? then Times(w, s, S(Other(h), CmtH))
      else if x.AcqP? then Times(w, s, T(RelP(h))) + 1
      else 1
    case C(x) =>
      if x.WaitVec? then
        var fromMma := Times(w, s, M(OkVec(x.h)));
        var fromSoftmax := Times(w, s, S(x.h, CmtVec));
        if fromMma < fromSoftmax then fromMma else fromSoftmax
      else if x.WaitO? then Times(w, s, T(CmtO(H0))) + Times(w, s, T(CmtO(H1)))
      else 1
  }

  /** e is the next operation in its role's program. */
  predicate Next(w: seq<Kind>, s: Ctl, e: Op) {
    var p := s.At(RoleOf(e));
    p.r < |w| && p.k < Len(RoleOf(e), w[p.r]) && OpAt(RoleOf(e), w[p.r], p.k) == e
  }

  ghost predicate Enabled(w: seq<Kind>, kv: nat, s: Ctl, e: Op)
    requires ValidCtl(w, s)
  {
    Next(w, s, e) && Used(w, s, e) < Granted(w, kv, s, e)
  }

  function Advance(w: seq<Kind>, role: Role, p: Pos): Pos
    requires p.r < |w|
  {
    if p.k + 1 < Len(role, w[p.r]) then Pos(p.r, p.k + 1) else Pos(p.r + 1, 0)
  }

  function After(w: seq<Kind>, s: Ctl, e: Op): Ctl
    requires s.At(RoleOf(e)).r < |w|
  {
    s.Set(RoleOf(e), Advance(w, RoleOf(e), s.At(RoleOf(e))))
  }

  lemma AfterValid(w: seq<Kind>, s: Ctl, e: Op)
    requires ValidCtl(w, s)
    requires s.At(RoleOf(e)).r < |w|
    ensures ValidCtl(w, After(w, s, e))
    ensures forall role :: role != RoleOf(e) ==> After(w, s, e).At(role) == s.At(role)
    ensures After(w, s, e).At(RoleOf(e)) == Advance(w, RoleOf(e), s.At(RoleOf(e)))
  {
    var p := s.At(RoleOf(e));
    assert ValidPos(w, RoleOf(e), p);
    forall role
      ensures ValidPos(w, role, After(w, s, e).At(role))
    {
      assert ValidPos(w, role, s.At(role));
    }
  }

  /** Advancing passes the place a role stands at, and no other. */
  lemma AdvancePasses(w: seq<Kind>, role: Role, p: Pos, r: nat, slot: nat)
    requires ValidPos(w, role, p) && p.r < |w| && r < |w| && slot < Len(role, w[r])
    ensures Past(Advance(w, role, p), r, slot) <==> Past(p, r, slot) || (r == p.r && slot == p.k)
  {
  }

  /** In the round a role stands in, its next operation is the one at its place. */
  lemma NextIsOwn(w: seq<Kind>, s: Ctl, e: Op, f: Op)
    requires Next(w, s, e) && RoleOf(f) == RoleOf(e) && Present(f, w[s.At(RoleOf(e)).r])
    ensures Slot(f, w[s.At(RoleOf(e)).r]) == s.At(RoleOf(e)).k <==> f == e
  {
    var p := s.At(RoleOf(e));
    Listed(RoleOf(e), w[p.r], p.k);
    Located(f, w[p.r]);
  }

  /** Performing e adds e in its round to what is done, and nothing else. */
  lemma AfterDone(w: seq<Kind>, s: Ctl, e: Op, f: Op, r: nat)
    requires ValidCtl(w, s)
    requires Next(w, s, e)
    ensures Done(w, After(w, s, e), f, r) <==> Done(w, s, f, r) || (f == e && r == s.At(RoleOf(e)).r)
  {
    AfterValid(w, s, e);
    var p := s.At(RoleOf(e));
    Listed(RoleOf(e), w[p.r], p.k);
    if RoleOf(f) == RoleOf(e) && r < |w| && Present(f, w[r]) {
      Located(f, w[r]);
      AdvancePasses(w, RoleOf(e), p, r, Slot(f, w[r]));
      if r == p.r {
        NextIsOwn(w, s, e, f);
      }
    }
  }

  lemma TimesAdvanced(w: seq<Kind>, role: Role, p: Pos, f: Op)
    requires p.r < |w|
    ensures TimesAt(w, f, Advance(w, role, p))
            == Before(w, ClassOf(f), p.r) + if DoneAt(w, f, p.r, Advance(w, role, p)) then 1 else 0
  {
  }

  lemma AfterTimes(w: seq<Kind>, s: Ctl, e: Op, f: Op)
    requires ValidCtl(w, s)
    requires Next(w, s, e)
    ensures ValidCtl(w, After(w, s, e))
    ensures Times(w, After(w, s, e), f) == Times(w, s, f) + if f == e then 1 else 0
  {
    AfterValid(w, s, e);
    if RoleOf(f) == RoleOf(e) {
      var p := s.At(RoleOf(e));
      AfterDone(w, s, e, f, p.r);
      TimesAdvanced(w, RoleOf(e), p, f);
      NextIsNew(w, s, e);
    }
  }

  lemma NextIsNew(w: seq<Kind>, s: Ctl, e: Op)
    requires Next(w, s, e)
    ensures !Done(w, s, e, s.At(RoleOf(e)).r)
  {
    Listed(RoleOf(e), w[s.At(RoleOf(e)).r], s.At(RoleOf(e)).k);
  }

  /** What every run keeps: nobody has taken more than was granted. */
  ghost predicate InStep(w: seq<Kind>, kv: nat, s: Ctl)
    requires ValidCtl(w, s)
  {
    forall e: Op :: Used(w, s, e) <= Granted(w, kv, s, e)
  }

  /** Operations that draw on the same supply. */
  predicate SameSupply(e: Op, f: Op) {
    || e == f
    || (e.L? && f.L? && e.l.AcqQ? && f.l.AcqQ?)
    || (e.L? && f.L? && (e.l.AcqK? || e.l.AcqV?) && (f.l.AcqK? || f.l.AcqV?))
    || (e.M? && f.M? && e.m.WaitQ? && f.m.WaitQ?)
    || (e.M? && f.M? && (e.m.WaitK? || e.m.WaitV?) && (f.m.WaitK? || f.m.WaitV?))
    || (e.M? && f.M? && e.m.AcqO? && f.m.AcqO?)
    || (e.C? && f.C? && e.c.WaitO? && f.c.WaitO?)
  }

  lemma UsedAfterLoad(w: seq<Kind>, s: Ctl, e: Op, x: LoadOp)
    requires ValidCtl(w, s) && Next(w, s, e)
    ensures ValidCtl(w, After(w, s, e))
    ensures Used(w, After(w, s, e), L(x)) <= Used(w, s, L(x)) + if SameSupply(e, L(x)) then 1 else 0
  {
    AfterTimes(w, s, e, L(x));
    AfterTimes(w, s, e, L(AcqQ(H0)));
    AfterTimes(w, s, e, L(AcqQ(H1)));
    AfterTimes(w, s, e, L(AcqK));
    AfterTimes(w, s, e, L(AcqV));
  }

  lemma UsedAfterMma(w: seq<Kind>, s: Ctl, e: Op, x: MmaOp)
    requires ValidCtl(w, s) && Next(w, s, e)
    ensures ValidCtl(w, After(w, s, e))
    ensures Used(w, After(w, s, e), M(x)) <= Used(w, s, M(x)) + if SameSupply(e, M(x)) then 1 else 0
  {
    AfterTimes(w, s, e, M(x));
    AfterTimes(w, s, e, M(WaitQ(H0)));
    AfterTimes(w, s, e, M(WaitQ(H1)));
    AfterTimes(w, s, e, M(WaitK));
    AfterTimes(w, s, e, M(WaitV));
    AfterTimes(w, s, e, M(AcqO(H0)));
    AfterTimes(w, s, e, M(AcqO(H1)));
  }

  lemma UsedAfterCorr(w: seq<Kind>, s: Ctl, e: Op, x: CorrOp)
    requires ValidCtl(w, s) && Next(w, s, e)
    ensures ValidCtl(w, After(w, s, e))
    ensures Used(w, After(w, s, e), C(x)) <= Used(w, s, C(x)) + if SameSupply(e, C(x)) then 1 else 0
  {
    AfterTimes(w, s, e, C(x));
    AfterTimes(w, s, e, C(WaitO(H0)));
    AfterTimes(w, s, e, C(WaitO(H1)));
  }

  lemma UsedAfter(w: seq<Kind>, s: Ctl, e: Op, f: Op)
    requires ValidCtl(w, s)
    requires Next(w, s, e)
    ensures ValidCtl(w, After(w, s, e))
    ensures Used(w, After(w, s, e), f) <= Used(w, s, f) + if SameSupply(e, f) then 1 else 0
  {
    match f
    case L(x) => UsedAfterLoad(w, s, e, x);
    case M(x) => UsedAfterMma(w, s, e, x);
    case T(_) => AfterTimes(w, s, e, f);
    case S(_, _) => AfterTimes(w, s, e, f);
    case C(x) => UsedAfterCorr(w, s, e, x);
  }

  /** No count falls from s to s'. */
  ghost predicate Grown(w: seq<Kind>, s: Ctl, s': Ctl)
    requires ValidCtl(w, s) && ValidCtl(w, s')
  {
    forall g: Op :: Times(w, s, g) <= Times(w, s', g)
  }

  lemma GrantedGrowsMma(w: seq<Kind>, kv: nat, s: Ctl, s': Ctl, x: MmaOp)
    requires ValidCtl(w, s) && ValidCtl(w, s') && Grown(w, s, s')
    ensures Granted(w, kv, s, M(x)) <= Granted(w, kv, s', M(x))
  {
  }

  lemma GrantedGrowsSoft(w: seq<Kind>, kv: nat, s: Ctl, s': Ctl, h: Half, x: SoftOp)
    requires ValidCtl(w, s) && ValidCtl(w, s') && Grown(w, s, s')
    ensures Granted(w, kv, s, S(h, x)) <= Granted(w, kv, s', S(h, x))
  {
  }

  lemma GrantedGrows(w: seq<Kind>, kv: nat, s: Ctl, s': Ctl, f: Op)
    requires ValidCtl(w, s) && ValidCtl(w, s') && Grown(w, s, s')
    ensures Granted(w, kv, s, f) <= Granted(w, kv, s', f)
  {
    match f
    case L(_) =>
    case M(x) => GrantedGrowsMma(w, kv, s, s', x);
    case T(_) =>
    case S(h, x) => GrantedGrowsSoft(w, kv, s, s', h, x);
    case C(_) =>
  }

  lemma GrantedAfter(w: seq<Kind>, kv: nat, s: Ctl, e: Op, f: Op)
    requires ValidCtl(w, s)
    requires Next(w, s, e)
    ensures ValidCtl(w, After(w, s, e))
    ensures Granted(w, kv, s, f) <= Granted(w, kv, After(w, s, e), f)
  {
    AfterValid(w, s, e);
    forall g: Op
      ensures Times(w, s, g) <= Times(w, After(w, s, e), g)
    {
      AfterTimes(w, s, e, g);
    }
    GrantedGrows(w, kv, s, After(w, s, e), f);
  }

  lemma SameSupplyShares(w: seq<Kind>, kv: nat, s: Ctl, e: Op, f: Op)
    requires ValidCtl(w, s) && SameSupply(e, f)
    ensures Used(w, s, e) == Used(w, s, f) && Granted(w, kv, s, e) == Granted(w, kv, s, f)
  {
  }

  lemma InStepKept(w: seq<Kind>, kv: nat, s: Ctl, e: Op)
    requires ValidCtl(w, s) && InStep(w, kv, s) && Enabled(w, kv, s, e)
    ensures ValidCtl(w, After(w, s, e)) && InStep(w, kv, After(w, s, e))
  {
    AfterValid(w, s, e);
    forall f: Op
      ensures Used(w, After(w, s, e), f) <= Granted(w, kv, After(w, s, e), f)
    {
      UsedAfter(w, s, e, f);
      GrantedAfter(w, kv, s, e, f);
      assert Used(w, s, f) <= Granted(w, kv, s, f);
      if SameSupply(e, f) {
        SameSupplyShares(w, kv, s, e, f);
      }
    }
  }

  lemma InStepAtStart(w: seq<Kind>, kv: nat)
    requires |w| > 0 ==> w[0] == First
    ensures ValidCtl(w, START) && InStep(w, kv, START)
  {
    forall role
      ensures ValidPos(w, role, START.At(role))
    {
    }
    forall e: Op
      ensures Times(w, START, e) == 0
    {
    }
    forall e: Op
      ensures Used(w, START, e) <= Granted(w, kv, START, e)
    {
      assert Used(w, START, e) == 0;
    }
  }
}

/**
 The programs of the warp roles of the fused attention kernel, and of the tensor
 core the MMA warp feeds.

 A work tile with T key/value steps is executed in T + 1 rounds: a First round,
 T - 1 Middle rounds and a Last round. Within a round of a given kind every role
 performs a fixed list of operations, so a role's program over any sequence of
 tiles is the concatenation of those lists. Operations carry no index: the n-th
 use of a ring is the n-th time its operation is performed.

 Softmax1 stores P of step i only after softmax0 has read S of step i + 1, so
 the second half of its step i is listed at the start of the next round.
 */
module FmhaProgram {

  datatype Kind = First | Middle | Last

  /** A tile is two 128-row halves, each with its own softmax warpgroup. */
  datatype Half = H0 | H1

  datatype Role = Load | Mma | Tensor | Soft(half: Half) | Corr

  // Acq waits for a free ring stage, Put and the matrix products write data,
  // Cmt arrives at a full barrier, Wait waits for one, Rel arrives at an empty
  // barrier and Iss hands work to the tensor core.
  datatype LoadOp = AcqQ(q: Half) | PutQ(q: Half) | AcqK | PutK | AcqV | PutV
  datatype MmaOp =
    | WaitQ(h: Half) | WaitK | WaitV | AcqS(h: Half) | GetVec(h: Half) | OkVec(h: Half)
    | IssQK(h: Half) | AcqO(h: Half) | WaitP(h: Half) | IssPV(h: Half) | IssRelQ
  datatype TensorOp =
    | QK(h: Half) | CmtS(h: Half) | RelK | PV(h: Half) | RelP(h: Half) | CmtO(h: Half) | RelV
    | RelQ(h: Half)
  // H is the in-place handshake, Sync and Arrive are the sequence barriers.
  datatype SoftOp =
    | WaitS | ReadS | RelS | CmtH | AcqVec | PutVec | CmtVec | Sync | Arrive
    | WaitH | AcqP | PutP | CmtP
  datatype CorrOp =
    | WaitVec(h: Half) | ReadVec(h: Half) | RelVec(h: Half)
    | WaitO(h: Half) | UseO(h: Half) | RelO(h: Half)

  datatype Op = L(l: LoadOp) | M(m: MmaOp) | T(t: TensorOp) | S(half: Half, s: SoftOp) | C(c: CorrOp)

  function LoadOps(kind: Kind): seq<LoadOp> {
    match kind
    case First => [AcqQ(H0), PutQ(H0), AcqK, PutK, AcqQ(H1), PutQ(H1)]
    case Middle => [AcqK, PutK, AcqV, PutV]
    case Last => [AcqV, PutV]
  }

  function MmaOps(kind: Kind): seq<MmaOp> {
    match kind
    case First => [WaitQ(H0), WaitK, AcqS(H0), GetVec(H0), OkVec(H0), IssQK(H0),
                   WaitQ(H1), AcqS(H1), GetVec(H1), OkVec(H1), IssQK(H1)]
    case Middle => [WaitK, AcqS(H0), GetVec(H0), OkVec(H0), IssQK(H0),
                    WaitV, AcqO(H0), WaitP(H0), IssPV(H0),
                    AcqS(H1), GetVec(H1), OkVec(H1), IssQK(H1),
                    AcqO(H1), WaitP(H1), IssPV(H1)]
    case Last => [IssRelQ, WaitV, AcqO(H0), WaitP(H0), IssPV(H0), AcqO(H1), WaitP(H1), IssPV(H1),
                  GetVec(H0), OkVec(H0), GetVec(H1), OkVec(H1)]
  }

  function TensorOps(kind: Kind): seq<TensorOp> {
    match kind
    case First => [QK(H0), CmtS(H0), QK(H1), CmtS(H1), RelK]
    case Middle => [QK(H0), CmtS(H0), PV(H0), RelP(H0), CmtO(H0), QK(H1), CmtS(H1), RelK,
                    PV(H1), RelP(H1), CmtO(H1), RelV]
    case Last => [RelQ(H0), RelQ(H1), PV(H0), RelP(H0), CmtO(H0), PV(H1), RelP(H1), CmtO(H1), RelV]
  }

  function Soft0Ops(kind: Kind): seq<SoftOp> {
    match kind
    case Last => [CmtH, AcqVec, PutVec, CmtVec]
    case _ => [WaitS, ReadS, RelS, CmtH, AcqVec, PutVec, CmtVec, Sync, Arrive,
               WaitH, AcqP, PutP, CmtP]
  }

  function Soft1Ops(kind: Kind): seq<SoftOp> {
    match kind
    case First => [WaitH, WaitS, ReadS, RelS, CmtH, AcqVec, PutVec, CmtVec, Sync, Arrive]
    case Middle => [WaitH, AcqP, PutP, CmtP, WaitS, ReadS, RelS, CmtH, AcqVec, PutVec, CmtVec,
                    Sync, Arrive]
    case Last => [WaitH, AcqP, PutP, CmtP, AcqVec, PutVec, CmtVec]
  }

  function CorrOps(kind: Kind): seq<CorrOp> {
    match kind
    case First => [WaitVec(H0), RelVec(H0), WaitVec(H1), RelVec(H1)]
    case _ => [WaitVec(H0), ReadVec(H0), RelVec(H0), WaitO(H0), UseO(H0), RelO(H0),
               WaitVec(H1), ReadVec(H1), RelVec(H1), WaitO(H1), UseO(H1), RelO(H1)]
  }

  function Pick(kind: Kind, f: nat, m: nat, l: nat): nat {
    match kind
    case First => f
    case Middle => m
    case Last => l
  }

  /** The length of a role's list in a round of the given kind. */
  function Len(role: Role, kind: Kind): nat {
    match role
    case Load => Pick(kind, 6, 4, 2)
    case Mma => Pick(kind, 11, 16, 12)
    case Tensor => Pick(kind, 5, 12, 9)
    case Soft(h) => if h == H0 then Pick(kind, 13, 13, 4) else Pick(kind, 10, 13, 7)
    case Corr => Pick(kind, 4, 12, 12)
  }

  lemma Lengths(kind: Kind)
    ensures |LoadOps(kind)| == Len(Load, kind) && |MmaOps(kind)| == Len(Mma, kind)
    ensures |TensorOps(kind)| == Len(Tensor, kind) && |CorrOps(kind)| == Len(Corr, kind)
    ensures |Soft0Ops(kind)| == Len(Soft(H0), kind) && |Soft1Ops(kind)| == Len(Soft(H1), kind)
  {
  }

  /** The k-th operation a role performs in a round of the given kind. */
  function OpAt(role: Role, kind: Kind, k: nat): Op
    requires k < Len(role, kind)
  {
    Lengths(kind);
    match role
    case Load => L(LoadOps(kind)[k])
    case Mma => M(MmaOps(kind)[k])
    case Tensor => T(TensorOps(kind)[k])
    case Soft(h) => if h == H0 then S(H0, Soft0Ops(kind)[k]) else S(H1, Soft1Ops(kind)[k])
    case Corr => C(CorrOps(kind)[k])
  }

  function RoleOf(e: Op): Role {
    match e
    case L(_) => Load
    case M(_) => Mma
    case T(_) => Tensor
    case S(h, _) => Soft(h)
    case C(_) => Corr
  }

  /** The kinds of round in which an operation occurs. */
  datatype Class = Always | NotLast | NotFirst | OnlyFirst | OnlyLast

  predicate InKind(c: Class, kind: Kind) {
    match c
    case Always => true
    case NotLast => kind != Last
    case NotFirst => kind != First
    case OnlyFirst => kind == First
    case OnlyLast => kind == Last
  }

  function ClassOf(e: Op): Class {
    match e
    case L(x) => if x.AcqQ? || x.PutQ? then OnlyFirst else if x.AcqK? || x.PutK? then NotLast else NotFirst
    case M(x) =>
      if x.WaitQ? then OnlyFirst
      else if x.IssRelQ? then OnlyLast
      else if x.GetVec? || x.OkVec? then Always
      else if x.WaitK? || x.AcqS? || x.IssQK? then NotLast
      else NotFirst
    case T(x) => if x.RelQ? then OnlyLast else if x.QK? || x.CmtS? || x.RelK? then NotLast else NotFirst
    case S(h, x) =>
      if x.AcqVec? || x.PutVec? || x.CmtVec? then Always
      else if h == H0 then if x.CmtH? then Always else NotLast
      else if x.WaitH? then Always
      else if x.AcqP? || x.PutP? || x.CmtP? then NotFirst
      else NotLast
    case C(x) => if x.WaitVec? || x.RelVec? then Always else NotFirst
  }

  predicate Present(e: Op, kind: Kind) {
    InKind(ClassOf(e), kind)
  }

  function LoadSlot(x: LoadOp, kind: Kind): nat {
    match x
    case AcqQ(h) => if h == H0 then 0 else 4
    case PutQ(h) => if h == H0 then 1 else 5
    case AcqK => Pick(kind, 2, 0, 0)
    case PutK => Pick(kind, 3, 1, 0)
    case AcqV => Pick(kind, 0, 2, 0)
    case PutV => Pick(kind, 0, 3, 1)
  }

  function MmaSlot(x: MmaOp, kind: Kind): nat {
    match x
    case WaitQ(h) => if h == H0 then 0 else 6
    case WaitK => Pick(kind, 1, 0, 0)
    case WaitV => Pick(kind, 0, 5, 1)
    case AcqS(h) => if h == H0 then Pick(kind, 2, 1, 0) else Pick(kind, 7, 9, 0)
    case GetVec(h) => if h == H0 then Pick(kind, 3, 2, 8) else Pick(kind, 8, 10, 10)
    case OkVec(h) => if h == H0 then Pick(kind, 4, 3, 9) else Pick(kind, 9, 11, 11)
    case IssQK(h) => if h == H0 then Pick(kind, 5, 4, 0) else Pick(kind, 10, 12, 0)
    case AcqO(h) => if h == H0 then Pick(kind, 0, 6, 2) else Pick(kind, 0, 13, 5)
    case WaitP(h) => if h == H0 then Pick(kind, 0, 7, 3) else Pick(kind, 0, 14, 6)
    case IssPV(h) => if h == H0 then Pick(kind, 0, 8, 4) else Pick(kind, 0, 15, 7)
    case IssRelQ => 0
  }

  function TensorSlot(x: TensorOp, kind: Kind): nat {
    match x
    case QK(h) => if h == H0 then 0 else Pick(kind, 2, 5, 0)
    case CmtS(h) => if h == H0 then 1 else Pick(kind, 3, 6, 0)
    case RelK => Pick(kind, 4, 7, 0)
    case PV(h) => if h == H0 then 2 else Pick(kind, 0, 8, 5)
    case RelP(h) => if h == H0 then 3 else Pick(kind, 0, 9, 6)
    case CmtO(h) => if h == H0 then 4 else Pick(kind, 0, 10, 7)
    case RelV => Pick(kind, 0, 11, 8)
    case RelQ(h) => if h == H0 then 0 else 1
  }

  function Soft0Slot(x: SoftOp, kind: Kind): nat {
    match x
    case WaitS => 0
    case ReadS => 1
    case RelS => 2
    case CmtH => Pick(kind, 3, 3, 0)
    case AcqVec => Pick(kind, 4, 4, 1)
    case PutVec => Pick(kind, 5, 5, 2)
    case CmtVec => Pick(kind, 6, 6, 3)
    case Sync => 7
    case Arrive => 8
    case WaitH => 9
    case AcqP => 10
    case PutP => 11
    case CmtP => 12
  }

  function Soft1Slot(x: SoftOp, kind: Kind): nat {
    match x
    case WaitH => 0
    case AcqP => 1
    case PutP => 2
    case CmtP => 3
    case WaitS => Pick(kind, 1, 4, 0)
    case ReadS => Pick(kind, 2, 5, 0)
    case RelS => Pick(kind, 3, 6, 0)
    case CmtH => Pick(kind, 4, 7, 0)
    case AcqVec => Pick(kind, 5, 8, 4)
    case PutVec => Pick(kind, 6, 9, 5)
    case CmtVec => Pick(kind, 7, 10, 6)
    case Sync => Pick(kind, 8, 11, 0)
    case Arrive => Pick(kind, 9, 12, 0)
  }

  function CorrSlot(x: CorrOp, kind: Kind): nat {
    match x
    case WaitVec(h) => if h == H0 then 0 else Pick(kind, 2, 6, 6)
    case ReadVec(h) => if h == H0 then 1 else 7
    case RelVec(h) => if h == H0 then Pick(kind, 1, 2, 2) else Pick(kind, 3, 8, 8)
    case WaitO(h) => if h == H0 then 3 else 9
    case UseO(h) => if h == H0 then 4 else 10
    case RelO(h) => if h == H0 then 5 else 11
  }

  /** The place of an operation in its role's list; meaningful when it is present. */
  function Slot(e: Op, kind: Kind): nat {
    match e
    case L(x) => LoadSlot(x, kind)
    case M(x) => MmaSlot(x, kind)
    case T(x) => TensorSlot(x, kind)
    case S(h, x) => if h == H0 then Soft0Slot(x, kind) else Soft1Slot(x, kind)
    case C(x) => CorrSlot(x, kind)
  }

  /** `Slot` and `ClassOf` describe exactly the lists above. */
  lemma ListedLoad(kind: Kind, k: nat)
    requires k < |LoadOps(kind)|
    ensures var e := L(LoadOps(kind)[k]); Present(e, kind) && Slot(e, kind) == k
  {
  }

  lemma ListedMma(kind: Kind, k: nat)
    requires k < |MmaOps(kind)|
    ensures var e := M(MmaOps(kind)[k]); Present(e, kind) && Slot(e, kind) == k
  {
    match kind case First => case Middle => case Last =>
  }

  lemma ListedTensor(kind: Kind, k: nat)
    requires k < |TensorOps(kind)|
    ensures var e := T(TensorOps(kind)[k]); Present(e, kind) && Slot(e, kind) == k
  {
    match kind case First => case Middle => case Last =>
  }

  lemma ListedSoft0(kind: Kind, k: nat)
    requires k < |Soft0Ops(kind)|
    ensures var e := S(H0, Soft0Ops(kind)[k]); Present(e, kind) && Slot(e, kind) == k
  {
    match kind case First => case Middle => case Last =>
  }

  lemma ListedSoft1(kind: Kind, k: nat)
    requires k < |Soft1Ops(kind)|
    ensures var e := S(H1, Soft1Ops(kind)[k]); Present(e, kind) && Slot(e, kind) == k
  {
    match kind case First => case Middle => case Last =>
  }

  lemma ListedCorr(kind: Kind, k: nat)
    requires k < |CorrOps(kind)|
    ensures var e := C(CorrOps(kind)[k]); Present(e, kind) && Slot(e, kind) == k
  {
    match kind case First => case Middle => case Last =>
  }

  lemma Listed(role: Role, kind: Kind, k: nat)
    requires k < Len(role, kind)
    ensures var e := OpAt(role, kind, k); RoleOf(e) == role && Present(e, kind) && Slot(e, kind) == k
  {
    Lengths(kind);
    match role
    case Load => ListedLoad(kind, k);
    case Mma => ListedMma(kind, k);
    case Tensor => ListedTensor(kind, k);
    case Soft(h) => if h == H0 { ListedSoft0(kind, k); } else { ListedSoft1(kind, k); }
    case Corr => ListedCorr(kind, k);
  }

  lemma LocatedMma(x: MmaOp, kind: Kind)
    requires Present(M(x), kind)
    ensures MmaSlot(x, kind) < |MmaOps(kind)| && MmaOps(kind)[MmaSlot(x, kind)] == x
  {
    match kind case First => case Middle => case Last =>
  }

  lemma LocatedTensor(x: TensorOp, kind: Kind)
    requires Present(T(x), kind)
    ensures TensorSlot(x, kind) < |TensorOps(kind)| && TensorOps(kind)[TensorSlot(x, kind)] == x
  {
    match kind case First => case Middle => case Last =>
  }

  lemma LocatedSoft0(x: SoftOp, kind: Kind)
    requires Present(S(H0, x), kind)
    ensures Soft0Slot(x, kind) < |Soft0Ops(kind)| && Soft0Ops(kind)[Soft0Slot(x, kind)] == x
  {
    match kind case First => case Middle => case Last =>
  }

  lemma LocatedSoft1(x: SoftOp, kind: Kind)
    requires Present(S(H1, x), kind)
    ensures Soft1Slot(x, kind) < |Soft1Ops(kind)| && Soft1Ops(kind)[Soft1Slot(x, kind)] == x
  {
    match kind case First => case Middle => case Last =>
  }

  lemma Located(e: Op, kind: Kind)
    requires Present(e, kind)
    ensures Slot(e, kind) < Len(RoleOf(e), kind)
    ensures OpAt(RoleOf(e), kind, Slot(e, kind)) == e
  {
    match e
    case L(_) =>
    case M(x) => LocatedMma(x, kind);
    case T(x) => LocatedTensor(x, kind);
    case S(h, x) => if h == H0 { LocatedSoft0(x, kind); } else { LocatedSoft1(x, kind); }
    case C(_) =>
  }

  function Repeat(n: nat): (r: seq<Kind>)
    ensures |r| == n && forall i :: 0 <= i < n ==> r[i] == Middle
  {
    if n == 0 then [] else [Middle] + Repeat(n - 1)
  }

  /** The rounds of a sequence of tiles; every tile has at least one step. */
  function Rounds(trips: seq<nat>): seq<Kind>
    requires forall i :: 0 <= i < |trips| ==> trips[i] >= 1
  {
    if trips == [] then [] else [First] + Repeat(trips[0] - 1) + [Last] + Rounds(trips[1..])
  }

  /** Tiles open with First, close with Last, and follow one another. */
  predicate Tiled(w: seq<Kind>) {
    && (|w| > 0 ==> w[0] == First && w[|w| - 1] == Last)
    && forall i :: 0 <= i < |w| - 1 ==> (w[i] == Last <==> w[i + 1] == First)
  }

  lemma {:induction false} RoundsTiled(trips: seq<nat>)
    requires forall i :: 0 <= i < |trips| ==> trips[i] >= 1
    ensures Tiled(Rounds(trips))
  {
    if trips != [] {
      RoundsTiled(trips[1..]);
      var one := [First] + Repeat(trips[0] - 1) + [Last];
      var rest := Rounds(trips[1..]);
      assert Rounds(trips) == one + rest;
      assert Tiled(one);
    }
  }
}

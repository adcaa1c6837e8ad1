/**
 Kernel selection: which registered kernels fit a request, how they are ranked, and
 the plans saved at initialization. Names, solutions and other strings are numbers;
 only their equality and order matter. The empty string is zero.
 */
module KernelSelection {
  import opened Wrappers

  type Name = nat

  const EMPTY: Name := 0

  /** Trait names; a bound on a dimension is the dimension's name with a suffix. */
  datatype TraitName =
    | Batch | M | N | K | Ispp | Hidden | IsppAlignment | HiddenAlignment | ProblemFilter
    | Other(id: nat)
    | Align(dim: TraitName) | Min(dim: TraitName) | Max(dim: TraitName)

  datatype Value = Int(i: int) | Text(t: nat)

  /** A requested trait: one value, or a set of which all must be supported. */
  datatype Wanted = One(v: Value) | All(vs: set<Value>)

  type Traits = map<TraitName, Wanted>

  datatype Signature = Signature(roles: nat, layouts: set<nat>)

  datatype Spec = Spec(
    name: Name, family: Name, mode: Name, features: set<nat>, solution: Name, capability: nat,
    signatures: set<Signature>, traits: map<TraitName, set<Value>>, priority: int)

  /** What selection reads besides the registry: platforms by architecture, oracles, problem filters. */
  datatype Env = Env(
    satisfied: (nat, nat) -> bool,
    oracle: (Spec, nat, Option<Traits>) -> Option<int>,
    accepts: (nat, int, int, int) -> bool)

  datatype Op = Op(family: Name, mode: Name)

  datatype Request = Request(
    op: Op, signature: Signature, arch: nat, features: Option<set<nat>>, traits: Option<Traits>,
    solution: Option<Name>, ignoreLayout: bool)

  datatype Selected = Selected(name: Name, impl: nat)

  // ---- trait matching ----

  predicate ValueMatches(values: set<Value>, w: Wanted) {
    match w
    case One(v) => v in values
    case All(vs) => vs <= values
  }

  predicate IsSize(t: TraitName) { t.Ispp? || t.Hidden? }

  function AlignmentOf(t: TraitName): TraitName { if t.Ispp? then IsppAlignment else HiddenAlignment }

  predicate SizeFits(spec: Spec, t: TraitName, w: Wanted) {
    && w.One? && w.v.Int?
    && (t in spec.traits ==> w.v in spec.traits[t])
    && (AlignmentOf(t) in spec.traits ==>
          exists a :: a in spec.traits[AlignmentOf(t)] && a.Int? && a.i > 0 && w.v.i % a.i == 0)
  }

  predicate TraitFits(spec: Spec, t: TraitName, w: Wanted) {
    if IsSize(t) then SizeFits(spec, t, w) else t in spec.traits ==> ValueMatches(spec.traits[t], w)
  }

  /** Sizes a kernel is pinned to must be stated, and every stated trait must fit. */
  predicate MatchesTraits(spec: Spec, traits: Traits) {
    && (Ispp in spec.traits ==> Ispp in traits)
    && (Hidden in spec.traits ==> Hidden in traits)
    && forall t :: t in traits ==> TraitFits(spec, t, traits[t])
  }

  predicate IsBound(t: TraitName) { t.Align? || t.Min? || t.Max? }

  predicate Satisfies(t: TraitName, value: int, bound: Value)
    requires IsBound(t)
  {
    bound.Int? && match t
      case Align(_) => bound.i != 0 && value % bound.i == 0
      case Min(_) => value >= bound.i
      case Max(_) => value <= bound.i
  }

  predicate HasInt(traits: Traits, t: TraitName) {
    t in traits && traits[t].One? && traits[t].v.Int?
  }

  /** A declared bound needs its dimension stated, and one of its values must admit it. */
  predicate BoundFits(spec: Spec, t: TraitName, traits: Traits)
    requires t in spec.traits && IsBound(t)
  {
    HasInt(traits, t.dim) && exists b :: b in spec.traits[t] && Satisfies(t, traits[t.dim].v.i, b)
  }

  predicate IsDim(t: TraitName) { t.Batch? || t.M? || t.N? || t.K? }

  predicate DimFits(spec: Spec, t: TraitName, traits: Traits)
    requires t in spec.traits
  {
    HasInt(traits, t) && traits[t].v in spec.traits[t]
  }

  predicate FilterFits(env: Env, spec: Spec, traits: Traits) {
    ProblemFilter in spec.traits ==>
      && HasInt(traits, M) && HasInt(traits, N) && HasInt(traits, K)
      && exists f :: f in spec.traits[ProblemFilter] && f.Text?
                     && env.accepts(f.t, traits[M].v.i, traits[N].v.i, traits[K].v.i)
  }

  predicate MatchesShape(env: Env, spec: Spec, traits: Traits) {
    && (forall t :: t in spec.traits && IsBound(t) ==> BoundFits(spec, t, traits))
    && (forall t :: t in spec.traits && IsDim(t) ==> DimFits(spec, t, traits))
    && FilterFits(env, spec, traits)
  }

  // ---- candidates ----

  predicate Supports(spec: Spec, signature: Signature, ignoreLayout: bool) {
    exists s :: s in spec.signatures && s.roles == signature.roles && (ignoreLayout || signature.layouts <= s.layouts)
  }

  predicate Chosen(solution: Option<Name>, spec: Spec) {
    solution.Some? && solution.value != EMPTY ==> spec.solution == solution.value
  }

  predicate Eligible(env: Env, q: Request, spec: Spec) {
    && (q.features.Some? ==> q.features.value <= spec.features)
    && env.satisfied(q.arch, spec.capability)
    && Supports(spec, q.signature, q.ignoreLayout)
    && Chosen(q.solution, spec)
  }

  predicate HasTraits(q: Request) {
    q.traits.Some? && |q.traits.value| > 0
  }

  predicate Fits(env: Env, q: Request, spec: Spec) {
    HasTraits(q) ==> MatchesTraits(spec, q.traits.value) && MatchesShape(env, spec, q.traits.value)
  }

  function Candidates(env: Env, q: Request, specs: seq<Spec>): seq<Spec> {
    if specs == [] then []
    else
      var rest := Candidates(env, q, specs[..|specs| - 1]);
      var s := specs[|specs| - 1];
      if Eligible(env, q, s) then rest + [s] else rest
  }

  function Matching(env: Env, q: Request, specs: seq<Spec>): seq<Spec> {
    if specs == [] then []
    else
      var rest := Matching(env, q, specs[..|specs| - 1]);
      var s := specs[|specs| - 1];
      if Fits(env, q, s) then rest + [s] else rest
  }

  // ---- ranking ----

  function Clamp(n: int): int { if n < 0 then 0 else if n > 19 then 19 else n }

  datatype Score = Score(oracle: int, priority: int)

  function ScoreOf(env: Env, arch: nat, traits: Option<Traits>, spec: Spec): Score {
    var o := env.oracle(spec, arch, traits);
    Score(if o.Some? then Clamp(o.value) else 10, Clamp(spec.priority))
  }

  /** a ranks at least as high as b: by oracle, then by priority. */
  predicate AtLeast(a: Score, b: Score) {
    a.oracle > b.oracle || (a.oracle == b.oracle && a.priority >= b.priority)
  }

  /** Descending and stable: a newcomer goes after everything that ranks at least as high. */
  function InsertRanked(env: Env, arch: nat, traits: Option<Traits>, ranked: seq<Spec>, s: Spec): seq<Spec> {
    if ranked == [] then [s]
    else
      var last := ranked[|ranked| - 1];
      if AtLeast(ScoreOf(env, arch, traits, last), ScoreOf(env, arch, traits, s)) then ranked + [s]
      else InsertRanked(env, arch, traits, ranked[..|ranked| - 1], s) + [last]
  }

  function Rank(env: Env, arch: nat, traits: Option<Traits>, specs: seq<Spec>): seq<Spec> {
    if specs == [] then []
    else InsertRanked(env, arch, traits, Rank(env, arch, traits, specs[..|specs| - 1]), specs[|specs| - 1])
  }

  /** The first of the best: what a stable descending sort puts in front. */
  function Best(env: Env, arch: nat, traits: Option<Traits>, specs: seq<Spec>): Spec
    requires specs != []
  {
    var s := specs[|specs| - 1];
    if |specs| == 1 then s
    else
      var b := Best(env, arch, traits, specs[..|specs| - 1]);
      if AtLeast(ScoreOf(env, arch, traits, b), ScoreOf(env, arch, traits, s)) then b else s
  }

  lemma {:induction false} InsertFront(env: Env, arch: nat, traits: Option<Traits>, ranked: seq<Spec>, s: Spec)
    requires ranked != [] && forall i :: 0 <= i < |ranked| ==>
               AtLeast(ScoreOf(env, arch, traits, ranked[0]), ScoreOf(env, arch, traits, ranked[i]))
    ensures var r := InsertRanked(env, arch, traits, ranked, s);
            && |r| == |ranked| + 1
            && r[0] == (if AtLeast(ScoreOf(env, arch, traits, ranked[0]), ScoreOf(env, arch, traits, s))
               then ranked[0] else s)
            && (forall i :: 0 <= i < |r| ==>
                  AtLeast(ScoreOf(env, arch, traits, r[0]), ScoreOf(env, arch, traits, r[i])))
  {
    var n := |ranked| - 1;
    if !AtLeast(ScoreOf(env, arch, traits, ranked[n]), ScoreOf(env, arch, traits, s)) && n > 0 {
      InsertFront(env, arch, traits, ranked[..n], s);
    }
  }

  /** The head of the ranking is the first of the best. */
  lemma {:induction false} RankFront(env: Env, arch: nat, traits: Option<Traits>, specs: seq<Spec>)
    requires specs != []
    ensures var r := Rank(env, arch, traits, specs);
            && |r| == |specs| && r[0] == Best(env, arch, traits, specs)
            && (forall i :: 0 <= i < |r| ==>
                  AtLeast(ScoreOf(env, arch, traits, r[0]), ScoreOf(env, arch, traits, r[i])))
  {
    if |specs| > 1 {
      RankFront(env, arch, traits, specs[..|specs| - 1]);
      InsertFront(env, arch, traits, Rank(env, arch, traits, specs[..|specs| - 1]), specs[|specs| - 1]);
    }
  }

  /** The best is a member that nothing outranks, and that everything before it falls short of. */
  lemma {:induction false} BestIs(env: Env, arch: nat, traits: Option<Traits>, specs: seq<Spec>) returns (i: nat)
    requires specs != []
    ensures i < |specs| && specs[i] == Best(env, arch, traits, specs)
    ensures forall j :: 0 <= j < |specs| ==>
              AtLeast(ScoreOf(env, arch, traits, specs[i]), ScoreOf(env, arch, traits, specs[j]))
    ensures forall j :: 0 <= j < i ==>
              !AtLeast(ScoreOf(env, arch, traits, specs[j]), ScoreOf(env, arch, traits, specs[i]))
  {
    var n := |specs| - 1;
    i := n;
    if n > 0 {
      var k := BestIs(env, arch, traits, specs[..n]);
      if AtLeast(ScoreOf(env, arch, traits, specs[k]), ScoreOf(env, arch, traits, specs[n])) {
        i := k;
      }
    }
  }

  // ---- selection without a cache ----

  /** The filter-and-rank pipeline, on an operator's kernels in registry order. */
  function Pick(env: Env, q: Request, specs: seq<Spec>): Result<Spec> {
    var eligible := Candidates(env, q, specs);
    if eligible == [] then Err("No kernel found")
    else
      var fitting := Matching(env, q, eligible);
      if fitting == [] then Err("No kernel found with traits")
      else
        RankFront(env, q.arch, q.traits, fitting);
        Ok(Rank(env, q.arch, q.traits, fitting)[0])
  }

  lemma {:induction false} CandidatesAre(env: Env, q: Request, specs: seq<Spec>, s: Spec)
    ensures s in Candidates(env, q, specs) <==> s in specs && Eligible(env, q, s)
  {
    if specs != [] {
      CandidatesAre(env, q, specs[..|specs| - 1], s);
      assert specs == specs[..|specs| - 1] + [specs[|specs| - 1]];
    }
  }

  lemma {:induction false} MatchingAre(env: Env, q: Request, specs: seq<Spec>, s: Spec)
    ensures s in Matching(env, q, specs) <==> s in specs && Fits(env, q, s)
  {
    if specs != [] {
      MatchingAre(env, q, specs[..|specs| - 1], s);
      assert specs == specs[..|specs| - 1] + [specs[|specs| - 1]];
    }
  }

  /** A kernel is picked exactly when one fits, and then it is one that fits and that none that fits outranks. */
  lemma PickIs(env: Env, q: Request, specs: seq<Spec>, s: Spec)
    requires s in specs && Eligible(env, q, s) && Fits(env, q, s)
    ensures Pick(env, q, specs).Ok?
    ensures AtLeast(ScoreOf(env, q.arch, q.traits, Pick(env, q, specs).value), ScoreOf(env, q.arch, q.traits, s))
  {
    CandidatesAre(env, q, specs, s);
    var fitting := Matching(env, q, Candidates(env, q, specs));
    MatchingAre(env, q, Candidates(env, q, specs), s);
    RankFront(env, q.arch, q.traits, fitting);
    var _ := BestIs(env, q.arch, q.traits, fitting);
  }

  lemma PickFits(env: Env, q: Request, specs: seq<Spec>)
    requires Pick(env, q, specs).Ok?
    ensures var s := Pick(env, q, specs).value; s in specs && Eligible(env, q, s) && Fits(env, q, s)
  {
    var s := Pick(env, q, specs).value;
    var eligible := Candidates(env, q, specs);
    var fitting := Matching(env, q, eligible);
    RankFront(env, q.arch, q.traits, fitting);
    var _ := BestIs(env, q.arch, q.traits, fitting);
    MatchingAre(env, q, eligible, s);
    CandidatesAre(env, q, specs, s);
  }

  // ---- the cache key ----

  datatype Key = Key(
    op: Op, signature: Signature, arch: nat, features: set<nat>, traits: Traits, solution: Option<Name>,
    ignoreLayout: bool)

  function KeyOf(q: Request): Key {
    Key(q.op, q.signature, q.arch, if q.features.Some? then q.features.value else {},
        if q.traits.Some? then q.traits.value else map[], q.solution, q.ignoreLayout)
  }

  /** The oracle orders two kernels alike for absent and for empty traits, which the key does not tell apart. */
  predicate Alike(env: Env, arch: nat, a: Spec, b: Spec) {
    AtLeast(ScoreOf(env, arch, None, a), ScoreOf(env, arch, None, b))
    <==> AtLeast(ScoreOf(env, arch, Some(map[]), a), ScoreOf(env, arch, Some(map[]), b))
  }

  /** It orders every two of these kernels alike. */
  predicate RanksAlike(env: Env, arch: nat, kernels: set<Spec>) {
    forall a, b :: a in kernels && b in kernels ==> Alike(env, arch, a, b)
  }

  predicate DrawnFrom(specs: seq<Spec>, kernels: set<Spec>) {
    forall x :: x in specs ==> x in kernels
  }

  lemma {:induction false} BestAlike(env: Env, arch: nat, specs: seq<Spec>, kernels: set<Spec>)
    requires RanksAlike(env, arch, kernels) && specs != [] && DrawnFrom(specs, kernels)
    ensures Best(env, arch, None, specs) == Best(env, arch, Some(map[]), specs)
  {
    if |specs| > 1 {
      var less := specs[..|specs| - 1];
      BestAlike(env, arch, less, kernels);
      var i := BestIs(env, arch, None, less);
      assert specs[i] in specs && specs[|specs| - 1] in specs;
      assert Alike(env, arch, Best(env, arch, None, less), specs[|specs| - 1]);
    }
  }

  ghost predicate SameBest(env: Env, arch: nat, specs: seq<Spec>)
  {
    specs != [] ==> Best(env, arch, None, specs) == Best(env, arch, Some(map[]), specs)
  }

  /**
   Absent and empty traits have one answer for every list of these kernels exactly when the
   oracle orders them alike.
   */
  lemma SameBestIff(env: Env, arch: nat, kernels: set<Spec>)
    ensures (forall specs :: DrawnFrom(specs, kernels) ==> SameBest(env, arch, specs))
            <==> RanksAlike(env, arch, kernels)
  {
    if RanksAlike(env, arch, kernels) {
      forall specs | DrawnFrom(specs, kernels)
        ensures SameBest(env, arch, specs)
      {
        if specs != [] {
          BestAlike(env, arch, specs, kernels);
        }
      }
    }
    if forall specs :: DrawnFrom(specs, kernels) ==> SameBest(env, arch, specs) {
      forall a, b | a in kernels && b in kernels
        ensures Alike(env, arch, a, b)
      {
        assert DrawnFrom([a, b], kernels) && SameBest(env, arch, [a, b]);
        BestOfTwo(env, arch, None, a, b);
        BestOfTwo(env, arch, Some(map[]), a, b);
      }
    }
  }

  lemma BestOfTwo(env: Env, arch: nat, traits: Option<Traits>, a: Spec, b: Spec)
    ensures Best(env, arch, traits, [a, b])
            == if AtLeast(ScoreOf(env, arch, traits, a), ScoreOf(env, arch, traits, b)) then a else b
  {
  }

  /** The other request without traits that has the same key. */
  function Swapped(q: Request): Request
    requires !HasTraits(q)
  {
    q.(traits := if q.traits.None? then Some(map[]) else None)
  }

  /** Requests with one key are the same but for absent and empty features, and absent and empty traits. */
  lemma KeyTells(q: Request, q': Request)
    requires KeyOf(q) == KeyOf(q')
    ensures HasTraits(q) == HasTraits(q')
    ensures q.traits == q'.traits || (!HasTraits(q) && q.traits == Swapped(q').traits && q'.traits == Swapped(q).traits)
    ensures !HasTraits(q) ==> KeyOf(Swapped(q)) == KeyOf(q)
  {
  }

  /** With the same traits they are answered alike, whatever the oracle. */
  lemma TraitsDecide(env: Env, q: Request, q': Request, specs: seq<Spec>)
    requires KeyOf(q) == KeyOf(q') && q.traits == q'.traits
    ensures Pick(env, q, specs) == Pick(env, q', specs)
  {
    SameCandidates(env, q, q', specs);
    SameMatching(env, q, q', Candidates(env, q, specs));
  }

  /** A key decides the answer for every request with traits, and without if the oracle orders the kernels alike. */
  lemma KeyDecides(env: Env, q: Request, q': Request, specs: seq<Spec>)
    requires KeyOf(q) == KeyOf(q')
    requires HasTraits(q) || RanksAlike(env, q.arch, set x | x in specs)
    ensures Pick(env, q, specs) == Pick(env, q', specs)
  {
    KeyTells(q, q');
    if q.traits == q'.traits {
      TraitsDecide(env, q, q', specs);
    } else {
      SameCandidates(env, q, q', specs);
      var eligible := Candidates(env, q, specs);
      SameMatching(env, q, q', eligible);
      var fitting := Matching(env, q, eligible);
      if fitting != [] {
        RankFront(env, q.arch, q.traits, fitting);
        RankFront(env, q.arch, q'.traits, fitting);
        FittingDrawn(env, q, specs);
        BestAlike(env, q.arch, fitting, set x | x in specs);
      }
    }
  }

  lemma FittingDrawn(env: Env, q: Request, specs: seq<Spec>)
    ensures DrawnFrom(Matching(env, q, Candidates(env, q, specs)), set x | x in specs)
  {
    forall x | x in Matching(env, q, Candidates(env, q, specs))
      ensures x in specs
    {
      MatchingAre(env, q, Candidates(env, q, specs), x);
      CandidatesAre(env, q, specs, x);
    }
  }

  lemma {:induction false} SameCandidates(env: Env, q: Request, q': Request, specs: seq<Spec>)
    requires KeyOf(q) == KeyOf(q')
    ensures Candidates(env, q, specs) == Candidates(env, q', specs)
  {
    if specs != [] {
      SameCandidates(env, q, q', specs[..|specs| - 1]);
    }
  }

  lemma {:induction false} SameMatching(env: Env, q: Request, q': Request, specs: seq<Spec>)
    requires KeyOf(q) == KeyOf(q')
    ensures Matching(env, q, specs) == Matching(env, q', specs)
  {
    if specs != [] {
      SameMatching(env, q, q', specs[..|specs| - 1]);
    }
  }

  /** An oracle that looks at whether traits are absent makes two requests with one key differ. */
  lemma KeyConflates(env: Env, q: Request, q': Request, a: Spec, b: Spec)
    requires q.traits == None && q' == q.(traits := Some(map[])) && a != b
    requires Eligible(env, q, a) && Eligible(env, q, b)
    requires env.oracle(a, q.arch, None) == env.oracle(b, q.arch, Some(map[])) == Some(19)
    requires env.oracle(b, q.arch, None) == env.oracle(a, q.arch, Some(map[])) == Some(0)
    ensures KeyOf(q) == KeyOf(q')
    ensures Pick(env, q, [a, b]) == Ok(a) && Pick(env, q', [a, b]) == Ok(b)
  {
    PickOfTwo(env, q, a, b);
    PickOfTwo(env, q', a, b);
  }

  /**
   For two eligible kernels, absent and empty traits are answered alike if and only if the
   oracle orders them alike.
   */
  lemma SharedEntryIff(env: Env, q: Request, a: Spec, b: Spec)
    requires !HasTraits(q) && a != b && Eligible(env, q, a) && Eligible(env, q, b)
    ensures Pick(env, q, [a, b]) == Pick(env, Swapped(q), [a, b]) <==> Alike(env, q.arch, a, b)
  {
    var q' := Swapped(q);
    PickOfTwo(env, q, a, b);
    PickOfTwo(env, q', a, b);
    NoTraits(q);
  }

  lemma NoTraits(q: Request)
    requires !HasTraits(q)
    ensures {q.traits, Swapped(q).traits} == {None, Some(map[])}
  {
    assert q.traits.Some? ==> q.traits.value == map[];
  }

  lemma PickOfTwo(env: Env, q: Request, a: Spec, b: Spec)
    requires Eligible(env, q, a) && Eligible(env, q, b) && Fits(env, q, a) && Fits(env, q, b)
    ensures Pick(env, q, [a, b])
            == Ok(if AtLeast(ScoreOf(env, q.arch, q.traits, a), ScoreOf(env, q.arch, q.traits, b)) then a else b)
  {
    assert [a, b][..1] == [a] && [a][..0] == [];
    assert Candidates(env, q, [a]) == [a];
    assert Candidates(env, q, [a, b]) == [a, b];
    assert Matching(env, q, [a]) == [a];
    assert Matching(env, q, [a, b]) == [a, b];
    RankFront(env, q.arch, q.traits, [a, b]);
    BestOfTwo(env, q.arch, q.traits, a, b);
  }

  /** An oracle that prefers kernel 1 without traits and the other one with empty traits. */
  function FussyEnv(): Env {
    Env((arch, capability) => true,
        (spec: Spec, arch: nat, traits: Option<Traits>) => Some(if (spec.name == 1) == traits.None? then 19 else 0),
        (filter, m, n, k) => true)
  }

  function Plain(name: Name): Spec {
    Spec(name, EMPTY, EMPTY, {}, EMPTY, 0, {Signature(0, {})}, map[], 10)
  }

  function Asking(traits: Option<Traits>): Request {
    Request(Op(EMPTY, EMPTY), Signature(0, {}), 0, None, traits, None, false)
  }

  lemma AbsentTraitsConflated()
    ensures KeyOf(Asking(None)) == KeyOf(Asking(Some(map[])))
    ensures Pick(FussyEnv(), Asking(None), [Plain(1), Plain(2)]) == Ok(Plain(1))
    ensures Pick(FussyEnv(), Asking(Some(map[])), [Plain(1), Plain(2)]) == Ok(Plain(2))
  {
    assert Signature(0, {}) in Plain(1).signatures && Signature(0, {}) in Plain(2).signatures;
    KeyConflates(FussyEnv(), Asking(None), Asking(Some(map[])), Plain(1), Plain(2));
  }

  // ---- overrides ----

  type Overrides = map<Op, Name>

  function Enter(o: Overrides, op: Op, name: Name): Overrides { o[op := name] }

  function Leave(o: Overrides, op: Op, was: Option<Name>): Overrides {
    if was.None? then map k | k in o && k != op :: o[k] else o[op := was.value]
  }

  function Scoped(o: Overrides, op: Op): Option<Name> {
    if op in o then Some(o[op]) else None
  }

  /** Properly nested override scopes; what happens inside does not touch the overrides otherwise. */
  datatype Scopes = Done | Within(op: Op, name: Name, inner: Scopes, after: Scopes)

  function RunScopes(o: Overrides, s: Scopes): Overrides
    decreases s
  {
    match s
    case Done => o
    case Within(op, name, inner, after) =>
      var was := Scoped(o, op);
      RunScopes(Leave(RunScopes(Enter(o, op, name), inner), op, was), after)
  }

  /** Leaving every scope restores the overrides exactly. */
  lemma {:induction false} ScopesRestore(o: Overrides, s: Scopes)
    ensures RunScopes(o, s) == o
    decreases s
  {
    if s.Within? {
      ScopesRestore(Enter(o, s.op, s.name), s.inner);
      assert Leave(Enter(o, s.op, s.name), s.op, Scoped(o, s.op)) == o;
      ScopesRestore(o, s.after);
    }
  }
}

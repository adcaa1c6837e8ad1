/**
 Plans: a kernel chosen once from static traits. The choice depends only on which
 kernels are registered, not on the order. It stays valid for values of the variable
 traits exactly when the sizes it left open fit the kernel's alignment and it was not
 planned with an empty solution from a kernel that has one (`PlanStaysValid`).
 */
module KernelPlan {
  import opened Wrappers
  import opened KernelSelection
  import opened KernelRegistry

  datatype PlanRequest = PlanRequest(
    op: Op, signature: Signature, arch: nat, features: set<nat>, static_: Traits, variable: set<TraitName>,
    declared: set<TraitName>, solution: Option<Name>, ignoreLayout: bool)

  datatype Plan = Plan(op: Op, signature: Signature, static_: Traits, spec: Spec, kernel: Selected)

  function AsRequest(p: PlanRequest): Request {
    Request(p.op, p.signature, p.arch, Some(p.features), Some(p.static_), p.solution, p.ignoreLayout)
  }

  /** The kernel restricts none of the variable traits, neither their values nor their bounds. */
  predicate Unrestricted(spec: Spec, variable: set<TraitName>) {
    forall v :: v in variable ==>
      v !in spec.traits && Align(v) !in spec.traits && Min(v) !in spec.traits && Max(v) !in spec.traits
  }

  predicate Named(override: Option<Name>, spec: Spec) {
    override.Some? ==> override.value == spec.name || override.value == spec.solution
  }

  predicate Plannable(env: Env, p: PlanRequest, override: Option<Name>, spec: Spec) {
    && Eligible(env, AsRequest(p), spec)
    && Unrestricted(spec, p.variable)
    && MatchesTraits(spec, p.static_) && MatchesShape(env, spec, p.static_)
    && p.declared <= spec.traits.Keys
    && Named(override, spec)
  }

  function PlanCandidates(env: Env, p: PlanRequest, override: Option<Name>, specs: seq<Spec>): seq<Spec> {
    if specs == [] then []
    else
      var rest, s := PlanCandidates(env, p, override, specs[..|specs| - 1]), specs[|specs| - 1];
      if Plannable(env, p, override, s) then rest + [s] else rest
  }

  function InsertByName(sorted: seq<Spec>, s: Spec): seq<Spec> {
    if sorted == [] || sorted[|sorted| - 1].name <= s.name then sorted + [s]
    else InsertByName(sorted[..|sorted| - 1], s) + [sorted[|sorted| - 1]]
  }

  function SortByName(specs: seq<Spec>): seq<Spec> {
    if specs == [] then [] else InsertByName(SortByName(specs[..|specs| - 1]), specs[|specs| - 1])
  }

  /** The planned kernel for registered kernels `log`; `override` is what the override sources resolve to. */
  function SelectPlan(env: Env, log: seq<Spec>, impls: map<Name, nat>, p: PlanRequest,
                      override: Option<Name>): Result<Plan>
    requires AllHaveImpls(log, impls)
  {
    if !(p.declared <= p.static_.Keys) then Err("Declared traits must also have static requirements")
    else if p.variable * p.static_.Keys != {} then Err("A planning trait cannot be both static and variable")
    else
      var candidates := PlanCandidates(env, p, override, Listed(log, p.op));
      if candidates == [] then Err("No initialization-time kernel")
      else
        var byName := SortByName(candidates);
        SortIs(candidates);
        RankFront(env, p.arch, Some(p.static_), byName);
        var winner := Rank(env, p.arch, Some(p.static_), byName)[0];
        WinnerIs(env, log, p, override);
        Ok(Plan(p.op, p.signature, p.static_, winner, Selected(winner.name, impls[winner.name])))
  }

  // ---- candidates and their order ----

  lemma {:induction false} PlanCandidatesAre(env: Env, p: PlanRequest, override: Option<Name>, specs: seq<Spec>)
    ensures forall x :: x in PlanCandidates(env, p, override, specs) <==> x in specs && Plannable(env, p, override, x)
  {
    if specs != [] {
      PlanCandidatesAre(env, p, override, specs[..|specs| - 1]);
      assert specs == specs[..|specs| - 1] + [specs[|specs| - 1]];
    }
  }

  lemma {:induction false} InsertIs(sorted: seq<Spec>, s: Spec)
    ensures |InsertByName(sorted, s)| == |sorted| + 1
    ensures forall x :: x in InsertByName(sorted, s) <==> x in sorted || x == s
  {
    var n := |sorted| - 1;
    if sorted != [] && sorted[n].name > s.name {
      InsertIs(sorted[..n], s);
      assert sorted == sorted[..n] + [sorted[n]];
    }
  }

  lemma {:induction false} SortIs(specs: seq<Spec>)
    ensures |SortByName(specs)| == |specs|
    ensures forall x :: x in SortByName(specs) <==> x in specs
  {
    if specs != [] {
      SortIs(specs[..|specs| - 1]);
      InsertIs(SortByName(specs[..|specs| - 1]), specs[|specs| - 1]);
      assert specs == specs[..|specs| - 1] + [specs[|specs| - 1]];
    }
  }

  lemma WinnerIs(env: Env, log: seq<Spec>, p: PlanRequest, override: Option<Name>)
    requires PlanCandidates(env, p, override, Listed(log, p.op)) != []
    ensures var byName := SortByName(PlanCandidates(env, p, override, Listed(log, p.op)));
            && byName != []
            && var winner := Best(env, p.arch, Some(p.static_), byName);
               winner in log && OpOf(winner) == p.op && Plannable(env, p, override, winner)
  {
    var candidates := PlanCandidates(env, p, override, Listed(log, p.op));
    SortIs(candidates);
    PlanCandidatesAre(env, p, override, Listed(log, p.op));
    ListedIs(log, p.op);
    var i := BestIs(env, p.arch, Some(p.static_), SortByName(candidates));
    assert SortByName(candidates)[i] in SortByName(candidates);
  }

  ghost predicate Ascending(specs: seq<Spec>) {
    forall i, j :: 0 <= i < j < |specs| ==> specs[i].name < specs[j].name
  }

  lemma {:induction false} InsertAscends(sorted: seq<Spec>, s: Spec)
    requires Ascending(sorted) && forall x :: x in sorted ==> x.name != s.name
    ensures Ascending(InsertByName(sorted, s))
  {
    var n := |sorted| - 1;
    if sorted != [] {
      assert sorted[n] in sorted;
      if sorted[n].name > s.name {
        InsertAscends(sorted[..n], s);
        InsertIs(sorted[..n], s);
        var less := InsertByName(sorted[..n], s);
        forall i | 0 <= i < |less|
          ensures less[i].name < sorted[n].name
        {
          assert less[i] in less;
        }
      }
    }
  }

  lemma {:induction false} SortAscends(specs: seq<Spec>)
    requires Once(specs)
    ensures Ascending(SortByName(specs))
  {
    if specs != [] {
      var n := |specs| - 1;
      SortAscends(specs[..n]);
      SortIs(specs[..n]);
      InsertAscends(SortByName(specs[..n]), specs[n]);
    }
  }

  /** In an ascending sequence the last kernel has the greatest name. */
  lemma LastIsGreatest(a: seq<Spec>, x: Spec)
    requires Ascending(a) && x in a
    ensures x.name <= a[|a| - 1].name
    ensures x.name == a[|a| - 1].name ==> x == a[|a| - 1]
    ensures x in a[..|a| - 1] <==> x.name < a[|a| - 1].name
  {
  }

  ghost predicate SameKernels(a: seq<Spec>, b: seq<Spec>) {
    forall x :: x in a <==> x in b
  }

  /** Two ascending sequences of the same kernels are equal. */
  lemma {:induction false} AscendingIsUnique(a: seq<Spec>, b: seq<Spec>)
    requires Ascending(a) && Ascending(b) && SameKernels(a, b)
    ensures a == b
  {
    BothEmpty(a, b);
    if a != [] {
      var n, m := |a| - 1, |b| - 1;
      SameButLast(a, b);
      AscendingIsUnique(a[..n], b[..m]);
      assert a == a[..n] + [a[n]] && b == b[..m] + [b[m]];
    }
  }

  lemma BothEmpty(a: seq<Spec>, b: seq<Spec>)
    requires SameKernels(a, b)
    ensures a == [] <==> b == []
  {
    if a != [] {
      assert a[0] in b;
    }
    if b != [] {
      assert b[0] in a;
    }
  }

  lemma SameButLast(a: seq<Spec>, b: seq<Spec>)
    requires Ascending(a) && Ascending(b) && a != [] && b != [] && SameKernels(a, b)
    ensures a[|a| - 1] == b[|b| - 1] && SameKernels(a[..|a| - 1], b[..|b| - 1])
  {
    var n, m := |a| - 1, |b| - 1;
    LastIsGreatest(a, b[m]);
    LastIsGreatest(b, a[n]);
    var a', b' := a[..n], b[..m];
    forall x
      ensures x in a' <==> x in b'
    {
      if x in a {
        LastIsGreatest(a, x);
        LastIsGreatest(b, x);
      } else {
        assert a == a[..n] + [a[n]] && b == b[..m] + [b[m]];
      }
    }
  }

  // ---- plans do not depend on the order of registration ----

  lemma {:induction false} PlanCandidatesOnce(env: Env, p: PlanRequest, override: Option<Name>, specs: seq<Spec>)
    requires Once(specs)
    ensures Once(PlanCandidates(env, p, override, specs))
  {
    if specs != [] {
      var n := |specs| - 1;
      PlanCandidatesOnce(env, p, override, specs[..n]);
      PlanCandidatesAre(env, p, override, specs[..n]);
      OnceMore(PlanCandidates(env, p, override, specs[..n]), specs[n]);
    }
  }

  lemma {:induction false} OfOpOnce(log: seq<Spec>, op: Op)
    requires Once(log)
    ensures Once(OfOp(log, op))
  {
    if log != [] {
      var n := |log| - 1;
      OfOpOnce(log[..n], op);
      OfOpIs(log[..n], op);
      OnceMore(OfOp(log[..n], op), log[n]);
    }
  }

  lemma {:induction false} InsertOnce(sorted: seq<Spec>, s: Spec)
    requires Once(sorted) && Fresh(sorted, s.name)
    ensures Once(Insert(sorted, s))
    ensures forall x :: x in Insert(sorted, s) <==> x in sorted || x == s
  {
    var n := |sorted| - 1;
    if sorted != [] && sorted[n].priority < s.priority {
      InsertOnce(sorted[..n], s);
      assert sorted == sorted[..n] + [sorted[n]];
      OnceMore(Insert(sorted[..n], s), sorted[n]);
    } else {
      OnceMore(sorted, s);
    }
  }

  lemma {:induction false} SortOnce(specs: seq<Spec>)
    requires Once(specs)
    ensures Once(SortByPriority(specs))
  {
    if specs != [] {
      var n := |specs| - 1;
      SortOnce(specs[..n]);
      SortDescends(specs[..n]);
      InsertOnce(SortByPriority(specs[..n]), specs[n]);
    }
  }

  lemma SameCandidatesByName(env: Env, log: seq<Spec>, log': seq<Spec>, p: PlanRequest, override: Option<Name>)
    requires Once(log) && Once(log') && SameKernels(log, log')
    ensures SortByName(PlanCandidates(env, p, override, Listed(log, p.op)))
            == SortByName(PlanCandidates(env, p, override, Listed(log', p.op)))
  {
    var a := PlanCandidates(env, p, override, Listed(log, p.op));
    var b := PlanCandidates(env, p, override, Listed(log', p.op));
    CandidatesOnce(env, log, p, override);
    CandidatesOnce(env, log', p, override);
    SortAscends(a);
    SortAscends(b);
    CandidatesAreOf(env, log, p, override);
    CandidatesAreOf(env, log', p, override);
    AscendingIsUnique(SortByName(a), SortByName(b));
  }

  lemma CandidatesOnce(env: Env, log: seq<Spec>, p: PlanRequest, override: Option<Name>)
    requires Once(log)
    ensures Once(PlanCandidates(env, p, override, Listed(log, p.op)))
  {
    OfOpOnce(log, p.op);
    SortOnce(OfOp(log, p.op));
    PlanCandidatesOnce(env, p, override, Listed(log, p.op));
  }

  lemma CandidatesAreOf(env: Env, log: seq<Spec>, p: PlanRequest, override: Option<Name>)
    ensures forall x :: x in SortByName(PlanCandidates(env, p, override, Listed(log, p.op)))
                        <==> x in log && OpOf(x) == p.op && Plannable(env, p, override, x)
  {
    SortIs(PlanCandidates(env, p, override, Listed(log, p.op)));
    PlanCandidatesAre(env, p, override, Listed(log, p.op));
    ListedIs(log, p.op);
  }

  /** The same kernels, registered in any order, give the same plan. */
  lemma PlanIgnoresOrder(env: Env, log: seq<Spec>, log': seq<Spec>, impls: map<Name, nat>, p: PlanRequest,
                         override: Option<Name>)
    requires Once(log) && Once(log') && AllHaveImpls(log, impls) && AllHaveImpls(log', impls)
    requires SameKernels(log, log')
    ensures SelectPlan(env, log, impls, p, override) == SelectPlan(env, log', impls, p, override)
  {
    SameCandidatesByName(env, log, log', p, override);
    SortIs(PlanCandidates(env, p, override, Listed(log, p.op)));
    SortIs(PlanCandidates(env, p, override, Listed(log', p.op)));
  }

  /** The planned kernel is the best of the plannable ones, taken by name. */
  lemma PlanIs(env: Env, log: seq<Spec>, impls: map<Name, nat>, p: PlanRequest, override: Option<Name>)
    requires AllHaveImpls(log, impls) && SelectPlan(env, log, impls, p, override).Ok?
    ensures var byName := SortByName(PlanCandidates(env, p, override, Listed(log, p.op)));
            byName != [] && SelectPlan(env, log, impls, p, override).value.spec
              == Best(env, p.arch, Some(p.static_), byName)
  {
    var candidates := PlanCandidates(env, p, override, Listed(log, p.op));
    SortIs(candidates);
    RankFront(env, p.arch, Some(p.static_), SortByName(candidates));
  }

  /** Nothing plannable outranks the planned kernel, and of its equals it has the least name. */
  lemma PlanIsBest(env: Env, log: seq<Spec>, impls: map<Name, nat>, p: PlanRequest, override: Option<Name>, s: Spec)
    requires Once(log) && AllHaveImpls(log, impls) && SelectPlan(env, log, impls, p, override).Ok?
    requires s in log && OpOf(s) == p.op && Plannable(env, p, override, s)
    ensures var winner := SelectPlan(env, log, impls, p, override).value.spec;
            var a, b := ScoreOf(env, p.arch, Some(p.static_), winner), ScoreOf(env, p.arch, Some(p.static_), s);
            AtLeast(a, b) && (AtLeast(b, a) ==> winner.name <= s.name)
  {
    var candidates := PlanCandidates(env, p, override, Listed(log, p.op));
    PlanIs(env, log, impls, p, override);
    CandidatesAreOf(env, log, p, override);
    CandidatesOnce(env, log, p, override);
    SortAscends(candidates);
    BestByName(env, p.arch, Some(p.static_), SortByName(candidates), s);
  }

  lemma BestByName(env: Env, arch: nat, traits: Option<Traits>, specs: seq<Spec>, s: Spec)
    requires Ascending(specs) && s in specs
    ensures var a, b := ScoreOf(env, arch, traits, Best(env, arch, traits, specs)), ScoreOf(env, arch, traits, s);
            AtLeast(a, b) && (AtLeast(b, a) ==> Best(env, arch, traits, specs).name <= s.name)
  {
    var i := BestIs(env, arch, traits, specs);
    var j :| 0 <= j < |specs| && specs[j] == s;
  }

  // ---- plans stay valid ----

  predicate StaticKept(w: Wanted, actual: Traits, t: TraitName) {
    t in actual && if w.All? then ValueMatches(w.vs, actual[t]) else actual[t] == w
  }

  function Validate(env: Env, plan: Plan, op: Op, signature: Signature, traits: Option<Traits>,
                    features: Option<set<nat>>, solution: Option<Name>, override: Option<Name>): Result<bool>
  {
    var actual := if traits.Some? then traits.value else map[];
    if op != plan.op || signature != plan.signature then Err("Input contract changed")
    else if solution.Some? && solution.value != plan.spec.solution then Err("A kernel plan cannot change solution")
    else if !Named(override, plan.spec) then Err("A kernel plan cannot change override")
    else if features.Some? && !(features.value <= plan.spec.features)
      then Err("Planned kernel does not provide the features")
    else if exists t :: t in plan.static_ && !StaticKept(plan.static_[t], actual, t) then Err("static trait changed")
    else if !MatchesTraits(plan.spec, actual) || !MatchesShape(env, plan.spec, actual)
      then Err("Input is outside the domain")
    else Ok(true)
  }

  /** The static traits as planned, and any values for any of the variable ones. */
  predicate Varies(p: PlanRequest, actual: Traits) {
    && (forall t :: t in p.static_ ==> t in actual && actual[t] == p.static_[t])
    && (forall t :: t in actual ==> t in p.static_ || t in p.variable)
  }

  /** The sizes whose alignment the planner does not screen, and the empty solution it does not filter by. */
  predicate Accepted(p: PlanRequest, spec: Spec, actual: Traits) {
    && (forall t :: t in actual && t in p.variable && IsSize(t) ==> SizeFits(spec, t, actual[t]))
    && (p.solution == Some(EMPTY) ==> spec.solution == EMPTY)
  }

  lemma VariesMatchesTraits(env: Env, p: PlanRequest, override: Option<Name>, spec: Spec, actual: Traits)
    requires Plannable(env, p, override, spec) && Varies(p, actual) && p.variable * p.static_.Keys == {}
    ensures MatchesTraits(spec, actual)
            <==> forall t :: t in actual && t in p.variable && IsSize(t) ==> SizeFits(spec, t, actual[t])
  {
  }

  lemma VariesMatchesShape(env: Env, p: PlanRequest, override: Option<Name>, spec: Spec, actual: Traits)
    requires Plannable(env, p, override, spec) && Varies(p, actual)
    ensures MatchesShape(env, spec, actual)
  {
  }

  /**
   With features, solution and overrides unchanged, the plan accepts its static traits
   and any values of the variable ones, exactly when the sizes among them fit the
   kernel's alignment and an empty solution was not asked of a kernel that has one.
   */
  lemma PlanStaysValid(env: Env, log: seq<Spec>, impls: map<Name, nat>, p: PlanRequest, override: Option<Name>,
                       actual: Traits)
    requires AllHaveImpls(log, impls) && SelectPlan(env, log, impls, p, override).Ok? && Varies(p, actual)
    ensures var plan := SelectPlan(env, log, impls, p, override).value;
            Validate(env, plan, p.op, p.signature, Some(actual), Some(p.features), p.solution, override).Ok?
            <==> Accepted(p, plan.spec, actual)
  {
    var plan := SelectPlan(env, log, impls, p, override).value;
    PlanRecords(env, log, impls, p, override);
    ValidateIff(env, p, override, plan, actual);
  }

  /** What a plan records of the request it was made for. */
  lemma PlanRecords(env: Env, log: seq<Spec>, impls: map<Name, nat>, p: PlanRequest, override: Option<Name>)
    requires AllHaveImpls(log, impls) && SelectPlan(env, log, impls, p, override).Ok?
    ensures var plan := SelectPlan(env, log, impls, p, override).value;
            && plan.op == p.op && plan.signature == p.signature && plan.static_ == p.static_
            && p.variable * p.static_.Keys == {} && Plannable(env, p, override, plan.spec)
  {
    PlanIs(env, log, impls, p, override);
    WinnerIs(env, log, p, override);
  }

  lemma ValidateIff(env: Env, p: PlanRequest, override: Option<Name>, plan: Plan, actual: Traits)
    requires plan.op == p.op && plan.signature == p.signature && plan.static_ == p.static_
    requires p.variable * p.static_.Keys == {} && Plannable(env, p, override, plan.spec) && Varies(p, actual)
    ensures Validate(env, plan, p.op, p.signature, Some(actual), Some(p.features), p.solution, override).Ok?
            <==> Accepted(p, plan.spec, actual)
  {
    VariesMatchesTraits(env, p, override, plan.spec, actual);
    VariesMatchesShape(env, p, override, plan.spec, actual);
    assert forall t :: t in plan.static_ ==> StaticKept(plan.static_[t], actual, t);
  }

  /** Variables other than the two sizes are accepted whatever their values. */
  lemma OrdinaryVariablesAccepted(env: Env, log: seq<Spec>, impls: map<Name, nat>, p: PlanRequest,
                                  override: Option<Name>, actual: Traits)
    requires AllHaveImpls(log, impls) && SelectPlan(env, log, impls, p, override).Ok? && Varies(p, actual)
    requires Ispp !in p.variable && Hidden !in p.variable && p.solution != Some(EMPTY)
    ensures Validate(env, SelectPlan(env, log, impls, p, override).value, p.op, p.signature, Some(actual),
                     Some(p.features), p.solution, override) == Ok(true)
  {
    PlanStaysValid(env, log, impls, p, override, actual);
  }

  lemma OnlyCandidate(env: Env, p: PlanRequest, spec: Spec, impls: map<Name, nat>)
    requires Plannable(env, p, None, spec) && OpOf(spec) == p.op && spec.name in impls
    requires p.declared <= p.static_.Keys && p.variable * p.static_.Keys == {}
    ensures var r := SelectPlan(env, [spec], impls, p, None); r.Ok? && r.value.spec == spec
  {
    assert spec in [spec];
    ListedIs([spec], p.op);
    PlanCandidatesAre(env, p, None, Listed([spec], p.op));
    assert spec in PlanCandidates(env, p, None, Listed([spec], p.op));
    WinnerIs(env, [spec], p, None);
    PlanIs(env, [spec], impls, p, None);
  }

  /** With only this kernel registered, the request is planned, and the plan then refuses the traits. */
  ghost predicate PlannedThenRefused(env: Env, p: PlanRequest, spec: Spec, impl: nat, actual: Traits) {
    var r := SelectPlan(env, [spec], map[spec.name := impl], p, None);
    r.Ok? && Validate(env, r.value, p.op, p.signature, Some(actual), Some(p.features), p.solution, None).Err?
  }

  lemma RefusedUnlessAccepted(env: Env, p: PlanRequest, spec: Spec, impl: nat, actual: Traits)
    requires Plannable(env, p, None, spec) && OpOf(spec) == p.op
    requires p.declared <= p.static_.Keys && p.variable * p.static_.Keys == {}
    requires Varies(p, actual) && !Accepted(p, spec, actual)
    ensures PlannedThenRefused(env, p, spec, impl, actual)
  {
    OnlyCandidate(env, p, spec, map[spec.name := impl]);
    PlanStaysValid(env, [spec], map[spec.name := impl], p, None, actual);
  }

  /** A kernel that declares the alignment of a size, and a plan that leaves that size open. */
  function AlignedSpec(): Spec { Plain(1).(traits := map[IsppAlignment := {Int(64)}]) }

  function OpenSize(): PlanRequest {
    PlanRequest(Op(EMPTY, EMPTY), Signature(0, {}), 0, {}, map[], {Ispp}, {}, None, false)
  }

  lemma AlignedPlannable()
    ensures Plannable(FussyEnv(), OpenSize(), None, AlignedSpec())
  {
  }

  /** The size is planned, and a misaligned value of it is then refused. */
  lemma UnscreenedSize()
    ensures PlannedThenRefused(FussyEnv(), OpenSize(), AlignedSpec(), 0, map[Ispp := One(Int(1))])
  {
    AlignedPlannable();
    assert !SizeFits(AlignedSpec(), Ispp, One(Int(1)));
    RefusedUnlessAccepted(FussyEnv(), OpenSize(), AlignedSpec(), 0, map[Ispp := One(Int(1))]);
  }

  /** A kernel with a solution, and a plan that asks for the empty one, which the planner does not filter by. */
  function SolvedSpec(): Spec { Plain(1).(solution := 7) }

  function NoSolution(): PlanRequest { OpenSize().(variable := {}, solution := Some(EMPTY)) }

  lemma SolvedPlannable()
    ensures Plannable(FussyEnv(), NoSolution(), None, SolvedSpec())
  {
  }

  /** The kernel is planned, and the plan then refuses the solution it was made with. */
  lemma EmptySolutionRefused()
    ensures PlannedThenRefused(FussyEnv(), NoSolution(), SolvedSpec(), 0, map[])
  {
    SolvedPlannable();
    RefusedUnlessAccepted(FussyEnv(), NoSolution(), SolvedSpec(), 0, map[]);
  }
}

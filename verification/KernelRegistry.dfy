/**
 The kernel registry: per-operator lists kept sorted by priority, an index by name,
 implementations, and a memo table of selections. For a request with traits the table
 agrees with running the selection pipeline now. A request without traits shares its entry
 with the one for empty traits: there it agrees where the oracle orders the operator's
 kernels alike for both, and otherwise need not (`WrongSelection`).
 */
module KernelRegistry {
  import opened Wrappers
  import opened KernelSelection

  // ---- lists kept sorted by priority ----

  function OpOf(s: Spec): Op { Op(s.family, s.mode) }

  /** Stable and descending: a newcomer goes after everything of its priority or above. */
  function Insert(sorted: seq<Spec>, s: Spec): seq<Spec> {
    if sorted == [] || sorted[|sorted| - 1].priority >= s.priority then sorted + [s]
    else Insert(sorted[..|sorted| - 1], s) + [sorted[|sorted| - 1]]
  }

  function SortByPriority(specs: seq<Spec>): seq<Spec> {
    if specs == [] then [] else Insert(SortByPriority(specs[..|specs| - 1]), specs[|specs| - 1])
  }

  predicate Descending(specs: seq<Spec>) {
    forall i, j :: 0 <= i < j < |specs| ==> specs[i].priority >= specs[j].priority
  }

  lemma {:induction false} InsertDescends(sorted: seq<Spec>, s: Spec)
    requires Descending(sorted)
    ensures Descending(Insert(sorted, s))
    ensures forall x :: x in Insert(sorted, s) <==> x in sorted || x == s
  {
    var n := |sorted| - 1;
    if sorted != [] && sorted[n].priority < s.priority {
      InsertDescends(sorted[..n], s);
      var less := Insert(sorted[..n], s);
      assert sorted == sorted[..n] + [sorted[n]];
      forall i | 0 <= i < |less|
        ensures less[i].priority >= sorted[n].priority
      {
        assert less[i] in less;
      }
    }
  }

  lemma {:induction false} SortDescends(specs: seq<Spec>)
    ensures Descending(SortByPriority(specs))
    ensures forall x :: x in SortByPriority(specs) <==> x in specs
  {
    if specs != [] {
      SortDescends(specs[..|specs| - 1]);
      InsertDescends(SortByPriority(specs[..|specs| - 1]), specs[|specs| - 1]);
      assert specs == specs[..|specs| - 1] + [specs[|specs| - 1]];
    }
  }

  /** Sorting again what is sorted changes nothing. */
  lemma {:induction false} SortIdle(specs: seq<Spec>)
    requires Descending(specs)
    ensures SortByPriority(specs) == specs
  {
    if specs != [] {
      var n := |specs| - 1;
      SortIdle(specs[..n]);
      assert specs == specs[..n] + [specs[n]];
    }
  }

  /** Appending to a sorted list and sorting it is sorting with the newcomer last. */
  lemma SortAppended(specs: seq<Spec>, s: Spec)
    ensures SortByPriority(SortByPriority(specs) + [s]) == SortByPriority(specs + [s])
  {
    var sorted := SortByPriority(specs);
    SortDescends(specs);
    SortIdle(sorted);
    assert (sorted + [s])[..|sorted|] == sorted && (specs + [s])[..|specs|] == specs;
  }

  function Without(specs: seq<Spec>, name: Name): seq<Spec> {
    if specs == [] then []
    else
      var rest, s := Without(specs[..|specs| - 1], name), specs[|specs| - 1];
      if s.name == name then rest else rest + [s]
  }

  lemma {:induction false} WithoutIs(specs: seq<Spec>, name: Name)
    ensures forall x :: x in Without(specs, name) <==> x in specs && x.name != name
  {
    if specs != [] {
      WithoutIs(specs[..|specs| - 1], name);
      assert specs == specs[..|specs| - 1] + [specs[|specs| - 1]];
    }
  }

  lemma {:induction false} WithoutInserted(sorted: seq<Spec>, s: Spec, name: Name)
    requires Descending(sorted)
    ensures Without(Insert(sorted, s), name)
            == if s.name == name then Without(sorted, name) else Insert(Without(sorted, name), s)
  {
    var n := |sorted| - 1;
    if sorted != [] && sorted[n].priority < s.priority {
      WithoutInserted(sorted[..n], s, name);
      var r := Insert(sorted[..n], s) + [sorted[n]];
      assert r[..|r| - 1] == Insert(sorted[..n], s);
      var w := Without(sorted[..n], name);
      assert (w + [sorted[n]])[..|w|] == w;
    } else {
      assert (sorted + [s])[..|sorted|] == sorted;
      if s.name != name {
        WithoutIs(sorted, name);
        var w := Without(sorted, name);
        if w != [] {
          assert w[|w| - 1] in w;
          var i :| 0 <= i < |sorted| && sorted[i] == w[|w| - 1];
        }
      }
    }
  }

  /** Filtering a name out of a sorted list is sorting without it. */
  lemma {:induction false} SortWithout(specs: seq<Spec>, name: Name)
    ensures Without(SortByPriority(specs), name) == SortByPriority(Without(specs, name))
  {
    if specs != [] {
      var n := |specs| - 1;
      SortWithout(specs[..n], name);
      SortDescends(specs[..n]);
      WithoutInserted(SortByPriority(specs[..n]), specs[n], name);
      var w := Without(specs[..n], name);
      assert (w + [specs[n]])[..|w|] == w;
    }
  }

  // ---- the registered kernels, in order of registration ----

  function OfOp(log: seq<Spec>, op: Op): seq<Spec> {
    if log == [] then []
    else
      var rest, s := OfOp(log[..|log| - 1], op), log[|log| - 1];
      if OpOf(s) == op then rest + [s] else rest
  }

  /** The list of an operator's kernels as the registry keeps it. */
  function Listed(log: seq<Spec>, op: Op): seq<Spec> {
    SortByPriority(OfOp(log, op))
  }

  lemma {:induction false} OfOpIs(log: seq<Spec>, op: Op)
    ensures forall x :: x in OfOp(log, op) <==> x in log && OpOf(x) == op
  {
    if log != [] {
      OfOpIs(log[..|log| - 1], op);
      assert log == log[..|log| - 1] + [log[|log| - 1]];
    }
  }

  lemma ListedIs(log: seq<Spec>, op: Op)
    ensures forall x :: x in Listed(log, op) <==> x in log && OpOf(x) == op
    ensures Descending(Listed(log, op))
  {
    OfOpIs(log, op);
    SortDescends(OfOp(log, op));
  }

  lemma {:induction false} OfOpWithout(log: seq<Spec>, op: Op, name: Name)
    ensures OfOp(Without(log, name), op) == Without(OfOp(log, op), name)
  {
    if log != [] {
      var n := |log| - 1;
      OfOpWithout(log[..n], op, name);
      var w, o := Without(log[..n], name), OfOp(log[..n], op);
      assert (w + [log[n]])[..|w|] == w;
      assert (o + [log[n]])[..|o|] == o;
    }
  }

  lemma {:induction false} WithoutAbsent(specs: seq<Spec>, name: Name)
    requires forall x :: x in specs ==> x.name != name
    ensures Without(specs, name) == specs
  {
    if specs != [] {
      WithoutAbsent(specs[..|specs| - 1], name);
      assert specs == specs[..|specs| - 1] + [specs[|specs| - 1]];
    }
  }

  ghost predicate DistinctNames(log: seq<Spec>) {
    forall x, y :: x in log && y in log && x.name == y.name ==> x == y
  }

  ghost predicate Fresh(specs: seq<Spec>, name: Name) {
    forall x :: x in specs ==> x.name != name
  }

  /** No name is registered twice. */
  ghost predicate Once(log: seq<Spec>) {
    log == [] || (Once(log[..|log| - 1]) && Fresh(log[..|log| - 1], log[|log| - 1].name))
  }

  lemma OnceMore(log: seq<Spec>, s: Spec)
    requires Once(log) && Fresh(log, s.name)
    ensures Once(log + [s])
  {
  }

  lemma {:induction false} OnceDistinct(log: seq<Spec>)
    requires Once(log)
    ensures DistinctNames(log)
  {
    if log != [] {
      OnceDistinct(log[..|log| - 1]);
      assert log == log[..|log| - 1] + [log[|log| - 1]];
    }
  }

  lemma {:induction false} WithoutOnce(specs: seq<Spec>, name: Name)
    requires Once(specs)
    ensures Once(Without(specs, name))
  {
    if specs != [] {
      var w, s := Without(specs[..|specs| - 1], name), specs[|specs| - 1];
      WithoutOnce(specs[..|specs| - 1], name);
      WithoutIs(specs[..|specs| - 1], name);
      OnceMore(w, s);
    }
  }

  /** The name index: exactly the registered kernels. */
  ghost predicate Indexed(log: seq<Spec>, byName: map<Name, Spec>) {
    && (forall x :: x in log ==> x.name in byName && byName[x.name] == x)
    && (forall n :: n in byName ==> byName[n] in log && byName[n].name == n)
  }

  ghost predicate AllHaveImpls(log: seq<Spec>, impls: map<Name, nat>) {
    forall x :: x in log ==> x.name in impls
  }

  /** What the selection pipeline returns for these kernels. */
  function Uncached(env: Env, log: seq<Spec>, impls: map<Name, nat>, q: Request): Result<Selected>
    requires AllHaveImpls(log, impls)
  {
    var r := Pick(env, q, Listed(log, q.op));
    if r.Err? then Err(r.message)
    else
      PickFits(env, q, Listed(log, q.op));
      ListedIs(log, q.op);
      Ok(Selected(r.value.name, impls[r.value.name]))
  }

  /** A kernel name or solution forced by an override; only required features are still checked. */
  function Overridden(kernels: seq<Spec>, byName: map<Name, Spec>, impls: map<Name, nat>, q: Request,
                      name: Name): Result<Selected>
    requires (forall x :: x in kernels ==> x.name in impls) && (forall n :: n in byName ==> byName[n].name in impls)
  {
    var ofSolution := OfSolution(kernels, name);
    if name !in byName && ofSolution == [] then Err("Override not found")
    else
      var spec := if name in byName then byName[name] else FirstWith(q.features, ofSolution);
      assert spec.name in impls by {
        OfSolutionIs(kernels, name);
        if name !in byName { FirstWithIs(q.features, ofSolution); }
      }
      if q.features.Some? && !(q.features.value <= spec.features)
        then Err("Override does not declare a required feature")
      else Ok(Selected(spec.name, impls[spec.name]))
  }

  function OfSolution(specs: seq<Spec>, solution: Name): seq<Spec> {
    if specs == [] then []
    else
      var rest, s := OfSolution(specs[..|specs| - 1], solution), specs[|specs| - 1];
      if solution == EMPTY || s.solution == solution then rest + [s] else rest
  }

  lemma {:induction false} OfSolutionIs(specs: seq<Spec>, solution: Name)
    ensures forall x :: x in OfSolution(specs, solution) ==> x in specs
    ensures forall x :: x in OfSolution(specs, solution) && solution != EMPTY ==> x.solution == solution
  {
    if specs != [] {
      OfSolutionIs(specs[..|specs| - 1], solution);
      assert specs == specs[..|specs| - 1] + [specs[|specs| - 1]];
    }
  }

  /** The first kernel with every required feature, or else the first. */
  function FirstWith(features: Option<set<nat>>, specs: seq<Spec>): Spec
    requires specs != []
  {
    FirstOr(features, specs, specs[0])
  }

  function FirstOr(features: Option<set<nat>>, specs: seq<Spec>, default: Spec): Spec {
    if specs == [] then default
    else if features.None? || features.value <= specs[0].features then specs[0]
    else FirstOr(features, specs[1..], default)
  }

  lemma {:induction false} FirstOrIs(features: Option<set<nat>>, specs: seq<Spec>, default: Spec)
    ensures FirstOr(features, specs, default) in specs || FirstOr(features, specs, default) == default
  {
    if specs != [] {
      FirstOrIs(features, specs[1..], default);
    }
  }

  lemma FirstWithIs(features: Option<set<nat>>, specs: seq<Spec>)
    requires specs != []
    ensures FirstWith(features, specs) in specs
  {
    FirstOrIs(features, specs, specs[0]);
  }

  // ---- what a change leaves alone ----

  lemma OtherOpsKept(log: seq<Spec>, s: Spec, op: Op)
    requires op != OpOf(s)
    ensures OfOp(log + [s], op) == OfOp(log, op)
  {
  }

  lemma OwnOpGrows(log: seq<Spec>, s: Spec)
    ensures Listed(log + [s], OpOf(s)) == SortByPriority(Listed(log, OpOf(s)) + [s])
  {
    assert (log + [s])[..|log|] == log;
    SortAppended(OfOp(log, OpOf(s)), s);
  }

  lemma RemovedKeepsOthers(log: seq<Spec>, spec: Spec, op: Op)
    requires DistinctNames(log) && spec in log && op != OpOf(spec)
    ensures Listed(Without(log, spec.name), op) == Listed(log, op)
  {
    OfOpWithout(log, op, spec.name);
    OfOpIs(log, op);
    WithoutAbsent(OfOp(log, op), spec.name);
  }

  lemma RemovedShrinks(log: seq<Spec>, name: Name, op: Op)
    ensures Listed(Without(log, name), op) == Without(Listed(log, op), name)
  {
    OfOpWithout(log, op, name);
    SortWithout(OfOp(log, op), name);
  }

  lemma UncachedKept(env: Env, log: seq<Spec>, impls: map<Name, nat>, log': seq<Spec>, impls': map<Name, nat>,
                     q: Request)
    requires AllHaveImpls(log, impls) && AllHaveImpls(log', impls')
    requires Listed(log, q.op) == Listed(log', q.op)
    requires forall x :: x in Listed(log, q.op) ==>
               x.name in impls && x.name in impls' && impls[x.name] == impls'[x.name]
    ensures Uncached(env, log, impls, q) == Uncached(env, log', impls', q)
  {
    if Pick(env, q, Listed(log, q.op)).Ok? {
      PickFits(env, q, Listed(log, q.op));
    }
  }

  lemma UncachedByKey(env: Env, log: seq<Spec>, impls: map<Name, nat>, q: Request, q': Request)
    requires AllHaveImpls(log, impls) && KeyOf(q) == KeyOf(q') && q.traits == q'.traits
    ensures Uncached(env, log, impls, q) == Uncached(env, log, impls, q')
  {
    TraitsDecide(env, q, q', Listed(log, q.op));
  }

  /** The kernels registered for an operator. */
  function Registered(log: seq<Spec>, op: Op): set<Spec> {
    set x | x in Listed(log, op)
  }

  /** Where the oracle orders the operator's kernels alike, absent and empty traits select the same kernel. */
  lemma UncachedSwapped(env: Env, log: seq<Spec>, impls: map<Name, nat>, q: Request)
    requires AllHaveImpls(log, impls) && !HasTraits(q) && RanksAlike(env, q.arch, Registered(log, q.op))
    ensures Uncached(env, log, impls, Swapped(q)) == Uncached(env, log, impls, q)
  {
    KeyTells(q, q);
    KeyDecides(env, q, Swapped(q), Listed(log, q.op));
  }

  // ---- the registry's tables ----

  function KernelsIn(byOperator: map<Op, seq<Spec>>, op: Op): seq<Spec> {
    if op in byOperator then byOperator[op] else []
  }

  /** Lists, index and implementations describe exactly the registered kernels. */
  ghost predicate TablesOk(log: seq<Spec>, byOperator: map<Op, seq<Spec>>, byName: map<Name, Spec>,
                           impls: map<Name, nat>)
  {
    && Once(log) && Indexed(log, byName) && impls.Keys == byName.Keys
    && (forall op :: KernelsIn(byOperator, op) == Listed(log, op))
  }

  /** What the pipeline returns now for a request, or, without traits, for the other request with its key. */
  ghost predicate Current(env: Env, log: seq<Spec>, impls: map<Name, nat>, q: Request, r: Result<Selected>)
    requires AllHaveImpls(log, impls)
  {
    r == Uncached(env, log, impls, q) || (!HasTraits(q) && r == Uncached(env, log, impls, Swapped(q)))
  }

  /** A memoized selection is current, for every request that maps to it. */
  ghost predicate Agrees(env: Env, log: seq<Spec>, impls: map<Name, nat>, cache: map<Key, Selected>, q: Request)
    requires AllHaveImpls(log, impls)
  {
    KeyOf(q) in cache ==> Current(env, log, impls, q, Ok(cache[KeyOf(q)]))
  }

  ghost predicate CacheOk(env: Env, log: seq<Spec>, impls: map<Name, nat>, cache: map<Key, Selected>) {
    AllHaveImpls(log, impls) && forall q :: Agrees(env, log, impls, cache, q)
  }

  function WithoutOp(cache: map<Key, Selected>, op: Op): map<Key, Selected> {
    map k | k in cache && k.op != op :: cache[k]
  }

  function WithoutName<T>(m: map<Name, T>, name: Name): map<Name, T> {
    map n | n in m && n != name :: m[n]
  }

  lemma TablesRemove(log: seq<Spec>, byOperator: map<Op, seq<Spec>>, byName: map<Name, Spec>, impls: map<Name, nat>,
                     name: Name)
    requires TablesOk(log, byOperator, byName, impls) && name in byName
    ensures var op := OpOf(byName[name]);
            TablesOk(Without(log, name), byOperator[op := Without(KernelsIn(byOperator, op), name)],
                     WithoutName(byName, name), WithoutName(impls, name))
  {
    var spec := byName[name];
    var op := OpOf(spec);
    IndexRemove(log, byName, name);
    OnceDistinct(log);
    var lists := byOperator[op := Without(KernelsIn(byOperator, op), name)];
    forall o
      ensures KernelsIn(lists, o) == Listed(Without(log, name), o)
    {
      assert KernelsIn(byOperator, o) == Listed(log, o);
      if o == op {
        RemovedShrinks(log, name, op);
      } else {
        RemovedKeepsOthers(log, spec, o);
      }
    }
  }

  lemma CacheRemove(env: Env, log: seq<Spec>, impls: map<Name, nat>, cache: map<Key, Selected>, spec: Spec)
    requires CacheOk(env, log, impls, cache) && DistinctNames(log) && spec in log
    ensures CacheOk(env, Without(log, spec.name), WithoutName(impls, spec.name), WithoutOp(cache, OpOf(spec)))
  {
    var log', impls', cache' := Without(log, spec.name), WithoutName(impls, spec.name), WithoutOp(cache, OpOf(spec));
    WithoutIs(log, spec.name);
    forall q
      ensures Agrees(env, log', impls', cache', q)
    {
      if KeyOf(q) in cache' {
        assert Agrees(env, log, impls, cache, q);
        RemovedKeepsOthers(log, spec, q.op);
        ListedIs(log, q.op);
        UncachedKept(env, log, impls, log', impls', q);
        if !HasTraits(q) {
          UncachedKept(env, log, impls, log', impls', Swapped(q));
        }
      }
    }
  }

  lemma ListsAdd(log: seq<Spec>, byOperator: map<Op, seq<Spec>>, spec: Spec)
    requires forall op :: KernelsIn(byOperator, op) == Listed(log, op)
    ensures var op := OpOf(spec); var lists := byOperator[op := SortByPriority(KernelsIn(byOperator, op) + [spec])];
            forall o :: KernelsIn(lists, o) == Listed(log + [spec], o)
  {
    var op := OpOf(spec);
    var lists := byOperator[op := SortByPriority(KernelsIn(byOperator, op) + [spec])];
    forall o
      ensures KernelsIn(lists, o) == Listed(log + [spec], o)
    {
      assert KernelsIn(byOperator, o) == Listed(log, o);
      if o == op {
        OwnOpGrows(log, spec);
      } else {
        OtherOpsKept(log, spec, o);
      }
    }
  }

  lemma TablesAdd(log: seq<Spec>, byOperator: map<Op, seq<Spec>>, byName: map<Name, Spec>, impls: map<Name, nat>,
                  spec: Spec, impl: nat)
    requires TablesOk(log, byOperator, byName, impls) && spec.name !in byName
    ensures var op := OpOf(spec);
            TablesOk(log + [spec], byOperator[op := SortByPriority(KernelsIn(byOperator, op) + [spec])],
                     byName[spec.name := spec], impls[spec.name := impl])
  {
    IndexAdd(log, byName, spec);
    ListsAdd(log, byOperator, spec);
  }

  lemma IndexAdd(log: seq<Spec>, byName: map<Name, Spec>, spec: Spec)
    requires Once(log) && Indexed(log, byName) && spec.name !in byName
    ensures Once(log + [spec]) && Indexed(log + [spec], byName[spec.name := spec])
  {
    var all, byName' := log + [spec], byName[spec.name := spec];
    OnceMore(log, spec);
    assert all[|log|] == spec;
    forall x | x in all
      ensures x.name in byName' && byName'[x.name] == x
    {
      assert x in log || x == spec;
    }
    forall n | n in byName'
      ensures byName'[n] in all && byName'[n].name == n
    {
      assert n == spec.name || byName[n] in log;
    }
  }

  lemma IndexRemove(log: seq<Spec>, byName: map<Name, Spec>, name: Name)
    requires Once(log) && Indexed(log, byName)
    ensures Once(Without(log, name)) && Indexed(Without(log, name), WithoutName(byName, name))
  {
    WithoutIs(log, name);
    WithoutOnce(log, name);
  }

  lemma CacheAdd(env: Env, log: seq<Spec>, impls: map<Name, nat>, cache: map<Key, Selected>, spec: Spec, impl: nat)
    requires CacheOk(env, log, impls, cache) && forall x :: x in log ==> x.name != spec.name
    ensures CacheOk(env, log + [spec], impls[spec.name := impl], WithoutOp(cache, OpOf(spec)))
  {
    var log', impls', cache' := log + [spec], impls[spec.name := impl], WithoutOp(cache, OpOf(spec));
    forall q
      ensures Agrees(env, log', impls', cache', q)
    {
      if KeyOf(q) in cache' {
        assert Agrees(env, log, impls, cache, q);
        OtherOpsKept(log, spec, q.op);
        ListedIs(log, q.op);
        UncachedKept(env, log, impls, log', impls', q);
        if !HasTraits(q) {
          UncachedKept(env, log, impls, log', impls', Swapped(q));
        }
      }
    }
  }

  /** Memoizing an answer keeps every entry current, whatever the oracle. */
  lemma CachePut(env: Env, log: seq<Spec>, impls: map<Name, nat>, cache: map<Key, Selected>, q: Request,
                 selected: Selected)
    requires CacheOk(env, log, impls, cache) && Uncached(env, log, impls, q) == Ok(selected)
    ensures CacheOk(env, log, impls, cache[KeyOf(q) := selected])
  {
    var cache' := cache[KeyOf(q) := selected];
    forall q'
      ensures Agrees(env, log, impls, cache', q')
    {
      if KeyOf(q') == KeyOf(q) {
        KeyTells(q', q);
        UncachedByKey(env, log, impls, q, if q'.traits == q.traits then q' else Swapped(q'));
      } else {
        assert Agrees(env, log, impls, cache, q');
      }
    }
  }

  /** A current answer is the pipeline's own, with traits or where the oracle orders the kernels alike. */
  lemma CurrentIsRight(env: Env, log: seq<Spec>, impls: map<Name, nat>, q: Request, r: Result<Selected>)
    requires AllHaveImpls(log, impls) && Current(env, log, impls, q, r)
    requires HasTraits(q) || RanksAlike(env, q.arch, Registered(log, q.op))
    ensures r == Uncached(env, log, impls, q)
  {
    if !HasTraits(q) {
      UncachedSwapped(env, log, impls, q);
    }
  }

  /** What an override selects from these tables. */
  ghost function Forced(log: seq<Spec>, byOperator: map<Op, seq<Spec>>, byName: map<Name, Spec>, impls: map<Name, nat>,
                        q: Request, name: Name): Result<Selected>
    requires TablesOk(log, byOperator, byName, impls)
  {
    ListedIs(log, q.op);
    Overridden(KernelsIn(byOperator, q.op), byName, impls, q, name)
  }

  /** An override selects the named kernel, or one of the named solution, and only with every required feature. */
  lemma ForcedIs(log: seq<Spec>, byOperator: map<Op, seq<Spec>>, byName: map<Name, Spec>, impls: map<Name, nat>,
                 q: Request, name: Name)
    requires TablesOk(log, byOperator, byName, impls) && name != EMPTY
             && Forced(log, byOperator, byName, impls, q, name).Ok?
    ensures exists s :: s in log && Forced(log, byOperator, byName, impls, q, name).value.name == s.name
                        && (s.name == name || (s.solution == name && OpOf(s) == q.op))
                        && (q.features.Some? ==> q.features.value <= s.features)
  {
    var kernels := KernelsIn(byOperator, q.op);
    ListedIs(log, q.op);
    OfSolutionIs(kernels, name);
    if name !in byName {
      FirstWithIs(q.features, OfSolution(kernels, name));
      assert FirstWith(q.features, OfSolution(kernels, name)) in log;
    } else {
      assert byName[name] in log;
    }
  }

  lemma ReplacedImpl(impls: map<Name, nat>, name: Name, impl: nat)
    ensures WithoutName(impls, name)[name := impl] == impls[name := impl]
  {
  }

  /** The registry's dictionaries: lists by operator, kernels by name, implementations, selections. */
  datatype Tables = Tables(
    byOperator: map<Op, seq<Spec>>, byName: map<Name, Spec>, impls: map<Name, nat>, cache: map<Key, Selected>)

  /** Everything the registry maintains, for kernels registered in the order of `log`. */
  ghost predicate RegistryOk(env: Env, log: seq<Spec>, t: Tables) {
    TablesOk(log, t.byOperator, t.byName, t.impls) && CacheOk(env, log, t.impls, t.cache)
  }

  function Removed(t: Tables, name: Name): Tables
    requires name in t.byName
  {
    var op := OpOf(t.byName[name]);
    Tables(t.byOperator[op := Without(KernelsIn(t.byOperator, op), name)],
           WithoutName(t.byName, name), WithoutName(t.impls, name), WithoutOp(t.cache, op))
  }

  function Added(t: Tables, spec: Spec, impl: nat): Tables {
    var op := OpOf(spec);
    Tables(t.byOperator[op := SortByPriority(KernelsIn(t.byOperator, op) + [spec])],
           t.byName[spec.name := spec], t.impls[spec.name := impl], WithoutOp(t.cache, op))
  }

  lemma OkRemove(env: Env, log: seq<Spec>, t: Tables, name: Name)
    requires RegistryOk(env, log, t) && name in t.byName
    ensures RegistryOk(env, Without(log, name), Removed(t, name))
  {
    TablesRemove(log, t.byOperator, t.byName, t.impls, name);
    OnceDistinct(log);
    CacheRemove(env, log, t.impls, t.cache, t.byName[name]);
  }

  lemma OkAdd(env: Env, log: seq<Spec>, t: Tables, spec: Spec, impl: nat)
    requires RegistryOk(env, log, t) && spec.name !in t.byName
    ensures RegistryOk(env, log + [spec], Added(t, spec, impl))
  {
    TablesAdd(log, t.byOperator, t.byName, t.impls, spec, impl);
    CacheAdd(env, log, t.impls, t.cache, spec, impl);
  }

  lemma AbsentFromLog(env: Env, log: seq<Spec>, t: Tables, name: Name)
    requires RegistryOk(env, log, t) && name !in t.byName
    ensures Without(log, name) == log && WithoutName(t.byName, name) == t.byName
            && WithoutName(t.impls, name) == t.impls
  {
    WithoutAbsent(log, name);
  }

  /** A cache that lost entries, all those of an operator among them, and gained none. */
  ghost predicate Shrunk(was: map<Key, Selected>, now: map<Key, Selected>, op: Op) {
    forall k :: k in now ==> k in was && now[k] == was[k] && k.op != op
  }

  predicate Unforced(override: Option<Name>) { override.None? || override.value == EMPTY }

  datatype Strategy = Heuristic | Autotune

  /** The registry; `log` records the registered kernels in order of registration. */
  class Registry {
    const env: Env
    var t: Tables
    var policy: map<Op, Strategy>
    ghost var log: seq<Spec>

    ghost predicate Valid()
      reads this
    {
      RegistryOk(env, log, t)
    }

    constructor (env: Env)
      ensures Valid() && log == [] && this.env == env && t == Tables(map[], map[], map[], map[])
    {
      this.env := env;
      t, policy, log := Tables(map[], map[], map[], map[]), map[], [];
    }

    method Unregister(name: Name)
      requires Valid()
      modifies this`t, this`log
      ensures Valid() && log == Without(old(log), name)
      ensures t.byName == WithoutName(old(t.byName), name) && t.impls == WithoutName(old(t.impls), name)
      ensures t.cache == if name in old(t.byName) then WithoutOp(old(t.cache), OpOf(old(t.byName)[name]))
              else old(t.cache)
    {
      if name !in t.byName {
        AbsentFromLog(env, log, t, name);
        return;
      }
      OkRemove(env, log, t, name);
      t := Removed(t, name);
      log := Without(log, name);
    }

    /** Registration, replacing a kernel of the same name, whatever operator that was for. */
    method Register(spec: Spec, impl: nat)
      requires Valid()
      modifies this`t, this`log
      ensures Valid() && log == Without(old(log), spec.name) + [spec]
      ensures t.impls == old(t.impls)[spec.name := impl] && Shrunk(old(t.cache), t.cache, OpOf(spec))
    {
      if spec.name in t.byName {
        Unregister(spec.name);
      } else {
        AbsentFromLog(env, log, t, spec.name);
      }
      Add(spec, impl);
      ReplacedImpl(old(t.impls), spec.name, impl);
    }

    method Add(spec: Spec, impl: nat)
      requires Valid() && spec.name !in t.byName
      modifies this`t, this`log
      ensures Valid() && log == old(log) + [spec]
      ensures t.impls == old(t.impls)[spec.name := impl] && Shrunk(old(t.cache), t.cache, OpOf(spec))
    {
      OkAdd(env, log, t, spec, impl);
      t := Added(t, spec, impl);
      log := log + [spec];
    }

    method SetPolicy(newPolicy: map<Op, Strategy>)
      requires Valid()
      modifies this`policy, this`t
      ensures Valid() && policy == newPolicy && t == old(t).(cache := map[])
    {
      policy := newPolicy;
      t := t.(cache := map[]);
    }

    /**
     A cache entry answers if there is one, and the pipeline otherwise. With traits, or where
     the oracle orders the operator's kernels alike for absent and for empty traits, the
     answer is what the pipeline returns now; in any case it is that for one of the two.
     */
    method Select(q: Request, override: Option<Name>) returns (r: Result<Selected>)
      requires Valid()
      modifies this`t
      ensures Valid() && t == old(t).(cache := t.cache)
      ensures override.None? && KeyOf(q) in old(t.cache) ==> r == Ok(old(t.cache)[KeyOf(q)]) && t == old(t)
      ensures override == Some(EMPTY) || (override.None? && KeyOf(q) !in old(t.cache)) ==>
                && r == Uncached(env, log, t.impls, q)
                && t.cache == if r.Ok? then old(t.cache)[KeyOf(q) := r.value] else old(t.cache)
      ensures Unforced(override) ==> Current(env, log, t.impls, q, r)
      ensures Unforced(override) && (HasTraits(q) || RanksAlike(env, q.arch, Registered(log, q.op))) ==>
                r == Uncached(env, log, t.impls, q)
      ensures !Unforced(override) ==>
                r == Forced(log, t.byOperator, t.byName, t.impls, q, override.value) && t == old(t)
    {
      var key := KeyOf(q);
      assert Agrees(env, log, t.impls, t.cache, q);
      if override.None? && key in t.cache {
        r := Ok(t.cache[key]);
      } else {
        var kernels := KernelsIn(t.byOperator, q.op);
        ListedIs(log, q.op);
        if override.Some? && override.value != EMPTY {
          return Overridden(kernels, t.byName, t.impls, q, override.value);
        }
        r := Pipeline(q, kernels);
        if r.Ok? {
          CachePut(env, log, t.impls, t.cache, q, r.value);
          t := t.(cache := t.cache[key := r.value]);
        }
      }
      if HasTraits(q) || RanksAlike(env, q.arch, Registered(log, q.op)) {
        CurrentIsRight(env, log, t.impls, q, r);
      }
    }

    /** Filter and rank; the tuning strategy ranks the same way. */
    method Pipeline(q: Request, kernels: seq<Spec>) returns (r: Result<Selected>)
      requires Valid() && kernels == Listed(log, q.op)
      ensures r == Uncached(env, log, t.impls, q)
    {
      var eligible := Candidates(env, q, kernels);
      if eligible == [] {
        return Err("No kernel found");
      }
      var fitting := Matching(env, q, eligible);
      if fitting == [] {
        return Err("No kernel found with traits");
      }
      RankFront(env, q.arch, q.traits, fitting);
      var winner := Rank(env, q.arch, q.traits, fitting)[0];
      PickFits(env, q, kernels);
      ListedIs(log, q.op);
      return Ok(Selected(winner.name, t.impls[winner.name]));
    }
  }

  // ---- a wrong answer ----

  lemma ListedTwo(a: Spec, b: Spec)
    requires OpOf(a) == OpOf(b) && a.priority == b.priority
    ensures Listed([a, b], OpOf(a)) == [a, b]
  {
    assert [a, b][..1] == [a] && [a][..0] == [];
    assert OfOp([a], OpOf(a)) == [a] && OfOp([a, b], OpOf(a)) == [a, b];
    assert SortByPriority([a]) == [a];
  }

  lemma FussyAnswers(log: seq<Spec>, impls: map<Name, nat>)
    requires log == [Plain(1), Plain(2)] && 1 in impls && 2 in impls
    ensures AllHaveImpls(log, impls)
    ensures Uncached(FussyEnv(), log, impls, Asking(None)) == Ok(Selected(1, impls[1]))
    ensures Uncached(FussyEnv(), log, impls, Asking(Some(map[]))) == Ok(Selected(2, impls[2]))
  {
    ListedTwo(Plain(1), Plain(2));
    AbsentTraitsConflated();
  }

  method WithTwo(env: Env, a: Spec, b: Spec, implA: nat, implB: nat) returns (registry: Registry)
    requires a.name != b.name
    ensures fresh(registry) && registry.Valid() && registry.env == env && registry.log == [a, b]
    ensures registry.t.impls == map[a.name := implA, b.name := implB] && registry.t.cache == map[]
  {
    registry := new Registry(env);
    registry.Register(a, implA);
    registry.Register(b, implB);
  }

  /** Two kernels, and two requests with one key: whatever the second asks, it gets what the first was answered. */
  method SelectTwice(env: Env, a: Spec, b: Spec, implA: nat, implB: nat, q: Request, q': Request)
    returns (first: Result<Selected>, second: Result<Selected>)
    requires a.name != b.name && KeyOf(q) == KeyOf(q')
    ensures var log, impls := [a, b], map[a.name := implA, b.name := implB];
            && first == Uncached(env, log, impls, q)
            && second == if first.Ok? then first else Uncached(env, log, impls, q')
  {
    var registry := WithTwo(env, a, b, implA, implB);
    first := registry.Select(q, None);
    second := registry.Select(q', None);
  }

  /** The second request is answered from the first one's entry, not as the pipeline would answer it. */
  method WrongSelection() returns (first: Result<Selected>, second: Result<Selected>)
    ensures first == Ok(Selected(1, 10)) && second == Ok(Selected(1, 10))
    ensures var log, impls := [Plain(1), Plain(2)], map[1 := 10, 2 := 20];
            AllHaveImpls(log, impls) && Uncached(FussyEnv(), log, impls, Asking(Some(map[]))) == Ok(Selected(2, 20))
  {
    FussyAnswers([Plain(1), Plain(2)], map[1 := 10, 2 := 20]);
    first, second := SelectTwice(FussyEnv(), Plain(1), Plain(2), 10, 20, Asking(None), Asking(Some(map[])));
  }
}

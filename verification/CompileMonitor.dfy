/**
 The compile monitor: which values each compile-time parameter was compiled with,
 which of them first appeared while serving, and when a parameter that keeps taking
 new values is reported.
 */
module CompileMonitor {
  import opened Arith

  /** A compile-time constant; whole numbers and fractions of one value are the same value. */
  datatype Const = Number(v: real, whole: bool) | NotANumber

  datatype Item = Item(name: nat, value: Const)

  /** A kernel's parameter, and one as launched from a site. */
  datatype Param = Param(kernel: nat, name: nat)
  datatype Launch = Launch(param: Param, site: nat)

  datatype History = History(values: map<Param, set<real>>, serving: map<Launch, seq<Const>>,
                             reported: map<Launch, nat>)

  lemma {:induction false} Pow2Positive(k: nat)
    ensures Pow2(k) >= 1
  {
    if k > 0 {
      Pow2Positive(k - 1);
    }
  }

  predicate IsPower(n: int)
    decreases if n > 0 then n else 0
  {
    n == 1 || (n > 1 && n % 2 == 0 && IsPower(n / 2))
  }

  lemma {:induction false} IsPowerIs(n: int)
    ensures IsPower(n) <==> exists k :: n == Pow2(k)
    decreases if n > 0 then n else 0
  {
    if n == 1 {
      assert n == Pow2(0);
    } else if n > 1 {
      IsPowerIs(n / 2);
      if n % 2 == 0 && IsPower(n / 2) {
        var k: nat :| n / 2 == Pow2(k);
        assert n == Pow2(k + 1);
      }
      if exists k :: n == Pow2(k) {
        var k: nat :| n == Pow2(k);
        assert k > 0;
        assert n == 2 * Pow2(k - 1);
        assert n % 2 == 0 && n / 2 == Pow2(k - 1);
      }
    } else {
      forall k: nat
        ensures n != Pow2(k)
      {
        Pow2Positive(k);
      }
    }
  }

  /** Whether a constant is a whole power of two. */
  predicate PowerOfTwo(c: Const) {
    c.Number? && c.whole && c.v == c.v.Floor as real && IsPower(c.v.Floor)
  }

  lemma PowerOfTwoIs(c: Const)
    requires c.Number? && c.whole && c.v == c.v.Floor as real
    ensures PowerOfTwo(c) <==> exists k :: c.v.Floor == Pow2(k)
  {
    IsPowerIs(c.v.Floor);
  }

  // ---- recording ----

  function Seen(h: History, p: Param): set<real> {
    if p in h.values then h.values[p] else {}
  }

  function NewValues(h: History, l: Launch): seq<Const> {
    if l in h.serving then h.serving[l] else []
  }

  function Reported(h: History, l: Launch): nat {
    if l in h.reported then h.reported[l] else 0
  }

  /** The value counts: it is a number not compiled before, while serving, and no power of two. */
  predicate Counts(h: History, serving: bool, p: Param, c: Const) {
    c.Number? && c.v !in Seen(h, p) && serving && !PowerOfTwo(c)
  }

  /** One item of a compilation, and whether it is to be reported. */
  function Recorded(h: History, limit: int, serving: bool, l: Launch, c: Const): (History, bool) {
    if c.NotANumber? || c.v in Seen(h, l.param) then (h, false)
    else
      var h1 := h.(values := h.values[l.param := Seen(h, l.param) + {c.v}]);
      if !serving || PowerOfTwo(c) then (h1, false)
      else
        var vs := NewValues(h, l) + [c];
        var h2 := h1.(serving := h1.serving[l := vs]);
        if |vs| > Max(limit, 2 * Reported(h, l)) then (h2.(reported := h2.reported[l := |vs|]), true)
        else (h2, false)
  }

  // ---- the lists ----

  predicate Distinct(vs: seq<Const>) {
    forall i, j :: 0 <= i < j < |vs| ==> vs[i].Number? && vs[j].Number? && vs[i].v != vs[j].v
  }

  /** Listed constants were compiled, and none is a whole power of two. */
  ghost predicate Listable(h: History, l: Launch) {
    forall c :: c in NewValues(h, l) ==> c.Number? && c.v in Seen(h, l.param) && !PowerOfTwo(c)
  }

  /** No two sites list one value of a parameter. */
  ghost predicate Apart(h: History, l: Launch, m: Launch) {
    l.param == m.param && l != m ==>
      forall c, d :: c in NewValues(h, l) && d in NewValues(h, m) ==> c.Number? && d.Number? && c.v != d.v
  }

  ghost predicate ListsOk(h: History) {
    && (forall l :: Distinct(NewValues(h, l)) && Listable(h, l))
    && (forall l: Launch, m: Launch :: Apart(h, l, m))
  }

  /** What recording does to the lists: at most the launch's own grows, by a value never compiled before. */
  lemma RecordedLists(h: History, limit: int, serving: bool, l: Launch, c: Const, m: Launch)
    ensures var h' := Recorded(h, limit, serving, l, c).0;
            && NewValues(h', m)
               == NewValues(h, m) + (if m == l && Counts(h, serving, l.param, c) then [c] else [])
            && Seen(h', m.param) == Seen(h, m.param) + (if m.param == l.param && c.Number? then {c.v} else {})
  {
  }

  lemma RecordedKeepsLists(h: History, limit: int, serving: bool, l: Launch, c: Const)
    requires ListsOk(h)
    ensures ListsOk(Recorded(h, limit, serving, l, c).0)
  {
    var h' := Recorded(h, limit, serving, l, c).0;
    forall m
      ensures Distinct(NewValues(h', m)) && Listable(h', m)
    {
      RecordedLists(h, limit, serving, l, c, m);
      assert Distinct(NewValues(h, m)) && Listable(h, m);
      assert forall i :: 0 <= i < |NewValues(h, m)| ==> NewValues(h, m)[i] in NewValues(h, m);
    }
    forall m: Launch, n: Launch
      ensures Apart(h', m, n)
    {
      RecordedLists(h, limit, serving, l, c, m);
      RecordedLists(h, limit, serving, l, c, n);
      assert Apart(h, m, n) && Listable(h, m) && Listable(h, n);
    }
  }

  // ---- the report schedule ----

  /** The length at which the k-th report fires. */
  function Threshold(limit: int, k: nat): int {
    (Max(limit, 0) + 2) * Pow2(k) - 1
  }

  lemma ThresholdNext(limit: int, k: nat)
    ensures Threshold(limit, 0) == Max(limit, 0) + 1
    ensures Threshold(limit, k + 1) == 2 * Threshold(limit, k) + 1
    ensures Threshold(limit, k) >= Max(limit, 0) + 1
  {
    Pow2Positive(k);
    var a, p := Max(limit, 0) + 2, Pow2(k);
    assert a * (2 * p) == 2 * (a * p);
    assert a * p >= a;
  }

  /** A list of n values of which k reports were made, the last at `reported`. */
  predicate OnSchedule(limit: int, n: nat, reported: nat, k: nat) {
    && n < Threshold(limit, k)
    && (k == 0 ==> reported == 0)
    && (k > 0 ==> reported == Threshold(limit, k - 1) && reported <= n)
  }

  /** The next value is reported exactly when it brings the list to the next threshold. */
  lemma ReportsOnSchedule(limit: int, n: nat, reported: nat, k: nat)
    requires OnSchedule(limit, n, reported, k)
    ensures n + 1 > Max(limit, 2 * reported) <==> n + 1 == Threshold(limit, k)
    ensures n + 1 == Threshold(limit, k) ==> OnSchedule(limit, n + 1, n + 1, k + 1)
    ensures n + 1 != Threshold(limit, k) ==> OnSchedule(limit, n + 1, reported, k)
  {
    ThresholdNext(limit, k);
    if k > 0 {
      ThresholdNext(limit, k - 1);
    }
  }

  /** Reports are logarithmic in the number of values. */
  lemma ReportsAreFew(limit: int, n: nat, reported: nat, k: nat)
    requires OnSchedule(limit, n, reported, k)
    ensures Pow2(k) <= n + 1
  {
  }

  lemma {:induction false} ThresholdGrows(limit: int, j: nat, k: nat)
    requires j <= k
    ensures Threshold(limit, j) <= Threshold(limit, k)
  {
    if j < k {
      ThresholdGrows(limit, j, k - 1);
      ThresholdNext(limit, k - 1);
    }
  }

  // ---- runs ----

  /** Startup ends, or an item of a compilation is recorded. */
  datatype Event = Serve | Compile(launch: Launch, value: Const)

  /** A reported parameter, with the values its list held. */
  datatype Report = Report(launch: Launch, values: seq<Const>)

  /** The monitor after some events, and everything it has reported. */
  datatype Log = Log(h: History, serving: bool, reports: seq<Report>)

  const FRESH := Log(History(map[], map[], map[]), false, [])

  function Advance(limit: int, g: Log, e: Event): Log {
    match e
    case Serve => g.(serving := true)
    case Compile(l, c) =>
      var (h, fired) := Recorded(g.h, limit, g.serving, l, c);
      Log(h, g.serving, if fired then g.reports + [Report(l, NewValues(h, l))] else g.reports)
  }

  function Run(limit: int, es: seq<Event>): Log {
    if es == [] then FRESH else Advance(limit, Run(limit, es[..|es| - 1]), es[|es| - 1])
  }

  /** What was reported for a launch, in order. */
  function ReportsFor(reports: seq<Report>, l: Launch): seq<seq<Const>> {
    if reports == [] then []
    else
      var r := reports[|reports| - 1];
      ReportsFor(reports[..|reports| - 1], l) + if r.launch == l then [r.values] else []
  }

  lemma ReportsMore(reports: seq<Report>, r: Report, l: Launch)
    ensures ReportsFor(reports + [r], l) == ReportsFor(reports, l) + if r.launch == l then [r.values] else []
  {
    assert (reports + [r])[..|reports|] == reports;
  }

  /** The reports of a list so far hold its first values, up to the successive thresholds. */
  ghost predicate OnTime(limit: int, vs: seq<Const>, reported: nat, rs: seq<seq<Const>>) {
    && OnSchedule(limit, |vs|, reported, |rs|)
    && forall j :: 0 <= j < |rs| ==> 0 <= Threshold(limit, j) <= |vs| && rs[j] == vs[..Threshold(limit, j)]
  }

  ghost predicate LaunchOnTime(limit: int, g: Log, l: Launch) {
    OnTime(limit, NewValues(g.h, l), Reported(g.h, l), ReportsFor(g.reports, l))
  }

  /** A value more is reported with its list exactly when the list reaches its next threshold. */
  lemma OnTimeMore(limit: int, vs: seq<Const>, reported: nat, rs: seq<seq<Const>>, c: Const)
    requires OnTime(limit, vs, reported, rs)
    ensures var all := vs + [c];
            if |all| > Max(limit, 2 * reported) then OnTime(limit, all, |all|, rs + [all])
            else OnTime(limit, all, reported, rs)
  {
    ReportsOnSchedule(limit, |vs|, reported, |rs|);
    var all := vs + [c];
    forall j | 0 <= j < |rs|
      ensures rs[j] == all[..Threshold(limit, j)]
    {
      assert vs[..Threshold(limit, j)] == all[..Threshold(limit, j)];
    }
    assert all[..|all|] == all;
  }

  /** A value that counts is reported when its list outgrows the limit and twice its last report. */
  lemma RecordedReports(h: History, limit: int, serving: bool, l: Launch, c: Const, m: Launch)
    ensures var (h', fired) := Recorded(h, limit, serving, l, c);
            && (fired <==> Counts(h, serving, l.param, c) && |NewValues(h, l)| + 1 > Max(limit, 2 * Reported(h, l)))
            && Reported(h', m) == if m == l && fired then |NewValues(h, l)| + 1 else Reported(h, m)
  {
  }

  lemma AdvanceOnTime(limit: int, g: Log, e: Event, l: Launch)
    requires LaunchOnTime(limit, g, l)
    ensures LaunchOnTime(limit, Advance(limit, g, e), l)
  {
    if e.Compile? {
      var h := Recorded(g.h, limit, g.serving, e.launch, e.value).0;
      RecordedLists(g.h, limit, g.serving, e.launch, e.value, l);
      RecordedReports(g.h, limit, g.serving, e.launch, e.value, l);
      ReportsMore(g.reports, Report(e.launch, NewValues(h, e.launch)), l);
      if e.launch == l && Counts(g.h, g.serving, l.param, e.value) {
        OnTimeMore(limit, NewValues(g.h, l), Reported(g.h, l), ReportsFor(g.reports, l), e.value);
      }
    }
  }

  lemma {:induction false} RunOnTime(limit: int, es: seq<Event>, l: Launch)
    ensures LaunchOnTime(limit, Run(limit, es), l)
  {
    if es == [] {
      ThresholdNext(limit, 0);
    } else {
      RunOnTime(limit, es[..|es| - 1], l);
      AdvanceOnTime(limit, Run(limit, es[..|es| - 1]), es[|es| - 1], l);
    }
  }

  /**
   Over any run, the k-th report of a launch holds the first Threshold(limit, k) values
   of its list, there is one for every threshold the list has reached and no other, and
   they are few.
   */
  lemma RunReports(limit: int, es: seq<Event>, l: Launch, k: nat)
    ensures var g := Run(limit, es); var vs, rs := NewValues(g.h, l), ReportsFor(g.reports, l);
            && (k < |rs| <==> Threshold(limit, k) <= |vs|)
            && (k < |rs| ==> 0 <= Threshold(limit, k) <= |vs| && rs[k] == vs[..Threshold(limit, k)])
            && Pow2(|rs|) <= |vs| + 1
  {
    RunOnTime(limit, es, l);
    var g := Run(limit, es);
    var vs, rs := NewValues(g.h, l), ReportsFor(g.reports, l);
    ReportsAreFew(limit, |vs|, Reported(g.h, l), |rs|);
    ThresholdNext(limit, k);
    if |rs| <= k {
      ThresholdGrows(limit, |rs|, k);
    }
  }

  // ---- the lists over runs ----

  ghost predicate NothingListed(h: History) {
    forall l :: NewValues(h, l) == []
  }

  /** In every run lists hold distinct values that are no powers of two, and none before serving begins. */
  lemma {:induction false} RunLists(limit: int, es: seq<Event>)
    ensures var g := Run(limit, es); ListsOk(g.h) && (!g.serving ==> NothingListed(g.h))
  {
    if es != [] {
      var g, e := Run(limit, es[..|es| - 1]), es[|es| - 1];
      RunLists(limit, es[..|es| - 1]);
      if e.Compile? {
        RecordedKeepsLists(g.h, limit, g.serving, e.launch, e.value);
        forall l
          ensures !g.serving ==> NewValues(Run(limit, es).h, l) == []
        {
          RecordedLists(g.h, limit, g.serving, e.launch, e.value, l);
        }
      }
    }
  }

  lemma SeenAfter(limit: int, g: Log, e: Event, l: Launch)
    ensures Seen(g.h, l.param) <= Seen(Advance(limit, g, e).h, l.param)
  {
    if e.Compile? {
      RecordedLists(g.h, limit, g.serving, e.launch, e.value, l);
    }
  }

  /** What was compiled stays compiled, and serving never ends. */
  lemma {:induction false} RunGrows(limit: int, es: seq<Event>, m: nat, l: Launch)
    requires m <= |es|
    ensures Seen(Run(limit, es[..m]).h, l.param) <= Seen(Run(limit, es).h, l.param)
    ensures Run(limit, es[..m]).serving ==> Run(limit, es).serving
  {
    assert es[..|es|] == es;
    if m < |es| {
      var less := es[..|es| - 1];
      RunGrows(limit, less, m, l);
      assert less[..m] == es[..m];
      SeenAfter(limit, Run(limit, less), es[|es| - 1], l);
    }
  }

  lemma ListedAfter(limit: int, g: Log, e: Event, l: Launch, c: Const)
    requires c in NewValues(Advance(limit, g, e).h, l) && c !in NewValues(g.h, l)
    ensures c.Number? && c.v !in Seen(g.h, l.param)
  {
    if e.Compile? {
      RecordedLists(g.h, limit, g.serving, e.launch, e.value, l);
    }
  }

  /**
   A value that is listed after some point of a run was not compiled for its kernel, from any
   site, before that point.
   */
  lemma {:induction false} ListedAreNew(limit: int, es: seq<Event>, m: nat, l: Launch, c: Const)
    requires m <= |es| && c in NewValues(Run(limit, es).h, l) && c !in NewValues(Run(limit, es[..m]).h, l)
    ensures c.Number? && c.v !in Seen(Run(limit, es[..m]).h, l.param)
  {
    assert es[..|es|] == es;
    if m < |es| {
      var less := es[..|es| - 1];
      assert less[..m] == es[..m];
      if c in NewValues(Run(limit, less).h, l) {
        ListedAreNew(limit, less, m, l, c);
      } else {
        ListedAfter(limit, Run(limit, less), es[|es| - 1], l, c);
        RunGrows(limit, less, m, l);
      }
    }
  }

  /** In particular, no listed value was compiled before serving began. */
  lemma NotAtStartup(limit: int, es: seq<Event>, m: nat, l: Launch, c: Const)
    requires m <= |es| && !Run(limit, es[..m]).serving && c in NewValues(Run(limit, es).h, l)
    ensures c.Number? && c.v !in Seen(Run(limit, es[..m]).h, l.param)
  {
    RunLists(limit, es[..m]);
    ListedAreNew(limit, es, m, l, c);
  }

  ghost predicate ListedAt(h: History, l: Launch, v: real) {
    exists c :: c in NewValues(h, l) && c.Number? && c.v == v
  }

  /** Some site lists a value of a parameter. */
  ghost predicate ListedSomewhere(h: History, p: Param, v: real) {
    exists site :: ListedAt(h, Launch(p, site), v)
  }

  lemma ListedStays(limit: int, g: Log, e: Event, p: Param, v: real)
    requires ListedSomewhere(g.h, p, v)
    ensures ListedSomewhere(Advance(limit, g, e).h, p, v)
  {
    var site :| ListedAt(g.h, Launch(p, site), v);
    if e.Compile? {
      RecordedLists(g.h, limit, g.serving, e.launch, e.value, Launch(p, site));
    }
    assert ListedAt(Advance(limit, g, e).h, Launch(p, site), v);
  }

  lemma NewIsListed(limit: int, g: Log, e: Event, p: Param, v: real)
    requires g.serving && v !in Seen(g.h, p) && v in Seen(Advance(limit, g, e).h, p) && !PowerOfTwo(Number(v, true))
    ensures ListedSomewhere(Advance(limit, g, e).h, p, v)
  {
    if e.Compile? {
      RecordedLists(g.h, limit, g.serving, e.launch, e.value, e.launch);
      RecordedLists(g.h, limit, g.serving, e.launch, e.value, Launch(p, e.launch.site));
      assert ListedAt(Advance(limit, g, e).h, e.launch, v);
    }
  }

  /** Conversely, a value first compiled while serving is listed at a site, unless it is a power of two. */
  lemma {:induction false} NewAreListed(limit: int, es: seq<Event>, m: nat, p: Param, v: real)
    requires m <= |es| && Run(limit, es[..m]).serving && !PowerOfTwo(Number(v, true))
    requires v in Seen(Run(limit, es).h, p) && v !in Seen(Run(limit, es[..m]).h, p)
    ensures ListedSomewhere(Run(limit, es).h, p, v)
  {
    assert es[..|es|] == es;
    if m < |es| {
      var less := es[..|es| - 1];
      assert less[..m] == es[..m];
      if v in Seen(Run(limit, less).h, p) {
        NewAreListed(limit, less, m, p, v);
        ListedStays(limit, Run(limit, less), es[|es| - 1], p, v);
      } else {
        RunGrows(limit, less, m, Launch(p, 0));
        NewIsListed(limit, Run(limit, less), es[|es| - 1], p, v);
      }
    }
  }

  // ---- the monitor ----

  /** The items of a compilation, in order. */
  function EventsOf(kernel: nat, site: nat, items: seq<Item>): (es: seq<Event>)
    ensures |es| == |items|
  {
    seq(|items|, i requires 0 <= i < |items| => Compile(Launch(Param(kernel, items[i].name), site), items[i].value))
  }

  lemma EventsMore(limit: int, es: seq<Event>, kernel: nat, site: nat, items: seq<Item>, i: nat)
    requires i < |items|
    ensures Run(limit, es + EventsOf(kernel, site, items[..i + 1]))
            == Advance(limit, Run(limit, es + EventsOf(kernel, site, items[..i])),
                       Compile(Launch(Param(kernel, items[i].name), site), items[i].value))
  {
    var more := es + EventsOf(kernel, site, items[..i + 1]);
    assert more[..|more| - 1] == es + EventsOf(kernel, site, items[..i]);
  }

  /** Records the items of a compilation after the events `trace`; `reports` is everything reported before. */
  method RecordItems(h: History, limit: int, serving: bool, kernel: nat, site: nat, items: seq<Item>,
                     ghost trace: seq<Event>, ghost reports: seq<Report>)
    returns (history: History, unbounded: seq<Report>)
    requires Log(h, serving, reports) == Run(limit, trace)
    ensures Log(history, serving, reports + unbounded) == Run(limit, trace + EventsOf(kernel, site, items))
  {
    history, unbounded := h, [];
    assert trace + EventsOf(kernel, site, items[..0]) == trace && reports + unbounded == reports;
    for i := 0 to |items|
      invariant Log(history, serving, reports + unbounded) == Run(limit, trace + EventsOf(kernel, site, items[..i]))
    {
      var l := Launch(Param(kernel, items[i].name), site);
      EventsMore(limit, trace, kernel, site, items, i);
      var (next, fired) := Recorded(history, limit, serving, l, items[i].value);
      if fired {
        assert reports + (unbounded + [Report(l, NewValues(next, l))])
               == reports + unbounded + [Report(l, NewValues(next, l))];
        unbounded := unbounded + [Report(l, NewValues(next, l))];
      }
      history := next;
    }
    assert items[..|items|] == items;
  }

  /** The monitor; `trace` records its events and `reports` everything it has returned. */
  class Monitor {
    const limit: int
    var serving: bool
    var h: History
    var startupCompiles: nat
    var servingCompiles: nat
    ghost var trace: seq<Event>
    ghost var reports: seq<Report>
    ghost var calls: nat

    ghost predicate Valid()
      reads this
    {
      Log(h, serving, reports) == Run(limit, trace) && startupCompiles + servingCompiles == calls
    }

    constructor (limit: int)
      ensures Valid() && this.limit == limit && trace == [] && calls == 0
    {
      this.limit := limit;
      serving, startupCompiles, servingCompiles := false, 0, 0;
      h, trace, reports, calls := FRESH.h, [], [], 0;
    }

    method StartServing()
      requires Valid()
      modifies this`serving, this`trace
      ensures Valid() && serving && trace == old(trace) + [Serve]
    {
      serving, trace := true, trace + [Serve];
      assert trace[..|trace| - 1] == old(trace);
    }

    /** One compilation; what it returns are exactly the reports its items add to the run. */
    method Record(kernel: nat, constexprs: seq<Item>, site: nat) returns (unbounded: seq<Report>)
      requires Valid()
      modifies this`h, this`startupCompiles, this`servingCompiles, this`trace, this`reports, this`calls
      ensures Valid() && calls == old(calls) + 1
      ensures trace == old(trace) + EventsOf(kernel, site, constexprs) && reports == old(reports) + unbounded
      ensures servingCompiles == old(servingCompiles) + (if serving then 1 else 0)
      ensures startupCompiles == old(startupCompiles) + (if serving then 0 else 1)
    {
      if serving {
        servingCompiles := servingCompiles + 1;
      } else {
        startupCompiles := startupCompiles + 1;
      }
      calls := calls + 1;
      h, unbounded := RecordItems(h, limit, serving, kernel, site, constexprs, trace, reports);
      trace, reports := trace + EventsOf(kernel, site, constexprs), reports + unbounded;
    }
  }
}

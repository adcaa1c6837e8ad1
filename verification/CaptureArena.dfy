/**
 Zeroed state for captured launches: a session's arena hands out slices of bytes it
 zeroed before the capture, and a launch whose slice does not fit falls back to
 zeroing inside the graph. Sessions nest, and each arena is sized from what earlier
 sessions asked for.
 */
module CaptureArena {
  import opened Wrappers
  import opened Arith

  const ALIGN: nat := 256
  const MIN_ARENA_BYTES: nat := 256 * 1024

  datatype Slice = Slice(start: nat, size: nat)

  function Rounded(size: nat): nat {
    (size + ALIGN - 1) / ALIGN * ALIGN
  }

  lemma RoundedIs(size: nat)
    ensures size <= Rounded(size) < size + ALIGN && Rounded(size) % ALIGN == 0
  {
  }

  /**
   An arena: its bytes, how many are handed out and how many were asked for; and, for
   the record, the requests, the slices and whether one did not fit.
   */
  datatype Arena = Arena(bytes: nat, used: nat, wanted: nat, asked: seq<nat>, given: seq<Slice>, fellBack: bool)

  function NewArena(bytes: nat): Arena {
    Arena(bytes, 0, 0, [], [], false)
  }

  function Take(a: Arena, size: nat): (Arena, Option<Slice>) {
    var end := a.used + Rounded(size);
    var asked := a.(wanted := a.wanted + Rounded(size), asked := a.asked + [size]);
    if end > a.bytes then (asked.(fellBack := true), None)
    else (asked.(used := end, given := a.given + [Slice(a.used, size)]), Some(Slice(a.used, size)))
  }

  /** The bytes a list of requests takes, each rounded up. */
  function Needs(asked: seq<nat>): nat {
    if asked == [] then 0 else Needs(asked[..|asked| - 1]) + Rounded(asked[|asked| - 1])
  }

  predicate Disjoint(x: Slice, y: Slice) {
    x.start + x.size <= y.start || y.start + y.size <= x.start
  }

  /** Slices are aligned, within what is used, and pairwise disjoint. */
  ghost predicate SlicesOk(a: Arena) {
    && (forall i :: 0 <= i < |a.given| ==>
          a.given[i].start % ALIGN == 0 && a.given[i].start + a.given[i].size <= a.used)
    && (forall i, j :: 0 <= i < j < |a.given| ==> Disjoint(a.given[i], a.given[j]))
  }

  ghost predicate Good(a: Arena) {
    && a.used <= a.bytes && a.used % ALIGN == 0 && a.used <= a.wanted
    && a.wanted == Needs(a.asked)
    && (a.fellBack <==> a.wanted > a.bytes)
    && (!a.fellBack ==> a.used == a.wanted && |a.given| == |a.asked|)
    && SlicesOk(a)
  }

  /** Every take keeps the arena in order; it fails exactly when what is left is too small. */
  lemma TakeKeepsGood(a: Arena, size: nat)
    requires Good(a)
    ensures Good(Take(a, size).0)
    ensures var s := Take(a, size).1;
            s.Some? ==> s.value.size == size && s.value.start + size <= a.bytes && s.value.start % ALIGN == 0
    ensures Take(a, size).1.None? <==> a.bytes < a.used + Rounded(size)
  {
    RoundedIs(size);
    var b := Take(a, size).0;
    assert b.asked[..|a.asked|] == a.asked;
    if Take(a, size).1.Some? {
      forall i, j | 0 <= i < j < |b.given|
        ensures Disjoint(b.given[i], b.given[j])
      {
        if j < |a.given| {
          assert Disjoint(a.given[i], a.given[j]);
        }
      }
    }
  }

  lemma {:induction false} NeedsWithout(asked: seq<nat>, j: nat)
    requires j < |asked|
    ensures Needs(asked) == Needs(asked[..j] + asked[j + 1..]) + Rounded(asked[j])
  {
    var n := |asked| - 1;
    var rest := asked[..j] + asked[j + 1..];
    if j == n {
      assert rest == asked[..n];
    } else {
      NeedsWithout(asked[..n], j);
      assert rest[..n - 1] == asked[..n][..j] + asked[..n][j + 1..] && rest[n - 1] == asked[n];
    }
  }

  /** Requests that are among others, in whatever order, need no more than those. */
  lemma {:induction false} NeedsOfSome(some: seq<nat>, all: seq<nat>)
    requires multiset(some) <= multiset(all)
    ensures Needs(some) <= Needs(all)
  {
    if some != [] {
      var n := |some| - 1;
      assert some == some[..n] + [some[n]];
      assert some[n] in multiset(some) && some[n] in multiset(all);
      var j: nat :| j < |all| && all[j] == some[n];
      var rest := all[..j] + all[j + 1..];
      assert all == all[..j] + [all[j]] + all[j + 1..];
      assert multiset(rest) == multiset(all) - multiset{all[j]};
      NeedsOfSome(some[..n], rest);
      NeedsWithout(all, j);
    }
  }

  // ---- sessions ----

  /** The arenas of the open sessions, innermost last, the most any completed one wanted, and those completed. */
  datatype Sessions = Sessions(open: seq<Arena>, peak: nat, completed: seq<Arena>)

  datatype Event = Enter | Ask(size: nat) | Leave | Throw

  const START := Sessions([], 0, [])

  /** A request outside any session is not served from an arena; a session left by an exception does not count. */
  function Step(s: Sessions, e: Event): Sessions {
    match e
    case Enter => s.(open := s.open + [NewArena(Max(MIN_ARENA_BYTES, 2 * s.peak))])
    case Ask(size) =>
      if s.open == [] then s
      else s.(open := s.open[|s.open| - 1 := Take(s.open[|s.open| - 1], size).0])
    case Leave =>
      if s.open == [] then s
      else
        var a := s.open[|s.open| - 1];
        Sessions(s.open[..|s.open| - 1], Max(s.peak, a.wanted), s.completed + [a])
    case Throw => if s.open == [] then s else s.(open := s.open[..|s.open| - 1])
  }

  ghost predicate Ordered(s: Sessions) {
    && (forall i :: 0 <= i < |s.open| ==> Good(s.open[i]))
    && (forall i :: 0 <= i < |s.completed| ==> Good(s.completed[i]) && s.completed[i].wanted <= s.peak)
  }

  lemma StepOrdered(s: Sessions, e: Event)
    requires Ordered(s)
    ensures Ordered(Step(s, e)) && Step(s, e).peak >= s.peak
  {
    if e.Ask? && s.open != [] {
      TakeKeepsGood(s.open[|s.open| - 1], e.size);
    }
  }

  /** Where a sequence of events leads. */
  function Run(es: seq<Event>): Sessions {
    if es == [] then START else Step(Run(es[..|es| - 1]), es[|es| - 1])
  }

  /**
   Whatever the nesting and the requests: bounds, alignment, disjointness and the fallback
   condition hold throughout.
   */
  lemma {:induction false} RunOrdered(es: seq<Event>)
    ensures Ordered(Run(es))
  {
    if es != [] {
      RunOrdered(es[..|es| - 1]);
      StepOrdered(Run(es[..|es| - 1]), es[|es| - 1]);
    }
  }

  /** Every request of one arena was, as often, one of the other's. */
  ghost predicate AskedAmong(again: Arena, done: Arena) {
    multiset(again.asked) <= multiset(done.asked)
  }

  /** Requests that are among those of an arena which wanted no more bytes than this one has always fit. */
  lemma RepeatedFit(done: Arena, again: Arena)
    requires Good(done) && Good(again) && done.wanted <= again.bytes && AskedAmong(again, done)
    ensures !again.fellBack
  {
    NeedsOfSome(again.asked, done.asked);
  }

  /** The session entered by event n of a run is open from then on: the stack never shrinks to below it. */
  ghost predicate StaysOpen(es: seq<Event>, n: nat)
    requires n < |es|
  {
    forall m :: n < m <= |es| ==> |Run(es[..m]).open| > |Run(es[..n]).open|
  }

  lemma RunLast(es: seq<Event>)
    requires es != []
    ensures Run(es) == Step(Run(es[..|es| - 1]), es[|es| - 1]) && es[..|es|] == es
  {
  }

  lemma StaysOpenBefore(es: seq<Event>, n: nat)
    requires n < |es| - 1 && StaysOpen(es, n)
    ensures StaysOpen(es[..|es| - 1], n) && es[..|es| - 1][..n] == es[..n]
  {
    var less := es[..|es| - 1];
    forall m | n < m <= |less|
      ensures |Run(less[..m]).open| > |Run(less[..n]).open|
    {
      assert less[..m] == es[..m] && less[..n] == es[..n];
    }
  }

  lemma StepKeepsBytes(s: Sessions, e: Event, d: nat)
    requires d < |s.open| && d < |Step(s, e).open|
    ensures Step(s, e).open[d].bytes == s.open[d].bytes
  {
  }

  lemma {:induction false} OpenKeepsBytes(es: seq<Event>, n: nat)
    requires n < |es| && es[n] == Enter && StaysOpen(es, n)
    ensures var s := Run(es[..n]);
            |Run(es).open| > |s.open| && Run(es).open[|s.open|].bytes == Max(MIN_ARENA_BYTES, 2 * s.peak)
  {
    RunLast(es);
    if n < |es| - 1 {
      StaysOpenBefore(es, n);
      OpenKeepsBytes(es[..|es| - 1], n);
      StepKeepsBytes(Run(es[..|es| - 1]), es[|es| - 1], |Run(es[..n]).open|);
    }
  }

  /** While a session is open, its arena has room for twice what any session completed before it wanted. */
  lemma EnteredHasRoom(es: seq<Event>, n: nat, i: nat)
    requires n < |es| && es[n] == Enter && StaysOpen(es, n) && i < |Run(es[..n]).completed|
    ensures var d := |Run(es[..n]).open|;
            d < |Run(es).open| && Run(es).open[d].bytes >= 2 * Run(es[..n]).completed[i].wanted
  {
    OpenKeepsBytes(es, n);
    RunOrdered(es[..n]);
  }

  /**
   A later session whose requests are among a completed one's, in any order, never falls
   back, whatever is nested in it.
   */
  lemma RepeatFits(es: seq<Event>, n: nat, i: nat)
    requires n < |es| && es[n] == Enter && StaysOpen(es, n) && i < |Run(es[..n]).completed|
    ensures var d := |Run(es[..n]).open|;
            && d < |Run(es).open|
            && (AskedAmong(Run(es).open[d], Run(es[..n]).completed[i]) ==> !Run(es).open[d].fellBack)
  {
    EnteredHasRoom(es, n, i);
    RunOrdered(es);
    RunOrdered(es[..n]);
    var d := |Run(es[..n]).open|;
    if AskedAmong(Run(es).open[d], Run(es[..n]).completed[i]) {
      RepeatedFit(Run(es[..n]).completed[i], Run(es).open[d]);
    }
  }

  /** Leaving it then completes it without a warning. */
  lemma RepeatCompletes(es: seq<Event>, n: nat, i: nat)
    requires n < |es| && es[n] == Enter && StaysOpen(es, n) && i < |Run(es[..n]).completed|
    requires |Run(es).open| == |Run(es[..n]).open| + 1
    ensures var all := Run(es + [Leave]).completed;
            |all| > 0 && (AskedAmong(all[|all| - 1], Run(es[..n]).completed[i]) ==> !all[|all| - 1].fellBack)
  {
    RepeatFits(es, n, i);
    RunLast(es + [Leave]);
    assert (es + [Leave])[..|es|] == es;
  }

  // ---- the module's state as it is kept ----

  /** The session stack of a thread. */
  class SessionStack {
    var arenas: seq<Arena>
    var peakBytes: nat
    ghost var completed: seq<Arena>

    ghost function State(): Sessions
      reads this
    {
      Sessions(arenas, peakBytes, completed)
    }

    constructor ()
      ensures State() == START
    {
      arenas, peakBytes, completed := [], 0, [];
    }

    method EnterSession()
      modifies this
      ensures State() == Step(old(State()), Enter)
    {
      var numBytes := Max(MIN_ARENA_BYTES, 2 * peakBytes);
      arenas := arenas + [NewArena(numBytes)];
    }

    /** A buffer from the innermost arena, if there is one and it has room. */
    method ZeroedState(size: nat) returns (slice: Option<Slice>)
      modifies this
      ensures State() == Step(old(State()), Ask(size))
      ensures slice == if old(arenas) == [] then None else Take(old(arenas)[|old(arenas)| - 1], size).1
    {
      slice := None;
      if arenas != [] {
        var (arena, s) := Take(arenas[|arenas| - 1], size);
        arenas := arenas[|arenas| - 1 := arena];
        slice := s;
      }
    }

    /** Leaving normally records the peak and warns exactly when a launch fell back. */
    method LeaveSession(failed: bool) returns (warned: bool)
      requires arenas != [] && Ordered(State())
      modifies this
      ensures State() == Step(old(State()), if failed then Throw else Leave)
      ensures warned <==> !failed && old(arenas)[|old(arenas)| - 1].fellBack
    {
      var arena := arenas[|arenas| - 1];
      assert Good(arena);
      arenas := arenas[..|arenas| - 1];
      if failed {
        return false;
      }
      peakBytes := Max(peakBytes, arena.wanted);
      completed := completed + [arena];
      warned := arena.wanted > arena.bytes;
    }
  }
}

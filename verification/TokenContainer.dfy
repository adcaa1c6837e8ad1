/** A request's tokens, the pages and slices cut from them, and the pool of request rows. */
module TokenContainer {
  import opened Wrappers
  import opened Arith
  import opened RequestFsm
  import opened RequestProgress
  import RequestRuns

  /** Where page i starts. */
  function PageStart(size: nat, i: nat): nat { i * size }

  lemma PageEnds(size: nat, i: nat)
    ensures PageStart(size, i + 1) == PageStart(size, i) + size
  {
  }

  /** The first n pages of a sequence of tokens. */
  function FirstPages(tokens: seq<int>, size: nat, n: nat): (pages: seq<seq<int>>)
    requires PageStart(size, n) <= |tokens|
    ensures |pages| == n
  {
    if n == 0 then []
    else
      PageEnds(size, n - 1);
      FirstPages(tokens, size, n - 1) + [tokens[PageStart(size, n - 1)..PageStart(size, n)]]
  }

  function Join(pages: seq<seq<int>>): seq<int> {
    if pages == [] then [] else Join(pages[..|pages| - 1]) + pages[|pages| - 1]
  }

  /** The pages are the tokens, as far as they go. */
  lemma {:induction false} PagesJoin(tokens: seq<int>, size: nat, n: nat)
    requires PageStart(size, n) <= |tokens|
    ensures Join(FirstPages(tokens, size, n)) == tokens[..PageStart(size, n)]
  {
    if n > 0 {
      PageEnds(size, n - 1);
      PagesJoin(tokens, size, n - 1);
      var pages := FirstPages(tokens, size, n);
      assert pages[..n - 1] == FirstPages(tokens, size, n - 1);
    }
  }

  /** Appending tokens never changes a page that was full. */
  lemma {:induction false} PagesStay(tokens: seq<int>, more: seq<int>, size: nat, n: nat)
    requires PageStart(size, n) <= |tokens|
    ensures FirstPages(tokens + more, size, n) == FirstPages(tokens, size, n)
  {
    if n > 0 {
      PageEnds(size, n - 1);
      PagesStay(tokens, more, size, n - 1);
      var a, b := PageStart(size, n - 1), PageStart(size, n);
      assert (tokens + more)[a..b] == tokens[a..b];
    }
  }

  /** How many pages are full, with or without the last token. */
  function FullPages(count: nat, size: nat, exceptLast: bool): nat
    requires size > 0
  {
    if count == 0 then 0 else (if exceptLast then count - 1 else count) / size
  }

  lemma FullPagesFit(count: nat, size: nat, exceptLast: bool, i: nat)
    requires size > 0 && i <= FullPages(count, size, exceptLast)
    ensures PageStart(size, i) <= count
  {
    if count > 0 {
      var usable := if exceptLast then count - 1 else count;
      FloorIs(usable, size);
      TimesGrows(i, usable / size, size);
    }
  }

  function Slice(tokens: seq<int>, w: Window): seq<int>
    requires 0 <= w.begin && 0 <= w.size && w.End() <= |tokens|
  {
    tokens[w.begin..w.End()]
  }

  ghost predicate Within(tokens: seq<int>, cs: seq<Window>) {
    forall i :: 0 <= i < |cs| ==> 0 <= cs[i].begin && 0 <= cs[i].size && cs[i].End() <= |tokens|
  }

  function Slices(tokens: seq<int>, cs: seq<Window>): (r: seq<seq<int>>)
    requires Within(tokens, cs)
    ensures |r| == |cs|
  {
    if cs == [] then [] else Slices(tokens, cs[..|cs| - 1]) + [Slice(tokens, cs[|cs| - 1])]
  }

  lemma ContiguousLess(cs: seq<Window>)
    requires Contiguous(cs) && |cs| > 0
    ensures Contiguous(cs[..|cs| - 1])
  {
    var less := cs[..|cs| - 1];
    forall i | 0 < i < |less|
      ensures Follows(less, i)
    {
      assert Follows(cs, i);
    }
  }

  /** What the chunks of a prefill feed, one after the other, is the prompt from the first to the last of them. */
  lemma {:induction false} ChunksFeedPrompt(tokens: seq<int>, cs: seq<Window>)
    requires Within(tokens, cs) && Contiguous(cs) && |cs| > 0
    ensures 0 <= cs[0].begin <= cs[|cs| - 1].End() <= |tokens|
    ensures Join(Slices(tokens, cs)) == tokens[cs[0].begin..cs[|cs| - 1].End()]
  {
    var n := |cs| - 1;
    var slices := Slices(tokens, cs);
    assert slices[..n] == Slices(tokens, cs[..n]);
    if n > 0 {
      ContiguousLess(cs);
      ChunksFeedPrompt(tokens, cs[..n]);
      assert Follows(cs, n);
    }
  }

  // ---- the tokens of a request in a run ----

  lemma {:induction false} TokensGrow(capacity: nat, groups: nat, ws: seq<World>, es: seq<Event>, i: nat, j: nat,
                                      id: nat)
    requires RequestRuns.Run(capacity, groups, ws, es) && i <= j <= |es| && id < |ws[i].reqs|
    ensures id < |ws[j].reqs| && ws[i].reqs[id].tokens <= ws[j].reqs[id].tokens
  {
    if i < j {
      TokensGrow(capacity, groups, ws, es, i, j - 1, id);
      var e := es[j - 1];
      TokensAfter(ws[j - 1], e, ws[j], id);
    }
  }

  /** A page of a request that is full at some point of a run is the same page ever after. */
  lemma RunPagesStay(capacity: nat, groups: nat, ws: seq<World>, es: seq<Event>, i: nat, j: nat, id: nat, size: nat,
                     n: nat)
    requires RequestRuns.Run(capacity, groups, ws, es) && i <= j <= |es| && id < |ws[i].reqs|
    requires PageStart(size, n) <= |ws[i].reqs[id].tokens|
    ensures id < |ws[j].reqs| && PageStart(size, n) <= |ws[j].reqs[id].tokens|
    ensures FirstPages(ws[j].reqs[id].tokens, size, n) == FirstPages(ws[i].reqs[id].tokens, size, n)
  {
    TokensGrow(capacity, groups, ws, es, i, j, id);
    var was, now := ws[i].reqs[id].tokens, ws[j].reqs[id].tokens;
    assert now == was + now[|was|..];
    PagesStay(was, now[|was|..], size, n);
  }

  lemma ChunksWithin(r: Request, cs: seq<Window>)
    requires cs == r.windows && SizedRequest(r) && Contiguous(cs) && |cs| > 0 && cs[0].begin >= 0
             && r.prompt <= r.tokens
    ensures Within(r.tokens, cs)
  {
    forall i | 0 <= i < |cs|
      ensures 0 <= cs[i].begin && 0 <= cs[i].size && cs[i].End() <= |r.tokens|
    {
      if i > 0 {
        InOrder(cs, 0, i);
      }
    }
  }

  /**
   What the chunks of a request that is past prefill have fed is its prompt, from the cache hit
   on, whatever else it went through.
   */
  lemma PrefillFeedsPrompt(capacity: nat, groups: nat, ws: seq<World>, es: seq<Event>, i: nat, id: nat)
    requires RequestRuns.Run(capacity, groups, ws, es) && i < |ws| && id < |ws[i].reqs|
    requires forall k {:trigger es[k]} :: 0 <= k < |es| ==> WithinPrompt(ws[k], es[k])
    requires var r := ws[i].reqs[id]; !r.remote && Prefilled(r.state) && (|r.windows| > 0 ==> r.windows[0].begin >= 0)
    ensures var r := ws[i].reqs[id];
            && |r.windows| > 0 && Within(r.tokens, r.windows) && 0 <= r.windows[0].begin <= |r.prompt|
            && Join(Slices(r.tokens, r.windows)) == r.prompt[r.windows[0].begin..]
  {
    var r := ws[i].reqs[id];
    RunChunks(capacity, groups, ws, es, i, id);
    RunSized(capacity, groups, ws, es, i, id);
    FeedsPrompt(r);
  }

  lemma FeedsPrompt(r: Request)
    requires Chunked(r) && SizedRequest(r) && !r.remote && Prefilled(r.state)
             && (|r.windows| > 0 ==> r.windows[0].begin >= 0)
    ensures |r.windows| > 0 && Within(r.tokens, r.windows) && 0 <= r.windows[0].begin <= |r.prompt|
    ensures Join(Slices(r.tokens, r.windows)) == r.prompt[r.windows[0].begin..]
  {
    ChunksWithin(r, r.windows);
    ChunksFeedPrompt(r.tokens, r.windows);
    assert r.tokens[..|r.prompt|] == r.prompt;
  }

  class Container {
    var tokens: seq<int>
    const prefillSize: nat

    constructor (newTokens: seq<int>)
      ensures tokens == newTokens && prefillSize == |newTokens|
    {
      tokens, prefillSize := newTokens, |newTokens|;
    }

    method Extend(newTokens: seq<int>)
      modifies this
      ensures tokens == old(tokens) + newTokens
    {
      tokens := tokens + newTokens;
    }

    /** The full pages of the tokens, in order. */
    method FullPrefixPages(granularity: nat, exceptLast: bool) returns (pages: seq<seq<int>>)
      requires granularity > 0
      ensures PageStart(granularity, FullPages(|tokens|, granularity, exceptLast)) <= |tokens|
      ensures pages == FirstPages(tokens, granularity, FullPages(|tokens|, granularity, exceptLast))
    {
      pages := [];
      var full := FullPages(|tokens|, granularity, exceptLast);
      FullPagesFit(|tokens|, granularity, exceptLast, full);
      for i := 0 to full
        invariant PageStart(granularity, i) <= |tokens| && pages == FirstPages(tokens, granularity, i)
      {
        FullPagesFit(|tokens|, granularity, exceptLast, i + 1);
        PageEnds(granularity, i);
        var start := PageStart(granularity, i);
        pages := pages + [tokens[start..start + granularity]];
      }
    }
  }

  /** Rows are handed out first come, first served, and returned to the end of the queue. */
  class RowPool {
    var free: seq<nat>

    constructor (size: nat)
      ensures free == RequestRuns.AllRows(size)
    {
      var rows: seq<nat> := [];
      for i := 0 to size
        invariant rows == RequestRuns.AllRows(i)
      {
        rows := rows + [i + 1];
      }
      free := rows;
    }

    method Allocate() returns (r: Result<nat>)
      modifies this
      ensures FirstFree(old(free)).Err? ==> r == Err(FirstFree(old(free)).message) && free == old(free)
      ensures FirstFree(old(free)).Ok? ==> r.Ok? && FirstFree(old(free)) == Ok((r.value, free))
    {
      if free == [] {
        return Err("no request pool slots available");
      }
      r := Ok(free[0]);
      free := free[1..];
    }

    method Deallocate(row: nat)
      modifies this
      ensures free == Returned(old(free), row)
    {
      free := free + [row];
    }
  }
}

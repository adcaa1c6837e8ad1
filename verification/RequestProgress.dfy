/**
 Progress of a request over every run: its prefill chunks tile the prompt, with any
 number of retractions and restores in between, and a restore continues a request
 where it was retracted, after every store it waited for has landed.
 */
module RequestProgress {
  import opened Wrappers
  import opened RequestFsm
  import opened RequestRuns

  // ---- chunks follow one another ----

  /** Chunk i starts where the one before it ends, and replays nothing. */
  predicate Follows(cs: seq<Window>, i: nat)
    requires 0 < i < |cs|
  {
    cs[i].begin == cs[i - 1].End() && cs[i].replay == 0
  }

  ghost predicate Contiguous(cs: seq<Window>) {
    forall i :: 0 < i < |cs| ==> Follows(cs, i)
  }

  predicate LastIs(r: Request, window: Window) {
    |r.windows| > 0 && r.windows[|r.windows| - 1] == window
  }

  /** The chunks so far end before, or at, the end of the prompt; a peer prefills a remote request whole. */
  predicate Unfinished(r: Request, window: Window) {
    !r.remote && LastIs(r, window) && window.End() != |r.prompt|
  }

  predicate Complete(r: Request) {
    |r.windows| > 0 && (r.remote || r.windows[|r.windows| - 1].End() == |r.prompt|)
  }

  predicate ShapeFits(r: Request, shape: Shape) {
    match shape
    case ResumePrefilling(window, _) => Unfinished(r, window)
    case ResumePrefillDone(window, _) => LastIs(r, window) && Complete(r)
    case ResumeDecoding(_) => Complete(r)
  }

  /** What the state says about the chunks scheduled so far. */
  predicate StateFits(r: Request) {
    match r.state
    case Bootstrapping => r.windows == []
    case Submitted => r.windows == []
    case Prefetching(_) => r.windows == []
    case Prefilling(_, window, _) => Unfinished(r, window)
    case RemotePrefilling(_, window, _) => r.remote && r.windows == [window]
    case PrefillAwaitingResult(_, window, _) => !r.remote && LastIs(r, window) && Complete(r)
    case PrefillDone(_, window, _, _) => LastIs(r, window) && Complete(r)
    case Decoding(_, _, _) => Complete(r)
    case Finishing(_) => Complete(r)
    case Retracted(_, shape, _, _, _) => ShapeFits(r, shape)
    case Restoring(_, shape, _) => ShapeFits(r, shape)
    case Finished => true
  }

  ghost predicate Chunked(r: Request) {
    r.prompt <= r.tokens && Contiguous(r.windows) && StateFits(r)
  }

  lemma ContiguousMore(cs: seq<Window>, c: Window)
    requires Contiguous(cs) && |cs| > 0 && c.begin == cs[|cs| - 1].End() && c.replay == 0
    ensures Contiguous(cs + [c])
  {
    forall i | 0 < i < |cs + [c]|
      ensures Follows(cs + [c], i)
    {
      if i < |cs| {
        assert Follows(cs, i);
      }
    }
  }

  lemma ChunkedFirst(w: World, e: Event, w': World)
    requires e.FirstChunk? && e.id < |w.reqs| && DoFirstChunk(w, e) == Ok(w') && Chunked(w.reqs[e.id])
    ensures e.id < |w'.reqs| && Chunked(w'.reqs[e.id])
  {
  }

  lemma RetabledFits(r: Request, r': Request)
    requires Chunked(r) && Retabled(r, r')
    ensures Chunked(r')
  {
  }

  lemma ChunkedTake(w: World, e: Event, w': World)
    requires Taking(e) && e.id < |w.reqs| && Take(w, e) == Ok(w') && Chunked(w.reqs[e.id])
    ensures e.id < |w'.reqs| && Chunked(w'.reqs[e.id])
  {
    if e.FirstChunk? {
      ChunkedFirst(w, e, w');
    } else if !e.Restore? {
      RetabledIs(w, e, w');
      RetabledFits(w.reqs[e.id], w'.reqs[e.id]);
    }
  }

  lemma ChunkedFree(w: World, e: Event, w': World)
    requires Freeing(e) && e.id < |w.reqs| && Free(w, e) == Ok(w') && Chunked(w.reqs[e.id])
    ensures e.id < |w'.reqs| && Chunked(w'.reqs[e.id])
  {
    FreeingIs(w, e, w');
    EndedFits(w.reqs[e.id], w'.reqs[e.id]);
  }

  lemma EndedFits(r: Request, r': Request)
    requires Chunked(r) && EndedBy(r, r')
    ensures Chunked(r')
  {
  }

  lemma ChunkedChunk(w: World, e: Event, w': World)
    requires e.Chunk? && e.id < |w.reqs| && DoChunk(w, e) == Ok(w') && Chunked(w.reqs[e.id])
    ensures e.id < |w'.reqs| && Chunked(w'.reqs[e.id])
  {
    ContiguousMore(w.reqs[e.id].windows, Window(w.reqs[e.id].state.window.End(), e.size, 0));
  }

  lemma ChunkedExtend(w: World, e: Event, w': World)
    requires e.ExtendResult? && e.id < |w.reqs| && DoExtendResult(w, e) == Ok(w') && Chunked(w.reqs[e.id])
    ensures e.id < |w'.reqs| && Chunked(w'.reqs[e.id])
  {
    ExtendResultExtends(w, e, w');
    ExtendedFits(w.reqs[e.id], w'.reqs[e.id]);
  }

  lemma ExtendedFits(r: Request, r': Request)
    requires Chunked(r) && ExtendedBy(r, r')
    ensures Chunked(r')
  {
  }

  lemma ChunkedMove(w: World, e: Event, w': World)
    requires Moving(e) && e.id < |w.reqs| && Move(w, e) == Ok(w') && Chunked(w.reqs[e.id])
    ensures e.id < |w'.reqs| && Chunked(w'.reqs[e.id])
  {
    if e.Chunk? {
      ChunkedChunk(w, e, w');
    } else if e.ExtendResult? {
      ChunkedExtend(w, e, w');
    }
  }

  lemma ChunkedAck(w: World, e: Event, w': World)
    requires e.RestoreAck? && Touched(w, e) < |w.reqs| && DoRestoreAck(w, e) == Ok(w') && Chunked(w.reqs[Touched(w, e)])
    ensures Touched(w, e) < |w'.reqs| && Chunked(w'.reqs[Touched(w, e)])
  {
  }

  lemma ChunkedAfter(w: World, e: Event, w': World, id: nat)
    requires Step(w, e) == Ok(w') && id < |w.reqs| && Chunked(w.reqs[id])
    ensures id < |w'.reqs| && Chunked(w'.reqs[id])
  {
    if id != Touched(w, e) {
      OthersKept(w, e, w', id);
    } else if e.RestoreAck? {
      ChunkedAck(w, e, w');
    } else if Taking(e) {
      ChunkedTake(w, e, w');
    } else if Freeing(e) {
      ChunkedFree(w, e, w');
    } else {
      ChunkedMove(w, e, w');
    }
  }

  /** In every configuration of a run, every request's chunks fit its state. */
  lemma {:induction false} RunChunks(capacity: nat, groups: nat, ws: seq<World>, es: seq<Event>, i: nat, id: nat)
    requires Run(capacity, groups, ws, es) && i < |ws| && id < |ws[i].reqs|
    ensures Chunked(ws[i].reqs[id])
  {
    if i > 0 {
      var w, e, w' := ws[i - 1], es[i - 1], ws[i];
      NothingForgotten(w, e, w');
      if id < |w.reqs| {
        RunChunks(capacity, groups, ws, es, i - 1, id);
        ChunkedAfter(w, e, w', id);
      }
    }
  }

  // ---- the chunks tile the prompt ----

  ghost predicate Sized(cs: seq<Window>) {
    forall i :: 0 <= i < |cs| ==> cs[i].size >= 0
  }

  predicate Has(c: Window, t: int) {
    c.begin <= t < c.End()
  }

  lemma {:induction false} InOrder(cs: seq<Window>, i: nat, j: nat)
    requires Contiguous(cs) && Sized(cs) && i < j < |cs|
    ensures cs[i].End() <= cs[j].begin
  {
    assert Follows(cs, j);
    if i < j - 1 {
      InOrder(cs, i, j - 1);
    }
  }

  lemma {:induction false} SomeChunk(cs: seq<Window>, n: nat, t: int) returns (i: nat)
    requires Contiguous(cs) && n < |cs| && cs[0].begin <= t < cs[n].End()
    ensures i <= n && Has(cs[i], t)
  {
    if cs[n].begin <= t {
      i := n;
    } else {
      assert Follows(cs, n);
      i := SomeChunk(cs, n - 1, t);
    }
  }

  ghost predicate OnlyChunk(cs: seq<Window>, t: int, i: int) {
    0 <= i < |cs| && Has(cs[i], t) && forall j :: 0 <= j < |cs| && Has(cs[j], t) ==> j == i
  }

  ghost predicate InOneChunk(cs: seq<Window>, t: int) {
    exists i :: OnlyChunk(cs, t, i)
  }

  /** The tokens of an interval are in exactly one chunk each, and no others are in one. */
  ghost predicate Tiles(cs: seq<Window>, from: int, to: int) {
    forall t :: InOneChunk(cs, t) <==> from <= t < to
  }

  lemma ChunkIsOnly(cs: seq<Window>, t: int, i: nat)
    requires Contiguous(cs) && Sized(cs) && i < |cs| && Has(cs[i], t)
    ensures OnlyChunk(cs, t, i)
  {
    forall j | 0 <= j < |cs| && Has(cs[j], t)
      ensures j == i
    {
      if j < i {
        InOrder(cs, j, i);
      } else if i < j {
        InOrder(cs, i, j);
      }
    }
  }

  lemma ChunksTile(cs: seq<Window>)
    requires Contiguous(cs) && Sized(cs) && |cs| > 0
    ensures Tiles(cs, cs[0].begin, cs[|cs| - 1].End())
  {
    forall t
      ensures InOneChunk(cs, t) <==> cs[0].begin <= t < cs[|cs| - 1].End()
    {
      TokenTiled(cs, t);
    }
  }

  lemma TokenTiled(cs: seq<Window>, t: int)
    requires Contiguous(cs) && Sized(cs) && |cs| > 0
    ensures InOneChunk(cs, t) <==> cs[0].begin <= t < cs[|cs| - 1].End()
  {
    var n := |cs| - 1;
    if cs[0].begin <= t < cs[n].End() {
      var i := SomeChunk(cs, n, t);
      ChunkIsOnly(cs, t, i);
    } else if InOneChunk(cs, t) {
      var i: nat :| OnlyChunk(cs, t, i);
      if 0 < i {
        InOrder(cs, 0, i);
      }
      if i < n {
        InOrder(cs, i, n);
      }
    }
  }

  /** Chunks of a size that does not take them past the end of the prompt. */
  predicate WithinPrompt(w: World, e: Event) {
    if e.FirstChunk? && e.id < |w.reqs| then e.size >= 0 && e.hit + e.size <= |w.reqs[e.id].prompt|
    else if e.Chunk? && e.id < |w.reqs| && w.reqs[e.id].state.Prefilling? then
      e.size >= 0 && w.reqs[e.id].state.window.End() + e.size <= |w.reqs[e.id].prompt|
    else true
  }

  ghost predicate SizedRequest(r: Request) {
    Sized(r.windows) && forall i :: 0 <= i < |r.windows| ==> r.windows[i].End() <= |r.prompt|
  }

  /** What an event does to a request's chunks: nothing, or it starts them, or it adds the next one. */
  predicate Rechunked(r: Request, e: Event, id: nat, r': Request) {
    && r'.prompt == r.prompt
    && (|| r'.windows == r.windows
        || (e.FirstChunk? && e.id == id && r'.windows == [Window(e.hit, e.size, if e.remote then 0 else e.replay)])
        || (e.Chunk? && e.id == id && r.state.Prefilling?
            && r'.windows == r.windows + [Window(r.state.window.End(), e.size, 0)]))
  }

  lemma TakeWindows(w: World, e: Event, w': World)
    requires Taking(e) && e.id < |w.reqs| && Take(w, e) == Ok(w')
    ensures e.id < |w'.reqs| && Rechunked(w.reqs[e.id], e, e.id, w'.reqs[e.id])
  {
    if e.Grow? || e.Reclaim? {
      RetabledIs(w, e, w');
    }
  }

  lemma AckWindows(w: World, e: Event, w': World)
    requires e.RestoreAck? && Touched(w, e) < |w.reqs| && DoRestoreAck(w, e) == Ok(w')
    ensures Touched(w, e) < |w'.reqs| && Rechunked(w.reqs[Touched(w, e)], e, Touched(w, e), w'.reqs[Touched(w, e)])
  {
  }

  lemma WindowsAfter(w: World, e: Event, w': World, id: nat)
    requires Step(w, e) == Ok(w') && id < |w.reqs|
    ensures id < |w'.reqs| && Rechunked(w.reqs[id], e, id, w'.reqs[id])
  {
    if id != Touched(w, e) {
      OthersKept(w, e, w', id);
    } else if e.RestoreAck? {
      AckWindows(w, e, w');
    } else if Taking(e) {
      TakeWindows(w, e, w');
    } else if Freeing(e) {
      FreeWindows(w, e, w');
    } else {
      MoveWindows(w, e, w');
    }
  }

  lemma FreeWindows(w: World, e: Event, w': World)
    requires Freeing(e) && e.id < |w.reqs| && Free(w, e) == Ok(w')
    ensures e.id < |w'.reqs| && Rechunked(w.reqs[e.id], e, e.id, w'.reqs[e.id])
  {
    FreeingIs(w, e, w');
  }

  lemma MoveWindows(w: World, e: Event, w': World)
    requires Moving(e) && e.id < |w.reqs| && Move(w, e) == Ok(w')
    ensures e.id < |w'.reqs| && Rechunked(w.reqs[e.id], e, e.id, w'.reqs[e.id])
  {
    if e.ExtendResult? {
      ExtendResultExtends(w, e, w');
    }
  }

  lemma SizedMore(cs: seq<Window>, c: Window, end: int)
    requires Sized(cs) && (forall i :: 0 <= i < |cs| ==> cs[i].End() <= end) && c.size >= 0 && c.End() <= end
    ensures Sized(cs + [c]) && forall i :: 0 <= i < |cs + [c]| ==> (cs + [c])[i].End() <= end
  {
  }

  lemma SizedStep(w: World, e: Event, w': World, id: nat)
    requires Step(w, e) == Ok(w') && WithinPrompt(w, e) && id < |w.reqs| && SizedRequest(w.reqs[id])
    ensures id < |w'.reqs| && SizedRequest(w'.reqs[id])
  {
    WindowsAfter(w, e, w', id);
    if e.Chunk? && e.id == id && w.reqs[id].state.Prefilling? {
      SizedMore(w.reqs[id].windows, Window(w.reqs[id].state.window.End(), e.size, 0), |w.reqs[id].prompt|);
    }
  }

  lemma ArrivedSized(w: World, e: Event, w': World, id: nat)
    requires Step(w, e) == Ok(w') && |w.reqs| <= id < |w'.reqs|
    ensures SizedRequest(w'.reqs[id])
  {
    NothingForgotten(w, e, w');
  }

  lemma {:induction false} RunSized(capacity: nat, groups: nat, ws: seq<World>, es: seq<Event>, i: nat, id: nat)
    requires Run(capacity, groups, ws, es) && i < |ws| && id < |ws[i].reqs|
    requires forall k {:trigger es[k]} :: 0 <= k < |es| ==> WithinPrompt(ws[k], es[k])
    ensures SizedRequest(ws[i].reqs[id])
  {
    if i > 0 {
      var e := es[i - 1];
      if id < |ws[i - 1].reqs| {
        RunSized(capacity, groups, ws, es, i - 1, id);
        SizedStep(ws[i - 1], e, ws[i], id);
      } else {
        ArrivedSized(ws[i - 1], e, ws[i], id);
      }
    }
  }

  /** A prompt that this engine prefills. */
  predicate Prefilled(s: State) {
    s.PrefillAwaitingResult? || s.PrefillDone? || s.Decoding? || s.Finishing?
  }

  /** The chunks of a locally prefilled request, in the state it is in. */
  ghost predicate Tiled(r: Request) {
    var cs := r.windows;
    && |cs| > 0 && r.prompt <= r.tokens
    && Tiles(cs, cs[0].begin, cs[|cs| - 1].End())
    && (forall k :: 0 < k < |cs| ==> cs[k].replay == 0)
    && (Prefilled(r.state) ==> cs[|cs| - 1].End() == |r.prompt|)
    && (r.state.Prefilling? ==> cs[|cs| - 1].End() < |r.prompt| && r.state.window == cs[|cs| - 1])
  }

  lemma ChunkedIsTiled(r: Request)
    requires Chunked(r) && SizedRequest(r) && !r.remote && (Prefilled(r.state) || r.state.Prefilling?)
    ensures Tiled(r)
  {
    ChunksTile(r.windows);
    forall k | 0 < k < |r.windows|
      ensures r.windows[k].replay == 0
    {
      assert Follows(r.windows, k);
    }
  }

  /**
   A locally prefilled request is past prefill exactly when its chunks tile the prompt
   from the cache hit to its end; before, they tile it up to where the next one starts.
   Only the first chunk replays, and appended tokens never move the end of the prompt.
   */
  lemma PrefillTiles(capacity: nat, groups: nat, ws: seq<World>, es: seq<Event>, i: nat, id: nat)
    requires Run(capacity, groups, ws, es) && i < |ws| && id < |ws[i].reqs|
    requires forall k {:trigger es[k]} :: 0 <= k < |es| ==> WithinPrompt(ws[k], es[k])
    requires !ws[i].reqs[id].remote && (Prefilled(ws[i].reqs[id].state) || ws[i].reqs[id].state.Prefilling?)
    ensures Tiled(ws[i].reqs[id])
  {
    RunChunks(capacity, groups, ws, es, i, id);
    RunSized(capacity, groups, ws, es, i, id);
    ChunkedIsTiled(ws[i].reqs[id]);
  }

  // ---- tokens ----

  /** The states in which a forward's result carries tokens. */
  predicate Generates(s: State) {
    s.PrefillAwaitingResult? || s.PrefillDone? || s.Decoding? || s.Finishing?
  }

  /** The tokens an event appends to a request. */
  function AppendedBy(w: World, e: Event, id: nat): seq<int>
    requires id < |w.reqs|
  {
    if e.ExtendResult? && e.id == id && Generates(w.reqs[id].state) then e.tokens
    else if e.RemotePrefillDone? && e.id == id then [e.token]
    else []
  }

  lemma TokensExtend(w: World, e: Event, w': World)
    requires e.ExtendResult? && e.id < |w.reqs| && DoExtendResult(w, e) == Ok(w')
    ensures e.id < |w'.reqs| && w'.reqs[e.id].tokens == w.reqs[e.id].tokens + AppendedBy(w, e, e.id)
  {
  }

  lemma TokensMove(w: World, e: Event, w': World)
    requires Moving(e) && e.id < |w.reqs| && Move(w, e) == Ok(w')
    ensures e.id < |w'.reqs| && w'.reqs[e.id].tokens == w.reqs[e.id].tokens + AppendedBy(w, e, e.id)
  {
    if e.ExtendResult? {
      TokensExtend(w, e, w');
    }
  }

  lemma TokensTake(w: World, e: Event, w': World)
    requires Taking(e) && e.id < |w.reqs| && Take(w, e) == Ok(w')
    ensures e.id < |w'.reqs| && w'.reqs[e.id].tokens == w.reqs[e.id].tokens
  {
    if e.Grow? || e.Reclaim? {
      RetabledIs(w, e, w');
    }
  }

  lemma TokensAck(w: World, e: Event, w': World)
    requires e.RestoreAck? && Touched(w, e) < |w.reqs| && DoRestoreAck(w, e) == Ok(w')
    ensures Touched(w, e) < |w'.reqs| && w'.reqs[Touched(w, e)].tokens == w.reqs[Touched(w, e)].tokens
  {
  }

  /** An event that is no result of the request leaves its tokens alone. */
  lemma TokensKept(w: World, e: Event, w': World, id: nat)
    requires Step(w, e) == Ok(w') && id < |w.reqs| && (id != Touched(w, e) || e.RestoreAck? || Taking(e) || Freeing(e))
    ensures id < |w'.reqs| && w'.reqs[id].tokens == w.reqs[id].tokens
  {
    if id != Touched(w, e) {
      OthersKept(w, e, w', id);
    } else if e.RestoreAck? {
      TokensAck(w, e, w');
    } else if Taking(e) {
      TokensTake(w, e, w');
    } else {
      FreeingIs(w, e, w');
    }
  }

  lemma NoResult(w: World, e: Event, id: nat)
    requires id < |w.reqs| && (id != Touched(w, e) || e.RestoreAck? || Taking(e) || Freeing(e))
    ensures w.reqs[id].tokens + AppendedBy(w, e, id) == w.reqs[id].tokens
  {
  }

  lemma TokensAfter(w: World, e: Event, w': World, id: nat)
    requires Step(w, e) == Ok(w') && id < |w.reqs|
    ensures id < |w'.reqs| && w'.reqs[id].tokens == w.reqs[id].tokens + AppendedBy(w, e, id)
  {
    if id != Touched(w, e) || e.RestoreAck? || Taking(e) || Freeing(e) {
      TokensKept(w, e, w', id);
      NoResult(w, e, id);
    } else {
      TokensMove(w, e, w');
    }
  }

  /** A request whose tokens are its prompt and `more` gets what the event appends. */
  lemma TokensStep(w: World, e: Event, w': World, id: nat, more: seq<int>)
    requires Step(w, e) == Ok(w') && id < |w.reqs| && w.reqs[id].tokens == w.reqs[id].prompt + more
    ensures id < |w'.reqs| && w'.reqs[id].tokens == w'.reqs[id].prompt + (more + AppendedBy(w, e, id))
  {
    TokensAfter(w, e, w', id);
    WindowsAfter(w, e, w', id);
    Regrouped(w.reqs[id].prompt, more, AppendedBy(w, e, id));
  }

  lemma Regrouped(a: seq<int>, b: seq<int>, c: seq<int>)
    ensures a + b + c == a + (b + c) && a + [] == a
  {
  }

  /** The tokens the first i events of a run append to a request. */
  ghost function Appended(ws: seq<World>, es: seq<Event>, i: nat, id: nat): seq<int>
    requires |ws| == |es| + 1 && i <= |es|
  {
    if i == 0 then []
    else Appended(ws, es, i - 1, id) + if id < |ws[i - 1].reqs| then AppendedBy(ws[i - 1], es[i - 1], id) else []
  }

  lemma ArrivedTokens(w: World, e: Event, w': World, id: nat)
    requires Step(w, e) == Ok(w') && |w.reqs| <= id < |w'.reqs|
    ensures w'.reqs[id].tokens == w'.reqs[id].prompt
  {
    NothingForgotten(w, e, w');
  }

  lemma {:induction false} CountGrows(capacity: nat, groups: nat, ws: seq<World>, es: seq<Event>, k: nat, i: nat)
    requires Run(capacity, groups, ws, es) && k <= i <= |es|
    ensures |ws[k].reqs| <= |ws[i].reqs|
  {
    if k < i {
      CountGrows(capacity, groups, ws, es, k, i - 1);
      StepCount(capacity, groups, ws, es, i - 1);
    }
  }

  lemma StepCount(capacity: nat, groups: nat, ws: seq<World>, es: seq<Event>, i: nat)
    requires Run(capacity, groups, ws, es) && i < |es|
    ensures |ws[i].reqs| <= |ws[i + 1].reqs|
  {
    NothingForgotten(ws[i], es[i], ws[i + 1]);
  }

  lemma {:induction false} NothingBefore(ws: seq<World>, es: seq<Event>, i: nat, id: nat)
    requires |ws| == |es| + 1 && i <= |es| && forall k :: 0 <= k <= i ==> |ws[k].reqs| <= id
    ensures Appended(ws, es, i, id) == []
  {
    if i > 0 {
      NothingBefore(ws, es, i - 1, id);
    }
  }

  /** In every run a request's tokens are its prompt and, in order, every token a result brought it. */
  lemma {:induction false} RunTokens(capacity: nat, groups: nat, ws: seq<World>, es: seq<Event>, i: nat, id: nat)
    requires Run(capacity, groups, ws, es) && i <= |es| && id < |ws[i].reqs|
    ensures ws[i].reqs[id].tokens == ws[i].reqs[id].prompt + Appended(ws, es, i, id)
  {
    if i > 0 {
      var e := es[i - 1];
      if id < |ws[i - 1].reqs| {
        RunTokens(capacity, groups, ws, es, i - 1, id);
        TokensStep(ws[i - 1], e, ws[i], id, Appended(ws, es, i - 1, id));
      } else {
        forall k | 0 <= k <= i - 1
          ensures |ws[k].reqs| <= id
        {
          CountGrows(capacity, groups, ws, es, k, i - 1);
        }
        NothingBefore(ws, es, i - 1, id);
        ArrivedTokens(ws[i - 1], e, ws[i], id);
        Regrouped(ws[i].reqs[id].prompt, [], []);
      }
    }
  }

  // ---- forwards in flight ----

  function InFlight(r: Request): nat {
    if Holds(r.state) then r.state.res.inFlight else 0
  }

  /** What an event for a page-holding request adds to its forwards in flight. */
  function Launched(e: Event, id: nat): int {
    if e.ScheduleForward? && e.id == id then 1 else if e.ExtendResult? && e.id == id then -1 else 0
  }

  /**
   A request that holds pages before and after an event has that many more in flight; one that
   just got them, none.
   */
  predicate Tracked(r: Request, e: Event, id: nat, r': Request) {
    InFlight(r') == if Holds(r.state) && Holds(r'.state) then InFlight(r) + Launched(e, id) else 0
  }

  lemma TrackedExtend(w: World, e: Event, w': World)
    requires e.ExtendResult? && e.id < |w.reqs| && DoExtendResult(w, e) == Ok(w')
    ensures e.id < |w'.reqs| && Tracked(w.reqs[e.id], e, e.id, w'.reqs[e.id])
  {
  }

  lemma TrackedMove(w: World, e: Event, w': World)
    requires Moving(e) && e.id < |w.reqs| && Move(w, e) == Ok(w')
    ensures e.id < |w'.reqs| && Tracked(w.reqs[e.id], e, e.id, w'.reqs[e.id])
  {
    if e.ExtendResult? {
      TrackedExtend(w, e, w');
    }
  }

  lemma TrackedFirstChunk(w: World, e: Event, w': World)
    requires e.FirstChunk? && e.id < |w.reqs| && DoFirstChunk(w, e) == Ok(w')
    ensures e.id < |w'.reqs| && Tracked(w.reqs[e.id], e, e.id, w'.reqs[e.id])
  {
  }

  lemma TrackedRestore(w: World, e: Event, w': World)
    requires e.Restore? && e.id < |w.reqs| && DoRestore(w, e) == Ok(w')
    ensures e.id < |w'.reqs| && Tracked(w.reqs[e.id], e, e.id, w'.reqs[e.id])
  {
  }

  lemma TrackedTake(w: World, e: Event, w': World)
    requires Taking(e) && e.id < |w.reqs| && Take(w, e) == Ok(w')
    ensures e.id < |w'.reqs| && Tracked(w.reqs[e.id], e, e.id, w'.reqs[e.id])
  {
    if e.FirstChunk? {
      TrackedFirstChunk(w, e, w');
    } else if e.Restore? {
      TrackedRestore(w, e, w');
    } else {
      RetabledIs(w, e, w');
    }
  }

  lemma TrackedAck(w: World, e: Event, w': World)
    requires e.RestoreAck? && Touched(w, e) < |w.reqs| && DoRestoreAck(w, e) == Ok(w')
    ensures Touched(w, e) < |w'.reqs| && Tracked(w.reqs[Touched(w, e)], e, Touched(w, e), w'.reqs[Touched(w, e)])
  {
  }

  lemma TrackedAfter(w: World, e: Event, w': World, id: nat)
    requires Step(w, e) == Ok(w') && id < |w.reqs|
    ensures id < |w'.reqs| && Tracked(w.reqs[id], e, id, w'.reqs[id])
  {
    if id != Touched(w, e) {
      OthersKept(w, e, w', id);
    } else if e.RestoreAck? {
      TrackedAck(w, e, w');
    } else if Taking(e) {
      TrackedTake(w, e, w');
    } else if Freeing(e) {
      FreeingIs(w, e, w');
    } else {
      TrackedMove(w, e, w');
    }
  }

  /** Forwards scheduled, less results landed, since the request last got its pages. */
  ghost function Outstanding(ws: seq<World>, es: seq<Event>, i: nat, id: nat): int
    requires |ws| == |es| + 1 && i <= |es|
  {
    if i == 0 || id >= |ws[i - 1].reqs| || id >= |ws[i].reqs| then 0
    else if !Holds(ws[i - 1].reqs[id].state) || !Holds(ws[i].reqs[id].state) then 0
    else Outstanding(ws, es, i - 1, id) + Launched(es[i - 1], id)
  }

  lemma ArrivedIdle(w: World, e: Event, w': World, id: nat)
    requires Step(w, e) == Ok(w') && |w.reqs| <= id < |w'.reqs|
    ensures !Holds(w'.reqs[id].state)
  {
    NothingForgotten(w, e, w');
  }

  /** In every run the count a request carries is exactly the forwards that are out against its pages. */
  lemma {:induction false} RunInFlight(capacity: nat, groups: nat, ws: seq<World>, es: seq<Event>, i: nat, id: nat)
    requires Run(capacity, groups, ws, es) && i <= |es| && id < |ws[i].reqs|
    ensures InFlight(ws[i].reqs[id]) == Outstanding(ws, es, i, id)
  {
    if i > 0 {
      var e := es[i - 1];
      if id < |ws[i - 1].reqs| {
        RunInFlight(capacity, groups, ws, es, i - 1, id);
        TrackedAfter(ws[i - 1], e, ws[i], id);
      } else {
        ArrivedIdle(ws[i - 1], e, ws[i], id);
      }
    }
  }

  /** A release or a retraction happens only when every forward scheduled for the request has landed. */
  lemma FreedWhenLanded(capacity: nat, groups: nat, ws: seq<World>, es: seq<Event>, i: nat, id: nat)
    requires Run(capacity, groups, ws, es) && i < |es| && id < |ws[i].reqs|
    requires (es[i].Release? || es[i].Retract?) && es[i].id == id
    ensures Holds(ws[i].reqs[id].state) && Outstanding(ws, es, i, id) == 0
    ensures id < |ws[i + 1].reqs| && !Holds(ws[i + 1].reqs[id].state)
  {
    RunInFlight(capacity, groups, ws, es, i, id);
    FreedQuiescent(ws[i], es[i], ws[i + 1]);
    TrackedAfter(ws[i], es[i], ws[i + 1], id);
  }

  // ---- retraction and restore ----

  predicate CanRetract(s: State) {
    s.Prefilling? || s.PrefillDone? || s.Decoding?
  }

  /** A request retracted in state s0 is still suspended. */
  predicate Suspended(s0: State, s: State)
    requires CanRetract(s0)
  {
    || (s.Retracted? && s.shape == ShapeOf(s0) && s.progress == s0.res.progress)
    || (s.Restoring? && s.shape == ShapeOf(s0) && s.res.progress == s0.res.progress)
  }

  /** The state s0 again, apart from pages, row, forwards and the resumed mark. */
  predicate Resumed(s0: State, s: State)
    requires CanRetract(s0)
  {
    match s0
    case Prefilling(res, window, reserve) =>
      s.Prefilling? && s.window == window && s.reserve == reserve && s.res.progress == res.progress
    case PrefillDone(res, window, reserve, _) =>
      s.PrefillDone? && s.window == window && s.reserve == reserve && s.res.progress == res.progress && s.resumed
    case Decoding(res, reserve, _) =>
      s.Decoding? && s.reserve == reserve && s.res.progress == res.progress && s.resumed
  }

  lemma RetractSuspends(w: World, e: Event, w': World)
    requires e.Retract? && e.id < |w.reqs| && Step(w, e) == Ok(w')
    ensures e.id < |w'.reqs| && CanRetract(w.reqs[e.id].state) && Suspended(w.reqs[e.id].state, w'.reqs[e.id].state)
    ensures w'.reqs[e.id].state.Retracted? && w'.reqs[e.id].state.pending == e.pending
    ensures SameRecord(w.reqs[e.id], w'.reqs[e.id])
  {
  }

  /** What becomes of a suspended request: it stays suspended, ends, or is resumed. */
  predicate SuspendedThen(s0: State, r: Request, e: Event, r': Request)
    requires CanRetract(s0)
  {
    && SameRecord(r, r')
    && (|| Suspended(s0, r'.state)
        || r'.state.Finished?
        || (e.RestoreAck? && r.state.Restoring? && r.state.op == e.op && Resumed(s0, r'.state)))
  }

  lemma SuspendedTake(w: World, e: Event, w': World, s0: State)
    requires Taking(e) && e.id < |w.reqs| && Take(w, e) == Ok(w') && CanRetract(s0) && Suspended(s0, w.reqs[e.id].state)
    ensures e.id < |w'.reqs| && SuspendedThen(s0, w.reqs[e.id], e, w'.reqs[e.id])
  {
    if e.Grow? || e.Reclaim? {
      RetabledIs(w, e, w');
    }
  }

  lemma SuspendedMove(w: World, e: Event, w': World, s0: State)
    requires Moving(e) && e.id < |w.reqs| && Move(w, e) == Ok(w') && CanRetract(s0) && Suspended(s0, w.reqs[e.id].state)
    ensures e.id < |w'.reqs| && SuspendedThen(s0, w.reqs[e.id], e, w'.reqs[e.id])
  {
  }

  lemma SuspendedAck(w: World, e: Event, w': World, s0: State)
    requires e.RestoreAck? && Touched(w, e) < |w.reqs| && DoRestoreAck(w, e) == Ok(w')
    requires CanRetract(s0) && Suspended(s0, w.reqs[Touched(w, e)].state)
    ensures Touched(w, e) < |w'.reqs| && SuspendedThen(s0, w.reqs[Touched(w, e)], e, w'.reqs[Touched(w, e)])
  {
  }

  /** A suspended request stays suspended, ends, or is resumed by the acknowledgement of its restore. */
  lemma SuspendedAfter(w: World, e: Event, w': World, id: nat, s0: State)
    requires Step(w, e) == Ok(w') && id < |w.reqs| && CanRetract(s0) && Suspended(s0, w.reqs[id].state)
    ensures id < |w'.reqs| && SuspendedThen(s0, w.reqs[id], e, w'.reqs[id])
  {
    if id != Touched(w, e) {
      OthersKept(w, e, w', id);
    } else if e.RestoreAck? {
      SuspendedAck(w, e, w', s0);
    } else if Taking(e) {
      SuspendedTake(w, e, w', s0);
    } else if Freeing(e) {
      FreeingIs(w, e, w');
    } else {
      SuspendedMove(w, e, w', s0);
    }
  }

  /**
   Round trip: a request retracted by event a, suspended until event b and not
   suspended or finished after it, continues in the state it was retracted in.
   */
  lemma RestoreRoundTrip(capacity: nat, groups: nat, ws: seq<World>, es: seq<Event>, a: nat, b: nat, id: nat)
    requires Run(capacity, groups, ws, es) && a < b < |es|
    requires es[a].Retract? && es[a].id == id && id < |ws[a].reqs|
    requires forall k :: a < k <= b ==>
               id < |ws[k].reqs| && (ws[k].reqs[id].state.Retracted? || ws[k].reqs[id].state.Restoring?)
    requires id < |ws[b + 1].reqs| && !ws[b + 1].reqs[id].state.Finished?
    requires !ws[b + 1].reqs[id].state.Retracted? && !ws[b + 1].reqs[id].state.Restoring?
    ensures CanRetract(ws[a].reqs[id].state) && Resumed(ws[a].reqs[id].state, ws[b + 1].reqs[id].state)
    ensures es[b].RestoreAck? && SameRecord(ws[a].reqs[id], ws[b + 1].reqs[id])
  {
    RetractSuspends(ws[a], es[a], ws[a + 1]);
    StaysSuspended(capacity, groups, ws, es, a + 1, b, id, ws[a].reqs[id].state);
    SuspendedAfter(ws[b], es[b], ws[b + 1], id, ws[a].reqs[id].state);
  }

  lemma {:induction false} StaysSuspended(capacity: nat, groups: nat, ws: seq<World>, es: seq<Event>, from: nat,
                                          to: nat, id: nat, s0: State)
    requires Run(capacity, groups, ws, es) && from <= to < |ws| && CanRetract(s0)
    requires forall k :: from <= k <= to ==>
               id < |ws[k].reqs| && (ws[k].reqs[id].state.Retracted? || ws[k].reqs[id].state.Restoring?)
    requires Suspended(s0, ws[from].reqs[id].state)
    ensures Suspended(s0, ws[to].reqs[id].state) && SameRecord(ws[from].reqs[id], ws[to].reqs[id])
  {
    if from < to {
      StaysSuspended(capacity, groups, ws, es, from, to - 1, id, s0);
      StepSuspended(capacity, groups, ws, es, to - 1, id, s0);
    }
  }

  lemma StepSuspended(capacity: nat, groups: nat, ws: seq<World>, es: seq<Event>, k: nat, id: nat, s0: State)
    requires Run(capacity, groups, ws, es) && k + 1 < |ws| && CanRetract(s0)
    requires id < |ws[k].reqs| && Suspended(s0, ws[k].reqs[id].state)
    requires id < |ws[k + 1].reqs| && (ws[k + 1].reqs[id].state.Retracted? || ws[k + 1].reqs[id].state.Restoring?)
    ensures Suspended(s0, ws[k + 1].reqs[id].state) && SameRecord(ws[k].reqs[id], ws[k + 1].reqs[id])
  {
    SuspendedAfter(ws[k], es[k], ws[k + 1], id, s0);
  }

  // ---- stores land first ----

  lemma {:induction false} EraseKeeps(ops: seq<nat>, op: nat, x: nat)
    ensures x in Erase(ops, op) <==> x in ops && x != op
  {
    if ops != [] {
      EraseKeeps(ops[..|ops| - 1], op, x);
      assert ops == ops[..|ops| - 1] + [ops[|ops| - 1]];
    }
  }

  /** An operation stays pending until it is the one that landed. */
  lemma PendingAfter(w: World, e: Event, w': World, id: nat, op: nat)
    requires Step(w, e) == Ok(w') && id < |w.reqs| && w.reqs[id].state.Retracted? && op in w.reqs[id].state.pending
    ensures id < |w'.reqs|
    ensures w'.reqs[id].state.Finished? || e == StoreLanded(id, op)
            || (w'.reqs[id].state.Retracted? && op in w'.reqs[id].state.pending)
  {
    if id != Touched(w, e) {
      OthersKept(w, e, w', id);
    } else if Freeing(e) {
      FreeingIs(w, e, w');
    } else if e.StoreLanded? {
      EraseKeeps(w.reqs[id].state.pending, e.op, op);
    }
  }

  /** A request retracted by event a and restored by event b: every store it waited for landed in between. */
  lemma {:induction false} StoresLandFirst(capacity: nat, groups: nat, ws: seq<World>, es: seq<Event>, a: nat, b: nat,
                                           id: nat, op: nat)
    requires Run(capacity, groups, ws, es) && a < b < |es|
    requires es[a].Retract? && es[a].id == id && id < |ws[a].reqs| && op in es[a].pending
    requires forall k :: a < k <= b ==> id < |ws[k].reqs| && ws[k].reqs[id].state.Retracted?
    requires id < |ws[b + 1].reqs| && ws[b + 1].reqs[id].state.Restoring?
    ensures Landed(es, a + 1, b, id, op)
  {
    if !Landed(es, a + 1, b, id, op) {
      RetractSuspends(ws[a], es[a], ws[a + 1]);
      StaysPending(capacity, groups, ws, es, a + 1, b, id, op);
      StepPending(capacity, groups, ws, es, b, id, op);
      LandingIsNoRestore(ws[b], es[b], ws[b + 1], id);
    }
  }

  ghost predicate Landed(es: seq<Event>, from: nat, to: nat, id: nat, op: nat)
    requires to <= |es|
  {
    exists k :: from <= k < to && es[k] == StoreLanded(id, op)
  }

  lemma LandingIsNoRestore(w: World, e: Event, w': World, id: nat)
    requires Step(w, e) == Ok(w') && id < |w.reqs|
    ensures e.StoreLanded? && e.id == id ==> id < |w'.reqs| && w'.reqs[id].state.Retracted?
  {
  }

  lemma StepPending(capacity: nat, groups: nat, ws: seq<World>, es: seq<Event>, k: nat, id: nat, op: nat)
    requires Run(capacity, groups, ws, es) && k < |es|
    requires id < |ws[k].reqs| && ws[k].reqs[id].state.Retracted? && op in ws[k].reqs[id].state.pending
    ensures id < |ws[k + 1].reqs|
    ensures ws[k + 1].reqs[id].state.Finished? || es[k] == StoreLanded(id, op)
            || (ws[k + 1].reqs[id].state.Retracted? && op in ws[k + 1].reqs[id].state.pending)
  {
    PendingAfter(ws[k], es[k], ws[k + 1], id, op);
  }

  lemma {:induction false} StaysPending(capacity: nat, groups: nat, ws: seq<World>, es: seq<Event>, from: nat, to: nat,
                                        id: nat, op: nat)
    requires Run(capacity, groups, ws, es) && from <= to < |ws|
    requires forall k :: from <= k <= to ==> id < |ws[k].reqs| && ws[k].reqs[id].state.Retracted?
    requires op in ws[from].reqs[id].state.pending && !Landed(es, from, to, id, op)
    ensures op in ws[to].reqs[id].state.pending
  {
    if from < to {
      StaysPending(capacity, groups, ws, es, from, to - 1, id, op);
      StepPending(capacity, groups, ws, es, to - 1, id, op);
    }
  }
}

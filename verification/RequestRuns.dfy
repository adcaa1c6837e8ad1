/**
 What holds over every run of the request state machine, for any interleaving of
 events on any number of requests.
 */
module RequestRuns {
  import opened Wrappers
  import opened RequestFsm

  function AllRows(capacity: nat): seq<nat> {
    if capacity == 0 then [] else AllRows(capacity - 1) + [capacity]
  }

  function Initial(capacity: nat, groups: nat): World {
    World([], AllRows(capacity), [], multiset{}, groups)
  }

  ghost predicate Run(capacity: nat, groups: nat, ws: seq<World>, es: seq<Event>) {
    && |ws| == |es| + 1 && ws[0] == Initial(capacity, groups)
    && forall i {:trigger es[i]} :: 0 <= i < |es| ==> Step(ws[i], es[i]) == Ok(ws[i + 1])
  }

  // ---- what is held, counted page by page and row by row ----

  function TablePages(tables: seq<seq<Slot>>, p: Page): nat {
    if tables == [] then 0 else TablePages(tables[..|tables| - 1], p) + multiset(tables[|tables| - 1])[Some(p)]
  }

  lemma LastSlot(table: seq<Slot>, p: Page)
    requires table != []
    ensures multiset(table)[Some(p)]
            == multiset(table[..|table| - 1])[Some(p)] + if table[|table| - 1] == Some(p) then 1 else 0
  {
    assert table == table[..|table| - 1] + [table[|table| - 1]];
  }

  lemma SlotRefsAt(slot: Slot, p: Page)
    ensures SlotRefs(slot)[p] == if slot == Some(p) then 1 else 0
  {
  }

  lemma {:induction false} TableRefsAt(table: seq<Slot>, p: Page)
    ensures TableRefs(table)[p] == multiset(table)[Some(p)]
  {
    if table != [] {
      TableRefsAt(table[..|table| - 1], p);
      LastSlot(table, p);
      SlotRefsAt(table[|table| - 1], p);
    }
  }

  lemma {:induction false} RefsAt(tables: seq<seq<Slot>>, p: Page)
    ensures Refs(tables)[p] == TablePages(tables, p)
  {
    if tables != [] {
      RefsAt(tables[..|tables| - 1], p);
      TableRefsAt(tables[|tables| - 1], p);
    }
  }

  function PagesAt(s: State, p: Page): nat {
    if Holds(s) then TablePages(s.res.tables, p) else 0
  }

  function RowAt(s: State, x: nat): nat {
    if Holds(s) && s.res.row == Some(x) then 1 else 0
  }

  function TicketAt(t: Option<Ticket>, x: nat): nat {
    if t.Some? && t.value.row == x then 1 else 0
  }

  /** How many references the requests hold to a page. */
  function PagesHeld(reqs: seq<Request>, p: Page): nat {
    if reqs == [] then 0 else PagesHeld(reqs[..|reqs| - 1], p) + PagesAt(reqs[|reqs| - 1].state, p)
  }

  /** How many requests, and how many operations, own a row. */
  function RowsHeld(reqs: seq<Request>, x: nat): nat {
    if reqs == [] then 0 else RowsHeld(reqs[..|reqs| - 1], x) + RowAt(reqs[|reqs| - 1].state, x)
  }

  function TicketsHeld(ops: seq<Option<Ticket>>, x: nat): nat {
    if ops == [] then 0 else TicketsHeld(ops[..|ops| - 1], x) + TicketAt(ops[|ops| - 1], x)
  }

  lemma {:induction false} PagesReplaced(reqs: seq<Request>, i: nat, r: Request, p: Page)
    requires i < |reqs|
    ensures PagesHeld(reqs[i := r], p) == PagesHeld(reqs, p) - PagesAt(reqs[i].state, p) + PagesAt(r.state, p)
    ensures PagesAt(reqs[i].state, p) <= PagesHeld(reqs, p)
  {
    var n := |reqs| - 1;
    if i == n {
      assert reqs[i := r][..n] == reqs[..n];
    } else {
      PagesReplaced(reqs[..n], i, r, p);
      assert reqs[i := r][..n] == reqs[..n][i := r];
    }
  }

  lemma {:induction false} RowsReplaced(reqs: seq<Request>, i: nat, r: Request, x: nat)
    requires i < |reqs|
    ensures RowsHeld(reqs[i := r], x) == RowsHeld(reqs, x) - RowAt(reqs[i].state, x) + RowAt(r.state, x)
    ensures RowAt(reqs[i].state, x) <= RowsHeld(reqs, x)
  {
    var n := |reqs| - 1;
    if i == n {
      assert reqs[i := r][..n] == reqs[..n];
    } else {
      RowsReplaced(reqs[..n], i, r, x);
      assert reqs[i := r][..n] == reqs[..n][i := r];
    }
  }

  lemma {:induction false} TicketCleared(ops: seq<Option<Ticket>>, i: nat, x: nat)
    requires i < |ops|
    ensures TicketsHeld(ops[i := None], x) == TicketsHeld(ops, x) - TicketAt(ops[i], x)
  {
    var n := |ops| - 1;
    if i == n {
      assert ops[i := None][..n] == ops[..n];
    } else {
      TicketCleared(ops[..n], i, x);
      assert ops[i := None][..n] == ops[..n][i := None];
    }
  }

  lemma {:induction false} TableGrows(tables: seq<seq<Slot>>, g: nat, page: Page, p: Page)
    requires g < |tables|
    ensures TablePages(tables[g := tables[g] + [Some(page)]], p) == TablePages(tables, p) + if p == page then 1 else 0
  {
    var n := |tables| - 1;
    var tables' := tables[g := tables[g] + [Some(page)]];
    if g == n {
      assert tables'[..n] == tables[..n];
    } else {
      TableGrows(tables[..n], g, page, p);
      assert tables'[..n] == tables[..n][g := tables[..n][g] + [Some(page)]];
    }
  }

  lemma {:induction false} TableHoled(tables: seq<seq<Slot>>, g: nat, slot: nat, p: Page)
    requires g < |tables| && slot < |tables[g]|
    ensures TablePages(tables, p)
            == TablePages(tables[g := tables[g][slot := None]], p) + if tables[g][slot] == Some(p) then 1 else 0
  {
    var n := |tables| - 1;
    var tables' := tables[g := tables[g][slot := None]];
    if g == n {
      assert tables'[..n] == tables[..n];
    } else {
      TableHoled(tables[..n], g, slot, p);
      assert tables'[..n] == tables[..n][g := tables[..n][g][slot := None]];
    }
  }

  // ---- conservation ----

  /** A page's reference count is exactly the number of references held to it. */
  ghost predicate PageCounted(w: World, p: Page) {
    w.refs[p] == PagesHeld(w.reqs, p)
  }

  /** A row's places: free, with a request, or with a restore operation. */
  function Places(w: World, x: nat): nat {
    multiset(w.free)[x] + RowsHeld(w.reqs, x) + TicketsHeld(w.ops, x)
  }

  /** Tables are freed once for each time they were granted; only a restore's row is elsewhere. */
  predicate Accounted(r: Request) {
    && r.granted == r.freed + (if Holds(r.state) then 1 else 0)
    && (Holds(r.state) ==> (r.state.res.row.Some? <==> !r.state.Restoring?))
  }

  /** A request replaced by one holding the same, nothing else changed. */
  lemma KeptPut(w: World, id: nat, r: Request, p: Page, x: nat)
    requires id < |w.reqs|
    requires PagesAt(r.state, p) == PagesAt(w.reqs[id].state, p) && RowAt(r.state, x) == RowAt(w.reqs[id].state, x)
    ensures PageCounted(w, p) ==> PageCounted(Put(w, id, r), p)
    ensures Places(Put(w, id, r), x) == Places(w, x)
  {
    PagesReplaced(w.reqs, id, r, p);
    RowsReplaced(w.reqs, id, r, x);
  }

  /** A request replaced by one holding nothing, after its resources were freed. */
  lemma KeptFree(w: World, id: nat, r: Request, p: Page, x: nat)
    requires id < |w.reqs| && Holds(w.reqs[id].state) && !Holds(r.state)
    ensures PageCounted(w, p) ==> PageCounted(Put(FreeRequest(w, w.reqs[id].state.res), id, r), p)
    ensures Places(Put(FreeRequest(w, w.reqs[id].state.res), id, r), x) == Places(w, x)
  {
    PagesReplaced(w.reqs, id, r, p);
    RowsReplaced(w.reqs, id, r, x);
    RefsAt(w.reqs[id].state.res.tables, p);
  }

  lemma FirstRow(free: seq<nat>, x: nat)
    requires free != []
    ensures multiset(free)[x] == multiset(free[1..])[x] + if x == free[0] then 1 else 0
  {
    assert free == [free[0]] + free[1..];
  }

  lemma KeptFirstChunk(w: World, e: Event, w': World, p: Page, x: nat)
    requires e.FirstChunk? && e.id < |w.reqs| && DoFirstChunk(w, e) == Ok(w')
    ensures PageCounted(w, p) ==> PageCounted(w', p)
    ensures Places(w', x) == Places(w, x)
  {
    PagesReplaced(w.reqs, e.id, w'.reqs[e.id], p);
    RowsReplaced(w.reqs, e.id, w'.reqs[e.id], x);
    FirstRow(w.free, x);
    RefsAt(e.tables, p);
  }

  lemma KeptRestore(w: World, e: Event, w': World, p: Page, x: nat)
    requires e.Restore? && e.id < |w.reqs| && DoRestore(w, e) == Ok(w')
    ensures PageCounted(w, p) ==> PageCounted(w', p)
    ensures Places(w', x) == Places(w, x)
  {
    PagesReplaced(w.reqs, e.id, w'.reqs[e.id], p);
    RowsReplaced(w.reqs, e.id, w'.reqs[e.id], x);
    FirstRow(w.free, x);
    RefsAt(e.tables, p);
    assert w'.ops[..|w.ops|] == w.ops;
  }

  /** An acknowledged operation's row goes to the request it restores. */
  lemma KeptHandover(w: World, op: nat, id: nat, r: Request, p: Page, x: nat)
    requires op < |w.ops| && w.ops[op].Some? && id < |w.reqs|
    requires PagesAt(r.state, p) == PagesAt(w.reqs[id].state, p)
    requires RowAt(r.state, x) == RowAt(w.reqs[id].state, x) + TicketAt(w.ops[op], x)
    ensures var w' := Put(w.(ops := w.ops[op := None]), id, r);
            (PageCounted(w, p) ==> PageCounted(w', p)) && Places(w', x) == Places(w, x)
  {
    TicketCleared(w.ops, op, x);
    PagesReplaced(w.reqs, id, r, p);
    RowsReplaced(w.reqs, id, r, x);
  }

  lemma KeptReturn(w: World, op: nat, p: Page, x: nat)
    requires op < |w.ops| && w.ops[op].Some?
    ensures var w' := FreeRow(w.(ops := w.ops[op := None]), Some(w.ops[op].value.row));
            (PageCounted(w, p) ==> PageCounted(w', p)) && Places(w', x) == Places(w, x)
  {
    TicketCleared(w.ops, op, x);
  }

  lemma KeptRestoreAck(w: World, e: Event, w': World, p: Page, x: nat)
    requires e.RestoreAck? && DoRestoreAck(w, e) == Ok(w')
    ensures PageCounted(w, p) ==> PageCounted(w', p)
    ensures Places(w', x) == Places(w, x)
  {
    if e.op < |w.ops| && w.ops[e.op].Some? {
      var t := w.ops[e.op].value;
      if t.id < |w.reqs| && w.reqs[t.id].state.Restoring? && w.reqs[t.id].state.op == e.op {
        KeptHandover(w, e.op, t.id, w'.reqs[t.id], p, x);
      } else {
        KeptReturn(w, e.op, p, x);
      }
    }
  }

  lemma KeptGrow(w: World, e: Event, w': World, p: Page, x: nat)
    requires e.Grow? && e.id < |w.reqs| && DoGrow(w, e) == Ok(w')
    ensures PageCounted(w, p) ==> PageCounted(w', p)
    ensures Places(w', x) == Places(w, x)
  {
    PagesReplaced(w.reqs, e.id, w'.reqs[e.id], p);
    RowsReplaced(w.reqs, e.id, w'.reqs[e.id], x);
    TableGrows(w.reqs[e.id].state.res.tables, e.group, e.page, p);
  }

  /** A request replaced by one that lacks one slot it held. */
  lemma KeptDrop(w: World, id: nat, r: Request, slot: Slot, p: Page, x: nat)
    requires id < |w.reqs| && RowAt(r.state, x) == RowAt(w.reqs[id].state, x)
    requires PagesAt(w.reqs[id].state, p) == PagesAt(r.state, p) + if slot == Some(p) then 1 else 0
    ensures var w' := Put(w.(refs := w.refs - SlotRefs(slot)), id, r);
            (PageCounted(w, p) ==> PageCounted(w', p)) && Places(w', x) == Places(w, x)
  {
    PagesReplaced(w.reqs, id, r, p);
    RowsReplaced(w.reqs, id, r, x);
  }

  /** A slot became a hole, and every other slot is as it was and where it was. */
  predicate HoleAt(was: seq<seq<Slot>>, now: seq<seq<Slot>>, group: nat, slot: nat) {
    && |now| == |was| && group < |was| && slot < |was[group]|
    && forall g :: 0 <= g < |was| ==>
         |now[g]| == |was[g]|
         && forall k :: 0 <= k < |was[g]| ==> now[g][k] == if g == group && k == slot then None else was[g][k]
  }

  lemma ReclaimHoles(w: World, e: Event, w': World)
    requires e.Reclaim? && e.id < |w.reqs| && DoReclaim(w, e) == Ok(w')
    ensures |w'.reqs| == |w.reqs| && Holds(w.reqs[e.id].state) && Holds(w'.reqs[e.id].state)
    ensures HoleAt(w.reqs[e.id].state.res.tables, w'.reqs[e.id].state.res.tables, e.group, e.slot)
  {
  }

  lemma KeptReclaim(w: World, e: Event, w': World, p: Page, x: nat)
    requires e.Reclaim? && e.id < |w.reqs| && DoReclaim(w, e) == Ok(w')
    ensures |w'.reqs| == |w.reqs| && Holds(w.reqs[e.id].state) && Holds(w'.reqs[e.id].state)
    ensures HoleAt(w.reqs[e.id].state.res.tables, w'.reqs[e.id].state.res.tables, e.group, e.slot)
    ensures PageCounted(w, p) ==> PageCounted(w', p)
    ensures Places(w', x) == Places(w, x)
  {
    var tables := w.reqs[e.id].state.res.tables;
    ReclaimHoles(w, e, w');
    TableHoled(tables, e.group, e.slot, p);
    KeptDrop(w, e.id, w'.reqs[e.id], tables[e.group][e.slot], p, x);
  }

  lemma KeptArrive(w: World, e: Event, w': World, p: Page, x: nat)
    requires e.Arrive? && DoArrive(w, e) == Ok(w')
    ensures PageCounted(w, p) ==> PageCounted(w', p)
    ensures Places(w', x) == Places(w, x)
  {
    assert w'.reqs[..|w.reqs|] == w.reqs;
  }

  /** Request id alone changed: its resources were freed, or stayed as they were. */
  ghost predicate FreedOrKept(w: World, id: nat, w': World)
    requires id < |w.reqs|
  {
    && |w'.reqs| == |w.reqs|
    && var s, r := w.reqs[id].state, w'.reqs[id];
       if Holds(s) && !Holds(r.state) then w' == Put(FreeRequest(w, s.res), id, r)
       else w' == Put(w, id, r) && Holds(s) == Holds(r.state) && (Holds(s) ==> r.state.res == s.res)
  }

  predicate SameRecord(r: Request, r': Request) {
    r'.prompt == r.prompt && r'.tokens == r.tokens && r'.remote == r.remote && r'.windows == r.windows
  }

  /** What a freeing event makes of a request: it ends, waits to end, or is suspended where it was. */
  predicate EndedBy(r: Request, r': Request) {
    && SameRecord(r, r')
    && (|| r'.state == r.state
        || r'.state.Finished?
        || (r'.state.Finishing? && (r.state.PrefillDone? || r.state.PrefillAwaitingResult? || r.state.Decoding?))
        || (r'.state.Retracted? && (r.state.Prefilling? || r.state.PrefillDone? || r.state.Decoding?)
            && r'.state.shape == ShapeOf(r.state) && r'.state.progress == r.state.res.progress))
  }

  lemma PutSame(w: World, id: nat)
    requires id < |w.reqs|
    ensures Put(w, id, w.reqs[id]) == w
  {
  }

  lemma FinishIs(w: World, e: Event, w': World)
    requires e.Finish? && e.id < |w.reqs| && DoFinish(w, e) == Ok(w')
    ensures FreedOrKept(w, e.id, w') && EndedBy(w.reqs[e.id], w'.reqs[e.id])
    ensures Accounted(w.reqs[e.id]) ==> Accounted(w'.reqs[e.id])
  {
    if w' == w {
      PutSame(w, e.id);
    } else if w.reqs[e.id].state.Restoring? {
      FinishRestoringIs(w, e, w');
    }
  }

  lemma FinishRestoringIs(w: World, e: Event, w': World)
    requires e.Finish? && e.id < |w.reqs| && DoFinish(w, e) == Ok(w') && w.reqs[e.id].state.Restoring?
    ensures FreedOrKept(w, e.id, w') && EndedBy(w.reqs[e.id], w'.reqs[e.id])
    ensures Accounted(w.reqs[e.id]) ==> Accounted(w'.reqs[e.id])
  {
  }

  lemma ReleaseIs(w: World, e: Event, w': World)
    requires e.Release? && e.id < |w.reqs| && DoRelease(w, e) == Ok(w')
    ensures FreedOrKept(w, e.id, w') && EndedBy(w.reqs[e.id], w'.reqs[e.id])
    ensures Accounted(w.reqs[e.id]) ==> Accounted(w'.reqs[e.id])
  {
  }

  lemma AbortIs(w: World, e: Event, w': World)
    requires e.Abort? && e.id < |w.reqs| && DoAbort(w, e) == Ok(w')
    ensures FreedOrKept(w, e.id, w') && EndedBy(w.reqs[e.id], w'.reqs[e.id])
    ensures Accounted(w.reqs[e.id]) ==> Accounted(w'.reqs[e.id])
  {
  }

  lemma SucceededIs(w: World, e: Event, w': World)
    requires e.Succeeded? && e.id < |w.reqs| && DoSucceeded(w, e) == Ok(w')
    ensures FreedOrKept(w, e.id, w') && EndedBy(w.reqs[e.id], w'.reqs[e.id])
    ensures Accounted(w.reqs[e.id]) ==> Accounted(w'.reqs[e.id])
  {
  }

  lemma RetractIs(w: World, e: Event, w': World)
    requires e.Retract? && e.id < |w.reqs| && DoRetract(w, e) == Ok(w')
    ensures FreedOrKept(w, e.id, w') && EndedBy(w.reqs[e.id], w'.reqs[e.id])
    ensures Accounted(w.reqs[e.id]) ==> Accounted(w'.reqs[e.id])
  {
  }

  lemma FreeingIs(w: World, e: Event, w': World)
    requires Freeing(e) && e.id < |w.reqs| && Free(w, e) == Ok(w')
    ensures FreedOrKept(w, e.id, w') && EndedBy(w.reqs[e.id], w'.reqs[e.id])
    ensures Accounted(w.reqs[e.id]) ==> Accounted(w'.reqs[e.id])
  {
    if e.Finish? {
      FinishIs(w, e, w');
    } else if e.Release? {
      ReleaseIs(w, e, w');
    } else if e.Abort? {
      AbortIs(w, e, w');
    } else if e.Succeeded? {
      SucceededIs(w, e, w');
    } else {
      RetractIs(w, e, w');
    }
  }

  lemma KeptFreeing(w: World, e: Event, w': World, p: Page, x: nat)
    requires Freeing(e) && e.id < |w.reqs| && Free(w, e) == Ok(w')
    ensures PageCounted(w, p) ==> PageCounted(w', p)
    ensures Places(w', x) == Places(w, x)
  {
    FreeingIs(w, e, w');
    var r := w'.reqs[e.id];
    if Holds(w.reqs[e.id].state) && !Holds(r.state) {
      KeptFree(w, e.id, r, p, x);
    } else {
      KeptPut(w, e.id, r, p, x);
    }
  }

  /** Request id alone changed, and holds the row and the tables it held. */
  ghost predicate MovedOn(w: World, id: nat, w': World)
    requires id < |w.reqs|
  {
    && |w'.reqs| == |w.reqs| && w' == Put(w, id, w'.reqs[id])
    && var s, s' := w.reqs[id].state, w'.reqs[id].state;
       Holds(s) == Holds(s') && (Holds(s) ==> s'.res.row == s.res.row && s'.res.tables == s.res.tables)
  }

  /** What a forward's result makes of a request: more tokens, and no wait for them. */
  predicate ExtendedBy(r: Request, r': Request) {
    && r'.prompt == r.prompt && r.tokens <= r'.tokens && r'.remote == r.remote && r'.windows == r.windows
    && (|| r'.state == r.state
        || (Holds(r.state) && Holds(r'.state) && r'.state == WithResources(r.state, r'.state.res))
        || (r.state.PrefillAwaitingResult? && r'.state.PrefillDone? && r'.state.window == r.state.window))
  }

  lemma ExtendResultIs(w: World, e: Event, w': World)
    requires e.ExtendResult? && e.id < |w.reqs| && DoExtendResult(w, e) == Ok(w')
    ensures MovedOn(w, e.id, w') && (Accounted(w.reqs[e.id]) ==> Accounted(w'.reqs[e.id]))
  {
    PutSame(w, e.id);
  }

  lemma ExtendResultExtends(w: World, e: Event, w': World)
    requires e.ExtendResult? && e.id < |w.reqs| && DoExtendResult(w, e) == Ok(w')
    ensures e.id < |w'.reqs| && ExtendedBy(w.reqs[e.id], w'.reqs[e.id])
  {
  }

  lemma AdmissionIs(w: World, e: Event, w': World)
    requires (e.StartPrefetch? || e.FinishPrefetch? || e.Bootstrapped?) && e.id < |w.reqs|
             && DoAdmission(w, e) == Ok(w')
    ensures MovedOn(w, e.id, w') && (Accounted(w.reqs[e.id]) ==> Accounted(w'.reqs[e.id]))
  {
  }

  lemma MovingIs(w: World, e: Event, w': World)
    requires Moving(e) && e.id < |w.reqs| && Move(w, e) == Ok(w')
    ensures MovedOn(w, e.id, w') && (Accounted(w.reqs[e.id]) ==> Accounted(w'.reqs[e.id]))
  {
    PutSame(w, e.id);
    if e.ExtendResult? {
      ExtendResultIs(w, e, w');
    } else if e.StartPrefetch? || e.FinishPrefetch? || e.Bootstrapped? {
      AdmissionIs(w, e, w');
    }
  }

  lemma KeptMoving(w: World, e: Event, w': World, p: Page, x: nat)
    requires Moving(e) && e.id < |w.reqs| && Move(w, e) == Ok(w')
    ensures PageCounted(w, p) ==> PageCounted(w', p)
    ensures Places(w', x) == Places(w, x)
  {
    MovingIs(w, e, w');
    KeptPut(w, e.id, w'.reqs[e.id], p, x);
  }

  /** Every event keeps every page's count and every row's place. */
  lemma StepConserves(w: World, e: Event, w': World, p: Page, x: nat)
    requires Step(w, e) == Ok(w')
    ensures PageCounted(w, p) ==> PageCounted(w', p)
    ensures Places(w', x) == Places(w, x)
  {
    if e.Arrive? {
      KeptArrive(w, e, w', p, x);
    } else if e.RestoreAck? {
      KeptRestoreAck(w, e, w', p, x);
    } else if e.id < |w.reqs| {
      if e.FirstChunk? {
        KeptFirstChunk(w, e, w', p, x);
      } else if e.Restore? {
        KeptRestore(w, e, w', p, x);
      } else if e.Grow? {
        KeptGrow(w, e, w', p, x);
      } else if e.Reclaim? {
        KeptReclaim(w, e, w', p, x);
      } else if Freeing(e) {
        KeptFreeing(w, e, w', p, x);
      } else {
        KeptMoving(w, e, w', p, x);
      }
    }
  }

  lemma {:induction false} AllRowsOnce(capacity: nat, x: nat)
    ensures multiset(AllRows(capacity))[x] == if 1 <= x <= capacity then 1 else 0
  {
    if capacity > 0 {
      AllRowsOnce(capacity - 1, x);
    }
  }

  /** In every configuration of a run, references are conserved and each row has exactly one place. */
  lemma {:induction false} RunConserves(capacity: nat, groups: nat, ws: seq<World>, es: seq<Event>, i: nat, p: Page,
                                        x: nat)
    requires Run(capacity, groups, ws, es) && i < |ws|
    ensures ws[i].refs[p] == PagesHeld(ws[i].reqs, p)
    ensures Places(ws[i], x) == if 1 <= x <= capacity then 1 else 0
  {
    if i == 0 {
      AllRowsOnce(capacity, x);
    } else {
      RunConserves(capacity, groups, ws, es, i - 1, p, x);
      var _ := es[i - 1];
      StepConserves(ws[i - 1], es[i - 1], ws[i], p, x);
    }
  }

  /** A row has at most one owner among the requests and the operations, and none while it is free. */
  lemma RowHasOneOwner(capacity: nat, groups: nat, ws: seq<World>, es: seq<Event>, i: nat, x: nat, a: nat, b: nat)
    requires Run(capacity, groups, ws, es) && i < |ws|
    requires a < |ws[i].reqs| && RowAt(ws[i].reqs[a].state, x) == 1
    ensures x !in ws[i].free && TicketsHeld(ws[i].ops, x) == 0
    ensures b < |ws[i].reqs| && b != a ==> RowAt(ws[i].reqs[b].state, x) == 0
  {
    RunConserves(capacity, groups, ws, es, i, 0, x);
    var reqs := ws[i].reqs;
    var idle := Request([], [], Finished, false, [], 0, 0);
    RowsReplaced(reqs, a, idle, x);
    if b < |reqs| && b != a {
      RowsReplaced(reqs[a := idle], b, idle, x);
    }
  }

  // ---- each request's accounts ----

  /** The request an event works on. */
  function Touched(w: World, e: Event): nat {
    if e.Arrive? then |w.reqs|
    else if e.RestoreAck? then if e.op < |w.ops| && w.ops[e.op].Some? then w.ops[e.op].value.id else |w.reqs|
    else e.id
  }

  lemma TakeKeepsOthers(w: World, e: Event, w': World, id: nat)
    requires Taking(e) && e.id < |w.reqs| && Take(w, e) == Ok(w') && id < |w.reqs| && id != e.id
    ensures |w'.reqs| == |w.reqs| && w'.reqs[id] == w.reqs[id]
  {
  }

  lemma OthersKept(w: World, e: Event, w': World, id: nat)
    requires Step(w, e) == Ok(w') && id < |w.reqs| && id != Touched(w, e)
    ensures id < |w'.reqs| && w'.reqs[id] == w.reqs[id]
  {
    if !e.Arrive? && !e.RestoreAck? && e.id < |w.reqs| {
      if Taking(e) {
        TakeKeepsOthers(w, e, w', id);
      } else if Freeing(e) {
        FreeingIs(w, e, w');
      } else {
        MovingIs(w, e, w');
      }
    }
  }

  lemma TakeKeepsCount(w: World, e: Event, w': World)
    requires Taking(e) && e.id < |w.reqs| && Take(w, e) == Ok(w')
    ensures |w'.reqs| == |w.reqs|
  {
  }

  lemma NothingForgotten(w: World, e: Event, w': World)
    requires Step(w, e) == Ok(w')
    ensures |w.reqs| <= |w'.reqs|
    ensures |w'.reqs| == |w.reqs| + if e.Arrive? then 1 else 0
  {
    if !e.Arrive? && !e.RestoreAck? && e.id < |w.reqs| {
      if Taking(e) {
        TakeKeepsCount(w, e, w');
      } else if Freeing(e) {
        FreeingIs(w, e, w');
      } else {
        MovingIs(w, e, w');
      }
    }
  }

  /** What a table growing or losing a page makes of a request: only its tables differ. */
  predicate Retabled(r: Request, r': Request) {
    && Holds(r.state) && Holds(r'.state)
    && r' == r.(state := WithResources(r.state, r.state.res.(tables := r'.state.res.tables)))
  }

  lemma GrowIs(w: World, e: Event, w': World)
    requires e.Grow? && e.id < |w.reqs| && DoGrow(w, e) == Ok(w')
    ensures e.id < |w'.reqs| && Retabled(w.reqs[e.id], w'.reqs[e.id])
  {
  }

  lemma ReclaimIs(w: World, e: Event, w': World)
    requires e.Reclaim? && e.id < |w.reqs| && DoReclaim(w, e) == Ok(w')
    ensures e.id < |w'.reqs| && Retabled(w.reqs[e.id], w'.reqs[e.id])
  {
  }

  lemma RetabledIs(w: World, e: Event, w': World)
    requires (e.Grow? || e.Reclaim?) && e.id < |w.reqs| && Take(w, e) == Ok(w')
    ensures e.id < |w'.reqs| && Retabled(w.reqs[e.id], w'.reqs[e.id])
  {
    if e.Grow? {
      GrowIs(w, e, w');
    } else {
      ReclaimIs(w, e, w');
    }
  }

  lemma AccountedFirstChunk(w: World, e: Event, w': World)
    requires e.FirstChunk? && e.id < |w.reqs| && DoFirstChunk(w, e) == Ok(w') && Accounted(w.reqs[e.id])
    ensures e.id < |w'.reqs| && Accounted(w'.reqs[e.id])
  {
  }

  lemma AccountedTake(w: World, e: Event, w': World)
    requires Taking(e) && e.id < |w.reqs| && Take(w, e) == Ok(w') && Accounted(w.reqs[e.id])
    ensures e.id < |w'.reqs| && Accounted(w'.reqs[e.id])
  {
    if e.FirstChunk? {
      AccountedFirstChunk(w, e, w');
    } else if !e.Restore? {
      RetabledIs(w, e, w');
    }
  }

  lemma AccountedAck(w: World, e: Event, w': World)
    requires e.RestoreAck? && Touched(w, e) < |w.reqs| && DoRestoreAck(w, e) == Ok(w')
             && Accounted(w.reqs[Touched(w, e)])
    ensures Touched(w, e) < |w'.reqs| && Accounted(w'.reqs[Touched(w, e)])
  {
  }

  lemma AccountedAfter(w: World, e: Event, w': World, id: nat)
    requires Step(w, e) == Ok(w') && id < |w.reqs| && id == Touched(w, e) && Accounted(w.reqs[id])
    ensures id < |w'.reqs| && Accounted(w'.reqs[id])
  {
    if e.RestoreAck? {
      AccountedAck(w, e, w');
    } else if Taking(e) {
      AccountedTake(w, e, w');
    } else if Freeing(e) {
      FreeingIs(w, e, w');
    } else {
      MovingIs(w, e, w');
    }
  }

  lemma {:induction false} RunAccounts(capacity: nat, groups: nat, ws: seq<World>, es: seq<Event>, i: nat, id: nat)
    requires Run(capacity, groups, ws, es) && i < |ws| && id < |ws[i].reqs|
    ensures Accounted(ws[i].reqs[id])
  {
    if i > 0 {
      var w, e, w' := ws[i - 1], es[i - 1], ws[i];
      NothingForgotten(w, e, w');
      if id < |w.reqs| {
        RunAccounts(capacity, groups, ws, es, i - 1, id);
        if id == Touched(w, e) {
          AccountedAfter(w, e, w', id);
        } else {
          OthersKept(w, e, w', id);
        }
      }
    }
  }

  /**
   Pages are given back only with no forward in flight, unless the request is aborted or its
   restore or decode ends.
   */
  lemma FreedQuiescent(w: World, e: Event, w': World)
    requires Step(w, e) == Ok(w') && (e.Release? || e.Retract?) && e.id < |w.reqs|
    ensures Holds(w.reqs[e.id].state) && w.reqs[e.id].state.res.inFlight == 0
    ensures !Holds(w'.reqs[e.id].state)
  {
  }
}

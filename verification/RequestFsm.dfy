/**
 The request state machine of the scheduler: what each event does to a request, to
 the page references, to the request rows and to the restore operations in
 flight. An event that a state does not accept, and a failed assertion of the
 scheduler, is an error.
 */
module RequestFsm {
  import opened Wrappers

  type Page = nat

  /** A table slot: a reference to a page, or a hole that refers to none. */
  type Slot = Option<Page>

  /** A prefill chunk: the tokens it computes, and how many before them it feeds again. */
  datatype Window = Window(begin: int, size: int, replay: int) {
    function End(): int { begin + size }
  }

  datatype Progress = Progress(hashes: seq<string>, epoch: nat, junction: int, checkpoint: int)

  /** What a page-holding state owns: a row, one table of pages per cache group, and forwards out. */
  datatype Resources = Resources(row: Option<nat>, tables: seq<seq<Slot>>, progress: Progress, inFlight: nat)

  /** Where a retracted request resumes. */
  datatype Shape =
    | ResumePrefilling(window: Window, reserve: int)
    | ResumePrefillDone(window: Window, reserve: int)
    | ResumeDecoding(reserve: int)

  datatype State =
    | Bootstrapping
    | Submitted
    | Prefetching(awaitsBootstrap: bool)
    | Prefilling(res: Resources, window: Window, reserve: int)
    | RemotePrefilling(res: Resources, window: Window, reserve: int)
    | PrefillAwaitingResult(res: Resources, window: Window, reserve: int)
    | PrefillDone(res: Resources, window: Window, reserve: int, resumed: bool)
    | Decoding(res: Resources, reserve: int, resumed: bool)
    | Finishing(res: Resources)
    | Retracted(progress: Progress, shape: Shape, epoch: int, resumesGeneration: bool, pending: seq<nat>)
    | Restoring(res: Resources, shape: Shape, op: nat)
    | Finished

  predicate Holds(s: State) {
    s.Prefilling? || s.RemotePrefilling? || s.PrefillAwaitingResult? || s.PrefillDone? || s.Decoding?
    || s.Finishing? || s.Restoring?
  }

  /**
   A request: its prompt, all its tokens and its state; and, for the record, whether
   a peer prefills it, the chunks scheduled so far, and how often its tables were
   handed out and freed.
   */
  datatype Request = Request(
    prompt: seq<int>, tokens: seq<int>, state: State, remote: bool, windows: seq<Window>, granted: nat, freed: nat)

  /**
   The scheduler's shared state: requests, free rows, the rows restore operations
   hold, page reference counts and the number of cache groups.
   */
  datatype World = World(
    reqs: seq<Request>, free: seq<nat>, ops: seq<Option<Ticket>>, refs: multiset<Page>, groups: nat)

  /** A restore operation in flight: the request it restores and the row it imports into. */
  datatype Ticket = Ticket(id: nat, row: nat)

  datatype Event =
    | Arrive(prompt: seq<int>, bootstraps: bool)
    | StartPrefetch(id: nat) | FinishPrefetch(id: nat) | Bootstrapped(id: nat)
    | FirstChunk(id: nat, size: int, reserve: int, remote: bool, tables: seq<seq<Slot>>, hit: int, replay: int,
                 progress: Progress, awaits: bool)
    | Chunk(id: nat, size: int, reserve: int, awaits: bool)
    | Decode(id: nat, inputTokens: int)
    | Grow(id: nat, group: nat, page: Page)
    | Reclaim(id: nat, group: nat, slot: nat)
    | ScheduleForward(id: nat)
    | ExtendResult(id: nat, tokens: seq<int>)
    | UpdateReserve(id: nat, value: int)
    | Finish(id: nat) | Release(id: nat) | Abort(id: nat) | Succeeded(id: nat)
    | RemotePrefillDone(id: nat, token: int)
    | Retract(id: nat, epoch: int, resumesGeneration: bool, pending: seq<nat>)
    | StoreLanded(id: nat, op: nat)
    | Restore(id: nat, tables: seq<seq<Slot>>)
    | RestoreAck(op: nat)

  // ---- shared resources ----

  function SlotRefs(slot: Slot): multiset<Page> {
    if slot.Some? then multiset{slot.value} else multiset{}
  }

  function TableRefs(table: seq<Slot>): multiset<Page> {
    if table == [] then multiset{} else TableRefs(table[..|table| - 1]) + SlotRefs(table[|table| - 1])
  }

  /** One reference for each table entry that is not a hole. */
  function Refs(tables: seq<seq<Slot>>): multiset<Page> {
    if tables == [] then multiset{} else Refs(tables[..|tables| - 1]) + TableRefs(tables[|tables| - 1])
  }

  function FreeTables(w: World, tables: seq<seq<Slot>>): World {
    w.(refs := w.refs - Refs(tables))
  }

  /** The row the pool hands out next, and the rows that stay free. */
  function FirstFree(free: seq<nat>): Result<(nat, seq<nat>)> {
    if free == [] then Err("no request pool slots available") else Ok((free[0], free[1..]))
  }

  /** A returned row goes to the end of the queue. */
  function Returned(free: seq<nat>, row: nat): seq<nat> { free + [row] }

  function FreeRow(w: World, row: Option<nat>): World {
    if row.Some? then w.(free := Returned(w.free, row.value)) else w
  }

  /** The pages go back to the coordinator and the row dies with the state. */
  function FreeRequest(w: World, res: Resources): World {
    FreeRow(FreeTables(w, res.tables), res.row)
  }

  function Put(w: World, id: nat, r: Request): World
    requires id < |w.reqs|
  {
    w.(reqs := w.reqs[id := r])
  }

  function Invalid(): Result<World> {
    Err("FSM transition invalid")
  }

  // ---- transitions ----

  /** A scheduled chunk: Prefilling until the chunks reach the end of the prompt. */
  function AfterChunk(res: Resources, window: Window, reserve: int, prefill: int, awaits: bool): State {
    if window.End() == prefill then
      if awaits then PrefillAwaitingResult(res, window, reserve) else PrefillDone(res, window, reserve, false)
    else Prefilling(res, window, reserve)
  }

  function DoFirstChunk(w: World, e: Event): Result<World>
    requires e.FirstChunk? && e.id < |w.reqs|
  {
    var r := w.reqs[e.id];
    if !r.state.Submitted? then Invalid()
    else if |e.tables| != w.groups then Err("one admitted table per cache group")
    else if FirstFree(w.free).Err? then Err(FirstFree(w.free).message)
    else
      var (row, free) := FirstFree(w.free).value;
      var res := Resources(Some(row), e.tables, e.progress, 0);
      var window := Window(e.hit, e.size, if e.remote then 0 else e.replay);
      var next := if e.remote then RemotePrefilling(res, window, e.reserve)
                  else AfterChunk(res, window, e.reserve, |r.prompt|, e.awaits);
      Ok(Put(w.(free := free, refs := w.refs + Refs(e.tables)), e.id,
             r.(state := next, remote := e.remote, windows := [window], granted := r.granted + 1)))
  }

  function DoChunk(w: World, e: Event): Result<World>
    requires e.Chunk? && e.id < |w.reqs|
  {
    var r := w.reqs[e.id];
    if !r.state.Prefilling? then Invalid()
    else
      var window := Window(r.state.window.End(), e.size, 0);
      Ok(Put(w, e.id, r.(state := AfterChunk(r.state.res, window, e.reserve, |r.prompt|, e.awaits),
                         windows := r.windows + [window])))
  }

  function DoDecode(w: World, e: Event): Result<World>
    requires e.Decode? && e.id < |w.reqs|
  {
    var r := w.reqs[e.id];
    if r.state.PrefillDone? || r.state.PrefillAwaitingResult? || r.state.Decoding? then
      Ok(Put(w, e.id, r.(state := Decoding(r.state.res, e.inputTokens, false))))
    else Invalid()
  }

  /** A request's state with other resources. */
  function WithResources(s: State, res: Resources): State
    requires Holds(s)
  {
    s.(res := res)
  }

  /** The coordinator grows a table of a page-holding request by a page. */
  function DoGrow(w: World, e: Event): Result<World>
    requires e.Grow? && e.id < |w.reqs|
  {
    var r := w.reqs[e.id];
    if !Holds(r.state) || e.group >= |r.state.res.tables| then Invalid()
    else
      var res := r.state.res;
      var tables := res.tables[e.group := res.tables[e.group] + [Some(e.page)]];
      Ok(Put(w.(refs := w.refs + multiset{e.page}), e.id,
             r.(state := WithResources(r.state, res.(tables := tables)))))
  }

  /** It reclaims an expired page: the slot becomes a hole, so that slots stay where they are. */
  function DoReclaim(w: World, e: Event): Result<World>
    requires e.Reclaim? && e.id < |w.reqs|
  {
    var r := w.reqs[e.id];
    if !Holds(r.state) || e.group >= |r.state.res.tables| || e.slot >= |r.state.res.tables[e.group]| then Invalid()
    else
      var res := r.state.res;
      var table := res.tables[e.group];
      Ok(Put(w.(refs := w.refs - SlotRefs(table[e.slot])), e.id,
             r.(state := WithResources(r.state, res.(tables := res.tables[e.group := table[e.slot := None]])))))
  }

  function DoScheduleForward(w: World, e: Event): Result<World>
    requires e.ScheduleForward? && e.id < |w.reqs|
  {
    var r := w.reqs[e.id];
    if !Holds(r.state) then Ok(w)
    else
      var res := r.state.res;
      Ok(Put(w, e.id, r.(state := WithResources(r.state, res.(inFlight := res.inFlight + 1)))))
  }

  /** A forward's result: it is no longer in flight, and its tokens are appended. */
  function DoExtendResult(w: World, e: Event): Result<World>
    requires e.ExtendResult? && e.id < |w.reqs|
  {
    var r := w.reqs[e.id];
    if Holds(r.state) && r.state.res.inFlight == 0 then Err("no forward in flight")
    else
      var s := if Holds(r.state) then WithResources(r.state, r.state.res.(inFlight := r.state.res.inFlight - 1))
        else r.state;
      match s
      case PrefillDone(_, _, _, _) => Ok(Put(w, e.id, r.(state := s, tokens := r.tokens + e.tokens)))
      case Decoding(_, _, _) => Ok(Put(w, e.id, r.(state := s, tokens := r.tokens + e.tokens)))
      case Finishing(_) => Ok(Put(w, e.id, r.(state := s, tokens := r.tokens + e.tokens)))
      case PrefillAwaitingResult(res, window, reserve) =>
        if e.tokens == [] then Ok(Put(w, e.id, r.(state := s)))
        else Ok(Put(w, e.id, r.(state := PrefillDone(res, window, reserve, false), tokens := r.tokens + e.tokens)))
      case Prefilling(_, _, _) =>
        if e.tokens != [] then Err("an intermediate prefill chunk produces no tokens")
        else Ok(Put(w, e.id, r.(state := s)))
      case RemotePrefilling(_, _, _) => Ok(Put(w, e.id, r.(state := s)))
      case Finished => Ok(w)
      case _ => Invalid()
  }

  function DoFinish(w: World, e: Event): Result<World>
    requires e.Finish? && e.id < |w.reqs|
  {
    var r := w.reqs[e.id];
    match r.state
    case PrefillDone(res, _, _, _) => Ok(Put(w, e.id, r.(state := Finishing(res))))
    case PrefillAwaitingResult(res, _, _) => Ok(Put(w, e.id, r.(state := Finishing(res))))
    case Decoding(res, _, _) => Ok(Put(w, e.id, r.(state := Finishing(res))))
    case Retracted(_, _, _, _, _) => Ok(Put(w, e.id, r.(state := Finished)))
    case Restoring(res, _, _) => Ok(Put(FreeRequest(w, res), e.id, r.(state := Finished, freed := r.freed + 1)))
    case Finishing(_) => Ok(w)
    case Finished => Ok(w)
    case _ => Invalid()
  }

  function DoRelease(w: World, e: Event): Result<World>
    requires e.Release? && e.id < |w.reqs|
  {
    var r := w.reqs[e.id];
    if !r.state.Finishing? then Invalid()
    else if r.state.res.inFlight != 0 then Err("a request is released only once its forwards have landed")
    else Ok(Put(FreeRequest(w, r.state.res), e.id, r.(state := Finished, freed := r.freed + 1)))
  }

  /** An abort frees whatever the request holds, forwards in flight or not. */
  function DoAbort(w: World, e: Event): Result<World>
    requires e.Abort? && e.id < |w.reqs|
  {
    var r := w.reqs[e.id];
    if Holds(r.state) then Ok(Put(FreeRequest(w, r.state.res), e.id, r.(state := Finished, freed := r.freed + 1)))
    else Ok(Put(w, e.id, r.(state := Finished)))
  }

  /** The peer took over: the state dies, and with it its page references and its row. */
  function DoSucceeded(w: World, e: Event): Result<World>
    requires e.Succeeded? && e.id < |w.reqs|
  {
    var r := w.reqs[e.id];
    if !r.state.Decoding? then Invalid()
    else Ok(Put(FreeRequest(w, r.state.res), e.id, r.(state := Finished, freed := r.freed + 1)))
  }

  function ShapeOf(s: State): Shape
    requires s.Prefilling? || s.PrefillDone? || s.Decoding?
  {
    match s
    case Prefilling(_, window, reserve) => ResumePrefilling(window, reserve)
    case PrefillDone(_, window, reserve, _) => ResumePrefillDone(window, reserve)
    case Decoding(_, reserve, _) => ResumeDecoding(reserve)
  }

  function DoRetract(w: World, e: Event): Result<World>
    requires e.Retract? && e.id < |w.reqs|
  {
    var r := w.reqs[e.id];
    var s := r.state;
    if !(s.Prefilling? || s.PrefillDone? || s.Decoding?) then Invalid()
    else if s.Decoding? && s.reserve < 0 then Err("Assertion failed")
    else if s.res.inFlight != 0 then Err("a retraction victim must be quiescent")
    else
      var suspended := Retracted(s.res.progress, ShapeOf(s), e.epoch, e.resumesGeneration, e.pending);
      Ok(Put(FreeRequest(w, s.res), e.id, r.(state := suspended, freed := r.freed + 1)))
  }

  function Erase(ops: seq<nat>, op: nat): seq<nat> {
    if ops == [] then []
    else Erase(ops[..|ops| - 1], op) + if ops[|ops| - 1] == op then [] else [ops[|ops| - 1]]
  }

  function DoStoreLanded(w: World, e: Event): Result<World>
    requires e.StoreLanded? && e.id < |w.reqs|
  {
    var r := w.reqs[e.id];
    if !r.state.Retracted? then Invalid()
    else Ok(Put(w, e.id, r.(state := r.state.(pending := Erase(r.state.pending, e.op)))))
  }

  /** A restore: fresh tables, and a row that its operation holds until it is acknowledged. */
  function DoRestore(w: World, e: Event): Result<World>
    requires e.Restore? && e.id < |w.reqs|
  {
    var r := w.reqs[e.id];
    if !r.state.Retracted? then Invalid()
    else if r.state.pending != [] then Err("a restore is issued only after the image landed")
    else if |e.tables| != w.groups then Err("one rebuilt table per cache group")
    else if FirstFree(w.free).Err? then Err(FirstFree(w.free).message)
    else
      var (row, free) := FirstFree(w.free).value;
      var res := Resources(None, e.tables, r.state.progress, 0);
      Ok(Put(w.(free := free, ops := w.ops + [Some(Ticket(e.id, row))], refs := w.refs + Refs(e.tables)), e.id,
             r.(state := Restoring(res, r.state.shape, |w.ops|), granted := r.granted + 1)))
  }

  /** The state a restore resumes, in the row its operation imported into. */
  function Resume(res: Resources, shape: Shape): State {
    match shape
    case ResumePrefilling(window, reserve) => Prefilling(res, window, reserve)
    case ResumePrefillDone(window, reserve) => PrefillDone(res, window, reserve, true)
    case ResumeDecoding(reserve) => Decoding(res, reserve, true)
  }

  /** The acknowledgement hands the row to the request it restores, or returns it if that is gone. */
  function DoRestoreAck(w: World, e: Event): Result<World>
    requires e.RestoreAck?
  {
    if e.op >= |w.ops| || w.ops[e.op].None? then Ok(w)
    else
      var ticket := w.ops[e.op].value;
      var w' := w.(ops := w.ops[e.op := None]);
      if ticket.id < |w.reqs| && w.reqs[ticket.id].state.Restoring? && w.reqs[ticket.id].state.op == e.op then
        var r := w.reqs[ticket.id];
        if r.state.res.row.Some? then Err("a Restoring request holds no row of its own")
        else Ok(Put(w', ticket.id, r.(state := Resume(r.state.res.(row := Some(ticket.row)), r.state.shape))))
      else Ok(FreeRow(w', Some(ticket.row)))
  }

  function DoAdmission(w: World, e: Event): Result<World>
    requires (e.StartPrefetch? || e.FinishPrefetch? || e.Bootstrapped?) && e.id < |w.reqs|
  {
    var r := w.reqs[e.id];
    match e
    case StartPrefetch(_) =>
      if r.state.Submitted? then Ok(Put(w, e.id, r.(state := Prefetching(false))))
      else if r.state.Bootstrapping? then Ok(Put(w, e.id, r.(state := Prefetching(true))))
      else Invalid()
    case FinishPrefetch(_) =>
      if r.state.Prefetching? then
        Ok(Put(w, e.id, r.(state := if r.state.awaitsBootstrap then Bootstrapping else Submitted)))
      else Invalid()
    case Bootstrapped(_) =>
      if r.state.Bootstrapping? then Ok(Put(w, e.id, r.(state := Submitted)))
      else if r.state.Prefetching? then Ok(Put(w, e.id, r.(state := Prefetching(false))))
      else Invalid()
  }

  function DoUpdateReserve(w: World, e: Event): Result<World>
    requires e.UpdateReserve? && e.id < |w.reqs|
  {
    var r := w.reqs[e.id];
    if r.state.Decoding? then Ok(Put(w, e.id, r.(state := r.state.(reserve := e.value))))
    else if r.state.Finished? then Ok(w)
    else Invalid()
  }

  function DoRemotePrefillDone(w: World, e: Event): Result<World>
    requires e.RemotePrefillDone? && e.id < |w.reqs|
  {
    var r := w.reqs[e.id];
    if !r.state.RemotePrefilling? then Invalid()
    else Ok(Put(w, e.id, r.(state := PrefillDone(r.state.res, r.state.window, r.state.reserve, false),
                            tokens := r.tokens + [e.token])))
  }

  /** The events that take pages, or a row, for a request, or take a page from one. */
  predicate Taking(e: Event) {
    e.FirstChunk? || e.Restore? || e.Grow? || e.Reclaim?
  }

  /** The events that free a request's resources, or end a request that holds none. */
  predicate Freeing(e: Event) {
    e.Finish? || e.Release? || e.Abort? || e.Succeeded? || e.Retract?
  }

  /** The events that hand a request's resources from one of its states to the next. */
  predicate Moving(e: Event) {
    e.StartPrefetch? || e.FinishPrefetch? || e.Bootstrapped? || e.Chunk? || e.Decode? || e.ScheduleForward?
    || e.ExtendResult? || e.UpdateReserve? || e.RemotePrefillDone? || e.StoreLanded?
  }

  function Take(w: World, e: Event): Result<World>
    requires Taking(e) && e.id < |w.reqs|
  {
    if e.FirstChunk? then DoFirstChunk(w, e)
    else if e.Restore? then DoRestore(w, e)
    else if e.Grow? then DoGrow(w, e)
    else DoReclaim(w, e)
  }

  function Free(w: World, e: Event): Result<World>
    requires Freeing(e) && e.id < |w.reqs|
  {
    if e.Finish? then DoFinish(w, e)
    else if e.Release? then DoRelease(w, e)
    else if e.Abort? then DoAbort(w, e)
    else if e.Succeeded? then DoSucceeded(w, e)
    else DoRetract(w, e)
  }

  function Move(w: World, e: Event): Result<World>
    requires Moving(e) && e.id < |w.reqs|
  {
    if e.Chunk? then DoChunk(w, e)
    else if e.Decode? then DoDecode(w, e)
    else if e.ScheduleForward? then DoScheduleForward(w, e)
    else if e.ExtendResult? then DoExtendResult(w, e)
    else if e.UpdateReserve? then DoUpdateReserve(w, e)
    else if e.RemotePrefillDone? then DoRemotePrefillDone(w, e)
    else if e.StoreLanded? then DoStoreLanded(w, e)
    else DoAdmission(w, e)
  }

  function DoArrive(w: World, e: Event): Result<World>
    requires e.Arrive?
  {
    var state := if e.bootstraps then Bootstrapping else Submitted;
    Ok(w.(reqs := w.reqs + [Request(e.prompt, e.prompt, state, false, [], 0, 0)]))
  }

  /** An event for a request that is not there is ignored. */
  function Step(w: World, e: Event): Result<World> {
    if e.Arrive? then DoArrive(w, e)
    else if e.RestoreAck? then DoRestoreAck(w, e)
    else if e.id >= |w.reqs| then Ok(w)
    else if Taking(e) then Take(w, e)
    else if Freeing(e) then Free(w, e)
    else Move(w, e)
  }
}

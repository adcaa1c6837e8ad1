/**
 The attention kernel end to end. The arithmetic of `OnlineSoftmax` and the tiling
 of `FusedMask` are put into the concurrent machine of `FmhaMachine`, and every
 run of it stores the reference attention of every query row.

 A value is the part of a tile that one lane of a half works on: one query row,
 its scores against the keys of a tile, and one column of the values and of the
 output. The kernel treats lanes and columns alike and independently.
 */
module FmhaAttention {
  import opened Arith
  import opened FusedMask
  import opened OnlineSoftmax
  import opened FmhaProgram
  import opened FmhaProtocol
  import opened FmhaOrder
  import opened FmhaMachine
  import opened FmhaRuns

  datatype Value =
    | Query(q: seq<real>) | Keys(rows: seq<seq<real>>) | Column(v: seq<real>)
    | Raw(s: seq<real>) | Part(cols: seq<real>)
    | Running(st: RowState) | Moved(was: Score, now: real) | Final(st: RowState)
    | Probabilities(p: seq<real>) | Output(o: real) | Stored(o: real, lse: real)
    | Junk

  /** One work tile: its mask and block of rows, the queries, the keys and a column of the values. */
  datatype Job = Job(mask: Mask, block: Block, query: int -> seq<real>, key: nat -> seq<real>, value: nat -> real)

  /** `half` rows per warpgroup, the lane looked at, the columns of S that P takes, and the tiles. */
  datatype Kernel = Kernel(
    cfg: Settings, log: real -> real, scaleOutput: real, half: nat, lane: nat, pColumns: nat, jobs: seq<Job>)

  predicate ValidJob(ker: Kernel, job: Job) {
    ValidBlock(job.mask, job.block) && Covered(job.mask, job.block) && job.block.rows == 2 * ker.half
  }

  predicate ValidJobs(ker: Kernel) {
    forall j :: 0 <= j < |ker.jobs| ==> ValidJob(ker, ker.jobs[j])
  }

  ghost predicate ValidKernel(ker: Kernel) {
    ValidSettings(ker.cfg) && ker.lane < ker.half && ValidJobs(ker)
  }

  function RowIndex(ker: Kernel, job: Job, h: Half): int {
    job.block.index * job.block.rows + (if h == H0 then 0 else ker.half) + ker.lane
  }

  // ---- where a round belongs ----

  function Trip(job: Job): (n: nat)
    requires ValidBlock(job.mask, job.block)
    ensures n >= 1
  {
    SomeTile(job.mask, job.block);
    TripCount(job.mask, job.block)
  }

  function Trips(ker: Kernel): (trips: seq<nat>)
    requires ValidJobs(ker)
    ensures |trips| == |ker.jobs|
    ensures forall j :: 0 <= j < |trips| ==> trips[j] == Trip(ker.jobs[j])
  {
    seq(|ker.jobs|, j requires 0 <= j < |ker.jobs| => Trip(ker.jobs[j]))
  }

  /** The first round of the j-th tile. */
  function Begin(trips: seq<nat>, j: nat): nat
    requires j <= |trips|
  {
    if j == 0 then 0 else Begin(trips, j - 1) + trips[j - 1] + 1
  }

  /** The tile a round belongs to; |trips| past the end. */
  function TileOf(trips: seq<nat>, r: nat, j: nat): nat
    requires j <= |trips|
    decreases |trips| - j
  {
    if j == |trips| || r <= Begin(trips, j) + trips[j] then j else TileOf(trips, r, j + 1)
  }

  lemma {:induction false} BeginGrows(trips: seq<nat>, i: nat, j: nat)
    requires i <= j <= |trips|
    ensures Begin(trips, i) <= Begin(trips, j)
    ensures i < j ==> Begin(trips, i) + trips[i] < Begin(trips, j)
  {
    if i < j {
      BeginGrows(trips, i, j - 1);
    }
  }

  lemma {:induction false} TileOfIs(trips: seq<nat>, i: nat, j: nat, step: nat)
    requires i <= j < |trips| && step <= trips[j]
    ensures TileOf(trips, Begin(trips, j) + step, i) == j
    decreases j - i
  {
    if i < j {
      BeginGrows(trips, i, j);
      TileOfIs(trips, i + 1, j, step);
    }
  }

  // ---- the rounds of a tile ----

  lemma {:induction false} RoundAt(trips: seq<nat>, j: nat, step: nat)
    requires (forall i :: 0 <= i < |trips| ==> trips[i] >= 1) && j < |trips| && step <= trips[j]
    ensures Begin(trips, j) + step < |Rounds(trips)|
    ensures Rounds(trips)[Begin(trips, j) + step]
            == if step == 0 then First else if step == trips[j] then Last else Middle
  {
    var one := [First] + Repeat(trips[0] - 1) + [Last];
    assert Rounds(trips) == one + Rounds(trips[1..]);
    if j == 0 {
      assert (one + Rounds(trips[1..]))[step] == one[step];
    } else {
      RoundAt(trips[1..], j - 1, step);
      BeginTail(trips, j);
      assert (one + Rounds(trips[1..]))[Begin(trips, j) + step]
          == Rounds(trips[1..])[Begin(trips, j) + step - |one|];
    }
  }

  lemma {:induction false} BeginTail(trips: seq<nat>, j: nat)
    requires 0 < j <= |trips|
    ensures Begin(trips, j) == trips[0] + 1 + Begin(trips[1..], j - 1)
  {
    if j > 1 {
      BeginTail(trips, j - 1);
    }
  }

  lemma {:induction false} TileStartAt(trips: seq<nat>, j: nat, step: nat)
    requires (forall i :: 0 <= i < |trips| ==> trips[i] >= 1) && j < |trips| && step <= trips[j]
    ensures Begin(trips, j) + step < |Rounds(trips)|
    ensures TileStart(Rounds(trips), Begin(trips, j) + step) == Begin(trips, j)
  {
    RoundAt(trips, j, step);
    if step > 0 {
      TileStartAt(trips, j, step - 1);
    }
  }

  // ---- the arithmetic of a round ----

  function Inner(q: seq<real>, k: seq<real>): real {
    if |q| == |k| then Dot(q, k) else 0.0
  }

  /** The first key of the tile visited in a step. */
  function FirstKey(job: Job, step: nat): int
    requires job.block.keys > 0
  {
    (TripStart(job.mask, job.block) + step) * job.block.keys
  }

  /** Keys k0, k0 + 1, ... of a tile; nothing before the first key of the sequence. */
  function TileKeys(job: Job, k0: int): Value {
    if k0 < 0 then Junk else Keys(seq(job.block.keys, i requires 0 <= i < job.block.keys => job.key(k0 + i)))
  }

  function TileColumn(job: Job, k0: int): Value {
    if k0 < 0 then Junk else Column(seq(job.block.keys, i requires 0 <= i < job.block.keys => job.value(k0 + i)))
  }

  /** The scores of a step as the softmax uses them, masked where the step is masked. */
  function StepScores(ker: Kernel, job: Job, h: Half, step: nat, s: seq<real>): seq<Score>
    requires job.block.keys > 0
  {
    var raw := seq(|s|, i requires 0 <= i < |s| => Fin(s[i]));
    var k0 := FirstKey(job, step);
    if MaskedStep(job.mask, job.block, step) && Masks(job.mask) && k0 >= 0 then
      MaskedTile(job.mask, job.block, RowIndex(ker, job, h), k0, raw)
    else raw
  }

  /** What a round works on: its tile, if it has one, and the step within it. */
  predicate HasJob(ker: Kernel, trips: seq<nat>, r: nat) {
    |trips| == |ker.jobs| && TileOf(trips, r, 0) < |ker.jobs| && ker.jobs[TileOf(trips, r, 0)].block.keys > 0
    && Begin(trips, TileOf(trips, r, 0)) <= r
  }

  function JobOf(ker: Kernel, trips: seq<nat>, r: nat): Job
    requires HasJob(ker, trips, r)
  {
    ker.jobs[TileOf(trips, r, 0)]
  }

  function StepOfRound(ker: Kernel, trips: seq<nat>, r: nat): nat
    requires HasJob(ker, trips, r)
  {
    r - Begin(trips, TileOf(trips, r, 0))
  }

  function LoadedQuery(ker: Kernel, trips: seq<nat>, h: Half, r: nat): Value {
    if HasJob(ker, trips, r) then
      var job := JobOf(ker, trips, r);
      Query(job.query(RowIndex(ker, job, h)))
    else Junk
  }

  function LoadedKeys(ker: Kernel, trips: seq<nat>, r: nat): Value {
    if HasJob(ker, trips, r) then
      var job := JobOf(ker, trips, r);
      TileKeys(job, FirstKey(job, StepOfRound(ker, trips, r)))
    else Junk
  }

  /** The values loaded in a round belong to the keys of the round before. */
  function LoadedColumn(ker: Kernel, trips: seq<nat>, r: nat): Value {
    if HasJob(ker, trips, r) && StepOfRound(ker, trips, r) > 0 then
      var job := JobOf(ker, trips, r);
      TileColumn(job, FirstKey(job, StepOfRound(ker, trips, r) - 1))
    else Junk
  }

  function Score(q: Value, k: Value): Value {
    if q.Query? && k.Keys? then
      Raw(seq(|k.rows|, i requires 0 <= i < |k.rows| => Inner(q.q, k.rows[i])))
    else Junk
  }

  // the columns of S: two for the statistics, P from the 32nd on, and the others
  function Cut(i: nat, s: seq<real>): nat { Min(i, |s|) }

  function LeftPart(x: Value): Value {
    if x.Raw? then Part(x.s[..Cut(2, x.s)]) else x
  }

  function MiddlePart(pColumns: nat, x: Value): Value {
    if x.Raw? then Part(x.s[Cut(32, x.s)..Cut(32 + pColumns, x.s)]) else x
  }

  function RightPart(pColumns: nat, x: Value): Value {
    if x.Raw? then Part(x.s[Cut(2, x.s)..Cut(32, x.s)] + x.s[Cut(32 + pColumns, x.s)..]) else x
  }

  function Join(l: Value, m: Value, r: Value): Value {
    if l.Part? && m.Part? && r.Part? then
      var d := Cut(30, r.cols);
      Raw(l.cols + r.cols[..d] + m.cols + r.cols[d..])
    else l
  }

  lemma JoinsBack(pColumns: nat, x: Value)
    requires !x.Part?
    ensures Join(LeftPart(x), MiddlePart(pColumns, x), RightPart(pColumns, x)) == x
  {
    if x.Raw? {
      var s := x.s;
      var r := RightPart(pColumns, x).cols;
      var d, a, b, c := Cut(30, r), Cut(2, s), Cut(32, s), Cut(32 + pColumns, s);
      assert r[..d] == s[a..b] && r[d..] == s[c..];
      assert s == s[..a] + s[a..b] + s[b..c] + s[c..];
    }
  }

  function RoundScores(ker: Kernel, trips: seq<nat>, h: Half, r: nat, s: seq<real>): seq<FusedMask.Score>
    requires HasJob(ker, trips, r)
  {
    StepScores(ker, JobOf(ker, trips, r), h, StepOfRound(ker, trips, r), s)
  }

  function Step(ker: Kernel, trips: seq<nat>, h: Half, r: nat, was: Value, s: Value): Value {
    if HasJob(ker, trips, r) && was.Running? && s.Raw? then
      Running(NextState(ker.cfg, was.st, RoundScores(ker, trips, h, r, s.s)))
    else Junk
  }

  function Statistics(was: Value, now: Value): Value {
    if was.Running? && now.Running? && now.st.max.Fin? then Moved(was.st.max, now.st.max.value) else Junk
  }

  function FinalStatistics(was: Value): Value {
    if was.Running? then Final(was.st) else Junk
  }

  function ProbabilitiesOf(ker: Kernel, trips: seq<nat>, h: Half, r: nat, now: Value, s: Value): Value {
    if HasJob(ker, trips, r) && now.Running? && now.st.max.Fin? && s.Raw? then
      Probabilities(Probs(ker.cfg, now.st.max.value, RoundScores(ker, trips, h, r, s.s)))
    else Junk
  }

  function Product(p: Value, v: Value): Value {
    if p.Probabilities? && v.Column? && |p.p| == |v.v| then Output(Dot(p.p, v.v)) else Junk
  }

  function Accumulate(o: Value, p: Value, v: Value): Value {
    if o.Output? && p.Probabilities? && v.Column? && |p.p| == |v.v| then Output(o.o + Dot(p.p, v.v)) else Junk
  }

  /** Correction leaves the output alone where the maximum did not move. */
  function Rescale(ker: Kernel, moved: Value, o: Value): Value {
    if moved.Moved? && o.Output? then
      if moved.was == Fin(moved.now) then o else Output(OnlineSoftmax.Times(o.o, Ratio(ker.cfg, moved.was, moved.now)))
    else Junk
  }

  function Finish(ker: Kernel, final: Value, o: Value): Value {
    if final.Final? && o.Output? && final.st.max.Fin? && final.st.sum != 0.0 then
      Stored(Normalized(final.st, o.o, ker.scaleOutput), LogSumExp(ker.cfg, ker.log, final.st))
    else Junk
  }

  function AlgebraOf(ker: Kernel, trips: seq<nat>): Algebra<Value> {
    Algebra(
      (h, t) => LoadedQuery(ker, trips, h, t),
      r => LoadedKeys(ker, trips, r),
      r => LoadedColumn(ker, trips, r),
      (q, k) => Score(q, k),
      x => LeftPart(x), x => MiddlePart(ker.pColumns, x), x => RightPart(ker.pColumns, x),
      (l, m, r) => Join(l, m, r),
      Running(START_ROW),
      (h, r, was, s) => Step(ker, trips, h, r, was, s),
      (was, now) => Statistics(was, now),
      was => FinalStatistics(was),
      (h, r, was, now, s) => ProbabilitiesOf(ker, trips, h, r, now, s),
      (p, v) => Product(p, v),
      (o, p, v) => Accumulate(o, p, v),
      (moved, o) => Rescale(ker, moved, o),
      (final, o) => Finish(ker, final, o))
  }

  lemma AlgebraJoins(ker: Kernel, trips: seq<nat>)
    ensures Joins(AlgebraOf(ker, trips))
  {
    forall q, k
      ensures var x := Score(q, k); Join(LeftPart(x), MiddlePart(ker.pColumns, x), RightPart(ker.pColumns, x)) == x
    {
      JoinsBack(ker.pColumns, Score(q, k));
    }
  }

  // ---- a tile's rounds compute its rows ----

  /** The query row of a half, against all keys. */
  function RowOf(ker: Kernel, job: Job, h: Half): Row {
    var q := RowIndex(ker, job, h);
    Row(ker.cfg, (k: nat) => Inner(job.query(q), job.key(k)), (k: nat) => Visible(job.mask, job.block, q, k), job.value)
  }

  function FirstKeyOf(job: Job): (k: nat)
    requires ValidBlock(job.mask, job.block)
  {
    StartBounds(job.mask, job.block);
    FirstKey(job, 0)
  }

  lemma FirstKeyIs(job: Job, step: nat)
    requires ValidBlock(job.mask, job.block)
    ensures FirstKey(job, step) == KeyAt(FirstKeyOf(job), job.block.keys, step)
  {
  }

  lemma RowInBlock(ker: Kernel, job: Job, h: Half)
    requires HasRow(ker, job, h)
    ensures InBlock(job.block, RowIndex(ker, job, h))
  {
  }

  function RawScores(x: Row, k0: nat, n: nat): (s: seq<real>)
    ensures |s| == n
  {
    seq(n, i requires 0 <= i < n => x.raw(k0 + i))
  }

  /** With or without the mask, a step uses exactly the scores of the visible keys. */
  lemma StepScoreIs(ker: Kernel, job: Job, h: Half, step: nat, k0: nat, i: nat)
    requires HasRow(ker, job, h)
    requires step < Trip(job) && k0 == FirstKey(job, step) && i < job.block.keys
    ensures var x := RowOf(ker, job, h); var s := RawScores(x, k0, job.block.keys);
            |StepScores(ker, job, h, step, s)| == |s| && StepScores(ker, job, h, step, s)[i] == ScoreOf(x, k0 + i)
  {
    if !(MaskedStep(job.mask, job.block, step) && Masks(job.mask)) {
      RowInBlock(ker, job, h);
      TileHasKey(job, step, k0 + i);
      StepVisible(job.mask, job.block, step, RowIndex(ker, job, h), k0 + i);
    }
  }

  lemma TileHasKey(job: Job, step: nat, k: nat)
    requires ValidBlock(job.mask, job.block) && FirstKey(job, step) <= k < FirstKey(job, step) + job.block.keys
    ensures InTile(job.block, TripStart(job.mask, job.block) + step, k)
  {
  }

  lemma StepScoresAre(ker: Kernel, job: Job, h: Half, step: nat, k0: nat)
    requires HasRow(ker, job, h)
    requires step < Trip(job) && k0 == FirstKey(job, step)
    ensures var x := RowOf(ker, job, h); var n := job.block.keys;
            StepScores(ker, job, h, step, RawScores(x, k0, n)) == TileScores(x, k0, n)
  {
    var x, n := RowOf(ker, job, h), job.block.keys;
    var s := StepScores(ker, job, h, step, RawScores(x, k0, n));
    forall i | 0 <= i < n
      ensures |s| == n && s[i] == TileScores(x, k0, n)[i]
    {
      StepScoreIs(ker, job, h, step, k0, i);
    }
    StepScoreIs(ker, job, h, step, k0, 0);
  }

  lemma StepVisible(mask: Mask, b: Block, step: nat, q: int, k: int)
    requires ValidBlock(mask, b) && Covered(mask, b) && InBlock(b, q) && step < TripCount(mask, b)
    requires !(MaskedStep(mask, b, step) && Masks(mask))
    requires InTile(b, TripStart(mask, b) + step, k)
    ensures Visible(mask, b, q, k)
  {
    CountsTile(mask, b);
    UnmaskedIsVisible(mask, b, TripStart(mask, b) + step, q, k);
  }

  /** Round r works on step `step` of the job. */
  ghost predicate Works(ker: Kernel, trips: seq<nat>, r: nat, job: Job, step: nat) {
    HasJob(ker, trips, r) && JobOf(ker, trips, r) == job && StepOfRound(ker, trips, r) == step
  }

  /** Round t + i is step i of the job's tile, which starts in round t. */
  ghost predicate Sited(ker: Kernel, trips: seq<nat>, w: seq<Kind>, t: nat, last: nat, job: Job, i: nat) {
    && t + i < |w| && TileStart(w, t + i) == t
    && w[t + i] == (if i == 0 then First else if i == last then Last else Middle)
    && Works(ker, trips, t + i, job, i)
  }

  ghost predicate SitedAll(ker: Kernel, trips: seq<nat>, w: seq<Kind>, t: nat, last: nat, job: Job) {
    0 < last && forall i :: 0 <= i <= last ==> Sited(ker, trips, w, t, last, job, i)
  }

  lemma TileSited(ker: Kernel, trips: seq<nat>, j: nat, step: nat)
    requires ValidJobs(ker) && trips == Trips(ker) && j < |ker.jobs| && step <= trips[j]
    ensures Sited(ker, trips, Rounds(trips), Begin(trips, j), trips[j], ker.jobs[j], step)
  {
    RoundAt(trips, j, step);
    TileStartAt(trips, j, step);
    TileWorks(ker, trips, j, step);
  }

  lemma TileWorks(ker: Kernel, trips: seq<nat>, j: nat, step: nat)
    requires ValidJobs(ker) && trips == Trips(ker) && j < |ker.jobs| && step <= trips[j]
    ensures Works(ker, trips, Begin(trips, j) + step, ker.jobs[j], step)
  {
    assert ValidJob(ker, ker.jobs[j]);
    RoundWorks(ker, trips, j, step);
  }

  lemma RoundWorks(ker: Kernel, trips: seq<nat>, j: nat, step: nat)
    requires j < |trips| == |ker.jobs| && step <= trips[j] && ker.jobs[j].block.keys > 0
    ensures Works(ker, trips, Begin(trips, j) + step, ker.jobs[j], step)
  {
    TileOfIs(trips, 0, j, step);
  }

  lemma TileSitedAll(ker: Kernel, trips: seq<nat>, j: nat)
    requires ValidJobs(ker) && trips == Trips(ker) && j < |ker.jobs|
    ensures SitedAll(ker, trips, Rounds(trips), Begin(trips, j), trips[j], ker.jobs[j])
  {
    forall i | 0 <= i <= trips[j]
      ensures Sited(ker, trips, Rounds(trips), Begin(trips, j), trips[j], ker.jobs[j], i)
    {
      TileSited(ker, trips, j, i);
    }
  }

  lemma LoadedAre(ker: Kernel, trips: seq<nat>, h: Half, r: nat, job: Job, step: nat)
    requires Works(ker, trips, r, job, step)
    ensures LoadedQuery(ker, trips, h, r) == Query(job.query(RowIndex(ker, job, h)))
    ensures LoadedKeys(ker, trips, r) == TileKeys(job, FirstKey(job, step))
    ensures step > 0 ==> LoadedColumn(ker, trips, r) == TileColumn(job, FirstKey(job, step - 1))
  {
  }

  lemma ScoresAre(ker: Kernel, job: Job, h: Half, k0: nat)
    ensures Score(Query(job.query(RowIndex(ker, job, h))), TileKeys(job, k0))
            == Raw(RawScores(RowOf(ker, job, h), k0, job.block.keys))
    ensures TileColumn(job, k0) == Column(TileValues(RowOf(ker, job, h), k0, job.block.keys))
  {
  }

  // ---- from round to round ----

  function StateValue(x: Row, a: nat, n: nat, i: nat): Value {
    Running(RowAfter(x, a, n, i))
  }

  function ProbsValue(x: Row, a: nat, n: nat, i: nat): Value {
    Probabilities(Probs(x.cfg, MaxAfter(x, a, n, i + 1), TileAt(x, a, n, i)))
  }

  function MovedValue(x: Row, a: nat, n: nat, i: nat): Value {
    Moved(RowAfter(x, a, n, i).max, MaxAfter(x, a, n, i + 1))
  }

  function SumValue(x: Row, a: nat, n: nat, i: nat): Value {
    if i == 0 then Junk else Output(OutputAfter(x, a, n, i))
  }

  function ScaledValue(x: Row, a: nat, n: nat, i: nat): Value {
    if i == 0 then Junk
    else Output(OnlineSoftmax.Times(OutputAfter(x, a, n, i),
                                    Ratio(x.cfg, RowAfter(x, a, n, i).max, MaxAfter(x, a, n, i + 1))))
  }

  /** What the rounds of a tile are to compute for a row. */
  function RowTrace(x: Row, a: nat, n: nat, last: nat): (tr: Trace<Value>)
    ensures Sized(tr, last)
  {
    Trace(seq(last + 1, i requires 0 <= i <= last => StateValue(x, a, n, i)),
          seq(last, i requires 0 <= i < last => ProbsValue(x, a, n, i)),
          seq(last, i requires 0 <= i < last => MovedValue(x, a, n, i)),
          seq(last + 1, i requires 0 <= i <= last => SumValue(x, a, n, i)),
          seq(last, i requires 0 <= i < last => ScaledValue(x, a, n, i)))
  }

  /** The scores and the values of a round are those of a tile of the row. */
  ghost predicate Serves(ker: Kernel, trips: seq<nat>, h: Half, r: nat, s: Value, v: Value, x: Row, a: nat, n: nat,
                         i: nat)
  {
    && x.cfg == ker.cfg
    && HasJob(ker, trips, r) && s.Raw? && RoundScores(ker, trips, h, r, s.s) == TileAt(x, a, n, i)
    && v == Column(ColumnAt(x, a, n, i))
  }

  lemma StepValue(ker: Kernel, trips: seq<nat>, h: Half, r: nat, s: Value, v: Value, x: Row, a: nat, n: nat, i: nat)
    requires Serves(ker, trips, h, r, s, v, x, a, n, i)
    ensures Step(ker, trips, h, r, StateValue(x, a, n, i), s) == StateValue(x, a, n, i + 1)
    ensures ProbabilitiesOf(ker, trips, h, r, StateValue(x, a, n, i + 1), s) == ProbsValue(x, a, n, i)
    ensures Statistics(StateValue(x, a, n, i), StateValue(x, a, n, i + 1)) == MovedValue(x, a, n, i)
  {
  }

  lemma SumValues(ker: Kernel, trips: seq<nat>, h: Half, r: nat, s: Value, v: Value, x: Row, a: nat, n: nat, i: nat)
    requires ValidSettings(ker.cfg) && Serves(ker, trips, h, r, s, v, x, a, n, i)
    ensures i == 0 ==> Product(ProbsValue(x, a, n, 0), v) == SumValue(x, a, n, 1)
    ensures i > 0 ==> Rescale(ker, MovedValue(x, a, n, i), SumValue(x, a, n, i)) == ScaledValue(x, a, n, i)
    ensures i > 0 ==> Accumulate(ScaledValue(x, a, n, i), ProbsValue(x, a, n, i), v) == SumValue(x, a, n, i + 1)
  {
    if i > 0 {
      RescaleIs(ker, RowAfter(x, a, n, i).max, MaxAfter(x, a, n, i + 1), OutputAfter(x, a, n, i));
    }
  }

  lemma RescaleIs(ker: Kernel, was: FusedMask.Score, now: real, o: real)
    requires ValidSettings(ker.cfg) && was.Fin?
    ensures Rescale(ker, Moved(was, now), Output(o)) == Output(OnlineSoftmax.Times(o, Ratio(ker.cfg, was, now)))
  {
    if was == Fin(now) {
      EqualNeedsNoRescale(ker.cfg, now);
    }
  }

  /** An algebra computes a row's next values from its values so far, scores s and values v. */
  ghost predicate Computes(alg: Algebra<Value>, h: Half, r: nat, s: Value, v: Value, x: Row, a: nat, n: nat, i: nat) {
    var was, now := StateValue(x, a, n, i), StateValue(x, a, n, i + 1);
    && alg.step(h, r, was, s) == now
    && alg.probs(h, r, was, now, s) == ProbsValue(x, a, n, i)
    && alg.stats(was, now) == MovedValue(x, a, n, i)
    && (i == 0 ==> alg.product(ProbsValue(x, a, n, 0), v) == SumValue(x, a, n, 1))
    && (i > 0 ==> alg.rescale(MovedValue(x, a, n, i), SumValue(x, a, n, i)) == ScaledValue(x, a, n, i))
    && (i > 0 ==> alg.accumulate(ScaledValue(x, a, n, i), ProbsValue(x, a, n, i), v) == SumValue(x, a, n, i + 1))
  }

  lemma RowComputes(ker: Kernel, trips: seq<nat>, h: Half, r: nat, s: Value, v: Value, x: Row, a: nat, n: nat, i: nat)
    requires ValidSettings(ker.cfg) && Serves(ker, trips, h, r, s, v, x, a, n, i)
    ensures Computes(AlgebraOf(ker, trips), h, r, s, v, x, a, n, i)
  {
    StepValue(ker, trips, h, r, s, v, x, a, n, i);
    SumValues(ker, trips, h, r, s, v, x, a, n, i);
  }

  /** The entries of a trace that step i of a row concerns. */
  ghost predicate Holds(x: Row, a: nat, n: nat, last: nat, i: nat, tr: Trace<Value>) {
    && Sized(tr, last) && i < last
    && tr.state[i] == StateValue(x, a, n, i) && tr.state[i + 1] == StateValue(x, a, n, i + 1)
    && tr.probs[i] == ProbsValue(x, a, n, i) && tr.moved[i] == MovedValue(x, a, n, i)
    && tr.sum[i] == SumValue(x, a, n, i) && tr.sum[i + 1] == SumValue(x, a, n, i + 1)
    && tr.scaled[i] == ScaledValue(x, a, n, i)
  }

  lemma TraceAt(x: Row, a: nat, n: nat, last: nat, i: nat, tr: Trace<Value>)
    requires tr == RowTrace(x, a, n, last) && i < last
    ensures Holds(x, a, n, last, i, tr)
  {
  }

  lemma ComputesObeys(w: seq<Kind>, alg: Algebra<Value>, h: Half, t: nat, last: nat, x: Row, a: nat, n: nat, i: nat,
                      tr: Trace<Value>)
    requires t + i < |w| && Holds(x, a, n, last, i, tr)
    requires Computes(alg, h, t + i, ScoreAt(w, alg, h, t + i), alg.value(t + i + 1), x, a, n, i)
    ensures Obeys(w, alg, h, t, last, tr, i)
  {
  }

  /** The scores of a round, before they are masked. */
  lemma RoundScoresAre(ker: Kernel, trips: seq<nat>, w: seq<Kind>, h: Half, t: nat, r: nat, job: Job, step: nat,
                       k0: nat)
    requires Works(ker, trips, t, job, 0) && Works(ker, trips, r, job, step) && r < |w| && TileStart(w, r) == t
    requires k0 == FirstKey(job, step)
    ensures ScoreAt(w, AlgebraOf(ker, trips), h, r) == Raw(RawScores(RowOf(ker, job, h), k0, job.block.keys))
  {
  }

  /** A job whose row exists in the given half. */
  predicate HasRow(ker: Kernel, job: Job, h: Half) {
    ValidJob(ker, job) && ker.lane < ker.half && RowIndex(ker, job, h) < job.block.seqlenQ
  }

  lemma RoundServes(ker: Kernel, trips: seq<nat>, h: Half, r: nat, job: Job, step: nat, k0: nat, s: Value, v: Value)
    requires HasRow(ker, job, h) && Works(ker, trips, r, job, step) && Works(ker, trips, r + 1, job, step + 1)
    requires step < Trip(job) && k0 == FirstKey(job, step)
    requires s == Raw(RawScores(RowOf(ker, job, h), k0, job.block.keys)) && v == LoadedColumn(ker, trips, r + 1)
    ensures Serves(ker, trips, h, r, s, v, RowOf(ker, job, h), FirstKeyOf(job), job.block.keys, step)
  {
    FirstKeyIs(job, step);
    LoadedAre(ker, trips, h, r + 1, job, step + 1);
    ScoresAre(ker, job, h, k0);
    StepScoresAre(ker, job, h, step, k0);
  }

  lemma WorkServes(ker: Kernel, trips: seq<nat>, w: seq<Kind>, h: Half, t: nat, job: Job, i: nat, s: Value, v: Value)
    requires HasRow(ker, job, h) && i < Trip(job) && Works(ker, trips, t, job, 0)
    requires Works(ker, trips, t + i, job, i) && Works(ker, trips, t + i + 1, job, i + 1)
    requires t + i < |w| && TileStart(w, t + i) == t && s == ScoreAt(w, AlgebraOf(ker, trips), h, t + i)
    requires v == LoadedColumn(ker, trips, t + i + 1)
    ensures Serves(ker, trips, h, t + i, s, v, RowOf(ker, job, h), FirstKeyOf(job), job.block.keys, i)
  {
    FirstKeyIs(job, i);
    var k0: nat := FirstKey(job, i);
    RoundScoresAre(ker, trips, w, h, t, t + i, job, i, k0);
    RoundServes(ker, trips, h, t + i, job, i, k0, s, v);
  }

  lemma TileServes(ker: Kernel, trips: seq<nat>, w: seq<Kind>, h: Half, t: nat, job: Job, i: nat, s: Value, v: Value)
    requires HasRow(ker, job, h) && i < Trip(job) && SitedAll(ker, trips, w, t, Trip(job), job)
    requires t + i < |w| && s == ScoreAt(w, AlgebraOf(ker, trips), h, t + i)
    requires v == LoadedColumn(ker, trips, t + i + 1)
    ensures Serves(ker, trips, h, t + i, s, v, RowOf(ker, job, h), FirstKeyOf(job), job.block.keys, i)
  {
    assert Sited(ker, trips, w, t, Trip(job), job, 0);
    assert Sited(ker, trips, w, t, Trip(job), job, i);
    assert Sited(ker, trips, w, t, Trip(job), job, i + 1);
    WorkServes(ker, trips, w, h, t, job, i, s, v);
  }

  lemma TileComputes(ker: Kernel, trips: seq<nat>, w: seq<Kind>, alg: Algebra<Value>, h: Half, t: nat, job: Job, i: nat)
    requires ValidSettings(ker.cfg) && HasRow(ker, job, h) && i < Trip(job) && t + i < |w|
    requires SitedAll(ker, trips, w, t, Trip(job), job) && alg == AlgebraOf(ker, trips)
    ensures Computes(alg, h, t + i, ScoreAt(w, alg, h, t + i), alg.value(t + i + 1),
                     RowOf(ker, job, h), FirstKeyOf(job), job.block.keys, i)
  {
    var s, v := ScoreAt(w, alg, h, t + i), LoadedColumn(ker, trips, t + i + 1);
    TileServes(ker, trips, w, h, t, job, i, s, v);
    RowComputes(ker, trips, h, t + i, s, v, RowOf(ker, job, h), FirstKeyOf(job), job.block.keys, i);
  }

  lemma TileObeys(ker: Kernel, trips: seq<nat>, w: seq<Kind>, h: Half, t: nat, job: Job, i: nat, tr: Trace<Value>)
    requires ValidSettings(ker.cfg) && HasRow(ker, job, h) && SitedAll(ker, trips, w, t, Trip(job), job)
    requires Holds(RowOf(ker, job, h), FirstKeyOf(job), job.block.keys, Trip(job), i, tr)
    ensures t + i < |w| && Obeys(w, AlgebraOf(ker, trips), h, t, Trip(job), tr, i)
  {
    assert Sited(ker, trips, w, t, Trip(job), job, i);
    TileComputes(ker, trips, w, AlgebraOf(ker, trips), h, t, job, i);
    ComputesObeys(w, AlgebraOf(ker, trips), h, t, Trip(job), RowOf(ker, job, h), FirstKeyOf(job), job.block.keys, i,
                  tr);
  }

  /** A trace ends with the row's state and output. */
  ghost predicate EndsWith(x: Row, a: nat, n: nat, last: nat, tr: Trace<Value>) {
    && Sized(tr, last) && last > 0
    && tr.state[last] == Running(RowAfter(x, a, n, last)) && tr.sum[last] == Output(OutputAfter(x, a, n, last))
  }

  lemma TraceEnds(x: Row, a: nat, n: nat, last: nat, tr: Trace<Value>)
    requires tr == RowTrace(x, a, n, last) && last > 0
    ensures EndsWith(x, a, n, last, tr)
  {
  }

  lemma TileTraces(ker: Kernel, trips: seq<nat>, w: seq<Kind>, h: Half, t: nat, job: Job) returns (tr: Trace<Value>)
    requires ValidSettings(ker.cfg) && HasRow(ker, job, h)
    requires SitedAll(ker, trips, w, t, Trip(job), job)
    ensures Traces(w, AlgebraOf(ker, trips), h, t, Trip(job), tr)
    ensures EndsWith(RowOf(ker, job, h), FirstKeyOf(job), job.block.keys, Trip(job), tr)
  {
    var last := Trip(job);
    tr := RowTrace(RowOf(ker, job, h), FirstKeyOf(job), job.block.keys, last);
    TraceEnds(RowOf(ker, job, h), FirstKeyOf(job), job.block.keys, last, tr);
    assert Sited(ker, trips, w, t, last, job, 0);
    assert Sited(ker, trips, w, t, last, job, last);
    forall r | t < r < t + last
      ensures w[r] == Middle
    {
      assert Sited(ker, trips, w, t, last, job, r - t);
    }
    forall i | 0 <= i < last
      ensures Obeys(w, AlgebraOf(ker, trips), h, t, last, tr, i)
    {
      TraceAt(RowOf(ker, job, h), FirstKeyOf(job), job.block.keys, last, i, tr);
      TileObeys(ker, trips, w, h, t, job, i, tr);
    }
  }

  // ---- the theorem ----

  /** The visited tiles hold every key the row may see, and it may see one. */
  lemma RowEnds(ker: Kernel, job: Job, h: Half)
    requires HasRow(ker, job, h)
    ensures var x := RowOf(ker, job, h); var a := FirstKeyOf(job);
            && (forall k: nat :: x.vis(k) ==> a <= k < KeyAt(a, job.block.keys, Trip(job)) && k < job.block.seqlenK)
            && exists k :: x.vis(k)
  {
    var x, a, q := RowOf(ker, job, h), FirstKeyOf(job), RowIndex(ker, job, h);
    RowInBlock(ker, job, h);
    FirstKeyIs(job, Trip(job));
    forall k: nat | x.vis(k)
      ensures a <= k < KeyAt(a, job.block.keys, Trip(job))
    {
      VisibleIsVisited(job.mask, job.block, q, k);
    }
    SomeKeyVisible(job.mask, job.block, q);
    assert x.vis(SomeKey(job.mask, job.block, q));
  }

  /** After all its tiles a row's normalised output is its attention. */
  lemma RowIsAttention(x: Row, a: nat, n: nat, last: nat, keys: nat, scaleOutput: real)
    requires ValidSettings(x.cfg) && last > 0 && exists k :: x.vis(k)
    requires forall k: nat :: x.vis(k) ==> a <= k < KeyAt(a, n, last) && k < keys
    ensures RefMass(x, 0, keys) > 0.0 && RowAfter(x, a, n, last).sum > 0.0
    ensures Normalized(RowAfter(x, a, n, last), OutputAfter(x, a, n, last), scaleOutput)
            == Attention(x, keys, scaleOutput)
  {
    RowAfterFits(x, a, n, last);
    OutputAfterFits(x, a, n, last);
    KeyNext(a, n, last);
    EndOfRow(x, RowAfter(x, a, n, last), OutputAfter(x, a, n, last), a, KeyAt(a, n, last), keys, scaleOutput);
  }

  /** What the last round of a tile is to store for a row. */
  function StoredRow(ker: Kernel, job: Job, h: Half): Value
    requires ValidBlock(job.mask, job.block)
  {
    var x, a, n, last := RowOf(ker, job, h), FirstKeyOf(job), job.block.keys, Trip(job);
    Finish(ker, Final(RowAfter(x, a, n, last)), Output(OutputAfter(x, a, n, last)))
  }

  lemma TileIsStored(ker: Kernel, trips: seq<nat>, w: seq<Kind>, h: Half, t: nat, job: Job)
    requires ValidSettings(ker.cfg) && HasRow(ker, job, h)
    requires SitedAll(ker, trips, w, t, Trip(job), job)
    ensures t + Trip(job) < |w| && OutAt(w, AlgebraOf(ker, trips), h, t + Trip(job)) == StoredRow(ker, job, h)
  {
    var tr := TileTraces(ker, trips, w, h, t, job);
    OutTraced(w, AlgebraOf(ker, trips), h, t, Trip(job), tr);
  }

  lemma JobIsStored(ker: Kernel, trips: seq<nat>, w: seq<Kind>, j: nat, h: Half)
    requires ValidKernel(ker) && trips == Trips(ker) && w == Rounds(trips)
    requires j < |ker.jobs| && RowIndex(ker, ker.jobs[j], h) < ker.jobs[j].block.seqlenQ
    ensures var r := Begin(trips, j) + trips[j];
            0 < r < |w| && w[r] == Last && OutAt(w, AlgebraOf(ker, trips), h, r) == StoredRow(ker, ker.jobs[j], h)
  {
    TileSitedAll(ker, trips, j);
    TileIsStored(ker, trips, w, h, Begin(trips, j), ker.jobs[j]);
    assert Sited(ker, trips, w, Begin(trips, j), trips[j], ker.jobs[j], trips[j]);
  }

  /** v holds the reference attention of a row over the first `keys` keys. */
  ghost predicate IsAttention(ker: Kernel, x: Row, keys: nat, v: Value) {
    RefMass(x, 0, keys) > 0.0 && v.Stored? && v.o == Attention(x, keys, ker.scaleOutput)
  }

  /** v holds the reference log-sum-exp of a row plus the prescale. */
  ghost predicate IsLse(ker: Kernel, x: Row, keys: nat, ln2: real, v: Value) {
    v.Stored? && v.lse == At(ker.log, RefMass(x, 0, keys)) + OnlineSoftmax.Times(ker.cfg.prescale, ln2)
  }

  /** The stored output is the reference attention of the row. */
  lemma StoredIsAttention(ker: Kernel, job: Job, h: Half, v: Value)
    requires ValidSettings(ker.cfg) && HasRow(ker, job, h) && v == StoredRow(ker, job, h)
    ensures IsAttention(ker, RowOf(ker, job, h), job.block.seqlenK, v)
  {
    RowEnds(ker, job, h);
    RowIsAttention(RowOf(ker, job, h), FirstKeyOf(job), job.block.keys, Trip(job), job.block.seqlenK, ker.scaleOutput);
  }

  /** The stored log-sum-exp is the reference's plus the prescale. */
  lemma StoredIsLse(ker: Kernel, job: Job, h: Half, ln2: real, v: Value)
    requires ValidSettings(ker.cfg) && HasRow(ker, job, h) && v == StoredRow(ker, job, h)
    requires Log(ker.log, ker.cfg.e, ln2) && ln2 > 0.0 && ln2 * ker.cfg.log2e == 1.0
    ensures IsLse(ker, RowOf(ker, job, h), job.block.seqlenK, ln2, v)
  {
    RowEnds(ker, job, h);
    RowIsLse(ker, RowOf(ker, job, h), FirstKeyOf(job), job.block.keys, Trip(job), job.block.seqlenK, ln2);
  }

  lemma RowIsLse(ker: Kernel, x: Row, a: nat, n: nat, last: nat, keys: nat, ln2: real)
    requires ValidSettings(x.cfg) && x.cfg == ker.cfg && last > 0 && exists k :: x.vis(k)
    requires forall k: nat :: x.vis(k) ==> a <= k < KeyAt(a, n, last) && k < keys
    requires Log(ker.log, ker.cfg.e, ln2) && ln2 > 0.0 && ln2 * ker.cfg.log2e == 1.0
    ensures IsLse(ker, x, keys, ln2, Finish(ker, Final(RowAfter(x, a, n, last)), Output(OutputAfter(x, a, n, last))))
  {
    RowIsAttention(x, a, n, last, keys, ker.scaleOutput);
    RowAfterFits(x, a, n, last);
    KeyNext(a, n, last);
    LseIsOff(x, ker.log, ln2, RowAfter(x, a, n, last), a, KeyAt(a, n, last), keys);
  }

  /** A finished run has stored what the last round of every tile is to store. */
  lemma RunStores(ker: Kernel, trips: seq<nat>, kv: nat, cs: seq<Config<Value>>, es: seq<Op>, j: nat, h: Half, r: nat)
    requires ValidKernel(ker) && trips == Trips(ker) && kv >= 2
    requires Maximal(Rounds(trips), kv, AlgebraOf(ker, trips), cs, es)
    requires j < |ker.jobs| && RowIndex(ker, ker.jobs[j], h) < ker.jobs[j].block.seqlenQ
             && r == Begin(trips, j) + trips[j]
    ensures Finished(Rounds(trips), cs[|es|].ctl)
    ensures (h, r) in cs[|es|].x.out && cs[|es|].x.out[(h, r)] == StoredRow(ker, ker.jobs[j], h)
  {
    JobIsStored(ker, trips, Rounds(trips), j, h);
    AlgebraJoins(ker, trips);
    MaximalRunIsRight(trips, kv, AlgebraOf(ker, trips), cs, es, h, r);
  }

  /**
   Every run of the concurrent kernel that cannot be continued has finished and has
   stored, for every tile and half, the row of the lane, which is its attention.
   */
  lemma KernelComputesAttention(ker: Kernel, trips: seq<nat>, kv: nat, cs: seq<Config<Value>>, es: seq<Op>, j: nat,
                                h: Half)
    requires ValidKernel(ker) && trips == Trips(ker) && kv >= 2
    requires Maximal(Rounds(trips), kv, AlgebraOf(ker, trips), cs, es)
    requires j < |ker.jobs| && RowIndex(ker, ker.jobs[j], h) < ker.jobs[j].block.seqlenQ
    ensures Finished(Rounds(trips), cs[|es|].ctl)
    ensures var out := cs[|es|].x.out; var r := Begin(trips, j) + trips[j]; var job := ker.jobs[j];
            && (h, r) in out && out[(h, r)] == StoredRow(ker, job, h)
            && IsAttention(ker, RowOf(ker, job, h), job.block.seqlenK, out[(h, r)])
  {
    var r := Begin(trips, j) + trips[j];
    RunStores(ker, trips, kv, cs, es, j, h, r);
    StoredIsAttention(ker, ker.jobs[j], h, cs[|es|].x.out[(h, r)]);
  }

  /** v holds the reference log-sum-exp of a row. */
  ghost predicate LseRight(ker: Kernel, x: Row, keys: nat, v: Value) {
    v.Stored? && v.lse == At(ker.log, RefMass(x, 0, keys))
  }

  /** The logarithm is that of the exponential, and the threshold and the prescale are those the kernel chooses. */
  ghost predicate Chosen(ker: Kernel, ln2: real, log448: real, skip: bool, width: nat) {
    && Log(ker.log, ker.cfg.e, ln2) && ln2 > 0.0 && ln2 * ker.cfg.log2e == 1.0 && At(ker.cfg.e, log448) == 448.0
    && ker.cfg.threshold == Threshold(skip) && ker.cfg.prescale == AppliedPrescale(width, log448, ker.cfg.threshold)
  }

  /** The log-sum-exp stored with it is the reference's exactly unless 8-bit queries are prescaled. */
  lemma KernelLseRightIff(ker: Kernel, trips: seq<nat>, kv: nat, cs: seq<Config<Value>>, es: seq<Op>, j: nat, h: Half,
                          ln2: real, log448: real, skip: bool, width: nat)
    requires ValidKernel(ker) && trips == Trips(ker) && kv >= 2
    requires Maximal(Rounds(trips), kv, AlgebraOf(ker, trips), cs, es)
    requires j < |ker.jobs| && RowIndex(ker, ker.jobs[j], h) < ker.jobs[j].block.seqlenQ
    requires Chosen(ker, ln2, log448, skip, width)
    ensures var out := cs[|es|].x.out; var r := Begin(trips, j) + trips[j]; var job := ker.jobs[j];
            (h, r) in out
              && (LseRight(ker, RowOf(ker, job, h), job.block.seqlenK, out[(h, r)]) <==> !(width == 8 && !skip))
  {
    var r := Begin(trips, j) + trips[j];
    RunStores(ker, trips, kv, cs, es, j, h, r);
    StoredLseIff(ker, ker.jobs[j], h, ln2, cs[|es|].x.out[(h, r)], log448, skip, width);
  }

  lemma StoredLseIff(ker: Kernel, job: Job, h: Half, ln2: real, v: Value, log448: real, skip: bool, width: nat)
    requires ValidSettings(ker.cfg) && HasRow(ker, job, h) && v == StoredRow(ker, job, h)
    requires Chosen(ker, ln2, log448, skip, width)
    ensures LseRight(ker, RowOf(ker, job, h), job.block.seqlenK, v) <==> !(width == 8 && !skip)
  {
    StoredIsLse(ker, job, h, ln2, v);
    PrescaleIs(ker.cfg.e, log448, skip);
    PrescaleMatters(ker.cfg.prescale, ln2);
  }

  lemma PrescaleMatters(prescale: real, ln2: real)
    requires ln2 > 0.0
    ensures OnlineSoftmax.Times(prescale, ln2) == 0.0 <==> prescale == 0.0
  {
  }
}

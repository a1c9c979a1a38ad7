/** The load balancer: which GPUs are overloaded or idle, whether the fleet is
    out of balance, the two rebalancing plans, the executor of their actions
    and one balancing round. */
module LoadBalancer {
  import opened Common
  import opened Model
  import opened Sorting
  import opened Store
  import opened Utils
  import opened GpuMonitor
  import opened ProcessTracker

  // ---------------------------------------------------------------------
  // One GPU (`GPUStatus`)

  const OverloadUtilization: real := 85.0
  const OverloadMemoryRatio: real := 0.9
  const IdleUtilization: real := 50.0
  const IdleFreeMemoryMb: int := 2000

  /** `is_overloaded`. With utilization at most 85 % the memory test divides
      by the total memory; a total of 0 is caught earlier by `LoadScore`,
      which every caller computes first. */
  predicate IsOverloaded(m: GPUMetrics)
  {
    m.utilization > OverloadUtilization
    || (m.memoryTotal != 0 && (m.memoryUsed as real) / (m.memoryTotal as real) > OverloadMemoryRatio)
  }

  /** `is_idle`. */
  predicate IsIdle(m: GPUMetrics)
  {
    m.utilization < IdleUtilization && m.memoryFree > IdleFreeMemoryMb
  }

  /** `load_score`: the mean of the utilization and the memory use, both in
      percent; `None` is the division by a total memory of 0. */
  function LoadScore(m: GPUMetrics): (r: Option<real>)
    ensures r.None? <==> m.memoryTotal == 0
  {
    if m.memoryTotal == 0 then None
    else Some((m.utilization + (m.memoryUsed as real) / (m.memoryTotal as real) * 100.0) / 2.0)
  }

  /** The load score is a percentage for readings within their ranges. */
  lemma LoadScoreBounds(m: GPUMetrics)
    requires 0.0 <= m.utilization <= 100.0
    requires 0 <= m.memoryUsed <= m.memoryTotal && 0 < m.memoryTotal
    ensures LoadScore(m).Some?
    ensures 0.0 <= LoadScore(m).value <= 100.0
  {
    var ratio := (m.memoryUsed as real) / (m.memoryTotal as real);
    assert ratio <= 1.0 by {
      assert ratio * (m.memoryTotal as real) == m.memoryUsed as real;
    }
  }

  /** The two tests are independent: a GPU at 10 % with 27500 of 30000 MB
      used and 2500 MB free is both overloaded (by memory) and idle. */
  lemma OverloadedAndIdle(m: GPUMetrics)
    requires m.utilization == 10.0 && m.memoryUsed == 27500 && m.memoryTotal == 30000 && m.memoryFree == 2500
    ensures IsOverloaded(m) && IsIdle(m)
  {
    assert (27500 as real) / (30000 as real) > 0.9;
  }

  // ---------------------------------------------------------------------
  // Imbalance detection

  /** The result of `detect_imbalance`; of the per-GPU details only the load
      score is kept. `avgLoad` is absent from the default result. */
  datatype Imbalance = Imbalance(imbalanced: bool, overloaded: seq<int>, idle: seq<int>,
                                 variance: real, avgLoad: Option<real>, loadScores: map<int, real>)

  /** The result for no metrics, and for any exception. */
  const NoImbalance := Imbalance(false, [], [], 0.0, None, map[])

  /** The load scores in dictionary order; `None` when one of them fails. */
  function Loads(ms: MetricsDict): (r: Option<seq<real>>)
    ensures r.Some? ==> |r.value| == |ms| && forall i :: 0 <= i < |ms| ==> LoadScore(ms[i]) == Some(r.value[i])
    ensures r.None? <==> exists i :: 0 <= i < |ms| && ms[i].memoryTotal == 0
  {
    if ms == [] then Some([])
    else
      var init := Loads(ms[..|ms| - 1]);
      assert forall i :: 0 <= i < |ms| - 1 ==> ms[..|ms| - 1][i] == ms[i];
      var last := LoadScore(ms[|ms| - 1]);
      if init.None? || last.None? then None else Some(init.value + [last.value])
  }

  /** The sum of squared deviations from `avg`. */
  function SquaredDeviations(s: seq<real>, avg: real): (r: real)
    ensures 0.0 <= r
  {
    if s == [] then 0.0
    else
      var d := s[|s| - 1] - avg;
      assert 0.0 <= d * d by {
        if d < 0.0 { assert d * d == (-d) * (-d); }
      }
      SquaredDeviations(s[..|s| - 1], avg) + d * d
  }

  /** The population variance of a non-empty list. */
  function Variance(s: seq<real>): (r: real)
    requires |s| > 0
  {
    SquaredDeviations(s, Mean(s)) / (|s| as real)
  }

  lemma {:induction false} SquaredDeviationsOfConstant(s: seq<real>, avg: real)
    requires forall i :: 0 <= i < |s| ==> s[i] == avg
    ensures SquaredDeviations(s, avg) == 0.0
  {
    if s != [] {
      SquaredDeviationsOfConstant(s[..|s| - 1], avg);
    }
  }

  /** The variance is never negative, and is 0 when every load is the same. */
  lemma VarianceProperties(s: seq<real>)
    requires |s| > 0
    ensures 0.0 <= Variance(s)
    ensures (forall i :: 0 <= i < |s| ==> s[i] == s[0]) ==> Variance(s) == 0.0
  {
    if forall i :: 0 <= i < |s| ==> s[i] == s[0] {
      MeanOfConstant(s);
      SquaredDeviationsOfConstant(s, s[0]);
    }
  }

  lemma {:induction false} SumOfConstant(s: seq<real>, c: real)
    requires forall i :: 0 <= i < |s| ==> s[i] == c
    ensures Sum(s) == (|s| as real) * c
  {
    if s != [] {
      SumOfConstant(s[..|s| - 1], c);
    }
  }

  lemma MeanOfConstant(s: seq<real>)
    requires |s| > 0 && forall i :: 0 <= i < |s| ==> s[i] == s[0]
    ensures Mean(s) == s[0]
  {
    SumOfConstant(s, s[0]);
  }

  /** `{gpu_id: load_score}` built in dictionary order. */
  function LoadMap(ms: MetricsDict, ls: seq<real>): (r: map<int, real>)
    requires |ls| == |ms|
    ensures forall g :: g in r <==> g in Ids(ms)
  {
    if ms == [] then map[]
    else
      var init := ms[..|ms| - 1];
      IdsSnoc(ms);
      LoadMap(init, ls[..|ls| - 1])[ms[|ms| - 1].gpuId := ls[|ls| - 1]]
  }

  /** `detect_imbalance` on the metrics of one monitoring round, as intended. */
  function Detected(ms: MetricsDict): (r: Imbalance)
  {
    if ms == [] then NoImbalance
    else match Loads(ms)
      case None => NoImbalance
      case Some(ls) => ImbalanceOf(ms, ls)
  }

  /** The classification of a round whose load scores are `ls`: the
      overloaded and idle GPUs (imbalanced when there are both), the variance
      and mean of the scores, and each GPU's score. */
  function ImbalanceOf(ms: MetricsDict, ls: seq<real>): Imbalance
    requires 0 < |ls| == |ms|
  {
    var ov := Ids(Filter(ms, IsOverloaded));
    var idle := Ids(Filter(ms, IsIdle));
    Imbalance(|ov| > 0 && |idle| > 0, ov, idle,
              if |ls| > 1 then Variance(ls) else 0.0, Some(Mean(ls)), LoadMap(ms, ls))
  }

  /** The ids of the GPUs passing `p` are ids of the round, and include every
      GPU that passes. */
  lemma FilterIds(ms: MetricsDict, p: GPUMetrics -> bool)
    ensures forall i :: 0 <= i < |ms| && p(ms[i]) ==> ms[i].gpuId in Ids(Filter(ms, p))
    ensures forall g :: g in Ids(Filter(ms, p)) ==> g in Ids(ms)
  {
    var f := Filter(ms, p);
    forall i | 0 <= i < |ms| && p(ms[i]) ensures ms[i].gpuId in Ids(f) {
      var k :| 0 <= k < |f| && f[k] == ms[i];
      assert Ids(f)[k] == ms[i].gpuId;
    }
    forall g | g in Ids(f) ensures g in Ids(ms) {
      var k :| 0 <= k < |f| && Ids(f)[k] == g;
      var i :| 0 <= i < |ms| && ms[i] == f[k];
      assert Ids(ms)[i] == g;
    }
  }

  /** The GPUs passing `p` are listed once each when the round's ids are. */
  lemma {:induction false} FilterIdsDistinct(ms: MetricsDict, p: GPUMetrics -> bool)
    requires UniqueIds(ms)
    ensures Distinct(Ids(Filter(ms, p)))
  {
    if ms != [] {
      var init := ms[..|ms| - 1];
      var last := ms[|ms| - 1];
      assert ms == init + [last];
      UniqueIdsSnoc(init, last);
      FilterIdsDistinct(init, p);
      FilterAppend(init, last, p);
      if p(last) {
        var f := Filter(init, p);
        IdsAppend(f, [last]);
        LastIdNotFiltered(init, last, p);
        DistinctSnoc(Ids(f), last.gpuId);
      }
    }
  }

  /** A round with unique ids stays so without its last GPU, whose id no
      other GPU has. */
  lemma UniqueIdsSnoc(init: MetricsDict, last: GPUMetrics)
    requires UniqueIds(init + [last])
    ensures UniqueIds(init)
    ensures forall i :: 0 <= i < |init| ==> init[i].gpuId != last.gpuId
  {
    var ms := init + [last];
    forall i, j | 0 <= i < j < |init| ensures init[i].gpuId != init[j].gpuId {
      assert init[i] == ms[i] && init[j] == ms[j];
    }
    forall i | 0 <= i < |init| ensures init[i].gpuId != last.gpuId {
      assert init[i] == ms[i] && last == ms[|init|];
    }
  }

  /** A GPU whose id no GPU of `ms` has is not among the filtered ids. */
  lemma LastIdNotFiltered(ms: MetricsDict, last: GPUMetrics, p: GPUMetrics -> bool)
    requires forall i :: 0 <= i < |ms| ==> ms[i].gpuId != last.gpuId
    ensures last.gpuId !in Ids(Filter(ms, p))
  {
    var f := Filter(ms, p);
    assert forall k :: 0 <= k < |f| ==> Ids(f)[k] == f[k].gpuId && f[k] in ms;
  }

  lemma DistinctSnoc(s: seq<int>, x: int)
    requires Distinct(s) && x !in s
    ensures Distinct(s + [x])
  {
    var t := s + [x];
    forall a, b | 0 <= a < b < |t| ensures t[a] != t[b] {
      if b == |s| {
        assert t[a] == s[a] && t[b] == x;
      } else {
        assert t[a] == s[a] && t[b] == s[b];
      }
    }
  }

  /** The lists of one monitoring round name each GPU once. */
  lemma DetectedDistinct(ms: MetricsDict)
    requires UniqueIds(ms)
    ensures Distinct(Detected(ms).overloaded) && Distinct(Detected(ms).idle)
  {
    FilterIdsDistinct(ms, IsOverloaded);
    FilterIdsDistinct(ms, IsIdle);
  }

  /** What `balance_once` relies on from the detection of one round. */
  lemma DetectedWellFormed(ms: MetricsDict)
    requires UniqueIds(ms)
    ensures Distinct(Detected(ms).overloaded)
    ensures !Detected(ms).imbalanced ==> Detected(ms).overloaded == [] || Detected(ms).idle == []
  {
    DetectedDistinct(ms);
    DetectedImbalanced(ms);
  }

  /** The fleet is out of balance exactly when some GPU is overloaded and some
      GPU is idle. A round without metrics, or with a GPU reporting no memory,
      gives the default result. */
  lemma DetectedImbalanced(ms: MetricsDict)
    ensures var r := Detected(ms);
      && (r.imbalanced <==> r.overloaded != [] && r.idle != [])
      && (ms == [] || Loads(ms).None? ==> r == NoImbalance)
  {
  }

  /** The two lists hold every overloaded and every idle GPU, and only GPUs
      of the round, each with its load score. */
  lemma DetectedLists(ms: MetricsDict)
    requires ms != [] && Loads(ms).Some?
    ensures var r := Detected(ms);
      && (forall i :: 0 <= i < |ms| && IsOverloaded(ms[i]) ==> ms[i].gpuId in r.overloaded)
      && (forall i :: 0 <= i < |ms| && IsIdle(ms[i]) ==> ms[i].gpuId in r.idle)
      && (forall g :: g in r.overloaded || g in r.idle ==> g in r.loadScores)
  {
    FilterIds(ms, IsOverloaded);
    FilterIds(ms, IsIdle);
  }

  /** The variance is not negative (0 for a single GPU) and the mean lies
      between the smallest and the largest load. */
  lemma DetectedStats(ms: MetricsDict)
    requires ms != [] && Loads(ms).Some?
    ensures var r := Detected(ms);
      && 0.0 <= r.variance
      && (|ms| == 1 ==> r.variance == 0.0)
      && r.avgLoad.Some?
      && MinOf(Loads(ms).value) <= r.avgLoad.value <= MaxOf(Loads(ms).value)
  {
    var ls := Loads(ms).value;
    if |ls| > 1 {
      VarianceProperties(ls);
    }
    MeanBetween(ls);
  }

  /** `detect_imbalance` as written: with exactly one GPU the average load is
      never assigned, so building the result raises and the default result is
      returned. */
  function DetectedAsWritten(ms: MetricsDict): (r: Imbalance)
    ensures |ms| != 1 ==> r == Detected(ms)
  {
    if |ms| == 1 then NoImbalance else Detected(ms)
  }

  /** A single GPU that is both overloaded and idle is reported out of balance
      by the intended detection, and not by the code as written. */
  lemma DetectedAsWrittenSingleGpu(m: GPUMetrics)
    requires m.utilization == 10.0 && m.memoryUsed == 27500 && m.memoryTotal == 30000 && m.memoryFree == 2500
    ensures Detected([m]).imbalanced
    ensures Detected([m]).avgLoad.Some?
    ensures DetectedAsWritten([m]) == NoImbalance
  {
    OverloadedAndIdle(m);
    SingleGpuDetected(m);
  }

  /** A round of one GPU that is both overloaded and idle is out of balance. */
  lemma SingleGpuDetected(m: GPUMetrics)
    requires IsOverloaded(m) && IsIdle(m) && m.memoryTotal != 0
    ensures Detected([m]).imbalanced && Detected([m]).avgLoad.Some?
  {
    assert Filter([m], IsOverloaded) == [m] by { FilterAppend([], m, IsOverloaded); }
    assert Filter([m], IsIdle) == [m] by { FilterAppend([], m, IsIdle); }
    assert Loads([m]).Some?;
    assert Detected([m]) == ImbalanceOf([m], Loads([m]).value);
  }

  /** As written the detection sits behind `monitor_once`, which raises after
      every round that collected metrics; so it never reports an imbalance. */
  function DetectImbalanceAsWritten(ms: MetricsDict): (r: Imbalance)
  {
    match MonitorOnceAsWritten(ms)
    case Raised => NoImbalance
    case Returned(v) => DetectedAsWritten(v)
  }

  lemma DetectImbalanceAsWrittenNeverImbalanced(ms: MetricsDict)
    ensures DetectImbalanceAsWritten(ms) == NoImbalance
    ensures ms != [] && Loads(ms).Some? && |ms| != 1 ==> Detected(ms) != NoImbalance
  {
    if ms != [] && Loads(ms).Some? && |ms| != 1 {
      assert Detected(ms).avgLoad.Some?;
    }
  }

  // ---------------------------------------------------------------------
  // Rebalancing plans

  datatype BalanceStrategy = NoMigration | ProcessMigration

  /** The action types `pause_new_tasks`, `encourage_new_tasks`,
      `migrate_process`, and any other name. */
  datatype ActionKind = PauseNewTasks | EncourageNewTasks | MigrateProcess | OtherAction(name: string)

  /** `RebalanceAction`; the reason text is not modelled. */
  datatype RebalanceAction = RebalanceAction(kind: ActionKind, source: Option<int>, target: Option<int>,
                                             pid: Option<int>, priority: int)

  const PausePriority := 7
  const EncouragePriority := 5
  const MigratePriority := 8

  function PriorityKey(a: RebalanceAction): real { a.priority as real }

  /** One `pause_new_tasks` per overloaded GPU, in order. */
  function Pauses(ov: seq<int>): (r: seq<RebalanceAction>)
    ensures |r| == |ov|
    ensures forall i :: 0 <= i < |ov| ==> r[i] == RebalanceAction(PauseNewTasks, Some(ov[i]), None, None, PausePriority)
  {
    if ov == [] then [] else Pauses(ov[..|ov| - 1]) + [RebalanceAction(PauseNewTasks, Some(ov[|ov| - 1]), None, None, PausePriority)]
  }

  /** One `encourage_new_tasks` per idle GPU, in order. */
  function Encourages(idle: seq<int>): (r: seq<RebalanceAction>)
    ensures |r| == |idle|
    ensures forall i :: 0 <= i < |idle| ==> r[i] == RebalanceAction(EncourageNewTasks, None, Some(idle[i]), None, EncouragePriority)
  {
    if idle == [] then [] else Encourages(idle[..|idle| - 1]) + [RebalanceAction(EncourageNewTasks, None, Some(idle[|idle| - 1]), None, EncouragePriority)]
  }

  /** The no-migration plan: the actions sorted by priority, largest first. */
  function NoMigrationPlan(ov: seq<int>, idle: seq<int>): seq<RebalanceAction>
  {
    SortDesc(Pauses(ov) + Encourages(idle), PriorityKey)
  }

  /** The sort leaves the pauses first and the encouragements after them,
      each group in its input order. */
  lemma NoMigrationPlanSpec(ov: seq<int>, idle: seq<int>)
    ensures NoMigrationPlan(ov, idle) == Pauses(ov) + Encourages(idle)
  {
    var s := Pauses(ov) + Encourages(idle);
    forall i, j | 0 <= i < j < |s| ensures PriorityKey(s[i]) >= PriorityKey(s[j]) {
      if j < |ov| || i >= |ov| {
      } else {
        assert s[i].priority == PausePriority && s[j].priority == EncouragePriority;
      }
    }
    SortDescOfSorted(s, PriorityKey);
  }

  /** A GPU's load score as the plan reads it from the details. */
  function LoadOf(loads: map<int, real>, g: int): real
  {
    if g in loads then loads[g] else 0.0
  }

  /** The key the planner picks its busiest source by. */
  function LoadKey(loads: map<int, real>): int -> real
  {
    g => LoadOf(loads, g)
  }

  /** What `get_processes_by_gpu` returned for the GPU (nothing when unread). */
  function ProcsOf(procs: map<int, seq<ProcessInfo>>, g: int): seq<ProcessInfo>
  {
    if g in procs then procs[g] else []
  }

  function PriorityOf(p: ProcessInfo): int { p.priority }

  /** The migration loop over the idle GPUs: each one takes the remaining
      overloaded GPU with the largest load, which leaves the list whether or
      not it runs a process; when it does, the process of lowest priority is
      moved. Returns the actions and what is left of the overloaded list. */
  function MigrationPlan(idle: seq<int>, ov: seq<int>, loads: map<int, real>, procs: map<int, seq<ProcessInfo>>)
    : (r: (seq<RebalanceAction>, seq<int>))
    decreases |idle|
  {
    if idle == [] || ov == [] then ([], ov)
    else
      var src := FirstMax(ov, LoadKey(loads));
      var ps := ProcsOf(procs, src);
      var next := MigrationPlan(idle[1..], RemoveFirst(ov, src), loads, procs);
      if ps == [] then next
      else ([RebalanceAction(MigrateProcess, Some(src), Some(idle[0]), Some(FirstMin(ps, PriorityOf).pid), MigratePriority)] + next.0, next.1)
  }

  /** A migration of the lowest-priority process of `src` to `dst`. */
  ghost predicate MigratesLowest(a: RebalanceAction, procs: map<int, seq<ProcessInfo>>)
  {
    a.kind == MigrateProcess && a.priority == MigratePriority
    && a.source.Some? && a.target.Some? && a.pid.Some?
    && exists p :: p in ProcsOf(procs, a.source.value) && p.pid == a.pid.value
                   && forall q :: q in ProcsOf(procs, a.source.value) ==> p.priority <= q.priority
  }

  /** There are at most as many actions as idle GPUs and as overloaded GPUs;
      each idle GPU uses up one overloaded GPU, and what is left is a part of
      the overloaded list. */
  lemma {:induction false} MigrationPlanSizes(idle: seq<int>, ov: seq<int>, loads: map<int, real>, procs: map<int, seq<ProcessInfo>>)
    ensures var r := MigrationPlan(idle, ov, loads, procs);
      && |r.0| <= |idle| && |r.0| <= |ov|
      && |r.1| == |ov| - (if |idle| < |ov| then |idle| else |ov|)
      && (forall g :: g in r.1 ==> g in ov)
    decreases |idle|
  {
    if idle != [] && ov != [] {
      var src := FirstMax(ov, LoadKey(loads));
      MigrationPlanSizes(idle[1..], RemoveFirst(ov, src), loads, procs);
    }
  }

  /** The action built for a source with processes moves its process of
      lowest priority. */
  lemma LowestMigration(src: int, dst: int, procs: map<int, seq<ProcessInfo>>)
    requires ProcsOf(procs, src) != []
    ensures MigratesLowest(RebalanceAction(MigrateProcess, Some(src), Some(dst),
      Some(FirstMin(ProcsOf(procs, src), PriorityOf).pid), MigratePriority), procs)
  {
    var ps := ProcsOf(procs, src);
    var p := FirstMin(ps, PriorityOf);
    forall q | q in ps ensures p.priority <= q.priority {
      var i :| 0 <= i < |ps| && ps[i] == q;
    }
  }

  /** Every action moves the lowest-priority process of a GPU of `ov` to a
      GPU of `idle`. */
  ghost predicate MovesLowest(acts: seq<RebalanceAction>, ov: seq<int>, idle: seq<int>, procs: map<int, seq<ProcessInfo>>)
  {
    forall k :: 0 <= k < |acts| ==>
      MigratesLowest(acts[k], procs) && acts[k].source.value in ov && acts[k].target.value in idle
  }

  lemma MovesLowestWiden(acts: seq<RebalanceAction>, ov: seq<int>, idle: seq<int>, ov2: seq<int>, idle2: seq<int>, procs: map<int, seq<ProcessInfo>>)
    requires MovesLowest(acts, ov, idle, procs)
    requires forall g :: g in ov ==> g in ov2
    requires forall g :: g in idle ==> g in idle2
    ensures MovesLowest(acts, ov2, idle2, procs)
  {
    forall k | 0 <= k < |acts|
      ensures MigratesLowest(acts[k], procs) && acts[k].source.value in ov2 && acts[k].target.value in idle2
    {
      var t := acts[k].target.value;
      assert acts[k].source.value in ov && t in idle;
      assert t in idle2;
    }
  }

  lemma MovesLowestCons(a: RebalanceAction, acts: seq<RebalanceAction>, ov: seq<int>, idle: seq<int>, procs: map<int, seq<ProcessInfo>>)
    requires MigratesLowest(a, procs) && a.source.value in ov && a.target.value in idle
    requires MovesLowest(acts, ov, idle, procs)
    ensures MovesLowest([a] + acts, ov, idle, procs)
  {
    var r := [a] + acts;
    forall k | 0 <= k < |r|
      ensures MigratesLowest(r[k], procs) && r[k].source.value in ov && r[k].target.value in idle
    {
      if k > 0 { assert r[k] == acts[k - 1]; }
    }
  }

  /** Every action moves the lowest-priority process of an overloaded GPU to
      an idle GPU. */
  lemma {:induction false} MigrationPlanActions(idle: seq<int>, ov: seq<int>, loads: map<int, real>, procs: map<int, seq<ProcessInfo>>)
    ensures MovesLowest(MigrationPlan(idle, ov, loads, procs).0, ov, idle, procs)
    decreases |idle|
  {
    if idle != [] && ov != [] {
      var src := FirstMax(ov, LoadKey(loads));
      var ps := ProcsOf(procs, src);
      var rest := RemoveFirst(ov, src);
      MigrationPlanActions(idle[1..], rest, loads, procs);
      var next := MigrationPlan(idle[1..], rest, loads, procs).0;
      assert forall g :: g in idle[1..] ==> g in idle;
      MovesLowestWiden(next, rest, idle[1..], ov, idle, procs);
      if ps != [] {
        LowestMigration(src, idle[0], procs);
        var a := RebalanceAction(MigrateProcess, Some(src), Some(idle[0]), Some(FirstMin(ps, PriorityOf).pid), MigratePriority);
        MovesLowestCons(a, next, ov, idle, procs);
      }
    }
  }

  /** The sources of such moves are in `ov` and their targets in `idle`. */
  lemma MovesLowestEnds(acts: seq<RebalanceAction>, ov: seq<int>, idle: seq<int>, procs: map<int, seq<ProcessInfo>>)
    requires MovesLowest(acts, ov, idle, procs)
    ensures forall k :: 0 <= k < |acts| ==> Sources(acts)[k] in ov && Targets(acts)[k] in idle
  {
  }

  function Sources(acts: seq<RebalanceAction>): (r: seq<int>)
    ensures |r| == |acts|
    ensures forall k :: 0 <= k < |acts| ==> r[k] == (if acts[k].source.Some? then acts[k].source.value else -1)
  {
    if acts == [] then [] else [if acts[0].source.Some? then acts[0].source.value else -1] + Sources(acts[1..])
  }

  function Targets(acts: seq<RebalanceAction>): (r: seq<int>)
    ensures |r| == |acts|
    ensures forall k :: 0 <= k < |acts| ==> r[k] == (if acts[k].target.Some? then acts[k].target.value else -1)
  {
    if acts == [] then [] else [if acts[0].target.Some? then acts[0].target.value else -1] + Targets(acts[1..])
  }

  /** No overloaded GPU gives away two processes, no idle GPU receives two,
      and a GPU that gave one is no longer in the overloaded list. */
  lemma {:induction false} MigrationPlanDistinct(idle: seq<int>, ov: seq<int>, loads: map<int, real>, procs: map<int, seq<ProcessInfo>>)
    requires Distinct(idle) && Distinct(ov)
    ensures var r := MigrationPlan(idle, ov, loads, procs);
      && Distinct(Sources(r.0)) && Distinct(Targets(r.0)) && Distinct(r.1)
      && (forall k :: 0 <= k < |r.0| ==> Sources(r.0)[k] !in r.1)
    decreases |idle|
  {
    var r := MigrationPlan(idle, ov, loads, procs);
    if idle != [] && ov != [] {
      var src := FirstMax(ov, LoadKey(loads));
      var rest := RemoveFirst(ov, src);
      RemoveFirstDistinct(ov, src);
      var tail := idle[1..];
      assert Distinct(tail) by {
        forall i, j | 0 <= i < j < |tail| ensures tail[i] != tail[j] {
          assert tail[i] == idle[i + 1] && tail[j] == idle[j + 1];
        }
      }
      MigrationPlanDistinct(tail, rest, loads, procs);
      MigrationPlanSizes(tail, rest, loads, procs);
      var next := MigrationPlan(tail, rest, loads, procs);
      MigrationPlanActions(tail, rest, loads, procs);
      MovesLowestEnds(next.0, rest, tail, procs);
      if ProcsOf(procs, src) != [] {
        var a := r.0[0];
        assert r.0 == [a] + next.0;
        assert Sources(r.0) == [src] + Sources(next.0);
        assert Targets(r.0) == [idle[0]] + Targets(next.0);
        assert idle[0] !in tail by {
          forall j | 0 <= j < |tail| ensures tail[j] != idle[0] {
            assert tail[j] == idle[j + 1];
          }
        }
        assert src !in r.1;
        DistinctCons(src, Sources(next.0));
        DistinctCons(idle[0], Targets(next.0));
      }
    }
  }

  lemma DistinctCons(x: int, s: seq<int>)
    requires Distinct(s) && x !in s
    ensures Distinct([x] + s)
  {
    var t := [x] + s;
    forall i, j | 0 <= i < j < |t| ensures t[i] != t[j] {
      assert t[j] == s[j - 1];
      if i > 0 { assert t[i] == s[i - 1]; }
    }
  }

  /** Each source has at least the load of every later source and of every
      GPU of `left`. */
  ghost predicate ByLoad(acts: seq<RebalanceAction>, left: seq<int>, loads: map<int, real>)
  {
    && (forall k, j :: 0 <= k < j < |acts| ==> LoadOf(loads, Sources(acts)[k]) >= LoadOf(loads, Sources(acts)[j]))
    && (forall k, g :: 0 <= k < |acts| && g in left ==> LoadOf(loads, Sources(acts)[k]) >= LoadOf(loads, g))
  }

  /** Putting a source in front keeps the order when it has the largest load
      of all that follow. */
  lemma ByLoadCons(a: RebalanceAction, acts: seq<RebalanceAction>, left: seq<int>, loads: map<int, real>)
    requires a.source.Some? && ByLoad(acts, left, loads)
    requires forall k :: 0 <= k < |acts| ==> LoadOf(loads, Sources(acts)[k]) <= LoadOf(loads, a.source.value)
    requires forall g :: g in left ==> LoadOf(loads, g) <= LoadOf(loads, a.source.value)
    ensures ByLoad([a] + acts, left, loads)
  {
    var r := [a] + acts;
    var s, t := Sources(r), Sources(acts);
    assert r[0] == a;
    forall k | 0 < k < |r| ensures s[k] == t[k - 1] {
      assert r[k] == acts[k - 1];
    }
    forall k, j | 0 <= k < j < |r| ensures LoadOf(loads, s[k]) >= LoadOf(loads, s[j]) {
      var y := t[j - 1];
      assert s[j] == y;
      if k > 0 {
        var x := t[k - 1];
        assert s[k] == x && LoadOf(loads, x) >= LoadOf(loads, y);
      }
    }
    forall k, g | 0 <= k < |r| && g in left ensures LoadOf(loads, s[k]) >= LoadOf(loads, g) {
      if k > 0 {
        assert s[k] == t[k - 1];
      }
    }
  }

  /** Sources are taken in order of load: each one has at least the load of
      every later source and of every overloaded GPU left over. */
  lemma {:induction false} MigrationPlanByLoad(idle: seq<int>, ov: seq<int>, loads: map<int, real>, procs: map<int, seq<ProcessInfo>>)
    ensures var r := MigrationPlan(idle, ov, loads, procs); ByLoad(r.0, r.1, loads)
    decreases |idle|
  {
    if idle != [] && ov != [] {
      var key := LoadKey(loads);
      var src := FirstMax(ov, key);
      FirstMaxIsFirstMaximum(ov, key);
      var rest := RemoveFirst(ov, src);
      MigrationPlanByLoad(idle[1..], rest, loads, procs);
      MigrationPlanSizes(idle[1..], rest, loads, procs);
      MigrationPlanActions(idle[1..], rest, loads, procs);
      var next := MigrationPlan(idle[1..], rest, loads, procs);
      assert forall g :: g in rest ==> LoadOf(loads, g) <= LoadOf(loads, src) by {
        forall g | g in rest ensures LoadOf(loads, g) <= LoadOf(loads, src) {
          assert g in ov;
          var i :| 0 <= i < |ov| && ov[i] == g;
        }
      }
      var ps := ProcsOf(procs, src);
      if ps != [] {
        var a := RebalanceAction(MigrateProcess, Some(src), Some(idle[0]), Some(FirstMin(ps, PriorityOf).pid), MigratePriority);
        forall k | 0 <= k < |next.0| ensures LoadOf(loads, Sources(next.0)[k]) <= LoadOf(loads, src) {
          assert next.0[k].source.value in rest;
        }
        ByLoadCons(a, next.0, next.1, loads);
      }
    }
  }

  /** `create_rebalance_plan`: the actions, sorted by priority, and the
      overloaded list after the call (the migration loop removes from the
      caller's list the GPUs it used). */
  function Plan(imb: Imbalance, strategy: BalanceStrategy, procs: map<int, seq<ProcessInfo>>)
    : (r: (seq<RebalanceAction>, seq<int>))
    ensures imb.overloaded == [] || imb.idle == [] ==> r == ([], imb.overloaded)
  {
    if imb.overloaded == [] || imb.idle == [] then ([], imb.overloaded)
    else match strategy
      case NoMigration => (NoMigrationPlan(imb.overloaded, imb.idle), imb.overloaded)
      case ProcessMigration =>
        var m := MigrationPlan(imb.idle, imb.overloaded, imb.loadScores, procs);
        (SortDesc(m.0, PriorityKey), m.1)
  }

  /** All migrations share one priority, so sorting keeps their order. */
  lemma PlanMigrationUnsorted(imb: Imbalance, procs: map<int, seq<ProcessInfo>>)
    requires imb.overloaded != [] && imb.idle != []
    ensures Plan(imb, ProcessMigration, procs) == MigrationPlan(imb.idle, imb.overloaded, imb.loadScores, procs)
  {
    var m := MigrationPlan(imb.idle, imb.overloaded, imb.loadScores, procs);
    MigrationPlanActions(imb.idle, imb.overloaded, imb.loadScores, procs);
    forall i, j | 0 <= i < j < |m.0| ensures PriorityKey(m.0[i]) >= PriorityKey(m.0[j]) {
      assert MigratesLowest(m.0[i], procs) && MigratesLowest(m.0[j], procs);
    }
    SortDescOfSorted(m.0, PriorityKey);
  }

  /** Whether `execute_action` reports success for an action on a store that
      is reachable or not. */
  predicate Succeeds(online: bool, a: RebalanceAction)
  {
    online && ((a.kind == PauseNewTasks && a.source.Some?) || (a.kind == EncourageNewTasks && a.target.Some?))
  }

  /** How many of the actions `execute_action` reports as successful. */
  function Executed(acts: seq<RebalanceAction>, online: bool): nat
  {
    CountWhere(acts, a => Succeeds(online, a))
  }

  /** Every action of a no-migration plan succeeds on a reachable store. */
  lemma NoMigrationAllSucceed(ov: seq<int>, idle: seq<int>)
    ensures Executed(NoMigrationPlan(ov, idle), true) == |ov| + |idle|
    ensures |NoMigrationPlan(ov, idle)| == |ov| + |idle|
  {
    NoMigrationPlanSpec(ov, idle);
    CountAll(Pauses(ov) + Encourages(idle), a => Succeeds(true, a));
  }

  /** No migration ever succeeds. */
  lemma MigrationsNeverSucceed(online: bool, idle: seq<int>, ov: seq<int>, loads: map<int, real>, procs: map<int, seq<ProcessInfo>>)
    ensures Executed(MigrationPlan(idle, ov, loads, procs).0, online) == 0
  {
    var acts := MigrationPlan(idle, ov, loads, procs).0;
    MigrationPlanActions(idle, ov, loads, procs);
    CountNone(acts, a => Succeeds(online, a));
  }

  lemma {:induction false} CountAll<T>(s: seq<T>, p: T -> bool)
    requires forall i :: 0 <= i < |s| ==> p(s[i])
    ensures CountWhere(s, p) == |s|
  {
    if s != [] {
      CountAll(s[..|s| - 1], p);
    }
  }

  lemma {:induction false} CountNone<T>(s: seq<T>, p: T -> bool)
    requires forall i :: 0 <= i < |s| ==> !p(s[i])
    ensures CountWhere(s, p) == 0
  {
    if s != [] {
      CountNone(s[..|s| - 1], p);
    }
  }

  /** The result of `balance_once`; `actionsTotal` is absent when nothing was
      planned. */
  datatype BalanceResult = BalanceResult(balanced: bool, actionsTaken: int, actionsTotal: Option<int>, details: Imbalance)

  /** `balance_once` once the imbalance and the plan are known. */
  function BalanceOutcome(imb: Imbalance, plan: (seq<RebalanceAction>, seq<int>), online: bool): (r: BalanceResult)
  {
    if !imb.imbalanced then BalanceResult(true, 0, None, imb)
    else if plan.0 == [] then BalanceResult(false, 0, None, imb.(overloaded := plan.1))
    else
      var n := Executed(plan.0, online);
      BalanceResult(n > 0, n, Some(|plan.0|), imb.(overloaded := plan.1))
  }

  /** A round is reported balanced exactly when there was nothing to do or
      some action succeeded: always, on a reachable store, for the
      no-migration strategy; never, once out of balance, for migration. */
  lemma BalanceOutcomeSpec(imb: Imbalance, strategy: BalanceStrategy, procs: map<int, seq<ProcessInfo>>, online: bool)
    ensures var r := BalanceOutcome(imb, Plan(imb, strategy, procs), online);
      && (!imb.imbalanced ==> r == BalanceResult(true, 0, None, imb))
      && (r.balanced <==> !imb.imbalanced || r.actionsTaken > 0)
      && (imb.imbalanced && imb.overloaded != [] && imb.idle != [] && online && strategy == NoMigration ==>
            r.balanced && r.actionsTaken == |imb.overloaded| + |imb.idle| && r.actionsTotal == Some(r.actionsTaken))
      && (imb.imbalanced && strategy == ProcessMigration ==> !r.balanced && r.actionsTaken == 0)
  {
    if imb.overloaded != [] && imb.idle != [] {
      match strategy {
        case NoMigration =>
          NoMigrationAllSucceed(imb.overloaded, imb.idle);
        case ProcessMigration =>
          PlanMigrationUnsorted(imb, procs);
          MigrationsNeverSucceed(online, imb.idle, imb.overloaded, imb.loadScores, procs);
      }
    }
  }

  /** The marker sets after executing `acts` in order. */
  function Marked(paused: set<int>, preferred: set<int>, acts: seq<RebalanceAction>): (r: (set<int>, set<int>))
  {
    if acts == [] then (paused, preferred)
    else
      var m := Marked(paused, preferred, acts[..|acts| - 1]);
      var a := acts[|acts| - 1];
      if a.kind == PauseNewTasks && a.source.Some? then (m.0 + {a.source.value}, m.1)
      else if a.kind == EncourageNewTasks && a.target.Some? then (m.0, m.1 + {a.target.value})
      else m
  }

  lemma {:induction false} MarkedAppend(paused: set<int>, preferred: set<int>, a: seq<RebalanceAction>, b: seq<RebalanceAction>)
    ensures var m := Marked(paused, preferred, a);
      Marked(paused, preferred, a + b) == Marked(m.0, m.1, b)
  {
    if b != [] {
      var init := b[..|b| - 1];
      assert (a + b)[..|a + b| - 1] == a + init;
      MarkedAppend(paused, preferred, a, init);
    } else {
      assert a + b == a;
    }
  }

  /** After a no-migration plan the overloaded GPUs are paused and the idle
      GPUs preferred. */
  lemma MarkedNoMigration(paused: set<int>, preferred: set<int>, ov: seq<int>, idle: seq<int>)
    ensures Marked(paused, preferred, Pauses(ov) + Encourages(idle))
            == (paused + Members(ov), preferred + Members(idle))
  {
    MarkedAppend(paused, preferred, Pauses(ov), Encourages(idle));
    MarkedPauses(paused, preferred, ov);
    MarkedEncourages(paused + Members(ov), preferred, idle);
  }

  lemma {:induction false} MarkedPauses(paused: set<int>, preferred: set<int>, ov: seq<int>)
    ensures Marked(paused, preferred, Pauses(ov)) == (paused + Members(ov), preferred)
  {
    if ov != [] {
      var init := ov[..|ov| - 1];
      assert Pauses(ov)[..|ov| - 1] == Pauses(init);
      MarkedPauses(paused, preferred, init);
      var x := ov[|ov| - 1];
      assert Pauses(ov)[|ov| - 1] == RebalanceAction(PauseNewTasks, Some(x), None, None, PausePriority);
      var m := Marked(paused, preferred, Pauses(init));
      assert Marked(paused, preferred, Pauses(ov)) == (m.0 + {x}, m.1);
      assert Members(ov) == Members(init) + {x};
      assert m.0 + {x} == paused + Members(ov);
    } else {
      assert Pauses(ov) == [];
      assert paused + Members(ov) == paused;
    }
  }

  lemma {:induction false} MarkedEncourages(paused: set<int>, preferred: set<int>, idle: seq<int>)
    ensures Marked(paused, preferred, Encourages(idle)) == (paused, preferred + Members(idle))
  {
    if idle != [] {
      var init := idle[..|idle| - 1];
      assert Encourages(idle)[..|idle| - 1] == Encourages(init);
      MarkedEncourages(paused, preferred, init);
      var x := idle[|idle| - 1];
      assert Encourages(idle)[|idle| - 1] == RebalanceAction(EncourageNewTasks, None, Some(x), None, EncouragePriority);
      var m := Marked(paused, preferred, Encourages(init));
      assert Marked(paused, preferred, Encourages(idle)) == (m.0, m.1 + {x});
      assert Members(idle) == Members(init) + {x};
      assert m.1 + {x} == preferred + Members(idle);
    } else {
      assert Encourages(idle) == [];
      assert preferred + Members(idle) == preferred;
    }
  }

  /** Migrations set no marker. */
  lemma {:induction false} MarkedMigrations(paused: set<int>, preferred: set<int>, acts: seq<RebalanceAction>)
    requires forall k :: 0 <= k < |acts| ==> acts[k].kind == MigrateProcess
    ensures Marked(paused, preferred, acts) == (paused, preferred)
  {
    if acts != [] {
      MarkedMigrations(paused, preferred, acts[..|acts| - 1]);
    }
  }

  /** What a round leaves in the marker sets: a no-migration plan pauses
      every overloaded GPU and prefers every idle one; a migration plan marks
      nothing. */
  lemma PlanMarks(imb: Imbalance, strategy: BalanceStrategy, procs: map<int, seq<ProcessInfo>>, paused: set<int>, preferred: set<int>)
    requires imb.overloaded != [] && imb.idle != []
    ensures strategy == NoMigration ==>
              Marked(paused, preferred, Plan(imb, strategy, procs).0)
              == (paused + Members(imb.overloaded), preferred + Members(imb.idle))
    ensures strategy == ProcessMigration ==>
              Marked(paused, preferred, Plan(imb, strategy, procs).0) == (paused, preferred)
  {
    match strategy {
      case NoMigration =>
        NoMigrationPlanSpec(imb.overloaded, imb.idle);
        MarkedNoMigration(paused, preferred, imb.overloaded, imb.idle);
      case ProcessMigration =>
        PlanMigrationUnsorted(imb, procs);
        var acts := MigrationPlan(imb.idle, imb.overloaded, imb.loadScores, procs).0;
        MigrationPlanActions(imb.idle, imb.overloaded, imb.loadScores, procs);
        MarkedMigrations(paused, preferred, acts);
    }
  }

  // ---------------------------------------------------------------------
  // The balancer

  /** `P` holds every list the planner has read so far. */
  ghost predicate Extends(P: map<int, seq<ProcessInfo>>, listed: map<int, seq<ProcessInfo>>)
  {
    forall g :: g in listed ==> g in P && P[g] == listed[g]
  }

  /** The action the migration planner emits for one idle GPU `dst` and its
      source `src` running `ps`: none when `src` runs nothing. */
  function MigrationStep(src: int, dst: int, ps: seq<ProcessInfo>): seq<RebalanceAction>
  {
    if ps == [] then [] else [RebalanceAction(MigrateProcess, Some(src), Some(dst), Some(FirstMin(ps, PriorityOf).pid), MigratePriority)]
  }

  /** After `acts` were emitted for the first `i` idle GPUs, leaving
      `overloaded`, the rest of the plan is the plan of what is left, for any
      lists agreeing with those read so far. */
  ghost predicate PlanSoFar(idle: seq<int>, ov: seq<int>, loads: map<int, real>, listed: map<int, seq<ProcessInfo>>,
                            i: int, acts: seq<RebalanceAction>, overloaded: seq<int>)
    requires 0 <= i <= |idle|
  {
    forall P :: Extends(P, listed) ==>
      MigrationPlan(idle, ov, loads, P)
      == (acts + MigrationPlan(idle[i..], overloaded, loads, P).0, MigrationPlan(idle[i..], overloaded, loads, P).1)
  }

  lemma PlanSoFarStart(idle: seq<int>, ov: seq<int>, loads: map<int, real>)
    ensures PlanSoFar(idle, ov, loads, map[], 0, [], ov)
  {
    assert idle[0..] == idle;
    forall P | Extends(P, map[])
      ensures MigrationPlan(idle, ov, loads, P)
              == ([] + MigrationPlan(idle[0..], ov, loads, P).0, MigrationPlan(idle[0..], ov, loads, P).1)
    {
      assert [] + MigrationPlan(idle, ov, loads, P).0 == MigrationPlan(idle, ov, loads, P).0;
    }
  }

  /** One turn of the migration loop keeps `PlanSoFar`. */
  lemma PlanSoFarStep(idle: seq<int>, ov: seq<int>, loads: map<int, real>, listed: map<int, seq<ProcessInfo>>,
                      i: int, acts: seq<RebalanceAction>, overloaded: seq<int>, ps: seq<ProcessInfo>)
    requires 0 <= i < |idle| && overloaded != []
    requires PlanSoFar(idle, ov, loads, listed, i, acts, overloaded)
    requires FirstMax(overloaded, LoadKey(loads)) !in listed
    ensures var src := FirstMax(overloaded, LoadKey(loads));
      PlanSoFar(idle, ov, loads, listed[src := ps], i + 1, acts + MigrationStep(src, idle[i], ps), RemoveFirst(overloaded, src))
  {
    var src := FirstMax(overloaded, LoadKey(loads));
    var rest := RemoveFirst(overloaded, src);
    var step := MigrationStep(src, idle[i], ps);
    forall P | Extends(P, listed[src := ps])
      ensures MigrationPlan(idle, ov, loads, P)
              == ((acts + step) + MigrationPlan(idle[i + 1..], rest, loads, P).0,
                  MigrationPlan(idle[i + 1..], rest, loads, P).1)
    {
      assert Extends(P, listed);
      assert ProcsOf(P, src) == ps;
      PlanStepAt(idle, ov, loads, P, i, acts, overloaded);
    }
  }

  /** `PlanSoFarStep` for one set of lists `P`. */
  lemma PlanStepAt(idle: seq<int>, ov: seq<int>, loads: map<int, real>, P: map<int, seq<ProcessInfo>>,
                   i: int, acts: seq<RebalanceAction>, overloaded: seq<int>)
    requires 0 <= i < |idle| && overloaded != []
    requires MigrationPlan(idle, ov, loads, P)
             == (acts + MigrationPlan(idle[i..], overloaded, loads, P).0, MigrationPlan(idle[i..], overloaded, loads, P).1)
    ensures var src := FirstMax(overloaded, LoadKey(loads));
      var next := MigrationPlan(idle[i + 1..], RemoveFirst(overloaded, src), loads, P);
      MigrationPlan(idle, ov, loads, P)
      == ((acts + MigrationStep(src, idle[i], ProcsOf(P, src))) + next.0, next.1)
  {
    var src := FirstMax(overloaded, LoadKey(loads));
    var step := MigrationStep(src, idle[i], ProcsOf(P, src));
    var next := MigrationPlan(idle[i + 1..], RemoveFirst(overloaded, src), loads, P);
    MigrationPlanUnfold(idle, i, overloaded, loads, P);
    Regroup(MigrationPlan(idle, ov, loads, P), acts, MigrationPlan(idle[i..], overloaded, loads, P), step, next);
  }

  lemma Regroup(whole: (seq<RebalanceAction>, seq<int>), acts: seq<RebalanceAction>,
                r: (seq<RebalanceAction>, seq<int>), step: seq<RebalanceAction>, next: (seq<RebalanceAction>, seq<int>))
    requires whole == (acts + r.0, r.1) && r == (step + next.0, next.1)
    ensures whole == ((acts + step) + next.0, next.1)
  {
    assert (acts + step) + next.0 == acts + (step + next.0);
  }

  /** One turn of the migration plan: the step for the busiest source, then the
      plan of what is left. */
  lemma MigrationPlanUnfold(idle: seq<int>, i: int, overloaded: seq<int>, loads: map<int, real>,
                            P: map<int, seq<ProcessInfo>>)
    requires 0 <= i < |idle| && overloaded != []
    ensures var src := FirstMax(overloaded, LoadKey(loads));
      var next := MigrationPlan(idle[i + 1..], RemoveFirst(overloaded, src), loads, P);
      MigrationPlan(idle[i..], overloaded, loads, P)
      == (MigrationStep(src, idle[i], ProcsOf(P, src)) + next.0, next.1)
  {
    var src := FirstMax(overloaded, LoadKey(loads));
    var next := MigrationPlan(idle[i + 1..], RemoveFirst(overloaded, src), loads, P);
    assert idle[i..][1..] == idle[i + 1..] && idle[i..][0] == idle[i];
    if ProcsOf(P, src) == [] {
      assert MigrationStep(src, idle[i], ProcsOf(P, src)) + next.0 == next.0;
    }
  }

  /** When the loop ends the plan is what was emitted. */
  lemma PlanSoFarEnd(idle: seq<int>, ov: seq<int>, loads: map<int, real>, listed: map<int, seq<ProcessInfo>>,
                     i: int, acts: seq<RebalanceAction>, overloaded: seq<int>)
    requires 0 <= i <= |idle| && (i == |idle| || overloaded == [])
    requires PlanSoFar(idle, ov, loads, listed, i, acts, overloaded)
    ensures MigrationPlan(idle, ov, loads, listed) == (acts, overloaded)
  {
    assert Extends(listed, listed);
    assert MigrationPlan(idle[i..], overloaded, loads, listed) == ([], overloaded);
    assert acts + [] == acts;
  }

  /** What a monitoring round writes: the metrics table, its expiries, the
      available set and its expiry. */
  datatype MonitorKeys = MonitorKeys(metrics: map<int, GPUMetrics>, metricsTtl: map<int, int>,
                                     available: set<int>, availableTtl: Option<int>)

  function Monitoring(store: Store): MonitorKeys
    reads store
  {
    MonitorKeys(store.metrics, store.metricsTtl, store.available, store.availableTtl)
  }

  /** The keys after `monitor_once` published `ms`: nothing is written for an
      empty round or an unreachable store. */
  function AfterMonitor(k: MonitorKeys, ms: MetricsDict, online: bool, config: Config): MonitorKeys
  {
    if ms == [] || !online then k
    else
      var avail := AvailableIds(ms, config.thresholds.minMemoryMb, config.thresholds.maxUtilization);
      MonitorKeys(Published(k.metrics, ms, config.metricsTtl), PublishedTtl(k.metricsTtl, ms, config.metricsTtl),
                  set g | g in avail, if avail != [] then Some(15) else None)
  }

  /** The pids `get_processes_by_gpu` reads for GPU `g`. */
  function GpuPids(t: Tracker, g: int): set<int>
  {
    if g in t.gpuProcs then t.gpuProcs[g] else {}
  }

  /** What the tracker reported for each GPU in `listed`, in pid order `keys`:
      the live records of the GPU's pids on a reachable store, nothing
      otherwise. */
  ghost predicate Read(t: Tracker, online: bool, listed: map<int, seq<ProcessInfo>>, keys: map<int, seq<int>>, among: seq<int>)
  {
    forall g :: g in listed ==>
      g in among && g in keys
      && (online ==> Listing(t, GpuPids(t, g), listed[g], keys[g]))
      && (!online ==> listed[g] == [])
  }

  /** The two marker sets. */
  function Markers(store: Store): (set<int>, set<int>)
    reads store
  {
    (store.paused, store.preferred)
  }

  /** What one balancing round does on a store that is `online` or not: it
      detects the imbalance of the metrics collected from the readings, plans
      for it (the processes of the overloaded GPUs read as `listed`), and
      reports `result`; the monitoring keys go from `mon0` to `mon` and the
      markers from `mark0` to `mark`. */
  ghost predicate RoundEffect(config: Config, strategy: BalanceStrategy, countOutput: string, readings: int -> GpuReadings,
                              now: real, online: bool, listed: map<int, seq<ProcessInfo>>, result: BalanceResult,
                              mon0: MonitorKeys, mon: MonitorKeys, mark0: (set<int>, set<int>), mark: (set<int>, set<int>))
  {
    (result, mon, mark) == RoundOutcome(config, strategy, countOutput, readings, now, online, listed, mon0, mark0)
  }

  /** A round that detected `imb` on the metrics it collected, published
      them and then acted on `imb` had the effect `RoundOutcome` computes. */
  lemma RoundOutcomeOf(config: Config, strategy: BalanceStrategy, countOutput: string, readings: int -> GpuReadings,
                       now: real, online: bool, listed: map<int, seq<ProcessInfo>>, imb: Imbalance, result: BalanceResult,
                       mon0: MonitorKeys, mon: MonitorKeys, mark0: (set<int>, set<int>), mark: (set<int>, set<int>))
    requires var ms := CollectedMetrics(config, GpuCount(countOutput), readings, now);
      imb == Detected(ms) && mon == AfterMonitor(mon0, ms, online, config)
    requires result == BalanceOutcome(imb, Plan(imb, strategy, listed), online)
    requires mark == if online then Marked(mark0.0, mark0.1, Plan(imb, strategy, listed).0) else mark0
    ensures RoundEffect(config, strategy, countOutput, readings, now, online, listed, result, mon0, mon, mark0, mark)
  {
  }

  /** What a balancing round from the monitoring keys `mon0` and the markers
      `mark0` reports, and the keys and markers it leaves. */
  ghost function RoundOutcome(config: Config, strategy: BalanceStrategy, countOutput: string, readings: int -> GpuReadings,
                              now: real, online: bool, listed: map<int, seq<ProcessInfo>>,
                              mon0: MonitorKeys, mark0: (set<int>, set<int>)): (BalanceResult, MonitorKeys, (set<int>, set<int>))
  {
    var ms := CollectedMetrics(config, GpuCount(countOutput), readings, now);
    var imb := Detected(ms);
    var plan := Plan(imb, strategy, listed);
    (BalanceOutcome(imb, plan, online),
     AfterMonitor(mon0, ms, online, config),
     if online then Marked(mark0.0, mark0.1, plan.0) else mark0)
  }

  class LoadBalancer {
    const config: Config
    const store: Store
    const monitor: GPUMonitor
    const tracker: ProcessTracker

    constructor (config: Config, store: Store)
      ensures this.config == config && this.store == store
      ensures Valid()
    {
      this.config := config;
      this.store := store;
      monitor := new GPUMonitor(config, store);
      tracker := new ProcessTracker(config, store);
    }

    /** The monitor and the tracker share the balancer's store and configuration. */
    predicate Valid()
    {
      monitor.store == store && monitor.config == config
      && tracker.store == store && tracker.config == config
    }

    /** The loop of `detect_imbalance` that computes the load score of every
        GPU in dictionary order; `None` when one of them raises. */
    method LoadScores(ms: MetricsDict) returns (ls: Option<seq<real>>)
      ensures ls == Loads(ms)
    {
      var scores: seq<real> := [];
      var i := 0;
      while i < |ms|
        invariant 0 <= i <= |ms|
        invariant Loads(ms[..i]) == Some(scores)
      {
        assert ms[..i + 1][..i] == ms[..i];
        if ms[i].memoryTotal == 0 {
          return None;
        }
        scores := scores + [LoadScore(ms[i]).value];
        i := i + 1;
      }
      assert ms[..|ms|] == ms;
      return Some(scores);
    }

    /** `detect_imbalance` once the round's metrics are known. */
    method Classify(ms: MetricsDict) returns (imb: Imbalance)
      ensures imb == Detected(ms)
    {
      if ms == [] {
        return NoImbalance;
      }
      var scores := LoadScores(ms);
      if scores.None? {
        return NoImbalance;
      }
      imb := ImbalanceOf(ms, scores.value);
    }

    /** `detect_imbalance`: one monitoring round, then the classification of
        its metrics. */
    method DetectImbalance(countOutput: string, readings: int -> GpuReadings, now: real) returns (imb: Imbalance)
      requires Valid()
      modifies monitor`gpuCount, store`metrics, store`metricsTtl, store`available, store`availableTtl
      ensures var ms := CollectedMetrics(config, GpuCount(countOutput), readings, now);
        && imb == Detected(ms)
        && Monitoring(store) == AfterMonitor(old(Monitoring(store)), ms, store.online, config)
      ensures monitor.gpuCount == GpuCount(countOutput)
      ensures Distinct(imb.overloaded)
      ensures !imb.imbalanced ==> imb.overloaded == [] || imb.idle == []
    {
      var ms := monitor.MonitorOnce(countOutput, readings, now);
      CollectedMetricsSpec(config, GpuCount(countOutput), readings, now);
      imb := Classify(ms);
      DetectedWellFormed(ms);
    }

    /** The two loops of the no-migration planner. */
    method NoMigrationActions(overloaded: seq<int>, idle: seq<int>) returns (acts: seq<RebalanceAction>)
      ensures acts == Pauses(overloaded) + Encourages(idle)
    {
      acts := [];
      var i := 0;
      while i < |overloaded|
        invariant 0 <= i <= |overloaded|
        invariant acts == Pauses(overloaded[..i])
      {
        assert overloaded[..i + 1][..i] == overloaded[..i];
        acts := acts + [RebalanceAction(PauseNewTasks, Some(overloaded[i]), None, None, PausePriority)];
        i := i + 1;
      }
      assert overloaded[..|overloaded|] == overloaded;
      var j := 0;
      while j < |idle|
        invariant 0 <= j <= |idle|
        invariant acts == Pauses(overloaded) + Encourages(idle[..j])
      {
        assert idle[..j + 1][..j] == idle[..j];
        acts := acts + [RebalanceAction(EncourageNewTasks, None, Some(idle[j]), None, EncouragePriority)];
        j := j + 1;
      }
      assert idle[..|idle|] == idle;
    }

    /** The loop of the migration planner, before the sort. */
    method MigrationActions(idle: seq<int>, ov: seq<int>, loads: map<int, real>)
      returns (acts: seq<RebalanceAction>, overloaded: seq<int>,
               ghost listed: map<int, seq<ProcessInfo>>, ghost keys: map<int, seq<int>>)
      requires Valid()
      requires Distinct(ov)
      ensures (acts, overloaded) == MigrationPlan(idle, ov, loads, listed)
      ensures Read(tracker.State(), store.online, listed, keys, ov)
    {
      acts, overloaded, listed, keys := [], ov, map[], map[];
      var i := 0;
      PlanSoFarStart(idle, ov, loads);
      while i < |idle|
        invariant 0 <= i <= |idle|
        invariant Distinct(overloaded)
        invariant forall g :: g in overloaded ==> g in ov
        invariant forall g :: g in listed ==> g !in overloaded
        invariant PlanSoFar(idle, ov, loads, listed, i, acts, overloaded)
        invariant Read(tracker.State(), store.online, listed, keys, ov)
      {
        if overloaded == [] {
          break;
        }
        var src := FirstMax(overloaded, LoadKey(loads));
        var ps, ks := tracker.GetProcessesByGpu(src);
        PlanSoFarStep(idle, ov, loads, listed, i, acts, overloaded, ps);
        RemoveFirstDistinct(overloaded, src);
        listed := listed[src := ps];
        keys := keys[src := ks];
        acts := acts + MigrationStep(src, idle[i], ps);
        overloaded := RemoveFirst(overloaded, src);
        i := i + 1;
      }
      PlanSoFarEnd(idle, ov, loads, listed, i, acts, overloaded);
    }

    /** `create_rebalance_plan`. The lists the migration planner read from the
        tracker are returned as `listed`, with the pid order of each in
        `keys`; `overloaded` is the caller's list after the planner removed
        the GPUs it used. */
    method CreateRebalancePlan(imb: Imbalance, strategy: BalanceStrategy)
      returns (actions: seq<RebalanceAction>, overloaded: seq<int>,
               ghost listed: map<int, seq<ProcessInfo>>, ghost keys: map<int, seq<int>>)
      requires Valid()
      requires Distinct(imb.overloaded)
      ensures (actions, overloaded) == Plan(imb, strategy, listed)
      ensures Read(tracker.State(), store.online, listed, keys, imb.overloaded)
    {
      listed, keys := map[], map[];
      if imb.overloaded == [] || imb.idle == [] {
        return [], imb.overloaded, listed, keys;
      }
      var acts: seq<RebalanceAction>;
      match strategy {
        case NoMigration =>
          acts := NoMigrationActions(imb.overloaded, imb.idle);
          overloaded := imb.overloaded;
        case ProcessMigration =>
          acts, overloaded, listed, keys := MigrationActions(imb.idle, imb.overloaded, imb.loadScores);
      }
      actions := SortDesc(acts, PriorityKey);
    }

    /** `_migrate_process`: never moves anything; a missing process, a
        `collect` process (left to finish its game), a `train` process and an
        unknown type all give false. */
    method MigrateProcess(pid: Option<int>, source: Option<int>, target: Option<int>) returns (ok: bool)
      requires Valid()
      ensures !ok
    {
      if pid.None? {
        return false;
      }
      var info := tracker.GetProcessInfo(pid.value);
      if info.None? {
        return false;
      }
      if info.value.procType == "collect" {
        return false;
      } else if info.value.procType == "train" {
        return false;
      }
      return false;
    }

    /** `execute_action`: a pause or an encouragement adds its GPU to the
        marker set and succeeds; a migration never succeeds; an unknown kind,
        a missing GPU or an unreachable store fails. */
    method ExecuteAction(a: RebalanceAction) returns (ok: bool)
      requires Valid()
      modifies store`paused, store`preferred
      ensures ok == Succeeds(store.online, a)
      ensures store.paused == if ok && a.kind == PauseNewTasks then old(store.paused) + {a.source.value} else old(store.paused)
      ensures store.preferred == if ok && a.kind == EncourageNewTasks then old(store.preferred) + {a.target.value} else old(store.preferred)
    {
      match a.kind {
        case PauseNewTasks =>
          if !store.online || a.source.None? {
            return false;
          }
          store.paused := store.paused + {a.source.value};
          return true;
        case EncourageNewTasks =>
          if !store.online || a.target.None? {
            return false;
          }
          store.preferred := store.preferred + {a.target.value};
          return true;
        case MigrateProcess =>
          if !config.enableMigration {
            return false;
          }
          ok := MigrateProcess(a.pid, a.source, a.target);
        case OtherAction(_) =>
          return false;
      }
    }

    /** `clear_balance_flags`: deletes both marker sets; fails, changing
        nothing, when the store cannot be reached. */
    method ClearBalanceFlags() returns (ok: bool)
      modifies store`paused, store`preferred
      ensures ok == store.online
      ensures ok ==> store.paused == {} && store.preferred == {}
      ensures !ok ==> store.paused == old(store.paused) && store.preferred == old(store.preferred)
    {
      if !store.online {
        return false;
      }
      store.paused := {};
      store.preferred := {};
      return true;
    }

    /** The loop of `balance_once` over the planned actions. */
    method ExecuteAll(actions: seq<RebalanceAction>) returns (executed: nat)
      requires Valid()
      modifies store`paused, store`preferred
      ensures executed == Executed(actions, store.online)
      ensures store.online ==> (store.paused, store.preferred) == Marked(old(store.paused), old(store.preferred), actions)
      ensures !store.online ==> store.paused == old(store.paused) && store.preferred == old(store.preferred)
    {
      executed := 0;
      var i := 0;
      while i < |actions|
        invariant 0 <= i <= |actions|
        invariant executed == Executed(actions[..i], store.online)
        invariant store.online ==> (store.paused, store.preferred) == Marked(old(store.paused), old(store.preferred), actions[..i])
        invariant !store.online ==> store.paused == old(store.paused) && store.preferred == old(store.preferred)
      {
        assert actions[..i + 1][..i] == actions[..i];
        var ok := ExecuteAction(actions[i]);
        if ok {
          executed := executed + 1;
        }
        i := i + 1;
      }
      assert actions[..|actions|] == actions;
    }

    /** `balance_once` once the imbalance is known: plan, execute every
        action and report. */
    method Rebalance(imb: Imbalance, strategy: BalanceStrategy)
      returns (result: BalanceResult, ghost listed: map<int, seq<ProcessInfo>>, ghost keys: map<int, seq<int>>)
      requires Valid()
      requires Distinct(imb.overloaded)
      requires !imb.imbalanced ==> imb.overloaded == [] || imb.idle == []
      modifies store`paused, store`preferred
      ensures result == BalanceOutcome(imb, Plan(imb, strategy, listed), store.online)
      ensures Read(tracker.State(), store.online, listed, keys, imb.overloaded)
      ensures Markers(store) == if store.online then Marked(old(store.paused), old(store.preferred), Plan(imb, strategy, listed).0)
                                else old(Markers(store))
    {
      listed, keys := map[], map[];
      if !imb.imbalanced {
        return BalanceResult(true, 0, None, imb), listed, keys;
      }
      var actions, overloaded;
      actions, overloaded, listed, keys := CreateRebalancePlan(imb, strategy);
      ghost var t := tracker.State();
      var details := imb.(overloaded := overloaded);
      if actions == [] {
        return BalanceResult(false, 0, None, details), listed, keys;
      }
      var executed := ExecuteAll(actions);
      assert tracker.State() == t;
      result := BalanceResult(executed > 0, executed, Some(|actions|), details);
    }

    /** `balance_once`: detect, plan, execute every action and report. */
    method BalanceOnce(strategy: BalanceStrategy, countOutput: string, readings: int -> GpuReadings, now: real)
      returns (result: BalanceResult, ghost listed: map<int, seq<ProcessInfo>>, ghost keys: map<int, seq<int>>)
      requires Valid()
      modifies monitor`gpuCount, store`metrics, store`metricsTtl, store`available, store`availableTtl,
               store`paused, store`preferred
      ensures RoundEffect(config, strategy, countOutput, readings, now, store.online, listed, result,
                          old(Monitoring(store)), Monitoring(store), old(Markers(store)), Markers(store))
      ensures Read(tracker.State(), store.online, listed, keys, Detected(CollectedMetrics(config, GpuCount(countOutput), readings, now)).overloaded)
      ensures monitor.gpuCount == GpuCount(countOutput)
    {
      var imb := DetectImbalance(countOutput, readings, now);
      ghost var m1, k1 := Monitoring(store), Markers(store);
      result, listed, keys := Rebalance(imb, strategy);
      assert Monitoring(store) == m1;
      RoundOutcomeOf(config, strategy, countOutput, readings, now, store.online, listed, imb, result,
                     old(Monitoring(store)), m1, k1, Markers(store));
    }
  }
}

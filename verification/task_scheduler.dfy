/** The task scheduler: the 0–100 score of a GPU, the best GPU for one task,
    the best N GPUs for several tasks, and the recommended way to spread a
    batch of tasks over the available GPUs. */
module TaskScheduler {
  import opened Common
  import opened Model
  import opened Sorting
  import opened Store
  import opened Utils
  import opened ThresholdManager

  /** `AllocationScore`; the list of reason strings is not modelled. */
  datatype AllocationScore = AllocationScore(gpuId: int, score: real, utilization: real,
                                             memoryFree: int, numProcesses: int)

  /** The optional constraints of an allocation. Passing no constraints at
      all means `NoConstraints`. */
  datatype Constraints = Constraints(minMemoryMb: Option<int>, maxUtilization: Option<real>,
                                     specificGpu: Option<int>)

  const NoConstraints := Constraints(None, None, None)

  /** Free memory (MB) at which the memory term reaches its full 30 points. */
  const MemoryScale: int := 8000

  /** Number of processes at which the process term reaches 0. */
  const FullLoadProcesses: real := 5.0

  // ---------------------------------------------------------------------
  // The four terms of the score

  /** Utilization term: 40 points at 0 %, nothing at 100 % or more. */
  function UtilTerm(u: real): (r: real)
    ensures 0.0 <= r
    ensures 0.0 <= u ==> r <= 40.0
    ensures u == 0.0 ==> r == 40.0
    ensures u >= 100.0 ==> r == 0.0
  {
    MaxR(0.0, 40.0 * (1.0 - u / 100.0))
  }

  lemma UtilTermMonotone(u: real, v: real)
    requires u <= v
    ensures UtilTerm(v) <= UtilTerm(u)
  {
    assert 40.0 * (1.0 - v / 100.0) <= 40.0 * (1.0 - u / 100.0);
  }

  /** Memory term: nothing below the minimum; above it the share of the
      range from the minimum to 8000 MB, capped at 30 points. `None` is the
      division by zero of a minimum of exactly 8000 MB. */
  function MemTerm(free: int, minMem: int): (r: Option<real>)
    ensures r.None? <==> free >= minMem && minMem == MemoryScale
    ensures free < minMem ==> r == Some(0.0)
    ensures r.Some? ==> r.value <= 30.0
    ensures minMem < MemoryScale && r.Some? ==> 0.0 <= r.value
    ensures minMem < MemoryScale <= free ==> r == Some(30.0)
  {
    if free < minMem then Some(0.0)
    else if minMem == MemoryScale then None
    else
      var x := 30.0 * ((free - minMem) as real) / ((MemoryScale - minMem) as real);
      assert minMem < MemoryScale <= free ==> x >= 30.0 by {
        if minMem < MemoryScale <= free {
          DivAtLeastOne(30.0 * ((free - minMem) as real), (MemoryScale - minMem) as real, 30.0);
        }
      }
      assert minMem < MemoryScale ==> 0.0 <= x by {
        if minMem < MemoryScale {
          assert 0.0 <= 30.0 * ((free - minMem) as real);
        }
      }
      Some(MinR(30.0, x))
  }

  lemma DivAtLeastOne(a: real, d: real, c: real)
    requires 0.0 < d && c * d <= a
    ensures c <= a / d
  {
    assert a / d - c == (a - c * d) / d;
  }

  /** Process term: 20 points with no process, nothing from five processes on. */
  function ProcTerm(n: int): (r: real)
    ensures 0.0 <= r
    ensures 0 <= n ==> r <= 20.0
    ensures n == 0 ==> r == 20.0
    ensures n >= 5 ==> r == 0.0
  {
    MaxR(0.0, 20.0 * (1.0 - (n as real) / FullLoadProcesses))
  }

  lemma ProcTermMonotone(n: int, k: int)
    requires n <= k
    ensures ProcTerm(k) <= ProcTerm(n)
  {
    assert 20.0 * (1.0 - (k as real) / FullLoadProcesses) <= 20.0 * (1.0 - (n as real) / FullLoadProcesses);
  }

  /** Temperature term: 10 points at 0 °C, nothing at the maximum temperature
      or above. `None` is the division by zero of a maximum of 0. */
  function TempTerm(temp: int, maxTemp: int): (r: Option<real>)
    ensures r.None? <==> maxTemp == 0
    ensures r.Some? ==> 0.0 <= r.value
    ensures 0 <= temp && 0 < maxTemp ==> r.Some? && r.value <= 10.0
    ensures 0 < maxTemp <= temp ==> r == Some(0.0)
  {
    if maxTemp == 0 then None
    else
      var x := 10.0 * (1.0 - (temp as real) / (maxTemp as real));
      assert 0 < maxTemp <= temp ==> x <= 0.0 by {
        if 0 < maxTemp <= temp {
          DivAtLeastOne(temp as real, maxTemp as real, 1.0);
        }
      }
      assert 0 <= temp && 0 < maxTemp ==> x <= 10.0 by {
        if 0 <= temp && 0 < maxTemp {
          assert 0.0 <= (temp as real) / (maxTemp as real);
        }
      }
      Some(MaxR(0.0, x))
  }

  // ---------------------------------------------------------------------
  // The score of one GPU

  /** `score_gpu` for the metrics read from the store (`None` when there are
      none), the thresholds in force and the configured maximum temperature.
      The result is `None` when the computation divides by zero, which makes
      the calling allocation fail. */
  function ScoreOf(gpu: int, m: Option<GPUMetrics>, t: ThresholdConfig, maxTemp: int): (r: Option<AllocationScore>)
    ensures r.Some? ==> r.value.gpuId == gpu
    ensures m.None? ==> r == Some(AllocationScore(gpu, 0.0, 100.0, 0, 999))
    ensures r.None? <==> m.Some? && ((m.value.memoryFree >= t.minMemoryMb && t.minMemoryMb == MemoryScale)
                                     || (m.value.temperature > 0 && maxTemp == 0))
  {
    match m
    case None => Some(AllocationScore(gpu, 0.0, 100.0, 0, 999))
    case Some(x) =>
      var mem := MemTerm(x.memoryFree, t.minMemoryMb);
      var temp := if x.temperature > 0 then TempTerm(x.temperature, maxTemp) else Some(0.0);
      if mem.None? || temp.None? then None
      else
        Some(AllocationScore(gpu, UtilTerm(x.utilization) + mem.value + ProcTerm(x.numProcesses) + temp.value,
                             x.utilization, x.memoryFree, x.numProcesses))
  }

  /** The score lies in [0, 100] for metrics within their physical ranges
      and a minimum memory below the full-memory point. */
  lemma ScoreBounds(gpu: int, x: GPUMetrics, t: ThresholdConfig, maxTemp: int)
    requires 0.0 <= x.utilization && 0 <= x.numProcesses && 0 <= x.temperature
    requires t.minMemoryMb < MemoryScale && 0 < maxTemp
    ensures ScoreOf(gpu, Some(x), t, maxTemp).Some?
    ensures 0.0 <= ScoreOf(gpu, Some(x), t, maxTemp).value.score <= 100.0
  {
  }

  /** More utilization or more processes, all else equal, never raises the score. */
  lemma ScoreMonotone(gpu: int, x: GPUMetrics, y: GPUMetrics, t: ThresholdConfig, maxTemp: int)
    requires y == x.(utilization := y.utilization, numProcesses := y.numProcesses)
    requires x.utilization <= y.utilization && x.numProcesses <= y.numProcesses
    requires ScoreOf(gpu, Some(x), t, maxTemp).Some?
    ensures ScoreOf(gpu, Some(y), t, maxTemp).Some?
    ensures ScoreOf(gpu, Some(y), t, maxTemp).value.score <= ScoreOf(gpu, Some(x), t, maxTemp).value.score
  {
    UtilTermMonotone(x.utilization, y.utilization);
    ProcTermMonotone(x.numProcesses, y.numProcesses);
  }

  /** An idle GPU at 20 % with 8000 MB free and no temperature reading scores
      32 + 30 + 20 = 82 under a 2000 MB minimum. */
  lemma ScoreExample(gpu: int, x: GPUMetrics, t: ThresholdConfig, maxTemp: int)
    requires x.utilization == 20.0 && x.memoryFree == 8000 && x.numProcesses == 0 && x.temperature == 0
    requires t.minMemoryMb == 2000
    ensures ScoreOf(gpu, Some(x), t, maxTemp) == Some(AllocationScore(gpu, 82.0, 20.0, 8000, 0))
  {
    assert UtilTerm(20.0) == 32.0;
  }

  /** The metrics of one GPU as `get_gpu_metrics` reads them. */
  function MetricsAt(metrics: map<int, GPUMetrics>, gpu: int): Option<GPUMetrics>
  {
    if gpu in metrics then Some(metrics[gpu]) else None
  }

  /** The scoring loop of an allocation over `ids`: `None` as soon as one
      score fails. */
  function ScoresOf(ids: seq<int>, metrics: map<int, GPUMetrics>, t: ThresholdConfig, maxTemp: int)
    : (r: Option<seq<AllocationScore>>)
    ensures r.Some? ==> |r.value| == |ids|
    ensures r.Some? ==> forall i :: 0 <= i < |ids| ==>
                          ScoreOf(ids[i], MetricsAt(metrics, ids[i]), t, maxTemp) == Some(r.value[i])
    ensures r.None? ==> exists i :: 0 <= i < |ids| && ScoreOf(ids[i], MetricsAt(metrics, ids[i]), t, maxTemp).None?
  {
    if ids == [] then Some([])
    else
      var init := ScoresOf(ids[..|ids| - 1], metrics, t, maxTemp);
      var last := ScoreOf(ids[|ids| - 1], MetricsAt(metrics, ids[|ids| - 1]), t, maxTemp);
      if init.None? then
        assert forall i :: 0 <= i < |ids| - 1 ==> ids[..|ids| - 1][i] == ids[i];
        None
      else if last.None? then None
      else
        assert forall i :: 0 <= i < |ids| - 1 ==> ids[..|ids| - 1][i] == ids[i];
        Some(init.value + [last.value])
  }

  function ScoreKey(s: AllocationScore): real { s.score }

  /** `[s.gpu_id for s in ss]`. */
  function ScoreIds(ss: seq<AllocationScore>): (r: seq<int>)
    ensures |r| == |ss|
    ensures forall i :: 0 <= i < |ss| ==> r[i] == ss[i].gpuId
  {
    if ss == [] then [] else ScoreIds(ss[..|ss| - 1]) + [ss[|ss| - 1].gpuId]
  }

  /** The score of an available GPU, once scoring is known to succeed. */
  function ScoreValue(gpu: int, metrics: map<int, GPUMetrics>, t: ThresholdConfig, maxTemp: int): real
  {
    match ScoreOf(gpu, MetricsAt(metrics, gpu), t, maxTemp)
    case None => 0.0
    case Some(s) => s.score
  }

  // ---------------------------------------------------------------------
  // One GPU for one task

  /** `allocate_gpu` once the available GPUs (ascending) are known: none when
      there are none; the requested GPU when it is available; otherwise the
      head of the scores sorted largest first; none when scoring fails. */
  function Allocation(avail: seq<int>, specific: Option<int>, metrics: map<int, GPUMetrics>,
                      t: ThresholdConfig, maxTemp: int): (r: Option<int>)
    ensures avail == [] ==> r == None
    ensures avail != [] && specific.Some? && specific.value in avail ==> r == specific
  {
    if avail == [] then None
    else if specific.Some? && specific.value in avail then specific
    else match ScoresOf(avail, metrics, t, maxTemp)
      case None => None
      case Some(ss) => Some(SortDesc(ss, ScoreKey)[0].gpuId)
  }

  /** Without a usable request, the allocated GPU is an available GPU with
      the largest score, and every other available GPU with that score has a
      larger id. */
  lemma AllocationBest(avail: seq<int>, specific: Option<int>, metrics: map<int, GPUMetrics>,
                       t: ThresholdConfig, maxTemp: int)
    requires StrictlyAscending(avail) && avail != []
    requires !(specific.Some? && specific.value in avail)
    requires ScoresOf(avail, metrics, t, maxTemp).Some?
    ensures var r := Allocation(avail, specific, metrics, t, maxTemp);
      r.Some? && r.value in avail
      && (forall g :: g in avail ==> ScoreValue(g, metrics, t, maxTemp) <= ScoreValue(r.value, metrics, t, maxTemp))
      && (forall g :: g in avail && ScoreValue(g, metrics, t, maxTemp) == ScoreValue(r.value, metrics, t, maxTemp)
            ==> r.value <= g)
  {
    var ss := ScoresOf(avail, metrics, t, maxTemp).value;
    ScoresOfScored(avail, ss, metrics, t, maxTemp);
    BestScored(avail, ss, g => ScoreValue(g, metrics, t, maxTemp));
  }

  /** The head of the scores sorted largest first is a GPU with the largest
      score, and the smallest such id. */
  lemma BestScored(avail: seq<int>, ss: seq<AllocationScore>, val: int -> real)
    requires StrictlyAscending(avail) && avail != []
    requires ScoredBy(avail, ss, val)
    ensures var b := SortDesc(ss, ScoreKey)[0].gpuId;
      b in avail
      && (forall g :: g in avail ==> val(g) <= val(b))
      && (forall g :: g in avail && val(g) == val(b) ==> b <= g)
  {
    SortDescHead(ss, ScoreKey);
    FirstMaxIsFirstMaximum(ss, ScoreKey);
    var best := FirstMax(ss, ScoreKey);
    var k :| 0 <= k < |ss| && ss[k] == best && forall i :: 0 <= i < k ==> ScoreKey(ss[i]) < ScoreKey(best);
    assert SortDesc(ss, ScoreKey)[0].gpuId == avail[k];
    forall g | g in avail
      ensures val(g) <= best.score
      ensures val(g) == best.score ==> avail[k] <= g
    {
      var i :| 0 <= i < |avail| && avail[i] == g;
      assert ScoreKey(ss[i]) <= ScoreKey(best);
    }
  }

  /** As written, `allocate_gpu` reads the constraints with `constraints.get`
      before checking them, so a call without constraints raises inside the
      `try` and yields `None`. */
  function AllocationAsWritten(c: Option<Constraints>, avail: seq<int>, metrics: map<int, GPUMetrics>,
                               t: ThresholdConfig, maxTemp: int): (r: Option<int>)
    ensures c.Some? ==> r == Allocation(avail, c.value.specificGpu, metrics, t, maxTemp)
  {
    match c
    case None => None
    case Some(k) => Allocation(avail, k.specificGpu, metrics, t, maxTemp)
  }

  /** A single idle available GPU is not allocated by the code as written
      when no constraints are passed, while the intended reading allocates it. */
  lemma AllocationAsWrittenWithoutConstraints(gpu: int, metrics: map<int, GPUMetrics>, t: ThresholdConfig, maxTemp: int)
    requires gpu !in metrics
    ensures AllocationAsWritten(None, [gpu], metrics, t, maxTemp) == None
    ensures Allocation([gpu], NoConstraints.specificGpu, metrics, t, maxTemp) == Some(gpu)
  {
    assert ScoresOf([gpu], metrics, t, maxTemp).Some?;
    AllocationBest([gpu], None, metrics, t, maxTemp);
  }

  /** The limits an allocation applies: the constraint when given, else the
      thresholds in force. */
  function Limits(c: Constraints, t: ThresholdConfig): (l: (int, real))
    ensures c.minMemoryMb.None? ==> l.0 == t.minMemoryMb
    ensures c.maxUtilization.None? ==> l.1 == t.maxUtilization
    ensures c.minMemoryMb.Some? ==> l.0 == c.minMemoryMb.value
    ensures c.maxUtilization.Some? ==> l.1 == c.maxUtilization.value
  {
    (match c.minMemoryMb case Some(x) => x case None => t.minMemoryMb,
     match c.maxUtilization case Some(x) => x case None => t.maxUtilization)
  }

  // ---------------------------------------------------------------------
  // N GPUs for several tasks

  /** `allocate_gpus` once the available GPUs are known: the ids of the
      first `count` scores sorted largest first (`-1` means all, any other
      count is a Python slice bound); empty when nothing is available or
      scoring fails. */
  function Allocations(avail: seq<int>, count: int, metrics: map<int, GPUMetrics>,
                       t: ThresholdConfig, maxTemp: int): (r: seq<int>)
    ensures avail == [] ==> r == []
  {
    if avail == [] then []
    else
      var n := if count == -1 then |avail| else count;
      match ScoresOf(avail, metrics, t, maxTemp)
      case None => []
      case Some(ss) => ScoreIds(PrefixSlice(SortDesc(ss, ScoreKey), n))
  }

  /** A list without repetitions has each value at most once in its multiset. */
  lemma {:induction false} DistinctMultiset<T>(s: seq<T>)
    requires Distinct(s)
    ensures forall x :: multiset(s)[x] <= 1
  {
    if s != [] {
      var init := s[..|s| - 1];
      assert s == init + [s[|s| - 1]];
      assert Distinct(init) by {
        forall i, j | 0 <= i < j < |init| ensures init[i] != init[j] {
          assert init[i] == s[i] && init[j] == s[j];
        }
      }
      DistinctMultiset(init);
      assert s[|s| - 1] !in init by {
        forall i | 0 <= i < |init| ensures init[i] != s[|s| - 1] {
          assert init[i] == s[i];
        }
      }
    }
  }

  /** `ss` holds, in order, the scores `val` gives the GPUs of `avail`. */
  predicate ScoredBy(avail: seq<int>, ss: seq<AllocationScore>, val: int -> real)
  {
    |ss| == |avail| && forall i :: 0 <= i < |ss| ==> ss[i].gpuId == avail[i] && ss[i].score == val(avail[i])
  }

  /** A successful scoring loop scores each available GPU by `ScoreValue`. */
  lemma ScoresOfScored(avail: seq<int>, ss: seq<AllocationScore>, metrics: map<int, GPUMetrics>,
                       t: ThresholdConfig, maxTemp: int)
    requires ScoresOf(avail, metrics, t, maxTemp) == Some(ss)
    ensures ScoredBy(avail, ss, g => ScoreValue(g, metrics, t, maxTemp))
  {
  }

  /** The first `n` of the scores sorted largest first. */
  function Top(ss: seq<AllocationScore>, n: int): seq<AllocationScore>
  {
    PrefixSlice(SortDesc(ss, ScoreKey), n)
  }

  /** Each sorted score is the score of an available GPU. */
  lemma SortedMembers(avail: seq<int>, ss: seq<AllocationScore>, val: int -> real)
    requires ScoredBy(avail, ss, val)
    ensures forall i :: 0 <= i < |SortDesc(ss, ScoreKey)| ==>
              SortDesc(ss, ScoreKey)[i].gpuId in avail && SortDesc(ss, ScoreKey)[i].score == val(SortDesc(ss, ScoreKey)[i].gpuId)
  {
    var sorted := SortDesc(ss, ScoreKey);
    forall i | 0 <= i < |sorted|
      ensures sorted[i].gpuId in avail && sorted[i].score == val(sorted[i].gpuId)
    {
      assert sorted[i] in multiset(ss) by { assert sorted[i] in multiset(sorted); }
      var k :| 0 <= k < |ss| && ss[k] == sorted[i];
      assert sorted[i].gpuId == avail[k];
    }
  }

  /** Every available GPU has its score among the sorted scores. */
  lemma SortedCovers(avail: seq<int>, ss: seq<AllocationScore>, val: int -> real)
    requires ScoredBy(avail, ss, val)
    ensures forall g :: g in avail ==> g in ScoreIds(SortDesc(ss, ScoreKey))
  {
    var sorted := SortDesc(ss, ScoreKey);
    var ids := ScoreIds(sorted);
    forall g | g in avail ensures g in ids {
      var k :| 0 <= k < |avail| && avail[k] == g;
      assert ss[k] in multiset(sorted) by { assert ss[k] in multiset(ss); }
      var j :| 0 <= j < |sorted| && sorted[j] == ss[k];
      assert ids[j] == g;
    }
  }

  /** The sorted scores are of different GPUs. */
  lemma SortedIdsDistinct(avail: seq<int>, ss: seq<AllocationScore>, val: int -> real)
    requires StrictlyAscending(avail)
    requires ScoredBy(avail, ss, val)
    ensures Distinct(ScoreIds(SortDesc(ss, ScoreKey)))
  {
    var sorted := SortDesc(ss, ScoreKey);
    assert Distinct(ss) by {
      forall i, j | 0 <= i < j < |ss| ensures ss[i] != ss[j] {
        assert ss[i].gpuId == avail[i] && ss[j].gpuId == avail[j];
      }
    }
    DistinctMultiset(ss);
    MultisetDistinct(sorted);
    var ids := ScoreIds(sorted);
    forall a, b | 0 <= a < b < |ids| ensures ids[a] != ids[b] {
      if ids[a] == ids[b] {
        assert sorted[a] in multiset(sorted) && sorted[b] in multiset(sorted);
        SameIdSameScore(avail, ss, val, sorted[a], sorted[b]);
        assert false;
      }
    }
  }

  /** Two scores of the list with the same GPU are the same score. */
  lemma SameIdSameScore(avail: seq<int>, ss: seq<AllocationScore>, val: int -> real,
                        x: AllocationScore, y: AllocationScore)
    requires StrictlyAscending(avail)
    requires ScoredBy(avail, ss, val)
    requires x in multiset(ss) && y in multiset(ss) && x.gpuId == y.gpuId
    ensures x == y
  {
    assert x in ss && y in ss;
    var i :| 0 <= i < |ss| && ss[i] == x;
    var j :| 0 <= j < |ss| && ss[j] == y;
    assert ss[i].gpuId == avail[i] && ss[j].gpuId == avail[j];
  }

  /** The ids of the top `n` scores are distinct available GPUs. */
  lemma TopChosen(avail: seq<int>, ss: seq<AllocationScore>, val: int -> real, n: int)
    requires StrictlyAscending(avail)
    requires ScoredBy(avail, ss, val)
    ensures Distinct(ScoreIds(Top(ss, n)))
    ensures forall g :: g in ScoreIds(Top(ss, n)) ==> g in avail
  {
    var sorted := SortDesc(ss, ScoreKey);
    SortedMembers(avail, ss, val);
    SortedIdsDistinct(avail, ss, val);
    var p := Top(ss, n);
    var r := ScoreIds(p);
    var ids := ScoreIds(sorted);
    assert forall i :: 0 <= i < |p| ==> p[i] == sorted[i];
    forall a, b | 0 <= a < b < |r| ensures r[a] != r[b] {
      assert r[a] == ids[a] && r[b] == ids[b];
    }
    forall i | 0 <= i < |r| ensures r[i] in avail {
      assert r[i] == sorted[i].gpuId;
    }
  }

  /** The ids of the top `n` scores come in non-increasing score order, and
      no GPU left out scores more than one taken. */
  lemma TopRanked(avail: seq<int>, ss: seq<AllocationScore>, val: int -> real, n: int)
    requires ScoredBy(avail, ss, val)
    ensures var r := ScoreIds(Top(ss, n));
      && (forall i, j :: 0 <= i < j < |r| ==> val(r[i]) >= val(r[j]))
      && (forall g, h :: g in avail && g !in r && h in r ==> val(g) <= val(h))
  {
    var sorted := SortDesc(ss, ScoreKey);
    SortDescSorted(ss, ScoreKey);
    SortedMembers(avail, ss, val);
    SortedCovers(avail, ss, val);
    var p := Top(ss, n);
    var r := ScoreIds(p);
    assert forall i :: 0 <= i < |p| ==> p[i] == sorted[i];
    forall i | 0 <= i < |r| ensures val(r[i]) == sorted[i].score {
      assert r[i] == sorted[i].gpuId;
    }
    forall i, j | 0 <= i < j < |r| ensures val(r[i]) >= val(r[j]) {
      assert ScoreKey(sorted[i]) >= ScoreKey(sorted[j]);
    }
    forall g, h | g in avail && g !in r && h in r ensures val(g) <= val(h) {
      var j :| 0 <= j < |sorted| && ScoreIds(sorted)[j] == g;
      var i :| 0 <= i < |r| && r[i] == h;
      assert ScoreKey(sorted[i]) >= ScoreKey(sorted[j]);
    }
  }

  /** The allocated GPUs are distinct available GPUs, as many as asked for
      (all of them for `-1`). */
  lemma AllocationsChosen(avail: seq<int>, count: int, metrics: map<int, GPUMetrics>,
                          t: ThresholdConfig, maxTemp: int)
    requires StrictlyAscending(avail)
    requires ScoresOf(avail, metrics, t, maxTemp).Some?
    ensures var r := Allocations(avail, count, metrics, t, maxTemp);
      && (count == -1 ==> |r| == |avail|)
      && (0 <= count ==> |r| == MinI(count, |avail|))
      && Distinct(r)
      && (forall g :: g in r ==> g in avail)
  {
    if avail != [] {
      var ss := ScoresOf(avail, metrics, t, maxTemp).value;
      ScoresOfScored(avail, ss, metrics, t, maxTemp);
      var n := if count == -1 then |avail| else count;
      TopChosen(avail, ss, g => ScoreValue(g, metrics, t, maxTemp), n);
      assert Allocations(avail, count, metrics, t, maxTemp) == ScoreIds(Top(ss, n));
    }
  }

  /** The allocated GPUs come in non-increasing score order, and no GPU
      left out scores more than one taken. */
  lemma AllocationsRanked(avail: seq<int>, count: int, metrics: map<int, GPUMetrics>,
                          t: ThresholdConfig, maxTemp: int)
    requires ScoresOf(avail, metrics, t, maxTemp).Some?
    ensures var r := Allocations(avail, count, metrics, t, maxTemp);
      && (forall i, j :: 0 <= i < j < |r| ==> ScoreValue(r[i], metrics, t, maxTemp) >= ScoreValue(r[j], metrics, t, maxTemp))
      && (forall g, h :: g in avail && g !in r && h in r ==> ScoreValue(g, metrics, t, maxTemp) <= ScoreValue(h, metrics, t, maxTemp))
  {
    if avail != [] {
      var ss := ScoresOf(avail, metrics, t, maxTemp).value;
      ScoresOfScored(avail, ss, metrics, t, maxTemp);
      var n := if count == -1 then |avail| else count;
      TopRanked(avail, ss, g => ScoreValue(g, metrics, t, maxTemp), n);
      assert Allocations(avail, count, metrics, t, maxTemp) == ScoreIds(Top(ss, n));
    }
  }

  // ---------------------------------------------------------------------
  // Recommendation for a batch of tasks

  /** The strategy names `none`, `spread`, `balanced`, `concentrate` and `error`. */
  datatype Strategy = NoGpu | Spread | Balanced | Concentrate | Failed

  datatype Recommendation = Recommendation(strategy: Strategy, gpuIds: seq<int>)

  /** `recommend_allocation` once the available GPUs are known: spread over the
      first `numTasks` GPUs in id order when there are enough; use all of them
      for up to two tasks each; otherwise concentrate on the best half (at
      least one) by score. */
  function Recommended(avail: seq<int>, numTasks: int, metrics: map<int, GPUMetrics>,
                       t: ThresholdConfig, maxTemp: int): (r: Recommendation)
  {
    var n := |avail|;
    if n == 0 then Recommendation(NoGpu, [])
    else if numTasks <= n then Recommendation(Spread, PrefixSlice(avail, numTasks))
    else if numTasks <= 2 * n then Recommendation(Balanced, avail)
    else Concentrated(avail, metrics, t, maxTemp)
  }

  /** The many-tasks branch: the top `max(1, n // 2)` scores, or a failure. */
  function Concentrated(avail: seq<int>, metrics: map<int, GPUMetrics>,
                        t: ThresholdConfig, maxTemp: int): Recommendation
  {
    match ScoresOf(avail, metrics, t, maxTemp)
    case None => Recommendation(Failed, [])
    case Some(ss) => Recommendation(Concentrate, ScoreIds(PrefixSlice(SortDesc(ss, ScoreKey), MaxI(1, |avail| / 2))))
  }

  /** The strategy follows the number of tasks per available GPU; the
      concentrated choice is the top `max(1, n // 2)` allocation. */
  lemma RecommendedSpec(avail: seq<int>, numTasks: int, metrics: map<int, GPUMetrics>,
                        t: ThresholdConfig, maxTemp: int)
    requires StrictlyAscending(avail)
    ensures var r := Recommended(avail, numTasks, metrics, t, maxTemp);
      var n := |avail|;
      && (r.strategy == NoGpu <==> n == 0)
      && (r.strategy == Spread <==> 0 < n && numTasks <= n)
      && (r.strategy == Balanced <==> 0 < n && n < numTasks <= 2 * n)
      && (r.strategy == Concentrate ==> 2 * n < numTasks)
      && (r.strategy == Failed <==> 0 < n && 2 * n < numTasks && ScoresOf(avail, metrics, t, maxTemp).None?)
      && (r.strategy == Spread && 0 <= numTasks ==> r.gpuIds == avail[..numTasks])
      && (r.strategy == Balanced ==> r.gpuIds == avail)
      && (r.strategy == Concentrate ==> r.gpuIds == Allocations(avail, MaxI(1, n / 2), metrics, t, maxTemp)
                                        && |r.gpuIds| == MaxI(1, n / 2))
  {
    var n := |avail|;
    if n > 0 && numTasks > 2 * n && ScoresOf(avail, metrics, t, maxTemp).Some? {
      AllocationsChosen(avail, MaxI(1, n / 2), metrics, t, maxTemp);
    }
  }

  /** Eight tasks on three available GPUs concentrate on the single best one. */
  lemma RecommendedExample(avail: seq<int>, metrics: map<int, GPUMetrics>, t: ThresholdConfig, maxTemp: int)
    requires StrictlyAscending(avail) && |avail| == 3
    requires ScoresOf(avail, metrics, t, maxTemp).Some?
    ensures Recommended(avail, 8, metrics, t, maxTemp).strategy == Concentrate
    ensures |Recommended(avail, 8, metrics, t, maxTemp).gpuIds| == 1
  {
    RecommendedSpec(avail, 8, metrics, t, maxTemp);
  }

  // ---------------------------------------------------------------------
  // The available GPUs as a list

  lemma {:induction false} SetHasMinimum(s: set<int>)
    requires s != {}
    ensures exists m :: m in s && forall y :: y in s ==> m <= y
    decreases |s|
  {
    NonEmptyHasMember(s);
    var x :| x in s;
    if s != {x} {
      SetHasMinimum(s - {x});
      var m :| m in s - {x} && forall y :: y in s - {x} ==> m <= y;
      var low := if x < m then x else m;
      forall y | y in s ensures low <= y {
        if y != x { assert y in s - {x}; }
      }
      assert low in s;
    } else {
      forall y | y in s ensures x <= y {
        assert y in {x};
      }
    }
  }

  /** The members of a set of ids in ascending order, which is what
      `get_available_gpus` returns. */
  ghost function AscendingIds(s: set<int>): (r: seq<int>)
    ensures StrictlyAscending(r)
    ensures forall x :: x in r <==> x in s
    decreases |s|
  {
    if s == {} then []
    else
      SetHasMinimum(s);
      var m :| m in s && forall y :: y in s ==> m <= y;
      var rest := AscendingIds(s - {m});
      assert forall i :: 0 <= i < |rest| ==> m < rest[i] by {
        forall i | 0 <= i < |rest| ensures m < rest[i] {
          assert rest[i] in rest;
        }
      }
      [m] + rest
  }

  // ---------------------------------------------------------------------
  // The scheduler

  class TaskScheduler {
    const config: Config
    const store: Store
    const thresholds: ThresholdManager

    constructor (config: Config, store: Store)
      ensures this.config == config && this.store == store && Valid()
    {
      this.config := config;
      this.store := store;
      thresholds := new ThresholdManager(config, store);
    }

    /** The scheduler and its threshold manager share the configuration and the store. */
    predicate Valid()
    {
      thresholds.store == store && thresholds.config == config
    }

    /** The published metrics as a reader sees them (none when unreachable). */
    function Published(): map<int, GPUMetrics>
      reads store`online, store`metrics
    {
      if store.online then store.metrics else map[]
    }

    /** The GPUs `get_available_gpus` returns for the given limits. */
    ghost function AvailableNow(l: (int, real)): seq<int>
      reads store`online, store`metrics
    {
      if store.online then AscendingIds(AvailableSet(store.metrics, l.0, l.1)) else []
    }

    /** `get_gpu_metrics`: the GPU's published metrics, if any. */
    method GetGpuMetrics(gpu: int) returns (m: Option<GPUMetrics>)
      ensures m == MetricsAt(Published(), gpu)
    {
      if store.online && gpu in store.metrics {
        m := Some(store.metrics[gpu]);
      } else {
        m := None;
      }
    }

    /** `score_gpu` under the thresholds `t`. */
    method ScoreGpu(gpu: int, t: ThresholdConfig) returns (s: Option<AllocationScore>)
      ensures s == ScoreOf(gpu, MetricsAt(Published(), gpu), t, config.thresholds.maxTemperature)
    {
      var m := GetGpuMetrics(gpu);
      s := ScoreOf(gpu, m, t, config.thresholds.maxTemperature);
    }

    /** The scoring loop shared by the allocations: stops at the first
        failing score. */
    method ScoreAll(ids: seq<int>, t: ThresholdConfig) returns (ss: Option<seq<AllocationScore>>)
      ensures ss == ScoresOf(ids, Published(), t, config.thresholds.maxTemperature)
    {
      var acc: seq<AllocationScore> := [];
      var i := 0;
      while i < |ids|
        invariant 0 <= i <= |ids|
        invariant ScoresOf(ids[..i], Published(), t, config.thresholds.maxTemperature) == Some(acc)
      {
        var s := ScoreGpu(ids[i], t);
        assert ids[..i + 1][..i] == ids[..i];
        if s.None? {
          ScoresOfNone(ids, i, Published(), t, config.thresholds.maxTemperature);
          return None;
        }
        acc := acc + [s.value];
        i := i + 1;
      }
      assert ids[..i] == ids;
      ss := Some(acc);
    }

    /** `get_available_gpus` for the given limits. */
    method Available(l: (int, real)) returns (avail: seq<int>)
      ensures avail == AvailableNow(l)
    {
      avail := GetAvailableGpus(store, l.0, l.1);
      if store.online {
        StrictlyAscendingUnique(avail, AscendingIds(AvailableSet(store.metrics, l.0, l.1)));
      }
    }

    /** `allocate_gpu(task_type, constraints)`. The thresholds are read once;
        re-reading them for every score gives the same value (`AdaptiveStable`). */
    method AllocateGpu(c: Constraints, gpuCount: int, hour: int, now: real) returns (r: Option<int>)
      requires Valid()
      modifies store`thresholds
      ensures var t := old(thresholds.AdaptiveResult(gpuCount, hour, now));
        r == Allocation(AvailableNow(Limits(c, t)), c.specificGpu, Published(), t, config.thresholds.maxTemperature)
      ensures store.thresholds == old(thresholds.AdaptiveStore(gpuCount, hour, now))
    {
      var t := thresholds.GetAdaptiveThresholds(gpuCount, hour, now);
      var avail := Available(Limits(c, t));
      if avail == [] {
        return None;
      }
      if c.specificGpu.Some? && c.specificGpu.value in avail {
        return c.specificGpu;
      }
      var ss := ScoreAll(avail, t);
      if ss.None? {
        return None;
      }
      var sorted := SortDesc(ss.value, ScoreKey);
      r := Some(sorted[0].gpuId);
    }

    /** `allocate_gpus(task_type, count, constraints)`. */
    method AllocateGpus(c: Constraints, count: int, gpuCount: int, hour: int, now: real) returns (ids: seq<int>)
      requires Valid()
      modifies store`thresholds
      ensures var t := old(thresholds.AdaptiveResult(gpuCount, hour, now));
        ids == Allocations(AvailableNow(Limits(c, t)), count, Published(), t, config.thresholds.maxTemperature)
      ensures store.thresholds == old(thresholds.AdaptiveStore(gpuCount, hour, now))
    {
      var t := thresholds.GetAdaptiveThresholds(gpuCount, hour, now);
      ids := AllocateUnder(c, count, t);
    }

    /** The part of `allocate_gpus` after the thresholds are read: filter,
        score, sort and take the first `count` (all of them for -1). */
    method AllocateUnder(c: Constraints, count: int, t: ThresholdConfig) returns (ids: seq<int>)
      requires Valid()
      ensures ids == Allocations(AvailableNow(Limits(c, t)), count, Published(), t, config.thresholds.maxTemperature)
    {
      var avail := Available(Limits(c, t));
      if avail == [] {
        return [];
      }
      var n := if count == -1 then |avail| else count;
      var ss := ScoreAll(avail, t);
      if ss.None? {
        return [];
      }
      var sorted := SortDesc(ss.value, ScoreKey);
      ids := ScoreIds(PrefixSlice(sorted, n));
    }

    /** `recommend_allocation(task_type, num_tasks)`: availability uses the
        configured limits; only the concentrate branch scores (and so reads
        the adaptive thresholds). */
    method RecommendAllocation(numTasks: int, gpuCount: int, hour: int, now: real) returns (rec: Recommendation)
      requires Valid()
      modifies store`thresholds
      ensures var t := old(thresholds.AdaptiveResult(gpuCount, hour, now));
        var l := (config.thresholds.minMemoryMb, config.thresholds.maxUtilization);
        rec == Recommended(AvailableNow(l), numTasks, Published(), t, config.thresholds.maxTemperature)
      ensures var n := |old(AvailableNow((config.thresholds.minMemoryMb, config.thresholds.maxUtilization)))|;
        store.thresholds == if n > 0 && numTasks > 2 * n then old(thresholds.AdaptiveStore(gpuCount, hour, now))
                            else old(store.thresholds)
    {
      var l := (config.thresholds.minMemoryMb, config.thresholds.maxUtilization);
      var avail := Available(l);
      var n := |avail|;
      if n == 0 {
        return Recommendation(NoGpu, []);
      }
      if numTasks <= n {
        return Recommendation(Spread, PrefixSlice(avail, numTasks));
      }
      if numTasks <= 2 * n {
        return Recommendation(Balanced, avail);
      }
      ghost var pub, t := Published(), thresholds.AdaptiveResult(gpuCount, hour, now);
      rec := ConcentrateTasks(avail, gpuCount, hour, now);
      assert rec == Concentrated(avail, pub, t, config.thresholds.maxTemperature);
      assert AvailableNow(l) == avail && Published() == pub;
    }

    /** The scoring half of `recommend_allocation`, under adaptive thresholds. */
    method ConcentrateTasks(avail: seq<int>, gpuCount: int, hour: int, now: real) returns (rec: Recommendation)
      requires Valid()
      modifies store`thresholds
      ensures var t := old(thresholds.AdaptiveResult(gpuCount, hour, now));
        rec == Concentrated(avail, old(Published()), t, config.thresholds.maxTemperature)
      ensures store.thresholds == old(thresholds.AdaptiveStore(gpuCount, hour, now))
    {
      ghost var pub := Published();
      var t := thresholds.GetAdaptiveThresholds(gpuCount, hour, now);
      assert Published() == pub;
      var ss := ScoreAll(avail, t);
      if ss.None? {
        return Recommendation(Failed, []);
      }
      var sorted := SortDesc(ss.value, ScoreKey);
      rec := Recommendation(Concentrate, ScoreIds(PrefixSlice(sorted, MaxI(1, |avail| / 2))));
    }
  }

  /** A failing score at position `i` after `i` successful ones makes the
      whole scoring fail. */
  lemma ScoresOfNone(ids: seq<int>, i: int, metrics: map<int, GPUMetrics>, t: ThresholdConfig, maxTemp: int)
    requires 0 <= i < |ids|
    requires ScoresOf(ids[..i], metrics, t, maxTemp).Some?
    requires ScoreOf(ids[i], MetricsAt(metrics, ids[i]), t, maxTemp).None?
    ensures ScoresOf(ids, metrics, t, maxTemp).None?
    decreases |ids| - i
  {
    assert ids[..i + 1][..i] == ids[..i];
    if i + 1 < |ids| {
      assert ScoresOf(ids[..i + 1], metrics, t, maxTemp).None?;
      ScoresOfNonePrefix(ids, i + 1, metrics, t, maxTemp);
    } else {
      assert ids[..i + 1] == ids;
    }
  }

  /** Scoring a longer list fails when scoring a prefix fails. */
  lemma {:induction false} ScoresOfNonePrefix(ids: seq<int>, k: int, metrics: map<int, GPUMetrics>, t: ThresholdConfig, maxTemp: int)
    requires 0 <= k <= |ids|
    requires ScoresOf(ids[..k], metrics, t, maxTemp).None?
    ensures ScoresOf(ids, metrics, t, maxTemp).None?
    decreases |ids| - k
  {
    if k == |ids| {
      assert ids[..k] == ids;
    } else {
      assert ids[..k + 1][..k] == ids[..k];
      ScoresOfNonePrefix(ids, k + 1, metrics, t, maxTemp);
    }
  }
}

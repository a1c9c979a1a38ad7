/** The GPU monitor: one round collects every GPU's metrics from the query
    output, publishes them, and replaces the published set of available GPUs.
    What the queries print for a GPU is an input (`GpuReadings`), and so is the
    clock reading of the round. */
module GpuMonitor {
  import opened Common
  import opened Text
  import opened Model
  import opened Utils
  import opened Store

  /** What the per-GPU queries printed: used and total memory, utilization,
      temperature, name and the process list. */
  datatype GpuReadings = GpuReadings(
    memoryUsed: string,
    memoryTotal: string,
    utilization: string,
    temperature: string,
    name: string,
    processes: string)

  /** `collect_gpu_metrics`: every helper catches its own failures, so a
      record is always produced. */
  function CollectGpuMetrics(config: Config, gpuId: int, rd: GpuReadings, now: real): (r: GPUMetrics)
    ensures r.gpuId == gpuId && r.timestamp == now && r.powerUsage == 0
    ensures r.memoryFree == r.memoryTotal - r.memoryUsed
    ensures GpuMemory(rd.memoryUsed, rd.memoryTotal) == MemoryInfo(r.memoryUsed, r.memoryTotal, r.memoryFree)
    ensures r.utilization == GpuUtilization(rd.utilization)
    ensures !config.enableTemperature ==> r.temperature == 0
    ensures config.enableTemperature ==> r.temperature == GpuTemperature(rd.temperature)
    ensures r.numProcesses == |ProcessesOnGpu(rd.processes)|
    ensures r.name == GpuName(rd.name, gpuId)
  {
    var memory := GpuMemory(rd.memoryUsed, rd.memoryTotal);
    GPUMetrics(
      gpuId, GpuName(rd.name, gpuId), GpuUtilization(rd.utilization),
      memory.used, memory.total, memory.free,
      if config.enableTemperature then GpuTemperature(rd.temperature) else 0,
      0, |ProcessesOnGpu(rd.processes)|, now)
  }

  /** A GPU whose queries print plain numbers is recorded with exactly those
      numbers. */
  lemma CollectOfNumbers(config: Config, gpuId: int, used: int, total: int, util: nat, temp: int, ps: seq<GpuProcess>)
    requires config.enableTemperature
    requires |ps| > 0
    requires forall i :: 0 <= i < |ps| ==> ',' !in ps[i].name && '\n' !in ps[i].name
    ensures var m := CollectGpuMetrics(config, gpuId,
              GpuReadings(IntToString(used), IntToString(total), NatToString(util),
                          IntToString(temp), "A100", Join(ProcessLinesOf(ps), '\n')), 1.0);
            m.memoryUsed == used && m.memoryTotal == total && m.memoryFree == total - used
            && m.utilization == util as real && m.temperature == temp
            && m.numProcesses == |ps| && m.name == "A100"
  {
    GpuMemoryOfNumbers(used, total);
    GpuUtilizationOfNumber(util);
    IntToStringRoundTrip(temp);
    ProcessesRoundTrip(ps);
  }

  /** The metrics dictionary of `collect_all_gpus` for `count` GPUs: one
      record per id 0, 1, ..., count - 1, in that order; none when the count
      is not positive. */
  function CollectedMetrics(config: Config, count: int, readings: int -> GpuReadings, now: real): (r: MetricsDict)
    ensures |r| == if count > 0 then count else 0
    decreases count
  {
    if count <= 0 then []
    else CollectedMetrics(config, count - 1, readings, now)
         + [CollectGpuMetrics(config, count - 1, readings(count - 1), now)]
  }

  /** Record i is the record of GPU i and carries id i, so no id appears
      twice. */
  lemma {:induction false} CollectedMetricsSpec(config: Config, count: int, readings: int -> GpuReadings, now: real)
    ensures forall i :: 0 <= i < |CollectedMetrics(config, count, readings, now)| ==>
              CollectedMetrics(config, count, readings, now)[i] == CollectGpuMetrics(config, i, readings(i), now)
    ensures forall i :: 0 <= i < |CollectedMetrics(config, count, readings, now)| ==>
              CollectedMetrics(config, count, readings, now)[i].gpuId == i
    ensures UniqueIds(CollectedMetrics(config, count, readings, now))
    decreases count
  {
    if count > 0 {
      CollectedMetricsSpec(config, count - 1, readings, now);
      var init, r := CollectedMetrics(config, count - 1, readings, now), CollectedMetrics(config, count, readings, now);
      assert r == init + [CollectGpuMetrics(config, count - 1, readings(count - 1), now)];
      forall i | 0 <= i < |r| ensures r[i] == CollectGpuMetrics(config, i, readings(i), now) {
        if i < |init| {
          assert r[i] == init[i];
        }
      }
    }
  }

  /** The ids that pass the availability test, in dictionary order. */
  function AvailableIds(ms: MetricsDict, minMemory: int, maxUtil: real): (r: seq<int>)
    ensures |r| <= |ms|
    ensures forall g :: g in r <==>
              exists i :: 0 <= i < |ms| && ms[i].gpuId == g && Available(ms[i], minMemory, maxUtil)
  {
    if ms == [] then []
    else
      var init := ms[..|ms| - 1];
      var last := ms[|ms| - 1];
      var r := AvailableIds(init, minMemory, maxUtil) + (if Available(last, minMemory, maxUtil) then [last.gpuId] else []);
      assert forall i :: 0 <= i < |init| ==> init[i] == ms[i];
      r
  }

  /** Order is kept: the available ids are the ids of the available records. */
  lemma {:induction false} AvailableIdsInOrder(ms: MetricsDict, minMemory: int, maxUtil: real)
    ensures AvailableIds(ms, minMemory, maxUtil) == Ids(Filter(ms, (m: GPUMetrics) => Available(m, minMemory, maxUtil)))
  {
    var p := (m: GPUMetrics) => Available(m, minMemory, maxUtil);
    if ms != [] {
      var init := ms[..|ms| - 1];
      var last := ms[|ms| - 1];
      AvailableIdsInOrder(init, minMemory, maxUtil);
      assert ms == init + [last];
      FilterAppend(init, last, p);
      var f := Filter(init, p);
      var tail := if p(last) then [last] else [];
      assert Ids(f + tail) == Ids(f) + Ids(tail) by {
        IdsAppend(f, tail);
      }
    }
  }

  lemma IdsAppend(a: MetricsDict, b: MetricsDict)
    ensures Ids(a + b) == Ids(a) + Ids(b)
  {
    var l, r := Ids(a + b), Ids(a) + Ids(b);
    assert |l| == |r|;
    forall i | 0 <= i < |l| ensures l[i] == r[i] {
      if i < |a| { assert (a + b)[i] == a[i]; } else { assert (a + b)[i] == b[i - |a|]; }
    }
  }

  /** The metrics table after publishing every record of `ms` in order. */
  function Published(table: map<int, GPUMetrics>, ms: MetricsDict, ttl: int): map<int, GPUMetrics>
  {
    if ms == [] then table
    else
      var t := Published(table, ms[..|ms| - 1], ttl);
      var m := ms[|ms| - 1];
      if ttl > 0 then t[m.gpuId := m] else t - {m.gpuId}
  }

  /** The expiry table after publishing every record of `ms` in order. */
  function PublishedTtl(table: map<int, int>, ms: MetricsDict, ttl: int): map<int, int>
  {
    if ms == [] then table
    else
      var t := PublishedTtl(table, ms[..|ms| - 1], ttl);
      var m := ms[|ms| - 1];
      if ttl > 0 then t[m.gpuId := ttl] else t - {m.gpuId}
  }

  lemma IdsSnoc(ms: MetricsDict)
    requires ms != []
    ensures Ids(ms) == Ids(ms[..|ms| - 1]) + [ms[|ms| - 1].gpuId]
  {
  }

  /** After publishing, every published GPU holds its record, or, with an
      expiry that is not positive, has no key. */
  lemma {:induction false} PublishedValues(table: map<int, GPUMetrics>, ms: MetricsDict, ttl: int)
    requires UniqueIds(ms)
    ensures forall i :: 0 <= i < |ms| ==>
              (ttl > 0 ==> ms[i].gpuId in Published(table, ms, ttl) && Published(table, ms, ttl)[ms[i].gpuId] == ms[i])
              && (ttl <= 0 ==> ms[i].gpuId !in Published(table, ms, ttl))
  {
    if ms != [] {
      var init := ms[..|ms| - 1];
      var m := ms[|ms| - 1];
      assert forall i :: 0 <= i < |init| ==> init[i] == ms[i];
      assert UniqueIds(init);
      PublishedValues(table, init, ttl);
      assert forall i :: 0 <= i < |init| ==> init[i].gpuId != m.gpuId;
    }
  }

  /** Publishing touches no GPU outside `ms`, and adds no key outside it. */
  lemma {:induction false} PublishedOthers(table: map<int, GPUMetrics>, ms: MetricsDict, ttl: int)
    ensures forall g :: g in table && g !in Ids(ms) ==>
              g in Published(table, ms, ttl) && Published(table, ms, ttl)[g] == table[g]
    ensures forall g :: g in Published(table, ms, ttl) ==> g in table || g in Ids(ms)
  {
    if ms != [] {
      var init := ms[..|ms| - 1];
      PublishedOthers(table, init, ttl);
      IdsSnoc(ms);
    }
  }

  /** What `get_available_gpus` reads back for a GPU just published with a
      positive expiry is what the monitor computed for it. */
  lemma PublishedThenAvailable(table: map<int, GPUMetrics>, ms: MetricsDict, ttl: int, minMemory: int, maxUtil: real)
    requires UniqueIds(ms) && ttl > 0
    ensures forall i :: 0 <= i < |ms| ==>
              (ms[i].gpuId in AvailableSet(Published(table, ms, ttl), minMemory, maxUtil)
               <==> ms[i].gpuId in AvailableIds(ms, minMemory, maxUtil))
  {
    PublishedValues(table, ms, ttl);
  }

  /** The outcome of a call: a value, or an exception that escapes it. */
  datatype Outcome<T> = Returned(value: T) | Raised

  /** `monitor_once` as written: the summary it logs after publishing names a
      variable that is never defined, so every round that collected something
      ends in a NameError instead of returning the metrics. */
  function MonitorOnceAsWritten(ms: MetricsDict): (r: Outcome<MetricsDict>)
    ensures r.Returned? <==> ms == []
    ensures r.Returned? ==> r.value == ms
  {
    if ms == [] then Returned(ms) else Raised
  }

  /** On a machine with one GPU, the round as written raises where the
      intended round returns the GPU's record. */
  lemma MonitorOnceAsWrittenRaises(config: Config, readings: int -> GpuReadings, now: real)
    ensures |CollectedMetrics(config, 1, readings, now)| == 1
    ensures MonitorOnceAsWritten(CollectedMetrics(config, 1, readings, now)) == Raised
  {
  }

  class GPUMonitor {
    const config: Config
    const store: Store
    var running: bool
    var gpuCount: int

    constructor (config: Config, store: Store)
      ensures this.config == config && this.store == store
      ensures !running && gpuCount == 0
    {
      this.config := config;
      this.store := store;
      running := false;
      gpuCount := 0;
    }

    /** `collect_all_gpus`: records the detected count and collects every GPU. */
    method CollectAllGpus(countOutput: string, readings: int -> GpuReadings, now: real) returns (ms: MetricsDict)
      modifies this`gpuCount
      ensures gpuCount == GpuCount(countOutput)
      ensures ms == CollectedMetrics(config, gpuCount, readings, now)
    {
      gpuCount := GpuCount(countOutput);
      ms := [];
      if gpuCount == 0 {
        return;
      }
      var id := 0;
      while id < gpuCount
        invariant 0 <= id && (id <= gpuCount || id == 0)
        invariant ms == CollectedMetrics(config, id, readings, now)
      {
        var m := CollectGpuMetrics(config, id, readings(id), now);
        ms := ms + [m];
        id := id + 1;
      }
    }

    /** `publish_metrics`: publishes every record and reports whether every
        publish succeeded. */
    method PublishMetrics(ms: MetricsDict) returns (allSuccess: bool)
      modifies store`metrics, store`metricsTtl
      ensures allSuccess <==> store.online || ms == []
      ensures store.online ==>
                store.metrics == Published(old(store.metrics), ms, config.metricsTtl)
                && store.metricsTtl == PublishedTtl(old(store.metricsTtl), ms, config.metricsTtl)
      ensures !store.online ==> unchanged(store`metrics, store`metricsTtl)
    {
      allSuccess := true;
      var i := 0;
      while i < |ms|
        invariant 0 <= i <= |ms|
        invariant allSuccess <==> store.online || i == 0
        invariant store.online ==>
                    store.metrics == Published(old(store.metrics), ms[..i], config.metricsTtl)
                    && store.metricsTtl == PublishedTtl(old(store.metricsTtl), ms[..i], config.metricsTtl)
        invariant !store.online ==> unchanged(store`metrics, store`metricsTtl)
      {
        assert ms[..i + 1][..i] == ms[..i];
        var success := PublishGpuMetrics(store, ms[i], config.metricsTtl);
        if !success {
          allSuccess := false;
        }
        i := i + 1;
      }
      assert ms[..|ms|] == ms;
    }

    /** `update_available_gpus`: the ids passing the test under the configured
        thresholds, in dictionary order, whether or not publishing succeeded.
        A non-empty result replaces `gpu:available` with a 15-second expiry;
        an empty one only deletes it. */
    method UpdateAvailableGpus(ms: MetricsDict) returns (available: seq<int>)
      modifies store`available, store`availableTtl
      ensures available == AvailableIds(ms, config.thresholds.minMemoryMb, config.thresholds.maxUtilization)
      ensures store.online && available != [] ==>
                store.available == (set g | g in available) && store.availableTtl == Some(15)
      ensures store.online && available == [] ==> store.available == {} && store.availableTtl == None
      ensures !store.online ==> unchanged(store`available, store`availableTtl)
    {
      var minMemory := config.thresholds.minMemoryMb;
      var maxUtil := config.thresholds.maxUtilization;
      available := [];
      var i := 0;
      while i < |ms|
        invariant 0 <= i <= |ms|
        invariant available == AvailableIds(ms[..i], minMemory, maxUtil)
      {
        assert ms[..i + 1][..i] == ms[..i];
        if Available(ms[i], minMemory, maxUtil) {
          available := available + [ms[i].gpuId];
        }
        i := i + 1;
      }
      assert ms[..|ms|] == ms;
      if store.online {
        if available != [] {
          store.available := set g | g in available;
          store.availableTtl := Some(15);
        } else {
          store.available := {};
          store.availableTtl := None;
        }
      }
    }

    /** `monitor_once`, as intended: collect; when something was collected,
        publish it and replace the available set; return what was collected. */
    method MonitorOnce(countOutput: string, readings: int -> GpuReadings, now: real) returns (ms: MetricsDict)
      modifies this`gpuCount, store`metrics, store`metricsTtl, store`available, store`availableTtl
      ensures gpuCount == GpuCount(countOutput)
      ensures ms == CollectedMetrics(config, gpuCount, readings, now)
      ensures ms == [] || !store.online ==>
                unchanged(store`metrics, store`metricsTtl, store`available, store`availableTtl)
      ensures ms != [] && store.online ==>
                var avail := AvailableIds(ms, config.thresholds.minMemoryMb, config.thresholds.maxUtilization);
                store.metrics == Published(old(store.metrics), ms, config.metricsTtl)
                && store.metricsTtl == PublishedTtl(old(store.metricsTtl), ms, config.metricsTtl)
                && store.available == (set g | g in avail)
                && store.availableTtl == (if avail != [] then Some(15) else None)
    {
      ms := CollectAllGpus(countOutput, readings, now);
      if ms == [] {
        return;
      }
      PublishAll(ms);
    }

    /** The publishing half of `monitor_once`: the metrics, then the available set. */
    method PublishAll(ms: MetricsDict)
      modifies store`metrics, store`metricsTtl, store`available, store`availableTtl
      ensures !store.online ==> unchanged(store`metrics, store`metricsTtl, store`available, store`availableTtl)
      ensures store.online ==>
                var avail := AvailableIds(ms, config.thresholds.minMemoryMb, config.thresholds.maxUtilization);
                store.metrics == Published(old(store.metrics), ms, config.metricsTtl)
                && store.metricsTtl == PublishedTtl(old(store.metricsTtl), ms, config.metricsTtl)
                && store.available == (set g | g in avail)
                && store.availableTtl == (if avail != [] then Some(15) else None)
    {
      var _ := PublishMetrics(ms);
      ghost var published := (store.metrics, store.metricsTtl);
      var avail := UpdateAvailableGpus(ms);
      assert (store.metrics, store.metricsTtl) == published;
    }

    /** `start`: sets the running flag; a no-op when already running. */
    method Start()
      modifies this`running
      ensures running
    {
      if running {
        return;
      }
      running := true;
    }

    /** `stop`: clears the running flag; a no-op when not running. */
    method Stop()
      modifies this`running
      ensures !running
    {
      if !running {
        return;
      }
      running := false;
    }
  }
}

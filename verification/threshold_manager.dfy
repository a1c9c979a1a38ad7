/** The threshold manager: the `thresholds:current` hash, the per-GPU load
    history it collects, hourly load patterns and peak hours derived from that
    history, and the day/night adjustment of the allocation thresholds. */
module ThresholdManager {
  import opened Common
  import opened Text
  import opened Model
  import opened SortedSets
  import opened Sorting
  import opened Store

  /** The thresholds in force. */
  datatype ThresholdConfig = ThresholdConfig(
    minMemoryMb: int,
    maxUtilization: real,
    utilHigh: real,
    utilLow: real,
    adaptive: bool,
    lastAdjusted: real,
    reason: string)

  /** One hour's load statistics for one GPU. */
  datatype LoadPattern = LoadPattern(
    hour: int,
    dayOfWeek: int,
    avgUtilization: real,
    avgMemoryUsedMb: int,
    peakUtilization: real,
    sampleCount: int,
    lastUpdated: real)

  /** An hour needs this many samples to form a pattern. */
  const PatternMinSamples: nat := 5
  /** Each GPU's history index keeps at most this many samples. */
  const HistoryLimit: nat := 10000
  /** `get_adaptive_thresholds` looks at this many days of history. */
  const PatternDays: int := 7

  const DefaultReason: string := "默认配置"
  const ManualReason: string := "手动调整"

  // ---------------------------------------------------------------------
  // The thresholds hash

  /** The thresholds taken from the configuration's `thresholds` section. */
  function DefaultThresholds(config: Config): ThresholdConfig
  {
    var t := config.thresholds;
    ThresholdConfig(t.minMemoryMb, t.maxUtilization, t.utilHigh, t.utilLow, t.adaptive, 0.0, DefaultReason)
  }

  /** Python `int(v)` of a stored value; `None` where it raises. */
  function IntValue(v: HashValue): Option<int>
  {
    match v
    case Text(s) => ParseInt(s)
    case Number(_) => None
  }

  /** Python `float(v)` of a stored value, as an exact real; text is read by
      `ParseDecimal`, so `None` also for the forms it does not accept. */
  function FloatValue(v: HashValue): Option<real>
  {
    match v
    case Text(s) => ParseDecimal(s)
    case Number(x) => Some(x)
  }

  /** The hash read back as a configuration; `None` when a required field is
      missing or does not convert, which the source turns into the defaults. */
  function ParsedThresholds(h: map<string, HashValue>): Option<ThresholdConfig>
  {
    if !("min_memory_mb" in h && "max_utilization" in h && "util_high_threshold" in h
         && "util_low_threshold" in h && "adaptive" in h)
    then None
    else
      var mm := IntValue(h["min_memory_mb"]);
      var mu := FloatValue(h["max_utilization"]);
      var hi := FloatValue(h["util_high_threshold"]);
      var lo := FloatValue(h["util_low_threshold"]);
      var la := if "last_adjusted" in h then FloatValue(h["last_adjusted"]) else Some(0.0);
      var reason := if "reason" in h && h["reason"].Text? then h["reason"].text else "";
      if mm.None? || mu.None? || hi.None? || lo.None? || la.None? then None
      else Some(ThresholdConfig(mm.value, mu.value, hi.value, lo.value,
                                h["adaptive"] == Text("True"), la.value, reason))
  }

  /** `get_current_thresholds` on the hash `h` (empty when unreachable). */
  function CurrentThresholds(h: map<string, HashValue>, config: Config): (r: ThresholdConfig)
    ensures h == map[] ==> r == DefaultThresholds(config)
    ensures ParsedThresholds(h).None? ==> r == DefaultThresholds(config)
    ensures "adaptive" in h && ParsedThresholds(h).Some? ==> (r.adaptive <==> h["adaptive"] == Text("True"))
  {
    match ParsedThresholds(h)
    case Some(t) => t
    case None => DefaultThresholds(config)
  }

  /** `_save_thresholds`: HSET of every field, as the text `str` gives
      (floats exactly, the flag as 'True'/'False'). */
  function Saved(h: map<string, HashValue>, t: ThresholdConfig): (r: map<string, HashValue>)
    ensures forall k :: k in h ==> k in r
    ensures r.Keys == h.Keys + {"min_memory_mb", "max_utilization", "util_high_threshold",
                                "util_low_threshold", "adaptive", "last_adjusted", "reason"}
  {
    h["min_memory_mb" := Text(IntToString(t.minMemoryMb))]
     ["max_utilization" := Number(t.maxUtilization)]
     ["util_high_threshold" := Number(t.utilHigh)]
     ["util_low_threshold" := Number(t.utilLow)]
     ["adaptive" := Text(if t.adaptive then "True" else "False")]
     ["last_adjusted" := Number(t.lastAdjusted)]
     ["reason" := Text(t.reason)]
  }

  /** Saving and reading back gives every field unchanged, whatever the hash
      held before. */
  lemma SaveLoadRoundTrip(h: map<string, HashValue>, t: ThresholdConfig, config: Config)
    ensures CurrentThresholds(Saved(h, t), config) == t
  {
    IntToStringRoundTrip(t.minMemoryMb);
    SavedFields(h, t);
    assert Text("False") != Text("True");
    assert ParsedThresholds(Saved(h, t)) == Some(t);
  }

  /** What each saved field holds. */
  lemma SavedFields(h: map<string, HashValue>, t: ThresholdConfig)
    ensures var s := Saved(h, t);
      && s["min_memory_mb"] == Text(IntToString(t.minMemoryMb))
      && s["max_utilization"] == Number(t.maxUtilization)
      && s["util_high_threshold"] == Number(t.utilHigh)
      && s["util_low_threshold"] == Number(t.utilLow)
      && s["adaptive"] == Text(if t.adaptive then "True" else "False")
      && s["last_adjusted"] == Number(t.lastAdjusted)
      && s["reason"] == Text(t.reason)
  {
  }

  // ---------------------------------------------------------------------
  // Adaptive adjustment

  function MinR(a: real, b: real): real { if b < a then b else a }
  function MaxR(a: real, b: real): real { if b > a then b else a }
  function MinI(a: int, b: int): int { if b < a then b else a }
  function MaxI(a: int, b: int): int { if b > a then b else a }

  /** `x` limited to `[lo, hi]`. */
  function Clamp(x: real, lo: real, hi: real): real { if x < lo then lo else if x > hi then hi else x }
  function ClampI(x: int, lo: int, hi: int): int { if x < lo then lo else if x > hi then hi else x }

  /** Daytime is 8 to 20 o'clock inclusive. */
  predicate Daytime(hour: int) { 8 <= hour <= 20 }

  /** The recorded reason, without the average load that the program
      formats into it with one decimal: the model does not format floats,
      so the stored text lacks that part. */
  function AdaptiveReason(hour: int): string
  {
    (if Daytime(hour) then "白天时段(" else "夜间时段(") + IntToString(hour) + "点)，基于历史负载调整阈值"
  }

  /** The thresholds derived from the fleet's average utilization `u` and
      average memory use `m` at `hour`, after the final clamps. */
  function AdaptedThresholds(u: real, m: real, hour: int, now: real): (r: ThresholdConfig)
    ensures 70.0 <= r.utilHigh <= 95.0
    ensures 30.0 <= r.utilLow <= 60.0
    ensures 1000 <= r.minMemoryMb <= 4000
    ensures r.utilLow < r.utilHigh
    ensures r.maxUtilization == 95.0 && r.adaptive && r.lastAdjusted == now
  {
    var high := if Daytime(hour) then MinR(95.0, u + 15.0) else MinR(90.0, u + 10.0);
    var low := if Daytime(hour) then MaxR(40.0, u - 20.0) else MaxR(50.0, u - 15.0);
    var mem := if Daytime(hour) then MaxI(1500, Trunc(m * 0.2)) else MaxI(2000, Trunc(m * 0.3));
    ThresholdConfig(MaxI(1000, MinI(4000, mem)), 95.0,
                    MaxR(70.0, MinR(95.0, high)), MaxR(30.0, MinR(60.0, low)),
                    true, now, AdaptiveReason(hour))
  }

  /** The two regimes in closed form: by day the high threshold follows
      `u + 15` up to 95, the low one `u - 20` from 40 and the memory floor 20%
      of `m` from 1500; by night `u + 10` up to 90, `u - 15` from 50 and 30%
      of `m` from 2000. */
  lemma AdaptedRegimes(u: real, m: real, hour: int, now: real)
    ensures var r := AdaptedThresholds(u, m, hour, now);
      Daytime(hour) ==>
        r.utilHigh == Clamp(u + 15.0, 70.0, 95.0) && r.utilLow == Clamp(u - 20.0, 40.0, 60.0)
        && r.minMemoryMb == ClampI(Trunc(m * 0.2), 1500, 4000)
    ensures var r := AdaptedThresholds(u, m, hour, now);
      !Daytime(hour) ==>
        r.utilHigh == Clamp(u + 10.0, 70.0, 90.0) && r.utilLow == Clamp(u - 15.0, 50.0, 60.0)
        && r.minMemoryMb == ClampI(Trunc(m * 0.3), 2000, 4000)
  {
  }

  /** For the same load, the night regime asks for at least as much free
      memory and allows at most as high a utilization as the day regime. */
  lemma NightIsStricter(u: real, m: real, now: real)
    requires m >= 0.0
    ensures AdaptedThresholds(u, m, 23, now).minMemoryMb >= AdaptedThresholds(u, m, 12, now).minMemoryMb
    ensures AdaptedThresholds(u, m, 23, now).utilHigh <= AdaptedThresholds(u, m, 12, now).utilHigh
    ensures AdaptedThresholds(u, m, 23, now).utilLow >= AdaptedThresholds(u, m, 12, now).utilLow
  {
    AdaptedRegimes(u, m, 23, now);
    AdaptedRegimes(u, m, 12, now);
    assert Trunc(m * 0.3) >= Trunc(m * 0.2) by {
      assert m * 0.3 >= m * 0.2;
      assert Trunc(m * 0.3) == (m * 0.3).Floor && Trunc(m * 0.2) == (m * 0.2).Floor;
    }
  }

  /** A higher average load never lowers a threshold. */
  lemma AdaptedMonotone(u1: real, u2: real, m1: real, m2: real, hour: int, now: real)
    requires u1 <= u2 && 0.0 <= m1 <= m2
    ensures AdaptedThresholds(u1, m1, hour, now).utilHigh <= AdaptedThresholds(u2, m2, hour, now).utilHigh
    ensures AdaptedThresholds(u1, m1, hour, now).utilLow <= AdaptedThresholds(u2, m2, hour, now).utilLow
    ensures AdaptedThresholds(u1, m1, hour, now).minMemoryMb <= AdaptedThresholds(u2, m2, hour, now).minMemoryMb
  {
    AdaptedRegimes(u1, m1, hour, now);
    AdaptedRegimes(u2, m2, hour, now);
    var k := if Daytime(hour) then 0.2 else 0.3;
    assert m1 * k <= m2 * k;
    assert Trunc(m1 * k) == (m1 * k).Floor && Trunc(m2 * k) == (m2 * k).Floor;
  }

  /** The mean of a non-empty list of integers, as a float. */
  function MeanInt(s: seq<int>): real
    requires |s| > 0
  {
    (SumInt(s) as real) / (|s| as real)
  }

  function AvgUtils(ps: seq<LoadPattern>): (r: seq<real>)
    ensures |r| == |ps| && forall i :: 0 <= i < |ps| ==> r[i] == ps[i].avgUtilization
  {
    if ps == [] then [] else AvgUtils(ps[..|ps| - 1]) + [ps[|ps| - 1].avgUtilization]
  }

  function AvgMems(ps: seq<LoadPattern>): (r: seq<int>)
    ensures |r| == |ps| && forall i :: 0 <= i < |ps| ==> r[i] == ps[i].avgMemoryUsedMb
  {
    if ps == [] then [] else AvgMems(ps[..|ps| - 1]) + [ps[|ps| - 1].avgMemoryUsedMb]
  }

  /** `get_adaptive_thresholds` given the current thresholds and the patterns
      the GPUs have for the current hour. */
  function AdaptiveOutcome(cur: ThresholdConfig, loads: seq<LoadPattern>, hour: int, now: real): (r: ThresholdConfig)
    ensures !cur.adaptive || loads == [] ==> r == cur
    ensures cur.adaptive && loads != [] ==>
      r == AdaptedThresholds(Mean(AvgUtils(loads)), MeanInt(AvgMems(loads)), hour, now)
    ensures cur.adaptive && loads != [] ==>
      70.0 <= r.utilHigh <= 95.0 && 30.0 <= r.utilLow <= 60.0 && 1000 <= r.minMemoryMb <= 4000
  {
    if !cur.adaptive || loads == [] then cur
    else AdaptedThresholds(Mean(AvgUtils(loads)), MeanInt(AvgMems(loads)), hour, now)
  }

  /** Once computed and saved, the adaptive thresholds are what the next
      reader of the hash sees. */
  lemma AdaptivePersisted(h: map<string, HashValue>, config: Config, loads: seq<LoadPattern>, hour: int, now: real)
    requires CurrentThresholds(h, config).adaptive && loads != []
    ensures var r := AdaptiveOutcome(CurrentThresholds(h, config), loads, hour, now);
      CurrentThresholds(Saved(h, r), config) == r && CurrentThresholds(Saved(h, r), config).adaptive
  {
    var r := AdaptiveOutcome(CurrentThresholds(h, config), loads, hour, now);
    SaveLoadRoundTrip(h, r, config);
  }

  /** Recomputing right after a computation gives the same thresholds: the
      saved result is adaptive and reads back unchanged, and the formula does
      not depend on the previous values. */
  lemma AdaptiveStable(h: map<string, HashValue>, config: Config, loads: seq<LoadPattern>, hour: int, now: real)
    ensures var cur := CurrentThresholds(h, config);
      var r := AdaptiveOutcome(cur, loads, hour, now);
      var h2 := if cur.adaptive && loads != [] then Saved(h, r) else h;
      AdaptiveOutcome(CurrentThresholds(h2, config), loads, hour, now) == r
  {
    var cur := CurrentThresholds(h, config);
    var r := AdaptiveOutcome(cur, loads, hour, now);
    if cur.adaptive && loads != [] {
      SaveLoadRoundTrip(h, r, config);
    }
  }

  // ---------------------------------------------------------------------
  // Manual adjustment

  /** `adjust_thresholds`: each given field replaces the current one; the
      flag is `adaptive`, the time `now`. */
  function Adjusted(cur: ThresholdConfig, minMemory: Option<int>, maxUtil: Option<real>,
                    high: Option<real>, low: Option<real>, adaptive: bool,
                    reason: string, now: real): (r: ThresholdConfig)
    ensures r.minMemoryMb == (if minMemory.Some? then minMemory.value else cur.minMemoryMb)
    ensures r.maxUtilization == (if maxUtil.Some? then maxUtil.value else cur.maxUtilization)
    ensures r.utilHigh == (if high.Some? then high.value else cur.utilHigh)
    ensures r.utilLow == (if low.Some? then low.value else cur.utilLow)
    ensures r.adaptive == adaptive && r.lastAdjusted == now && r.reason == reason
  {
    ThresholdConfig(
      match minMemory case Some(v) => v case None => cur.minMemoryMb,
      match maxUtil case Some(v) => v case None => cur.maxUtilization,
      match high case Some(v) => v case None => cur.utilHigh,
      match low case Some(v) => v case None => cur.utilLow,
      adaptive, now, reason)
  }

  /** A manual adjustment that names no field changes only the time and the
      reason of what is stored. */
  lemma AdjustNothing(h: map<string, HashValue>, config: Config, reason: string, now: real)
    ensures var cur := CurrentThresholds(h, config);
      var r := CurrentThresholds(Saved(h, Adjusted(cur, None, None, None, None, cur.adaptive, reason, now)), config);
      r == cur.(lastAdjusted := now, reason := reason)
  {
    var cur := CurrentThresholds(h, config);
    SaveLoadRoundTrip(h, Adjusted(cur, None, None, None, None, cur.adaptive, reason, now), config);
  }

  function EnableReason(enabled: bool): string
  {
    (if enabled then "启用" else "禁用") + "自适应阈值"
  }

  /** `enable_adaptive` as written: a manual adjustment whose only argument
      is the reason, so the flag stays what it was. */
  function EnableAdaptiveAsWritten(cur: ThresholdConfig, enabled: bool, now: real): (r: ThresholdConfig)
    ensures r.adaptive == cur.adaptive
    ensures r == cur.(lastAdjusted := now, reason := EnableReason(enabled))
  {
    Adjusted(cur, None, None, None, None, cur.adaptive, EnableReason(enabled), now)
  }

  /** As written, disabling adaptive thresholds that are on leaves them on
      once stored and read back. */
  lemma EnableAdaptiveAsWrittenIgnoresFlag(h: map<string, HashValue>, config: Config, now: real)
    requires CurrentThresholds(h, config).adaptive
    ensures CurrentThresholds(Saved(h, EnableAdaptiveAsWritten(CurrentThresholds(h, config), false, now)), config).adaptive
  {
    SaveLoadRoundTrip(h, EnableAdaptiveAsWritten(CurrentThresholds(h, config), false, now), config);
  }

  /** `enable_adaptive` as intended: the flag becomes `enabled`, everything
      else but the time and the reason is kept. */
  function EnabledThresholds(cur: ThresholdConfig, enabled: bool, now: real): (r: ThresholdConfig)
    ensures r == cur.(adaptive := enabled, lastAdjusted := now, reason := EnableReason(enabled))
  {
    Adjusted(cur, None, None, None, None, enabled, EnableReason(enabled), now)
  }

  /** After enabling or disabling, the stored flag reads back as requested. */
  lemma EnabledThresholdsStored(h: map<string, HashValue>, config: Config, enabled: bool, now: real)
    ensures var r := CurrentThresholds(Saved(h, EnabledThresholds(CurrentThresholds(h, config), enabled, now)), config);
      r.adaptive == enabled && r.minMemoryMb == CurrentThresholds(h, config).minMemoryMb
      && r.utilHigh == CurrentThresholds(h, config).utilHigh && r.utilLow == CurrentThresholds(h, config).utilLow
  {
    SaveLoadRoundTrip(h, EnabledThresholds(CurrentThresholds(h, config), enabled, now), config);
  }

  // ---------------------------------------------------------------------
  // The load history

  /** The sorted set `load:history:{gpu}`; absent keys read as empty. */
  function HistoryOf(idx: map<int, seq<Entry<real>>>, gpu: int): seq<Entry<real>>
  {
    if gpu in idx then idx[gpu] else []
  }

  /** The detail hash `collect_metrics` writes for one GPU. */
  function SampleOf(m: GPUMetrics, now: real, hour: int, dayOfWeek: int): LoadSample
  {
    LoadSample(now, hour, dayOfWeek, m.utilization, m.memoryUsed, m.memoryTotal,
               m.memoryFree, m.temperature, m.numProcesses)
  }

  /** One GPU's index after adding the sample at `now` and trimming. */
  function Recorded(z: seq<Entry<real>>, now: real): seq<Entry<real>>
  {
    KeepTop(ZAdd(z, now, now), HistoryLimit)
  }

  /** The history indices after `collect_metrics` recorded the first `n`
      GPUs of `ms`. */
  function CollectedIndex(idx: map<int, seq<Entry<real>>>, ms: MetricsDict, n: nat, now: real): map<int, seq<Entry<real>>>
    requires n <= |ms|
  {
    if n == 0 then idx
    else RecordStep(CollectedIndex(idx, ms, n - 1, now), ms[n - 1].gpuId, now)
  }

  /** The keyspace after recording one sample of GPU `g`. */
  function RecordStep(idx: map<int, seq<Entry<real>>>, g: int, now: real): map<int, seq<Entry<real>>>
  {
    idx[g := Recorded(HistoryOf(idx, g), now)]
  }

  /** The detail hashes after `collect_metrics` recorded the first `n` GPUs
      of `ms`. */
  function CollectedDetail(detail: map<(int, int), LoadSample>, ms: MetricsDict, n: nat, now: real, hour: int, dayOfWeek: int)
    : map<(int, int), LoadSample>
    requires n <= |ms|
  {
    if n == 0 then detail
    else
      var m := ms[n - 1];
      CollectedDetail(detail, ms, n - 1, now, hour, dayOfWeek)[(m.gpuId, Trunc(now)) := SampleOf(m, now, hour, dayOfWeek)]
  }

  /** Every collected GPU has a detail hash for this second, and the detail
      hashes of other seconds are untouched. */
  lemma {:induction false} CollectedDetailSpec(detail: map<(int, int), LoadSample>, ms: MetricsDict, n: nat,
                                               now: real, hour: int, dayOfWeek: int)
    requires n <= |ms|
    ensures var r := CollectedDetail(detail, ms, n, now, hour, dayOfWeek);
      forall i :: 0 <= i < n ==> (ms[i].gpuId, Trunc(now)) in r
    ensures var r := CollectedDetail(detail, ms, n, now, hour, dayOfWeek);
      forall k :: k in detail && k.1 != Trunc(now) ==> k in r && r[k] == detail[k]
  {
    if n > 0 {
      CollectedDetailSpec(detail, ms, n - 1, now, hour, dayOfWeek);
    }
  }

  /** A sorted set is well formed and within the retention bound. */
  predicate Bounded(z: seq<Entry<real>>)
  {
    Valid(z) && |z| <= HistoryLimit
  }

  /** When no stored sample is newer than `e`, ZADD appends it. */
  lemma {:induction false} InsertByScoreAtEnd(e: Entry<real>, z: seq<Entry<real>>)
    requires forall i :: 0 <= i < |z| ==> z[i].score <= e.score
    ensures InsertByScore(e, z) == z + [e]
  {
    if z != [] {
      assert forall i :: 0 <= i < |z[1..]| ==> z[1..][i] == z[i + 1];
      InsertByScoreAtEnd(e, z[1..]);
      assert [z[0]] + (z[1..] + [e]) == z + [e];
    }
  }

  /** Recording keeps an index well formed and within 10000 entries; when no
      stored sample is newer, the new one is the latest entry kept. */
  lemma RecordedSpec(z: seq<Entry<real>>, now: real)
    requires Valid(z)
    ensures Bounded(Recorded(z, now))
    ensures (forall i :: 0 <= i < |z| ==> z[i].score <= now) ==>
      Recorded(z, now)[|Recorded(z, now)| - 1] == Entry(now, now)
  {
    ZAddValid(z, now, now);
    KeepTopSpec(ZAdd(z, now, now), HistoryLimit);
    if forall i :: 0 <= i < |z| ==> z[i].score <= now {
      var w := Without(z, now);
      assert forall i :: 0 <= i < |w| ==> w[i].score <= now by {
        forall i | 0 <= i < |w| ensures w[i].score <= now {
          assert w[i] in z;
        }
      }
      InsertByScoreAtEnd(Entry(now, now), w);
    }
  }

  /** Every index in the keyspace is well formed and bounded. */
  predicate AllBounded(idx: map<int, seq<Entry<real>>>)
  {
    forall g :: g in idx ==> Bounded(idx[g])
  }

  lemma AllBoundedUpdate(idx: map<int, seq<Entry<real>>>, g: int, z: seq<Entry<real>>)
    requires AllBounded(idx) && Bounded(z)
    ensures AllBounded(idx[g := z])
  {
  }

  lemma RecordStepBounded(idx: map<int, seq<Entry<real>>>, g: int, now: real)
    requires AllBounded(idx)
    ensures AllBounded(RecordStep(idx, g, now))
  {
    var z := HistoryOf(idx, g);
    assert Valid(z) by { if g in idx { assert Bounded(idx[g]); } }
    RecordedSpec(z, now);
    AllBoundedUpdate(idx, g, Recorded(z, now));
  }

  /** `collect_metrics` keeps every index well formed and bounded. */
  lemma {:induction false} CollectedIndexBounded(idx: map<int, seq<Entry<real>>>, ms: MetricsDict, n: nat, now: real)
    requires AllBounded(idx) && n <= |ms|
    ensures AllBounded(CollectedIndex(idx, ms, n, now))
  {
    if n > 0 {
      CollectedIndexBounded(idx, ms, n - 1, now);
      RecordStepBounded(CollectedIndex(idx, ms, n - 1, now), ms[n - 1].gpuId, now);
    }
  }

  // ---------------------------------------------------------------------
  // Hourly patterns

  /** `hour_stats[hour]`: the utilizations and memory readings of one hour. */
  datatype Bucket = Bucket(hour: int, utils: seq<real>, mems: seq<int>)

  /** Position of the bucket for `h`, or `|bs|` when there is none. */
  function Find(bs: seq<Bucket>, h: int): (i: nat)
    ensures i <= |bs|
    ensures i < |bs| ==> bs[i].hour == h
    ensures forall k :: 0 <= k < i ==> bs[k].hour != h
  {
    if bs == [] then 0
    else if bs[0].hour == h then 0
    else
      var i := Find(bs[1..], h);
      assert forall k :: 1 <= k < i + 1 ==> bs[k] == bs[1..][k - 1];
      i + 1
  }

  /** One sample appended to its hour's bucket, created on first use. */
  function AddSample(bs: seq<Bucket>, s: LoadSample): seq<Bucket>
  {
    var i := Find(bs, s.hour);
    if i == |bs| then bs + [Bucket(s.hour, [s.utilization], [s.memoryUsed])]
    else bs[i := Bucket(s.hour, bs[i].utils + [s.utilization], bs[i].mems + [s.memoryUsed])]
  }

  /** The buckets after the grouping loop, in first-appearance order. */
  function Buckets(samples: seq<LoadSample>): seq<Bucket>
  {
    if samples == [] then []
    else AddSample(Buckets(samples[..|samples| - 1]), samples[|samples| - 1])
  }

  /** The utilizations of the samples taken at hour `h`, in order. */
  function UtilsAt(samples: seq<LoadSample>, h: int): seq<real>
  {
    if samples == [] then []
    else
      var s := samples[|samples| - 1];
      UtilsAt(samples[..|samples| - 1], h) + (if s.hour == h then [s.utilization] else [])
  }

  /** The memory readings of the samples taken at hour `h`, in order. */
  function MemsAt(samples: seq<LoadSample>, h: int): (r: seq<int>)
    ensures |r| == |UtilsAt(samples, h)|
  {
    if samples == [] then []
    else
      var s := samples[|samples| - 1];
      MemsAt(samples[..|samples| - 1], h) + (if s.hour == h then [s.memoryUsed] else [])
  }

  predicate HasHour(bs: seq<Bucket>, h: int)
  {
    exists i :: 0 <= i < |bs| && bs[i].hour == h
  }

  predicate BucketHoursDistinct(bs: seq<Bucket>)
  {
    forall i, j :: 0 <= i < j < |bs| ==> bs[i].hour != bs[j].hour
  }

  /** Each bucket holds exactly the readings of its hour, and at least one. */
  ghost predicate Exact(bs: seq<Bucket>, samples: seq<LoadSample>)
  {
    forall i :: 0 <= i < |bs| ==>
      bs[i].utils == UtilsAt(samples, bs[i].hour) && bs[i].mems == MemsAt(samples, bs[i].hour)
      && bs[i].utils != []
  }

  /** Every hour that has a sample has a bucket. */
  ghost predicate Covers(bs: seq<Bucket>, samples: seq<LoadSample>)
  {
    forall h :: UtilsAt(samples, h) != [] ==> HasHour(bs, h)
  }

  /** `bs` groups `samples` by hour: each bucket holds exactly the readings
      of its hour, no hour has two buckets, and every hour that has a sample
      has a bucket. */
  ghost predicate Summarises(bs: seq<Bucket>, samples: seq<LoadSample>)
  {
    BucketHoursDistinct(bs) && Exact(bs, samples) && Covers(bs, samples)
  }

  lemma AtSnoc(samples: seq<LoadSample>, s: LoadSample, h: int)
    ensures UtilsAt(samples + [s], h) == UtilsAt(samples, h) + (if s.hour == h then [s.utilization] else [])
    ensures MemsAt(samples + [s], h) == MemsAt(samples, h) + (if s.hour == h then [s.memoryUsed] else [])
  {
    assert (samples + [s])[..|samples|] == samples;
  }

  /** A sample of an hour not seen before opens a new bucket at the end. */
  lemma AddSampleNew(bs: seq<Bucket>, samples: seq<LoadSample>, s: LoadSample)
    requires Summarises(bs, samples) && Find(bs, s.hour) == |bs|
    ensures Summarises(AddSample(bs, s), samples + [s])
  {
    var r := AddSample(bs, s);
    assert r == bs + [Bucket(s.hour, [s.utilization], [s.memoryUsed])];
    assert BucketHoursDistinct(r) by {
      forall i, j | 0 <= i < j < |r| ensures r[i].hour != r[j].hour {
        assert r[i] == bs[i];
        if j < |bs| { assert r[j] == bs[j]; }
      }
    }
    NewExact(bs, samples, s);
    NewCovers(bs, samples, s);
  }

  lemma {:induction false} NewExact(bs: seq<Bucket>, samples: seq<LoadSample>, s: LoadSample)
    requires Exact(bs, samples) && Covers(bs, samples) && Find(bs, s.hour) == |bs|
    ensures Exact(bs + [Bucket(s.hour, [s.utilization], [s.memoryUsed])], samples + [s])
  {
    var t := samples + [s];
    var r := bs + [Bucket(s.hour, [s.utilization], [s.memoryUsed])];
    assert UtilsAt(samples, s.hour) == [] by {
      assert !HasHour(bs, s.hour);
    }
    assert forall i :: 0 <= i < |bs| ==> r[i] == bs[i];
    forall i | 0 <= i < |r|
      ensures r[i].utils == UtilsAt(t, r[i].hour) && r[i].mems == MemsAt(t, r[i].hour) && r[i].utils != []
    {
      AtSnoc(samples, s, r[i].hour);
    }
  }

  lemma {:induction false} NewCovers(bs: seq<Bucket>, samples: seq<LoadSample>, s: LoadSample)
    requires Covers(bs, samples)
    ensures Covers(bs + [Bucket(s.hour, [s.utilization], [s.memoryUsed])], samples + [s])
  {
    var t := samples + [s];
    var r := bs + [Bucket(s.hour, [s.utilization], [s.memoryUsed])];
    forall h | UtilsAt(t, h) != [] ensures HasHour(r, h) {
      AtSnoc(samples, s, h);
      if h == s.hour {
        assert r[|bs|].hour == h;
      } else {
        var i :| 0 <= i < |bs| && bs[i].hour == h;
        assert r[i].hour == h;
      }
    }
  }

  /** A sample of an hour already seen is appended to that hour's bucket. */
  lemma AddSampleExisting(bs: seq<Bucket>, samples: seq<LoadSample>, s: LoadSample)
    requires Summarises(bs, samples) && Find(bs, s.hour) < |bs|
    ensures Summarises(AddSample(bs, s), samples + [s])
  {
    var k := Find(bs, s.hour);
    var r := AddSample(bs, s);
    assert r == bs[k := Bucket(s.hour, bs[k].utils + [s.utilization], bs[k].mems + [s.memoryUsed])];
    assert BucketHoursDistinct(r) by {
      forall i, j | 0 <= i < j < |r| ensures r[i].hour != r[j].hour {
        assert r[i].hour == bs[i].hour && r[j].hour == bs[j].hour;
      }
    }
    ExistingExact(bs, samples, s, k);
    ExistingCovers(bs, samples, s, k);
  }

  lemma {:induction false} ExistingExact(bs: seq<Bucket>, samples: seq<LoadSample>, s: LoadSample, k: nat)
    requires BucketHoursDistinct(bs) && Exact(bs, samples)
    requires k < |bs| && bs[k].hour == s.hour
    ensures Exact(bs[k := Bucket(s.hour, bs[k].utils + [s.utilization], bs[k].mems + [s.memoryUsed])], samples + [s])
  {
    var t := samples + [s];
    var r := bs[k := Bucket(s.hour, bs[k].utils + [s.utilization], bs[k].mems + [s.memoryUsed])];
    forall i | 0 <= i < |r|
      ensures r[i].utils == UtilsAt(t, r[i].hour) && r[i].mems == MemsAt(t, r[i].hour) && r[i].utils != []
    {
      AtSnoc(samples, s, r[i].hour);
      if i != k {
        assert r[i] == bs[i];
        assert bs[i].hour != s.hour by {
          if i < k { assert bs[i].hour != bs[k].hour; } else { assert bs[k].hour != bs[i].hour; }
        }
      }
    }
  }

  lemma {:induction false} ExistingCovers(bs: seq<Bucket>, samples: seq<LoadSample>, s: LoadSample, k: nat)
    requires Covers(bs, samples)
    requires k < |bs| && bs[k].hour == s.hour
    ensures Covers(bs[k := Bucket(s.hour, bs[k].utils + [s.utilization], bs[k].mems + [s.memoryUsed])], samples + [s])
  {
    var t := samples + [s];
    var r := bs[k := Bucket(s.hour, bs[k].utils + [s.utilization], bs[k].mems + [s.memoryUsed])];
    forall h | UtilsAt(t, h) != [] ensures HasHour(r, h) {
      AtSnoc(samples, s, h);
      if h == s.hour {
        assert r[k].hour == h;
      } else {
        var i :| 0 <= i < |bs| && bs[i].hour == h;
        assert r[i].hour == h;
      }
    }
  }

  lemma BucketsSnoc(samples: seq<LoadSample>, s: LoadSample)
    ensures Buckets(samples + [s]) == AddSample(Buckets(samples), s)
  {
    assert (samples + [s])[..|samples|] == samples;
  }

  /** The grouping loop summarises its samples. */
  lemma {:induction false} BucketsSpec(samples: seq<LoadSample>)
    ensures Summarises(Buckets(samples), samples)
  {
    if samples != [] {
      var init := samples[..|samples| - 1];
      var s := samples[|samples| - 1];
      assert samples == init + [s];
      BucketsSpec(init);
      BucketsSnoc(init, s);
      if Find(Buckets(init), s.hour) == |Buckets(init)| {
        AddSampleNew(Buckets(init), init, s);
      } else {
        AddSampleExisting(Buckets(init), init, s);
      }
    }
  }

  /** The pattern of a bucket with samples. */
  function PatternOf(b: Bucket, now: real): LoadPattern
    requires |b.utils| > 0 && |b.mems| == |b.utils|
  {
    LoadPattern(b.hour, 0, Mean(b.utils), Trunc(MeanInt(b.mems)), MaxOf(b.utils), |b.utils|, now)
  }

  predicate WellFormed(bs: seq<Bucket>)
  {
    forall i :: 0 <= i < |bs| ==> |bs[i].mems| == |bs[i].utils|
  }

  /** The patterns of the buckets with at least five samples, in order. */
  function PatternsOf(bs: seq<Bucket>, now: real): seq<LoadPattern>
    requires WellFormed(bs)
  {
    if bs == [] then []
    else
      var b := bs[|bs| - 1];
      PatternsOf(bs[..|bs| - 1], now) + (if |b.utils| >= PatternMinSamples then [PatternOf(b, now)] else [])
  }

  predicate PatternHoursDistinct(ps: seq<LoadPattern>)
  {
    forall i, j :: 0 <= i < j < |ps| ==> ps[i].hour != ps[j].hour
  }

  lemma {:induction false} FindSnoc(bs: seq<Bucket>, b: Bucket, h: int)
    ensures Find(bs + [b], h) == if Find(bs, h) < |bs| then Find(bs, h) else if b.hour == h then |bs| else |bs| + 1
  {
    if bs != [] {
      assert (bs + [b])[1..] == bs[1..] + [b];
      FindSnoc(bs[1..], b, h);
    }
  }

  /** With distinct hours, the bucket found for a bucket's hour is that bucket. */
  lemma FindDistinct(bs: seq<Bucket>, k: nat)
    requires BucketHoursDistinct(bs) && k < |bs|
    ensures Find(bs, bs[k].hour) == k
  {
  }

  lemma PatternsOfSnoc(bs: seq<Bucket>, b: Bucket, now: real)
    requires WellFormed(bs + [b])
    ensures WellFormed(bs) && |b.mems| == |b.utils|
    ensures PatternsOf(bs + [b], now)
      == PatternsOf(bs, now) + (if |b.utils| >= PatternMinSamples then [PatternOf(b, now)] else [])
  {
    assert forall k :: 0 <= k < |bs| ==> bs[k] == (bs + [b])[k];
    assert (bs + [b])[|bs|] == b;
    assert (bs + [b])[..|bs|] == bs;
  }

  /** Every pattern is the pattern of its hour's bucket, which has enough
      samples. */
  lemma {:induction false} PatternsOfSound(bs: seq<Bucket>, now: real)
    requires WellFormed(bs) && BucketHoursDistinct(bs)
    ensures var ps := PatternsOf(bs, now);
      forall i :: 0 <= i < |ps| ==>
        Find(bs, ps[i].hour) < |bs| && |bs[Find(bs, ps[i].hour)].utils| >= PatternMinSamples
        && ps[i] == PatternOf(bs[Find(bs, ps[i].hour)], now)
  {
    if bs != [] {
      var init := bs[..|bs| - 1];
      var b := bs[|bs| - 1];
      assert bs == init + [b];
      PatternsOfSnoc(init, b, now);
      PatternsOfSound(init, now);
      var p := PatternsOf(init, now);
      var r := PatternsOf(bs, now);
      FindSnoc(init, b, b.hour);
      FindDistinct(bs, |bs| - 1);
      forall i | 0 <= i < |r|
        ensures Find(bs, r[i].hour) < |bs| && |bs[Find(bs, r[i].hour)].utils| >= PatternMinSamples
          && r[i] == PatternOf(bs[Find(bs, r[i].hour)], now)
      {
        FindSnoc(init, b, r[i].hour);
        if i < |p| {
          assert r[i] == p[i];
          var f := Find(init, p[i].hour);
          assert Find(bs, r[i].hour) == f && bs[f] == init[f];
        } else {
          assert Find(bs, r[i].hour) == |init| && bs[|init|] == b;
        }
      }
    }
  }

  /** Every bucket with enough samples gives a pattern. */
  lemma {:induction false} PatternsOfComplete(bs: seq<Bucket>, now: real)
    requires WellFormed(bs)
    ensures forall k :: 0 <= k < |bs| && |bs[k].utils| >= PatternMinSamples ==> PatternOf(bs[k], now) in PatternsOf(bs, now)
  {
    if bs != [] {
      var init := bs[..|bs| - 1];
      var b := bs[|bs| - 1];
      assert bs == init + [b];
      PatternsOfSnoc(init, b, now);
      PatternsOfComplete(init, now);
      forall k | 0 <= k < |bs| && |bs[k].utils| >= PatternMinSamples ensures PatternOf(bs[k], now) in PatternsOf(bs, now) {
        if k < |init| { assert bs[k] == init[k]; }
      }
    }
  }

  /** No hour has two patterns. */
  lemma {:induction false} PatternsOfDistinct(bs: seq<Bucket>, now: real)
    requires WellFormed(bs) && BucketHoursDistinct(bs)
    ensures PatternHoursDistinct(PatternsOf(bs, now))
  {
    if bs != [] {
      var init := bs[..|bs| - 1];
      var b := bs[|bs| - 1];
      assert bs == init + [b];
      PatternsOfSnoc(init, b, now);
      PatternsOfDistinct(init, now);
      PatternsOfSound(init, now);
      var p := PatternsOf(init, now);
      var r := PatternsOf(bs, now);
      forall i, j | 0 <= i < j < |r| ensures r[i].hour != r[j].hour {
        if j >= |p| {
          assert i < |p| && r[i] == p[i];
          assert r[j].hour == b.hour;
          var f := Find(init, p[i].hour);
          assert f < |init| && init[f].hour == p[i].hour;
          assert bs[f].hour != bs[|bs| - 1].hour;
        } else {
          assert r[i] == p[i] && r[j] == p[j];
        }
      }
    }
  }

  predicate HasPattern(ps: seq<LoadPattern>, h: int)
  {
    exists i :: 0 <= i < |ps| && ps[i].hour == h
  }

  /** The patterns `analyze_patterns` returns for the given samples. */
  function SamplePatterns(samples: seq<LoadSample>, now: real): seq<LoadPattern>
  {
    BucketsSpec(samples);
    PatternsOf(Buckets(samples), now)
  }

  /** Each pattern summarises all samples of its hour, of which there are at
      least five. */
  lemma SamplePatternsSound(samples: seq<LoadSample>, now: real)
    ensures var ps := SamplePatterns(samples, now);
      forall i :: 0 <= i < |ps| ==>
        var u := UtilsAt(samples, ps[i].hour);
        |u| >= PatternMinSamples && ps[i].sampleCount == |u|
        && ps[i].avgUtilization == Mean(u) && ps[i].peakUtilization == MaxOf(u)
        && ps[i].avgMemoryUsedMb == Trunc(MeanInt(MemsAt(samples, ps[i].hour)))
        && ps[i].dayOfWeek == 0 && ps[i].lastUpdated == now
  {
    BucketsSpec(samples);
    var bs := Buckets(samples);
    PatternsOfSound(bs, now);
    var ps := SamplePatterns(samples, now);
    assert ps == PatternsOf(bs, now);
    forall i | 0 <= i < |ps|
      ensures var u := UtilsAt(samples, ps[i].hour);
        |u| >= PatternMinSamples && ps[i].sampleCount == |u|
        && ps[i].avgUtilization == Mean(u) && ps[i].peakUtilization == MaxOf(u)
        && ps[i].avgMemoryUsedMb == Trunc(MeanInt(MemsAt(samples, ps[i].hour)))
        && ps[i].dayOfWeek == 0 && ps[i].lastUpdated == now
    {
      var k := Find(bs, ps[i].hour);
      assert ps[i] == PatternOf(bs[k], now);
      assert bs[k].utils == UtilsAt(samples, bs[k].hour) && bs[k].mems == MemsAt(samples, bs[k].hour);
    }
  }

  /** No hour has two patterns. */
  lemma SamplePatternsDistinct(samples: seq<LoadSample>, now: real)
    ensures PatternHoursDistinct(SamplePatterns(samples, now))
  {
    BucketsSpec(samples);
    PatternsOfDistinct(Buckets(samples), now);
  }

  /** An hour has a pattern exactly when it has five samples or more. */
  lemma SamplePatternsComplete(samples: seq<LoadSample>, now: real)
    ensures forall h :: HasPattern(SamplePatterns(samples, now), h) <==> |UtilsAt(samples, h)| >= PatternMinSamples
  {
    SamplePatternsSound(samples, now);
    BucketsSpec(samples);
    var bs := Buckets(samples);
    PatternsOfComplete(bs, now);
    var ps := SamplePatterns(samples, now);
    assert ps == PatternsOf(bs, now);
    forall h ensures HasPattern(ps, h) <==> |UtilsAt(samples, h)| >= PatternMinSamples {
      if |UtilsAt(samples, h)| >= PatternMinSamples {
        assert HasHour(bs, h);
        var k :| 0 <= k < |bs| && bs[k].hour == h;
        var p := PatternOf(bs[k], now);
        assert p in ps;
        var i :| 0 <= i < |ps| && ps[i] == p;
        assert ps[i].hour == h;
      }
    }
  }

  /** A pattern's average never exceeds its peak. */
  lemma PatternAverageBelowPeak(samples: seq<LoadSample>, now: real)
    ensures var ps := SamplePatterns(samples, now);
      forall i :: 0 <= i < |ps| ==> ps[i].avgUtilization <= ps[i].peakUtilization
  {
    SamplePatternsSound(samples, now);
    var ps := SamplePatterns(samples, now);
    forall i | 0 <= i < |ps| ensures ps[i].avgUtilization <= ps[i].peakUtilization {
      MeanBetween(UtilsAt(samples, ps[i].hour));
    }
  }

  /** The detail hashes of the index entries, skipping entries whose detail
      has expired. */
  function Details(entries: seq<Entry<real>>, detail: map<(int, int), LoadSample>, gpu: int): (r: seq<LoadSample>)
    ensures |r| <= |entries|
  {
    if entries == [] then []
    else
      var key := (gpu, Trunc(entries[|entries| - 1].member));
      Details(entries[..|entries| - 1], detail, gpu) + (if key in detail then [detail[key]] else [])
  }

  lemma DetailsSnoc(entries: seq<Entry<real>>, detail: map<(int, int), LoadSample>, gpu: int, i: nat)
    requires i < |entries|
    ensures var key := (gpu, Trunc(entries[i].member));
      Details(entries[..i + 1], detail, gpu)
        == Details(entries[..i], detail, gpu) + (if key in detail then [detail[key]] else [])
  {
    assert entries[..i + 1][..i] == entries[..i];
  }

  /** The samples of the last `days` days up to `now`. */
  function WindowSamples(idx: map<int, seq<Entry<real>>>, detail: map<(int, int), LoadSample>,
                         gpu: int, days: int, now: real): seq<LoadSample>
  {
    Details(RangeByScore(HistoryOf(idx, gpu), now - (days as real) * 86400.0, now), detail, gpu)
  }

  /** The dictionary lookup `patterns[hour]`. */
  function PatternAt(ps: seq<LoadPattern>, h: int): (r: Option<LoadPattern>)
    ensures r.Some? <==> HasPattern(ps, h)
    ensures r.Some? ==> r.value in ps && r.value.hour == h
  {
    if ps == [] then None
    else if ps[0].hour == h then Some(ps[0])
    else
      var r := PatternAt(ps[1..], h);
      assert HasPattern(ps, h) ==> HasPattern(ps[1..], h) by {
        if HasPattern(ps, h) {
          var i :| 0 <= i < |ps| && ps[i].hour == h;
          assert ps[1..][i - 1] == ps[i];
        }
      }
      assert HasPattern(ps[1..], h) ==> HasPattern(ps, h) by {
        if HasPattern(ps[1..], h) {
          var i :| 0 <= i < |ps[1..]| && ps[1..][i].hour == h;
          assert ps[i + 1] == ps[1..][i];
        }
      }
      r
  }

  /** The current hour's patterns of GPUs `0 .. count-1` that have one. */
  function HourLoads(idx: map<int, seq<Entry<real>>>, detail: map<(int, int), LoadSample>,
                     count: int, hour: int, now: real): (r: seq<LoadPattern>)
    ensures forall i :: 0 <= i < |r| ==> r[i].hour == hour
    ensures |r| <= if count > 0 then count else 0
    decreases count
  {
    if count <= 0 then []
    else
      HourLoads(idx, detail, count - 1, hour, now)
      + (match PatternAt(SamplePatterns(WindowSamples(idx, detail, count - 1, PatternDays, now), now), hour)
         case Some(p) => [p]
         case None => [])
  }

  /** The grouping loop of `analyze_patterns`: each index entry's detail,
      when it still exists, is added to its hour's bucket. */
  method GroupByHour(entries: seq<Entry<real>>, detail: map<(int, int), LoadSample>, gpu: int)
    returns (bs: seq<Bucket>)
    ensures bs == Buckets(Details(entries, detail, gpu))
  {
    bs := [];
    var i := 0;
    while i < |entries|
      invariant 0 <= i <= |entries|
      invariant bs == Buckets(Details(entries[..i], detail, gpu))
    {
      DetailsSnoc(entries, detail, gpu, i);
      var key := (gpu, Trunc(entries[i].member));
      if key in detail {
        BucketsSnoc(Details(entries[..i], detail, gpu), detail[key]);
        bs := AddSample(bs, detail[key]);
      } else {
        assert Details(entries[..i + 1], detail, gpu) == Details(entries[..i], detail, gpu);
      }
      i := i + 1;
    }
    assert entries[..|entries|] == entries;
  }

  /** The pattern loop of `analyze_patterns`. */
  method PatternsFromBuckets(bs: seq<Bucket>, now: real) returns (ps: seq<LoadPattern>)
    requires WellFormed(bs)
    ensures ps == PatternsOf(bs, now)
  {
    ps := [];
    var k := 0;
    while k < |bs|
      invariant 0 <= k <= |bs|
      invariant ps == PatternsOf(bs[..k], now)
    {
      assert bs[..k + 1] == bs[..k] + [bs[k]];
      PatternsOfSnoc(bs[..k], bs[k], now);
      if |bs[k].utils| >= PatternMinSamples {
        ps := ps + [PatternOf(bs[k], now)];
      }
      k := k + 1;
    }
    assert bs[..|bs|] == bs;
  }

  // ---------------------------------------------------------------------
  // Peak hours

  function PairLoad(p: (int, real)): real { p.1 }

  /** The (hour, average) pairs in dictionary order. */
  function PeakPairs(ps: seq<LoadPattern>): (r: seq<(int, real)>)
    ensures |r| == |ps|
    ensures forall i :: 0 <= i < |ps| ==> r[i] == (ps[i].hour, ps[i].avgUtilization)
  {
    if ps == [] then [] else PeakPairs(ps[..|ps| - 1]) + [(ps[|ps| - 1].hour, ps[|ps| - 1].avgUtilization)]
  }

  /** `predict_peak_hours`: the pairs sorted by average, highest first. */
  function PeakOrder(ps: seq<LoadPattern>): (r: seq<(int, real)>)
    ensures |r| == |ps|
    ensures NonIncreasing(r, PairLoad)
    ensures multiset(r) == multiset(PeakPairs(ps))
  {
    SortDescSorted(PeakPairs(ps), PairLoad);
    SortDesc(PeakPairs(ps), PairLoad)
  }

  /** Each pattern hour appears in the peak list with its average. */
  lemma PeakOrderHours(ps: seq<LoadPattern>)
    ensures forall i :: 0 <= i < |ps| ==> (ps[i].hour, ps[i].avgUtilization) in PeakOrder(ps)
    ensures forall i :: 0 <= i < |PeakOrder(ps)| ==> PeakOrder(ps)[i] in PeakPairs(ps)
  {
    var pairs := PeakPairs(ps);
    var r := PeakOrder(ps);
    forall i | 0 <= i < |ps| ensures (ps[i].hour, ps[i].avgUtilization) in r {
      assert pairs[i] in multiset(pairs);
    }
    forall i | 0 <= i < |r| ensures r[i] in pairs {
      assert r[i] in multiset(r);
    }
  }

  // ---------------------------------------------------------------------
  // The manager

  class ThresholdManager {
    const config: Config
    const store: Store

    constructor (config: Config, store: Store)
      ensures this.config == config && this.store == store
    {
      this.config := config;
      this.store := store;
    }

    /** The thresholds hash as a reader sees it (empty when unreachable). */
    function Visible(): map<string, HashValue>
      reads store
    {
      if store.online then store.thresholds else map[]
    }

    /** What `get_adaptive_thresholds` returns in the current state. */
    function AdaptiveResult(gpuCount: int, hour: int, now: real): ThresholdConfig
      reads store
    {
      AdaptiveOutcome(CurrentThresholds(Visible(), config),
                      if store.online then HourLoads(store.historyIndex, store.historyDetail, gpuCount, hour, now) else [],
                      hour, now)
    }

    /** The thresholds hash after `get_adaptive_thresholds` in the current
        state: the adapted thresholds are saved exactly when they were adapted. */
    function AdaptiveStore(gpuCount: int, hour: int, now: real): map<string, HashValue>
      reads store
    {
      var cur := CurrentThresholds(Visible(), config);
      var loads := if store.online then HourLoads(store.historyIndex, store.historyDetail, gpuCount, hour, now) else [];
      if store.online && cur.adaptive && loads != [] then Saved(store.thresholds, AdaptiveOutcome(cur, loads, hour, now))
      else store.thresholds
    }

    method GetCurrentThresholds() returns (r: ThresholdConfig)
      ensures r == CurrentThresholds(Visible(), config)
      ensures !store.online ==> r == DefaultThresholds(config)
    {
      if !store.online {
        return DefaultThresholds(config);
      }
      r := CurrentThresholds(store.thresholds, config);
    }

    method SaveThresholds(t: ThresholdConfig) returns (ok: bool)
      modifies store`thresholds
      ensures ok == store.online
      ensures store.online ==> store.thresholds == Saved(old(store.thresholds), t)
      ensures !store.online ==> unchanged(store`thresholds)
    {
      if !store.online {
        return false;
      }
      store.thresholds := Saved(store.thresholds, t);
      ok := true;
    }

    /** `collect_metrics` at time `now`, whose local hour and weekday are
        given. */
    method CollectMetrics(ms: MetricsDict, now: real, hour: int, dayOfWeek: int) returns (ok: bool)
      modifies store`historyIndex, store`historyDetail
      ensures ok == store.online
      ensures store.online ==>
        store.historyIndex == CollectedIndex(old(store.historyIndex), ms, |ms|, now)
        && store.historyDetail == CollectedDetail(old(store.historyDetail), ms, |ms|, now, hour, dayOfWeek)
      ensures !store.online ==> unchanged(store`historyIndex, store`historyDetail)
    {
      if !store.online {
        return false;
      }
      var idx, detail := Collect(store.historyIndex, store.historyDetail, ms, now, hour, dayOfWeek);
      store.historyIndex, store.historyDetail := idx, detail;
      ok := true;
    }

    /** The loop of `collect_metrics`: one index entry and one detail hash per
        GPU, in dictionary order. */
    method Collect(idx0: map<int, seq<Entry<real>>>, detail0: map<(int, int), LoadSample>, ms: MetricsDict,
                   now: real, hour: int, dayOfWeek: int)
      returns (idx: map<int, seq<Entry<real>>>, detail: map<(int, int), LoadSample>)
      ensures idx == CollectedIndex(idx0, ms, |ms|, now)
      ensures detail == CollectedDetail(detail0, ms, |ms|, now, hour, dayOfWeek)
    {
      idx, detail := idx0, detail0;
      var i := 0;
      while i < |ms|
        invariant 0 <= i <= |ms|
        invariant idx == CollectedIndex(idx0, ms, i, now)
        invariant detail == CollectedDetail(detail0, ms, i, now, hour, dayOfWeek)
      {
        idx, detail := CollectOne(idx0, detail0, ms, i, now, hour, dayOfWeek, idx, detail);
        i := i + 1;
      }
    }

    /** One pass of that loop: the sample of GPU `ms[i]` goes into its index
        and its detail hash. */
    method CollectOne(ghost idx0: map<int, seq<Entry<real>>>, ghost detail0: map<(int, int), LoadSample>,
                      ms: MetricsDict, i: nat, now: real, hour: int, dayOfWeek: int,
                      idx: map<int, seq<Entry<real>>>, detail: map<(int, int), LoadSample>)
      returns (idx': map<int, seq<Entry<real>>>, detail': map<(int, int), LoadSample>)
      requires i < |ms|
      requires idx == CollectedIndex(idx0, ms, i, now)
      requires detail == CollectedDetail(detail0, ms, i, now, hour, dayOfWeek)
      ensures idx' == CollectedIndex(idx0, ms, i + 1, now)
      ensures detail' == CollectedDetail(detail0, ms, i + 1, now, hour, dayOfWeek)
    {
      var m := ms[i];
      idx' := RecordStep(idx, m.gpuId, now);
      detail' := detail[(m.gpuId, Trunc(now)) := SampleOf(m, now, hour, dayOfWeek)];
    }

    /** `analyze_patterns` over the `days` days up to `now`. */
    method AnalyzePatterns(gpu: int, days: int, now: real) returns (ps: seq<LoadPattern>)
      ensures ps == if store.online
                    then SamplePatterns(WindowSamples(store.historyIndex, store.historyDetail, gpu, days, now), now)
                    else []
    {
      if !store.online {
        return [];
      }
      var entries := RangeByScore(HistoryOf(store.historyIndex, gpu), now - (days as real) * 86400.0, now);
      var bs := GroupByHour(entries, store.historyDetail, gpu);
      BucketsSpec(Details(entries, store.historyDetail, gpu));
      ps := PatternsFromBuckets(bs, now);
    }

    /** `predict_peak_hours`. */
    method PredictPeakHours(gpu: int, days: int, now: real) returns (peaks: seq<(int, real)>)
      ensures peaks == PeakOrder(if store.online
                                 then SamplePatterns(WindowSamples(store.historyIndex, store.historyDetail, gpu, days, now), now)
                                 else [])
    {
      var ps := AnalyzePatterns(gpu, days, now);
      peaks := PeakOrder(ps);
    }

    /** `get_adaptive_thresholds` for a fleet of `gpuCount` GPUs at `now`,
        whose local hour is `hour`. */
    method GetAdaptiveThresholds(gpuCount: int, hour: int, now: real) returns (r: ThresholdConfig)
      modifies store`thresholds
      ensures var cur := CurrentThresholds(old(Visible()), config);
        var loads := if store.online then HourLoads(store.historyIndex, store.historyDetail, gpuCount, hour, now) else [];
        r == AdaptiveOutcome(cur, loads, hour, now)
      ensures store.thresholds == old(AdaptiveStore(gpuCount, hour, now))
    {
      var cur := GetCurrentThresholds();
      if !cur.adaptive {
        return cur;
      }
      var loads := HourPatterns(gpuCount, hour, now);
      if loads == [] {
        return cur;
      }
      r := AdaptedThresholds(Mean(AvgUtils(loads)), MeanInt(AvgMems(loads)), hour, now);
      var _ := SaveThresholds(r);
    }

    /** The loop of `get_adaptive_thresholds`: each GPU's pattern for `hour`,
        when it has one. */
    method HourPatterns(gpuCount: int, hour: int, now: real) returns (loads: seq<LoadPattern>)
      ensures loads == if store.online then HourLoads(store.historyIndex, store.historyDetail, gpuCount, hour, now) else []
    {
      loads := [];
      var g := 0;
      while g < gpuCount
        invariant 0 <= g && (g <= gpuCount || g == 0)
        invariant loads == if store.online then HourLoads(store.historyIndex, store.historyDetail, g, hour, now) else []
      {
        var ps := AnalyzePatterns(g, PatternDays, now);
        match PatternAt(ps, hour) {
          case Some(p) => loads := loads + [p];
          case None =>
        }
        g := g + 1;
      }
    }

    /** `adjust_thresholds` at time `now`. */
    method AdjustThresholds(minMemory: Option<int>, maxUtil: Option<real>, high: Option<real>,
                            low: Option<real>, reason: string, now: real) returns (ok: bool)
      modifies store`thresholds
      ensures ok == store.online
      ensures var cur := CurrentThresholds(old(store.thresholds), config);
        store.online ==> store.thresholds == Saved(old(store.thresholds),
                           Adjusted(cur, minMemory, maxUtil, high, low, cur.adaptive, reason, now))
      ensures !store.online ==> unchanged(store`thresholds)
    {
      var cur := GetCurrentThresholds();
      ok := SaveThresholds(Adjusted(cur, minMemory, maxUtil, high, low, cur.adaptive, reason, now));
    }

    /** `enable_adaptive`, with the flag set to `enabled`. */
    method EnableAdaptive(enabled: bool, now: real) returns (ok: bool)
      modifies store`thresholds
      ensures ok == store.online
      ensures store.online ==> store.thresholds == Saved(old(store.thresholds),
                                 EnabledThresholds(CurrentThresholds(old(store.thresholds), config), enabled, now))
      ensures store.online ==> CurrentThresholds(store.thresholds, config).adaptive == enabled
      ensures !store.online ==> unchanged(store`thresholds)
    {
      var cur := GetCurrentThresholds();
      ok := SaveThresholds(EnabledThresholds(cur, enabled, now));
      if ok {
        SaveLoadRoundTrip(old(store.thresholds), EnabledThresholds(cur, enabled, now), config);
      }
    }
  }
}

/** The load history (`LoadHistory`): raw samples keyed by GPU and second, the
    per-GPU timeline that indexes them by timestamp, hourly aggregates and the
    summaries read back from those aggregates. The strings the source derives
    from the clock (a sample's date and hour, the hours and dates a query
    walks) and the order in which KEYS lists the raw hashes are parameters. */
module History {
  import opened Common
  import opened Text
  import opened Model
  import opened Sorting
  import opened SortedSets
  import opened Store
  import opened Utils

  /** Raw samples and the timeline are kept 7 days (in seconds). */
  const RawRetention: real := 604800.0

  /** The metric fields a caller of `add_data_point` supplies. */
  datatype SampleMetrics = SampleMetrics(
    utilization: Option<real>,
    memoryUsed: Option<int>,
    memoryFree: Option<int>,
    temperature: Option<int>)

  /** An HSET field: the value written, or else the one already stored. */
  function Kept<T>(written: Option<T>, stored: Option<T>): (r: Option<T>)
    ensures written.Some? ==> r == written
    ensures written.None? ==> r == stored
  {
    if written.Some? then written else stored
  }

  /** The hash of a sample at `timestamp`, whose local date and hour strings
      are given, after HSET wrote it over the hash `prev` already stored under
      the same second: the time fields and every metric supplied are the new
      ones; a metric not supplied keeps the stored value. */
  function SampleOf(prev: Option<RawSample>, m: SampleMetrics, timestamp: real, date: string, hour: string): (r: RawSample)
    ensures r.timestamp == timestamp && r.date == date && r.hour == hour
    ensures prev.None? ==> r == RawSample(timestamp, date, hour, m.utilization, m.memoryUsed, m.memoryFree, m.temperature)
    ensures prev.Some? ==>
      && r.utilization == (if m.utilization.Some? then m.utilization else prev.value.utilization)
      && r.memoryUsed == (if m.memoryUsed.Some? then m.memoryUsed else prev.value.memoryUsed)
      && r.memoryFree == (if m.memoryFree.Some? then m.memoryFree else prev.value.memoryFree)
      && r.temperature == (if m.temperature.Some? then m.temperature else prev.value.temperature)
  {
    var stored := if prev.Some? then prev.value else RawSample(timestamp, date, hour, None, None, None, None);
    RawSample(timestamp, date, hour, Kept(m.utilization, stored.utilization), Kept(m.memoryUsed, stored.memoryUsed),
              Kept(m.memoryFree, stored.memoryFree), Kept(m.temperature, stored.temperature))
  }

  /** The raw samples after `add_data_point` wrote `m` for `gpu` at `timestamp`. */
  function Added(raw: map<(int, int), RawSample>, gpu: int, m: SampleMetrics, timestamp: real, date: string, hour: string)
    : (r: map<(int, int), RawSample>)
    ensures var key := (gpu, Trunc(timestamp));
      && r.Keys == raw.Keys + {key}
      && r[key] == SampleOf(if key in raw then Some(raw[key]) else None, m, timestamp, date, hour)
      && forall k :: k in raw && k != key ==> r[k] == raw[k]
  {
    var key := (gpu, Trunc(timestamp));
    raw[key := SampleOf(if key in raw then Some(raw[key]) else None, m, timestamp, date, hour)]
  }

  /** Writing the same metrics twice in one second leaves what the first
      write left. */
  lemma AddedIdempotent(raw: map<(int, int), RawSample>, gpu: int, m: SampleMetrics, timestamp: real, date: string, hour: string)
    ensures var once := Added(raw, gpu, m, timestamp, date, hour);
      Added(once, gpu, m, timestamp, date, hour) == once
  {
    var once := Added(raw, gpu, m, timestamp, date, hour);
    var twice := Added(once, gpu, m, timestamp, date, hour);
    assert twice.Keys == once.Keys;
  }

  /** `load:timeline:{gpu}`, empty when absent. */
  function TimelineOf(tl: map<int, seq<Entry<int>>>, gpu: int): seq<Entry<int>>
  {
    if gpu in tl then tl[gpu] else []
  }

  /** Every timeline is a well-formed sorted set. */
  predicate TimelinesValid(tl: map<int, seq<Entry<int>>>)
  {
    forall g :: g in tl ==> Valid(tl[g])
  }

  // ---------------------------------------------------------------------
  // add_data_point

  /** The timeline after indexing the sample of `gpu` at `timestamp`: the
      member is the sample's second and the score its timestamp. */
  function Indexed(tl: map<int, seq<Entry<int>>>, gpu: int, timestamp: real): map<int, seq<Entry<int>>>
  {
    tl[gpu := ZAdd(TimelineOf(tl, gpu), Trunc(timestamp), timestamp)]
  }

  /** Indexing keeps every timeline well formed, gives the sample's second
      the sample's timestamp, and leaves the other GPUs' timelines alone. */
  lemma IndexedSpec(tl: map<int, seq<Entry<int>>>, gpu: int, timestamp: real)
    ensures TimelinesValid(tl) ==> TimelinesValid(Indexed(tl, gpu, timestamp))
    ensures Entry(Trunc(timestamp), timestamp) in TimelineOf(Indexed(tl, gpu, timestamp), gpu)
    ensures forall g :: g != gpu ==> TimelineOf(Indexed(tl, gpu, timestamp), g) == TimelineOf(tl, g)
  {
    ZAddEntries(TimelineOf(tl, gpu), Trunc(timestamp), timestamp);
    if TimelinesValid(tl) {
      ZAddValid(TimelineOf(tl, gpu), Trunc(timestamp), timestamp);
    }
  }

  // ---------------------------------------------------------------------
  // get_data_range

  /** The stored samples of the timeline entries `es` of `gpu`, in order; an
      entry whose hash has gone is skipped. */
  function Points(raw: map<(int, int), RawSample>, gpu: int, es: seq<Entry<int>>): (r: seq<RawSample>)
    ensures |r| <= |es|
  {
    if es == [] then []
    else
      var e := es[|es| - 1];
      Points(raw, gpu, es[..|es| - 1]) + (if (gpu, e.member) in raw then [raw[(gpu, e.member)]] else [])
  }

  lemma PointsSnoc(raw: map<(int, int), RawSample>, gpu: int, es: seq<Entry<int>>, i: int)
    requires 0 <= i < |es|
    ensures Points(raw, gpu, es[..i + 1]) ==
      Points(raw, gpu, es[..i]) + (if (gpu, es[i].member) in raw then [raw[(gpu, es[i].member)]] else [])
  {
    assert es[..i + 1][..i] == es[..i];
  }

  /** `s` is the stored sample of entry `j` of `es`. */
  predicate PointOf(raw: map<(int, int), RawSample>, gpu: int, es: seq<Entry<int>>, j: int, s: RawSample)
  {
    0 <= j < |es| && (gpu, es[j].member) in raw && s == raw[(gpu, es[j].member)]
  }

  /** `s` is the stored sample of some entry of `es`. */
  ghost predicate FromEntries(raw: map<(int, int), RawSample>, gpu: int, es: seq<Entry<int>>, s: RawSample)
  {
    exists j :: PointOf(raw, gpu, es, j, s)
  }

  /** Each point is the stored sample of one of the entries, and the sample of
      every entry whose hash exists is among the points. */
  lemma {:induction false} PointsSpec(raw: map<(int, int), RawSample>, gpu: int, es: seq<Entry<int>>)
    ensures forall i :: 0 <= i < |Points(raw, gpu, es)| ==> FromEntries(raw, gpu, es, Points(raw, gpu, es)[i])
    ensures forall j :: 0 <= j < |es| && (gpu, es[j].member) in raw ==> raw[(gpu, es[j].member)] in Points(raw, gpu, es)
  {
    if es != [] {
      var init := es[..|es| - 1];
      var e := es[|es| - 1];
      PointsSpec(raw, gpu, init);
      var p := Points(raw, gpu, init);
      var r := Points(raw, gpu, es);
      assert r == p + (if (gpu, e.member) in raw then [raw[(gpu, e.member)]] else []);
      forall i | 0 <= i < |r| ensures FromEntries(raw, gpu, es, r[i]) {
        if i < |p| {
          assert FromEntries(raw, gpu, init, p[i]);
          var j :| PointOf(raw, gpu, init, j, p[i]);
          assert es[j] == init[j];
          assert PointOf(raw, gpu, es, j, r[i]);
        } else {
          assert PointOf(raw, gpu, es, |es| - 1, r[i]);
        }
      }
      forall j | 0 <= j < |es| && (gpu, es[j].member) in raw ensures raw[(gpu, es[j].member)] in r {
        if j < |init| {
          assert es[j] == init[j];
          assert raw[(gpu, init[j].member)] in p;
        }
      }
    } else {
      assert Points(raw, gpu, es) == [];
    }
  }

  /** What `get_data_range` returns: the samples indexed with
      `start <= score <= end`, at most `limit` of them (all when `limit` is
      negative), lowest score first; nothing when the database is
      unreachable. */
  function DataRange(online: bool, raw: map<(int, int), RawSample>, tl: map<int, seq<Entry<int>>>,
                     gpu: int, start: real, end: real, limit: int): seq<RawSample>
  {
    if online then Points(raw, gpu, Limit(RangeByScore(TimelineOf(tl, gpu), start, end), limit)) else []
  }

  /** `s` is the stored sample of an entry of `z` scored in `[start, end]`. */
  predicate InRange(raw: map<(int, int), RawSample>, gpu: int, z: seq<Entry<int>>, start: real, end: real, j: int, s: RawSample)
  {
    PointOf(raw, gpu, z, j, s) && start <= z[j].score <= end
  }

  /** `s` is the stored sample of some entry of `z` scored in `[start, end]`. */
  ghost predicate FromRange(raw: map<(int, int), RawSample>, gpu: int, z: seq<Entry<int>>, start: real, end: real, s: RawSample)
  {
    exists j :: InRange(raw, gpu, z, start, end, j, s)
  }

  /** The range has at most `limit` points, each the stored sample of an
      entry of that GPU's timeline scored within the range; with no limit,
      every such sample whose hash exists is returned. */
  lemma DataRangeSpec(online: bool, raw: map<(int, int), RawSample>, tl: map<int, seq<Entry<int>>>,
                      gpu: int, start: real, end: real, limit: int)
    ensures limit >= 0 ==> |DataRange(online, raw, tl, gpu, start, end, limit)| <= limit
    ensures forall i :: 0 <= i < |DataRange(online, raw, tl, gpu, start, end, limit)| ==>
      FromRange(raw, gpu, TimelineOf(tl, gpu), start, end, DataRange(online, raw, tl, gpu, start, end, limit)[i])
    ensures online && limit < 0 ==>
      forall j :: 0 <= j < |TimelineOf(tl, gpu)| && (gpu, TimelineOf(tl, gpu)[j].member) in raw
        && start <= TimelineOf(tl, gpu)[j].score <= end
        ==> raw[(gpu, TimelineOf(tl, gpu)[j].member)] in DataRange(online, raw, tl, gpu, start, end, limit)
  {
    var z := TimelineOf(tl, gpu);
    var es := Limit(RangeByScore(z, start, end), limit);
    PointsSpec(raw, gpu, es);
    var r := DataRange(online, raw, tl, gpu, start, end, limit);
    forall i | 0 <= i < |r| ensures FromRange(raw, gpu, z, start, end, r[i]) {
      assert FromEntries(raw, gpu, es, r[i]);
      var k :| PointOf(raw, gpu, es, k, r[i]);
      assert es[k] == RangeByScore(z, start, end)[k];
      assert es[k] in z;
      var j :| 0 <= j < |z| && z[j] == es[k];
      assert InRange(raw, gpu, z, start, end, j, r[i]);
    }
    if online && limit < 0 {
      forall j | 0 <= j < |z| && (gpu, z[j].member) in raw && start <= z[j].score <= end
        ensures raw[(gpu, z[j].member)] in r
      {
        assert z[j] in es;
        var k :| 0 <= k < |es| && es[k] == z[j];
      }
    }
  }

  /** A sample just added is read back by a range covering its timestamp. */
  lemma AddedIsInRange(raw: map<(int, int), RawSample>, tl: map<int, seq<Entry<int>>>,
                       gpu: int, m: SampleMetrics, timestamp: real, date: string, hour: string,
                       start: real, end: real)
    requires start <= timestamp <= end
    ensures var raw2 := Added(raw, gpu, m, timestamp, date, hour);
      raw2[(gpu, Trunc(timestamp))] in DataRange(true, raw2, Indexed(tl, gpu, timestamp), gpu, start, end, -1)
  {
    var raw2 := Added(raw, gpu, m, timestamp, date, hour);
    var tl2 := Indexed(tl, gpu, timestamp);
    IndexedSpec(tl, gpu, timestamp);
    var z := TimelineOf(tl2, gpu);
    var j :| 0 <= j < |z| && z[j] == Entry(Trunc(timestamp), timestamp);
    DataRangeSpec(true, raw2, tl2, gpu, start, end, -1);
  }

  // ---------------------------------------------------------------------
  // aggregate_hourly

  /** The name of a raw sample's hash. */
  function RawKey(k: (int, int)): string
  {
    "load:raw:" + IntToString(k.0) + ":" + IntToString(k.1)
  }

  /** The pattern `load:raw:{gpu}*` as written matches every raw key that
      starts with `load:raw:` and the GPU's number. */
  predicate ScanMatches(gpu: int, k: (int, int))
  {
    "load:raw:" + IntToString(gpu) <= RawKey(k)
  }

  /** A GPU's own samples always match its scan. */
  lemma ScanMatchesOwn(gpu: int, sec: int)
    ensures ScanMatches(gpu, (gpu, sec))
  {
    var p := "load:raw:" + IntToString(gpu);
    assert RawKey((gpu, sec)) == p + (":" + IntToString(sec));
  }

  /** The scan of GPU 1 also matches the samples of GPUs 10 to 19. */
  lemma ScanMatchesOtherGpus(g: int, sec: int)
    requires 10 <= g < 20
    ensures ScanMatches(1, (g, sec))
  {
    assert NatToString(g) == NatToString(1) + [DigitChar(g % 10)];
    var p := "load:raw:" + IntToString(1);
    assert RawKey((g, sec)) == p + ([DigitChar(g % 10)] + ":" + IntToString(sec));
  }

  /** The samples stored at `keys` that belong to `hour`, in key order; a key
      whose hash has gone is skipped. */
  function InHour(raw: map<(int, int), RawSample>, keys: seq<(int, int)>, hour: string): (r: seq<RawSample>)
    ensures |r| <= |keys|
    ensures forall i :: 0 <= i < |r| ==> r[i].hour == hour
  {
    if keys == [] then []
    else
      var k := keys[|keys| - 1];
      InHour(raw, keys[..|keys| - 1], hour) + (if k in raw && raw[k].hour == hour then [raw[k]] else [])
  }

  lemma InHourSnoc(raw: map<(int, int), RawSample>, keys: seq<(int, int)>, hour: string, i: int)
    requires 0 <= i < |keys|
    ensures InHour(raw, keys[..i + 1], hour) ==
      InHour(raw, keys[..i], hour) + (if keys[i] in raw && raw[keys[i]].hour == hour then [raw[keys[i]]] else [])
  {
    assert keys[..i + 1][..i] == keys[..i];
  }

  /** Scanning a prefix of the keys selects a prefix of the samples. */
  lemma {:induction false} InHourPrefix(raw: map<(int, int), RawSample>, keys: seq<(int, int)>, hour: string, n: int)
    requires 0 <= n <= |keys|
    ensures InHour(raw, keys[..n], hour) <= InHour(raw, keys, hour)
    decreases |keys| - n
  {
    if n < |keys| {
      InHourPrefix(raw, keys, hour, n + 1);
      InHourSnoc(raw, keys, hour, n);
    } else {
      assert keys[..n] == keys;
    }
  }

  /** A sample of the hour that lacks a field makes the whole hour
      incomplete. */
  lemma IncompleteInHour(raw: map<(int, int), RawSample>, keys: seq<(int, int)>, hour: string, i: int)
    requires 0 <= i < |keys|
    requires keys[i] in raw && raw[keys[i]].hour == hour && !Complete(raw[keys[i]])
    ensures !AllComplete(InHour(raw, keys, hour))
  {
    InHourSnoc(raw, keys, hour, i);
    InHourPrefix(raw, keys, hour, i + 1);
    var p := InHour(raw, keys[..i], hour);
    assert InHour(raw, keys, hour)[|p|] == raw[keys[i]];
  }

  /** The keys in `raw` of `gpu`'s samples in `hour`. */
  function HourKeys(raw: map<(int, int), RawSample>, gpu: int, hour: string): set<(int, int)>
  {
    set k | k in raw && k.0 == gpu && raw[k].hour == hour
  }

  /** The keys among `keys` whose sample is stored and belongs to `hour`. */
  function Selected(raw: map<(int, int), RawSample>, keys: seq<(int, int)>, hour: string): (r: set<(int, int)>)
    ensures forall k :: k in r <==> k in keys && k in raw && raw[k].hour == hour
  {
    if keys == [] then {}
    else
      var k := keys[|keys| - 1];
      Selected(raw, keys[..|keys| - 1], hour) + (if k in raw && raw[k].hour == hour then {k} else {})
  }

  /** Over distinct keys, one sample is selected per matching key. */
  lemma {:induction false} InHourCount(raw: map<(int, int), RawSample>, keys: seq<(int, int)>, hour: string)
    requires Distinct(keys)
    ensures |InHour(raw, keys, hour)| == |Selected(raw, keys, hour)|
  {
    if keys != [] {
      var init := keys[..|keys| - 1];
      var k := keys[|keys| - 1];
      assert Distinct(init);
      InHourCount(raw, init, hour);
      assert k !in init;
      assert k !in Selected(raw, init, hour);
    }
  }

  /** A scan that lists exactly the GPU's stored samples selects exactly its
      samples of that hour. */
  lemma SelectedIsHourKeys(raw: map<(int, int), RawSample>, keys: seq<(int, int)>, gpu: int, hour: string)
    requires forall k :: k in keys <==> k in raw && k.0 == gpu
    ensures Selected(raw, keys, hour) == HourKeys(raw, gpu, hour)
  {
  }

  /** Aggregation reads these three fields of every sample of the hour. */
  predicate Complete(s: RawSample)
  {
    s.utilization.Some? && s.memoryUsed.Some? && s.memoryFree.Some?
  }

  predicate AllComplete(ss: seq<RawSample>)
  {
    forall i :: 0 <= i < |ss| ==> Complete(ss[i])
  }

  function UtilizationOf(s: RawSample): real
  {
    if s.utilization.Some? then s.utilization.value else 0.0
  }

  function UsedOf(s: RawSample): real
  {
    if s.memoryUsed.Some? then s.memoryUsed.value as real else 0.0
  }

  function FreeOf(s: RawSample): real
  {
    if s.memoryFree.Some? then s.memoryFree.value as real else 0.0
  }

  /** The utilization, used-memory and free-memory values of the samples. */
  function Utilizations(ss: seq<RawSample>): (r: seq<real>)
    ensures |r| == |ss|
    ensures forall i :: 0 <= i < |ss| ==> r[i] == UtilizationOf(ss[i])
  {
    if ss == [] then [] else Utilizations(ss[..|ss| - 1]) + [UtilizationOf(ss[|ss| - 1])]
  }

  function UsedValues(ss: seq<RawSample>): (r: seq<real>)
    ensures |r| == |ss|
    ensures forall i :: 0 <= i < |ss| ==> r[i] == UsedOf(ss[i])
  {
    if ss == [] then [] else UsedValues(ss[..|ss| - 1]) + [UsedOf(ss[|ss| - 1])]
  }

  function FreeValues(ss: seq<RawSample>): (r: seq<real>)
    ensures |r| == |ss|
    ensures forall i :: 0 <= i < |ss| ==> r[i] == FreeOf(ss[i])
  {
    if ss == [] then [] else FreeValues(ss[..|ss| - 1]) + [FreeOf(ss[|ss| - 1])]
  }

  /** The temperatures of the samples that have one (a stored temperature,
      even 0, is a non-empty string and so counts). */
  function Temperatures(ss: seq<RawSample>): (r: seq<real>)
    ensures |r| <= |ss|
  {
    if ss == [] then []
    else
      var s := ss[|ss| - 1];
      Temperatures(ss[..|ss| - 1]) + (if s.temperature.Some? then [s.temperature.value as real] else [])
  }

  /** The four value lists aggregation collects. */
  function Columns(ss: seq<RawSample>): (seq<real>, seq<real>, seq<real>, seq<real>)
  {
    (Utilizations(ss), UsedValues(ss), FreeValues(ss), Temperatures(ss))
  }

  /** Appending a complete sample appends its values. */
  lemma ValuesSnoc(ss: seq<RawSample>, s: RawSample)
    requires AllComplete(ss) && Complete(s)
    ensures AllComplete(ss + [s])
    ensures Columns(ss + [s]) ==
      (Columns(ss).0 + [s.utilization.value], Columns(ss).1 + [s.memoryUsed.value as real],
       Columns(ss).2 + [s.memoryFree.value as real],
       Columns(ss).3 + (if s.temperature.Some? then [s.temperature.value as real] else []))
  {
    assert (ss + [s])[..|ss|] == ss;
    assert forall i :: 0 <= i < |ss| ==> (ss + [s])[i] == ss[i];
  }

  /** There is a temperature to average exactly when some sample has one, and
      each is the temperature of a sample. */
  lemma {:induction false} TemperaturesSpec(ss: seq<RawSample>)
    ensures Temperatures(ss) != [] <==> exists i :: 0 <= i < |ss| && ss[i].temperature.Some?
    ensures forall t :: t in Temperatures(ss) ==>
      exists i :: 0 <= i < |ss| && ss[i].temperature == Some(t.Floor) && t == t.Floor as real
  {
    if ss != [] {
      var init := ss[..|ss| - 1];
      var s := ss[|ss| - 1];
      TemperaturesSpec(init);
      assert forall i :: 0 <= i < |init| ==> init[i] == ss[i];
      if s.temperature.Some? {
        assert ss[|ss| - 1].temperature.Some?;
      }
      forall t | t in Temperatures(ss)
        ensures exists i :: 0 <= i < |ss| && ss[i].temperature == Some(t.Floor) && t == t.Floor as real
      {
        if t in Temperatures(init) {
          var i :| 0 <= i < |init| && init[i].temperature == Some(t.Floor) && t == t.Floor as real;
          assert ss[i] == init[i];
        } else {
          assert t == s.temperature.value as real;
          assert ss[|ss| - 1].temperature == Some(t.Floor);
        }
      }
    }
  }

  /** The dictionary `aggregate_hourly` returns: the stored hourly hash, plus
      the average and maximum temperature when some sample had one. */
  datatype Aggregated = Aggregated(stats: HourlyAggregate, temperature: Option<(real, real)>)

  /** The aggregate of an hour's samples: none for an hour without samples,
      and none (a missing field raises) when a sample lacks a field that is
      read. */
  function AggregateOf(ss: seq<RawSample>): Option<Aggregated>
  {
    if ss == [] || !AllComplete(ss) then None
    else
      var u := Utilizations(ss);
      var ts := Temperatures(ss);
      Some(Aggregated(
        HourlyAggregate(|ss|, Mean(u), MaxOf(u), MinOf(u), Mean(UsedValues(ss)), Mean(FreeValues(ss))),
        if ts == [] then None else Some((Mean(ts), MaxOf(ts)))))
  }

  /** An aggregate exists exactly when the hour has samples and all of them
      carry the fields read; it counts every sample; its minimum, mean and
      maximum utilization are ordered and are bounds attained by the samples;
      temperature statistics are present exactly when some sample has a
      temperature, with the mean below the maximum. */
  lemma AggregateOfSpec(ss: seq<RawSample>)
    ensures AggregateOf(ss).None? <==> ss == [] || exists i :: 0 <= i < |ss| && !Complete(ss[i])
    ensures AggregateOf(ss).Some? ==>
      var a := AggregateOf(ss).value.stats;
      a.count == |ss|
      && a.minUtilization <= a.avgUtilization <= a.maxUtilization
      && (forall i :: 0 <= i < |ss| ==> a.minUtilization <= ss[i].utilization.value <= a.maxUtilization)
      && (exists i :: 0 <= i < |ss| && ss[i].utilization.value == a.maxUtilization)
      && (exists i :: 0 <= i < |ss| && ss[i].utilization.value == a.minUtilization)
    ensures AggregateOf(ss).Some? ==>
      (AggregateOf(ss).value.temperature.Some? <==> exists i :: 0 <= i < |ss| && ss[i].temperature.Some?)
    ensures AggregateOf(ss).Some? && AggregateOf(ss).value.temperature.Some? ==>
      AggregateOf(ss).value.temperature.value.0 <= AggregateOf(ss).value.temperature.value.1
  {
    TemperaturesSpec(ss);
    if AggregateOf(ss).Some? {
      var u := Utilizations(ss);
      MeanBetween(u);
      MaxOfIsMax(u);
      MinOfIsMin(u);
      var mx :| 0 <= mx < |u| && u[mx] == MaxOf(u);
      var mn :| 0 <= mn < |u| && u[mn] == MinOf(u);
      assert ss[mx].utilization.value == MaxOf(u);
      assert ss[mn].utilization.value == MinOf(u);
      var ts := Temperatures(ss);
      if ts != [] {
        MeanBetween(ts);
      }
    }
  }

  /** What `aggregate_hourly` returns when KEYS lists `keys`. */
  function Aggregate(online: bool, raw: map<(int, int), RawSample>, keys: seq<(int, int)>, hour: string): Option<Aggregated>
  {
    if online then AggregateOf(InHour(raw, keys, hour)) else None
  }

  /** Scanning exactly the GPU's samples, the hourly count is the number of
      that GPU's samples stored for that hour. */
  lemma AggregateCount(raw: map<(int, int), RawSample>, keys: seq<(int, int)>, gpu: int, hour: string)
    requires Distinct(keys)
    requires forall k :: k in keys <==> k in raw && k.0 == gpu
    ensures Aggregate(true, raw, keys, hour).Some? ==>
      Aggregate(true, raw, keys, hour).value.stats.count == |HourKeys(raw, gpu, hour)|
    ensures Aggregate(true, raw, keys, hour).None? ==>
      HourKeys(raw, gpu, hour) == {} || exists k :: k in HourKeys(raw, gpu, hour) && !Complete(raw[k])
  {
    var ss := InHour(raw, keys, hour);
    InHourCount(raw, keys, hour);
    SelectedIsHourKeys(raw, keys, gpu, hour);
    AggregateOfSpec(ss);
    if Aggregate(true, raw, keys, hour).None? && ss != [] {
      var i :| 0 <= i < |ss| && !Complete(ss[i]);
      InHourFrom(raw, keys, hour, i);
    }
  }

  /** Each selected sample is the sample of a selected key. */
  lemma {:induction false} InHourFrom(raw: map<(int, int), RawSample>, keys: seq<(int, int)>, hour: string, i: int)
    requires 0 <= i < |InHour(raw, keys, hour)|
    ensures exists k :: k in Selected(raw, keys, hour) && raw[k] == InHour(raw, keys, hour)[i]
  {
    var init := keys[..|keys| - 1];
    var k := keys[|keys| - 1];
    var p := InHour(raw, init, hour);
    if i < |p| {
      InHourFrom(raw, init, hour, i);
      var k2 :| k2 in Selected(raw, init, hour) && raw[k2] == p[i];
      assert k2 in Selected(raw, keys, hour);
    } else {
      assert k in Selected(raw, keys, hour);
    }
  }

  /** The scan as written (`load:raw:{gpu}*`): every stored sample whose key
      starts with the GPU's number is aggregated. */
  function AggregateAsWritten(raw: map<(int, int), RawSample>, keys: seq<(int, int)>, hour: string): Option<Aggregated>
    requires forall k :: k in keys ==> k in raw
  {
    AggregateOf(InHour(raw, keys, hour))
  }

  /** With one sample of GPU 10 in an hour and none of GPU 1, the scan as
      written gives GPU 1 an aggregate of one sample, where GPU 1 has none. */
  lemma AggregateAsWrittenMixesGpus()
    ensures var s := RawSample(0.0, "2024-01-01", "2024-01-01-00", Some(50.0), Some(100), Some(900), None);
      var raw := map[(10, 0) := s];
      ScanMatches(1, (10, 0))
      && AggregateAsWritten(raw, [(10, 0)], "2024-01-01-00").Some?
      && AggregateAsWritten(raw, [(10, 0)], "2024-01-01-00").value.stats.count == 1
      && Aggregate(true, raw, [], "2024-01-01-00").None?
      && HourKeys(raw, 1, "2024-01-01-00") == {}
  {
    ScanMatchesOtherGpus(10, 0);
    var s := RawSample(0.0, "2024-01-01", "2024-01-01-00", Some(50.0), Some(100), Some(900), None);
    var raw := map[(10, 0) := s];
    var h := "2024-01-01-00";
    assert [(10, 0)][..0] == [];
    assert InHour(raw, [(10, 0)], h) == [s];
    assert Complete([s][0]);
    AggregateOfSpec([s]);
    assert AggregateAsWritten(raw, [(10, 0)], h) == AggregateOf([s]);
    assert InHour(raw, [], h) == [];
    assert forall k :: k in raw ==> k.0 == 10;
  }

  // ---------------------------------------------------------------------
  // get_hourly_stats

  /** One entry of `get_hourly_stats`. */
  datatype HourStat = HourStat(
    hour: string,
    avgUtilization: real,
    maxUtilization: real,
    minUtilization: real,
    avgMemoryUsed: real,
    count: int)

  function StatOf(hour: string, a: HourlyAggregate): HourStat
  {
    HourStat(hour, a.avgUtilization, a.maxUtilization, a.minUtilization, a.avgMemoryUsed, a.count)
  }

  /** The aggregates stored for `gpu` at `hours`, in that order; an hour
      without an aggregate is skipped. */
  function HourlyStats(hourly: map<(int, string), HourlyAggregate>, gpu: int, hours: seq<string>): (r: seq<HourStat>)
    ensures |r| <= |hours|
  {
    if hours == [] then []
    else
      var h := hours[|hours| - 1];
      HourlyStats(hourly, gpu, hours[..|hours| - 1]) + (if (gpu, h) in hourly then [StatOf(h, hourly[(gpu, h)])] else [])
  }

  lemma HourlyStatsSnoc(hourly: map<(int, string), HourlyAggregate>, gpu: int, hours: seq<string>, i: int)
    requires 0 <= i < |hours|
    ensures HourlyStats(hourly, gpu, hours[..i + 1]) ==
      HourlyStats(hourly, gpu, hours[..i]) + (if (gpu, hours[i]) in hourly then [StatOf(hours[i], hourly[(gpu, hours[i])])] else [])
  {
    assert hours[..i + 1][..i] == hours[..i];
  }

  /** Every statistic is the stored aggregate of one of the requested hours,
      and every requested hour with an aggregate is reported. */
  lemma {:induction false} HourlyStatsSpec(hourly: map<(int, string), HourlyAggregate>, gpu: int, hours: seq<string>)
    ensures forall i :: 0 <= i < |HourlyStats(hourly, gpu, hours)| ==>
      var st := HourlyStats(hourly, gpu, hours)[i];
      st.hour in hours && (gpu, st.hour) in hourly && st == StatOf(st.hour, hourly[(gpu, st.hour)])
    ensures forall h :: h in hours && (gpu, h) in hourly ==>
      StatOf(h, hourly[(gpu, h)]) in HourlyStats(hourly, gpu, hours)
  {
    if hours != [] {
      var init := hours[..|hours| - 1];
      var h := hours[|hours| - 1];
      assert hours == init + [h];
      HourlyStatsSpec(hourly, gpu, init);
      var p := HourlyStats(hourly, gpu, init);
      var r := HourlyStats(hourly, gpu, hours);
      forall i | 0 <= i < |r|
        ensures r[i].hour in hours && (gpu, r[i].hour) in hourly && r[i] == StatOf(r[i].hour, hourly[(gpu, r[i].hour)])
      {
        if i < |p| {
          assert r[i] == p[i];
        }
      }
      forall x | x in hours && (gpu, x) in hourly ensures StatOf(x, hourly[(gpu, x)]) in r {
        if x in init {
          assert StatOf(x, hourly[(gpu, x)]) in p;
        } else {
          assert x == h;
        }
      }
    }
  }

  /** What `get_hourly_stats` returns for the hour strings it walks. */
  function HourlyStatsResult(online: bool, hourly: map<(int, string), HourlyAggregate>, gpu: int, hours: seq<string>): seq<HourStat>
  {
    if online then HourlyStats(hourly, gpu, hours) else []
  }

  /** A stored aggregate is reported back by the hourly statistics. */
  lemma AggregatedIsReported(hourly: map<(int, string), HourlyAggregate>, gpu: int, hour: string,
                             a: HourlyAggregate, hours: seq<string>)
    requires hour in hours
    ensures StatOf(hour, a) in HourlyStats(hourly[(gpu, hour) := a], gpu, hours)
  {
    HourlyStatsSpec(hourly[(gpu, hour) := a], gpu, hours);
  }

  // ---------------------------------------------------------------------
  // get_daily_summary

  /** `f"{hour:02d}"` for an hour of the day. */
  function TwoDigits(h: nat): (s: string)
    requires h < 100
    ensures |s| == 2
  {
    [DigitChar(h / 10), DigitChar(h % 10)]
  }

  /** The two-digit form names the hour. */
  lemma TwoDigitsInjective(h1: nat, h2: nat)
    requires h1 < 100 && h2 < 100
    ensures TwoDigits(h1) == TwoDigits(h2) ==> h1 == h2
  {
    if TwoDigits(h1) == TwoDigits(h2) {
      assert DigitValue(TwoDigits(h1)[0]) == h1 / 10 && DigitValue(TwoDigits(h2)[0]) == h2 / 10;
      assert DigitValue(TwoDigits(h1)[1]) == h1 % 10 && DigitValue(TwoDigits(h2)[1]) == h2 % 10;
    }
  }

  /** The hour string of hour `h` of `date`. */
  function HourKey(date: string, h: nat): string
    requires h < 24
  {
    date + "-" + TwoDigits(h)
  }

  /** Hours `0 .. n-1` of the day for which an aggregate is stored. */
  predicate HasHour(hourly: map<(int, string), HourlyAggregate>, gpu: int, date: string, h: nat)
    requires h < 24
  {
    (gpu, HourKey(date, h)) in hourly
  }

  /** The average utilizations of the stored hours `0 .. n-1` of the day. */
  function DayUtils(hourly: map<(int, string), HourlyAggregate>, gpu: int, date: string, n: nat): (r: seq<real>)
    requires n <= 24
    ensures |r| <= n
  {
    if n == 0 then []
    else
      DayUtils(hourly, gpu, date, n - 1)
        + (if HasHour(hourly, gpu, date, n - 1) then [hourly[(gpu, HourKey(date, n - 1))].avgUtilization] else [])
  }

  /** The average used memory of the same hours. */
  function DayMemory(hourly: map<(int, string), HourlyAggregate>, gpu: int, date: string, n: nat): (r: seq<real>)
    requires n <= 24
    ensures |r| == |DayUtils(hourly, gpu, date, n)|
  {
    if n == 0 then []
    else
      DayMemory(hourly, gpu, date, n - 1)
        + (if HasHour(hourly, gpu, date, n - 1) then [hourly[(gpu, HourKey(date, n - 1))].avgMemoryUsed] else [])
  }

  /** Some hour among the first `n` of the day has an aggregate exactly when
      there is a value to average, and each value is one hour's average. */
  lemma {:induction false} DayUtilsSpec(hourly: map<(int, string), HourlyAggregate>, gpu: int, date: string, n: nat)
    requires n <= 24
    ensures DayUtils(hourly, gpu, date, n) != [] <==> exists h: nat :: h < n && HasHour(hourly, gpu, date, h)
    ensures forall u :: u in DayUtils(hourly, gpu, date, n) ==>
      exists h: nat :: h < n && HasHour(hourly, gpu, date, h) && hourly[(gpu, HourKey(date, h))].avgUtilization == u
  {
    if n > 0 {
      DayUtilsSpec(hourly, gpu, date, n - 1);
      var p := DayUtils(hourly, gpu, date, n - 1);
      forall u | u in DayUtils(hourly, gpu, date, n)
        ensures exists h: nat :: h < n && HasHour(hourly, gpu, date, h) && hourly[(gpu, HourKey(date, h))].avgUtilization == u
      {
        if u !in p {
          assert HasHour(hourly, gpu, date, n - 1);
        }
      }
      if HasHour(hourly, gpu, date, n - 1) {
        assert DayUtils(hourly, gpu, date, n) != [];
      }
    }
  }

  /** One entry of `get_daily_summary`. */
  datatype DailySummary = DailySummary(
    date: string,
    avgUtilization: real,
    maxUtilization: real,
    minUtilization: real,
    avgMemoryUsed: real,
    dataPoints: int)

  /** The summary of a day: over the hours that have an aggregate, the mean,
      maximum and minimum of their average utilizations, the mean of their
      average used memory, and how many hours there were; none for a day
      without any aggregate. */
  function DaySummary(hourly: map<(int, string), HourlyAggregate>, gpu: int, date: string): Option<DailySummary>
  {
    var u := DayUtils(hourly, gpu, date, 24);
    if u == [] then None
    else Some(DailySummary(date, Mean(u), MaxOf(u), MinOf(u), Mean(DayMemory(hourly, gpu, date, 24)), |u|))
  }

  /** A day is summarised exactly when one of its 24 hours has an aggregate;
      a summary covers between 1 and 24 hours, and its minimum, mean and
      maximum are ordered and attained or bounded by the hours' averages. */
  lemma DaySummarySpec(hourly: map<(int, string), HourlyAggregate>, gpu: int, date: string)
    ensures DaySummary(hourly, gpu, date).Some? <==> exists h: nat :: h < 24 && HasHour(hourly, gpu, date, h)
    ensures DaySummary(hourly, gpu, date).Some? ==>
      var d := DaySummary(hourly, gpu, date).value;
      d.date == date && 1 <= d.dataPoints <= 24
      && d.minUtilization <= d.avgUtilization <= d.maxUtilization
      && (exists h: nat :: h < 24 && HasHour(hourly, gpu, date, h) && hourly[(gpu, HourKey(date, h))].avgUtilization == d.maxUtilization)
      && (forall h: nat :: h < 24 && HasHour(hourly, gpu, date, h) ==>
            d.minUtilization <= hourly[(gpu, HourKey(date, h))].avgUtilization <= d.maxUtilization)
  {
    DayUtilsSpec(hourly, gpu, date, 24);
    var u := DayUtils(hourly, gpu, date, 24);
    if u != [] {
      MeanBetween(u);
      MaxOfIsMax(u);
      MinOfIsMin(u);
      DayUtilsContains(hourly, gpu, date, 24);
    }
  }

  /** Every stored hour contributes its average. */
  lemma {:induction false} DayUtilsContains(hourly: map<(int, string), HourlyAggregate>, gpu: int, date: string, n: nat)
    requires n <= 24
    ensures forall h: nat :: h < n && HasHour(hourly, gpu, date, h) ==>
      hourly[(gpu, HourKey(date, h))].avgUtilization in DayUtils(hourly, gpu, date, n)
  {
    if n > 0 {
      DayUtilsContains(hourly, gpu, date, n - 1);
    }
  }

  /** The summaries of the days of `dates` that have data, in order. */
  function DailySummaries(hourly: map<(int, string), HourlyAggregate>, gpu: int, dates: seq<string>): (r: seq<DailySummary>)
    ensures |r| <= |dates|
  {
    if dates == [] then []
    else
      var d := DaySummary(hourly, gpu, dates[|dates| - 1]);
      DailySummaries(hourly, gpu, dates[..|dates| - 1]) + (if d.Some? then [d.value] else [])
  }

  lemma DailySummariesSnoc(hourly: map<(int, string), HourlyAggregate>, gpu: int, dates: seq<string>, i: int)
    requires 0 <= i < |dates|
    ensures DailySummaries(hourly, gpu, dates[..i + 1]) ==
      DailySummaries(hourly, gpu, dates[..i])
        + (if DaySummary(hourly, gpu, dates[i]).Some? then [DaySummary(hourly, gpu, dates[i]).value] else [])
  {
    assert dates[..i + 1][..i] == dates[..i];
  }

  /** What `get_daily_summary` returns for the date strings it walks. */
  function DailySummaryResult(online: bool, hourly: map<(int, string), HourlyAggregate>, gpu: int, dates: seq<string>): seq<DailySummary>
  {
    if online then DailySummaries(hourly, gpu, dates) else []
  }

  // ---------------------------------------------------------------------
  // get_peak_hours

  function PeakKey(p: (string, real)): real
  {
    p.1
  }

  /** `(hour, avg_utilization)` of each statistic. */
  function Peaks(stats: seq<HourStat>): (r: seq<(string, real)>)
    ensures |r| == |stats|
    ensures forall i :: 0 <= i < |stats| ==> r[i] == (stats[i].hour, stats[i].avgUtilization)
  {
    if stats == [] then [] else Peaks(stats[..|stats| - 1]) + [(stats[|stats| - 1].hour, stats[|stats| - 1].avgUtilization)]
  }

  /** The `topN` busiest hours: the pairs sorted by average utilization,
      largest first (ties keep their order), cut to `topN`. */
  function TopPeaks(ps: seq<(string, real)>, topN: int): seq<(string, real)>
  {
    PrefixSlice(SortDesc(ps, PeakKey), topN)
  }

  /** The busiest hours are at most `topN` (all of them when there are
      fewer), come busiest first, are among the candidates, and no candidate
      left out is busier than one returned. */
  lemma TopPeaksSpec(ps: seq<(string, real)>, topN: int)
    ensures topN >= 0 ==> |TopPeaks(ps, topN)| == if topN < |ps| then topN else |ps|
    ensures NonIncreasing(TopPeaks(ps, topN), PeakKey)
    ensures forall p :: p in TopPeaks(ps, topN) ==> p in ps
    ensures forall p, q :: p in ps && p !in TopPeaks(ps, topN) && q in TopPeaks(ps, topN) ==> p.1 <= q.1
  {
    var s := SortDesc(ps, PeakKey);
    var r := TopPeaks(ps, topN);
    SortDescSorted(ps, PeakKey);
    assert r <= s;
    assert forall i :: 0 <= i < |r| ==> r[i] == s[i];
    forall p | p in r ensures p in ps {
      assert p in multiset(s);
    }
    forall p, q | p in ps && p !in r && q in r ensures p.1 <= q.1 {
      assert p in multiset(s);
      var j :| 0 <= j < |s| && s[j] == p;
      var i :| 0 <= i < |r| && r[i] == q;
      if j < |r| {
        assert r[j] == p;
      }
    }
  }

  // ---------------------------------------------------------------------
  // cleanup_old_data

  /** The timelines after removing, for GPUs `0 .. n-1` in turn, the entries
      scored in `[0, cutoff]` (a timeline left empty is deleted), and how
      many entries went. */
  function Cleaned(tl: map<int, seq<Entry<int>>>, n: int, cutoff: real): (r: (map<int, seq<Entry<int>>>, nat))
    decreases if n < 0 then 0 else n
  {
    if n <= 0 then (tl, 0)
    else
      var prev := Cleaned(tl, n - 1, cutoff);
      var cut := RemoveAt(prev.0, n - 1, 0.0, cutoff);
      (cut.0, prev.1 + cut.1)
  }

  /** ZREMRANGEBYSCORE on `load:timeline:{g}`: the timelines afterwards (a
      timeline left empty is deleted) and the number of entries removed. */
  function RemoveAt(tl: map<int, seq<Entry<int>>>, g: int, lo: real, hi: real): (map<int, seq<Entry<int>>>, nat)
  {
    var cut := RemoveRangeByScore(TimelineOf(tl, g), lo, hi);
    (if cut.0 == [] then tl - {g} else tl[g := cut.0], cut.1)
  }

  /** The number of entries of GPUs `0 .. n-1` scored in `[0, cutoff]`. */
  function Expired(tl: map<int, seq<Entry<int>>>, n: int, cutoff: real): nat
    decreases if n < 0 then 0 else n
  {
    if n <= 0 then 0 else Expired(tl, n - 1, cutoff) + |RangeByScore(TimelineOf(tl, n - 1), 0.0, cutoff)|
  }

  /** Cleaning leaves each visited GPU the entries of its timeline outside
      `[0, cutoff]`, deleting the key when none remain, and leaves every
      other GPU's timeline as it was. */
  lemma {:induction false} CleanedAt(tl: map<int, seq<Entry<int>>>, n: int, cutoff: real, g: int)
    ensures TimelineOf(Cleaned(tl, n, cutoff).0, g) ==
      if 0 <= g < n then RemoveRangeByScore(TimelineOf(tl, g), 0.0, cutoff).0 else TimelineOf(tl, g)
    ensures g in Cleaned(tl, n, cutoff).0 <==>
      if 0 <= g < n then RemoveRangeByScore(TimelineOf(tl, g), 0.0, cutoff).0 != [] else g in tl
    decreases if n < 0 then 0 else n
  {
    if n > 0 {
      CleanedAt(tl, n - 1, cutoff, g);
      CleanedAt(tl, n - 1, cutoff, n - 1);
    }
  }

  /** Cleaning counts exactly the expired entries of the GPUs it visits. */
  lemma {:induction false} CleanedCount(tl: map<int, seq<Entry<int>>>, n: int, cutoff: real)
    ensures Cleaned(tl, n, cutoff).1 == Expired(tl, n, cutoff)
    decreases if n < 0 then 0 else n
  {
    if n > 0 {
      CleanedCount(tl, n - 1, cutoff);
      CleanedStep(tl, n, cutoff);
    }
  }

  /** Visiting GPU `n-1` adds the number of its expired entries. */
  lemma CleanedStep(tl: map<int, seq<Entry<int>>>, n: int, cutoff: real)
    requires n > 0
    requires Cleaned(tl, n - 1, cutoff).1 == Expired(tl, n - 1, cutoff)
    ensures Cleaned(tl, n, cutoff).1 == Expired(tl, n, cutoff)
  {
    var prev := Cleaned(tl, n - 1, cutoff);
    var z := TimelineOf(tl, n - 1);
    assert TimelineOf(prev.0, n - 1) == z by {
      CleanedAt(tl, n - 1, cutoff, n - 1);
    }
    RemoveRangeByScoreCount(z, 0.0, cutoff);
  }

  /** Cleaning counts exactly the expired entries of the GPUs it visits; each
      visited timeline that remains is non-empty and well formed, holds only
      entries of the old timeline outside `[0, cutoff]`, and keeps all of
      them; the timelines of other GPUs are untouched. */
  lemma CleanedSpec(tl: map<int, seq<Entry<int>>>, n: int, cutoff: real)
    requires TimelinesValid(tl)
    ensures TimelinesValid(Cleaned(tl, n, cutoff).0)
    ensures Cleaned(tl, n, cutoff).1 == Expired(tl, n, cutoff)
    ensures forall g :: 0 <= g < n && g in Cleaned(tl, n, cutoff).0 ==> Cleaned(tl, n, cutoff).0[g] != []
    ensures forall g, e :: 0 <= g < n && e in TimelineOf(Cleaned(tl, n, cutoff).0, g) ==>
      e in TimelineOf(tl, g) && !(0.0 <= e.score <= cutoff)
    ensures forall g, e :: 0 <= g < n && e in TimelineOf(tl, g) && !(0.0 <= e.score <= cutoff) ==>
      e in TimelineOf(Cleaned(tl, n, cutoff).0, g)
    ensures forall g :: !(0 <= g < n) ==> TimelineOf(Cleaned(tl, n, cutoff).0, g) == TimelineOf(tl, g)
    ensures forall g :: !(0 <= g < n) ==> (g in Cleaned(tl, n, cutoff).0 <==> g in tl)
  {
    CleanedCount(tl, n, cutoff);
    var r := Cleaned(tl, n, cutoff).0;
    forall g | g in r ensures Valid(r[g]) {
      CleanedGpu(tl, n, cutoff, g);
    }
    forall g | 0 <= g < n && g in r ensures r[g] != [] {
      CleanedGpu(tl, n, cutoff, g);
    }
    forall g, e | 0 <= g < n && e in TimelineOf(r, g) ensures e in TimelineOf(tl, g) && !(0.0 <= e.score <= cutoff) {
      CleanedGpu(tl, n, cutoff, g);
    }
    forall g, e | 0 <= g < n && e in TimelineOf(tl, g) && !(0.0 <= e.score <= cutoff) ensures e in TimelineOf(r, g) {
      CleanedGpu(tl, n, cutoff, g);
    }
    forall g | !(0 <= g < n) ensures TimelineOf(r, g) == TimelineOf(tl, g) && (g in r <==> g in tl) {
      CleanedGpu(tl, n, cutoff, g);
    }
  }

  lemma CleanedGpu(tl: map<int, seq<Entry<int>>>, n: int, cutoff: real, g: int)
    requires TimelinesValid(tl)
    ensures CleanedFacts(tl, n, cutoff, g)
  {
    var r := Cleaned(tl, n, cutoff).0;
    CleanedAt(tl, n, cutoff, g);
    var z := TimelineOf(tl, g);
    assert Valid(z) by {
      if g in tl {
        assert Valid(tl[g]);
      }
    }
    if 0 <= g < n {
      var rest := RemoveRangeByScore(z, 0.0, cutoff).0;
      assert TimelineOf(r, g) == rest;
      RemoveRangeByScoreValid(z, 0.0, cutoff);
      RemoveRangeByScoreEntries(z, 0.0, cutoff);
      forall e | e in z && !(0.0 <= e.score <= cutoff) ensures e in rest {
        var k :| 0 <= k < |z| && z[k] == e;
      }
      forall e | e in rest ensures e in z && !(0.0 <= e.score <= cutoff) {
        var k :| 0 <= k < |rest| && rest[k] == e;
      }
      if g in r {
        assert r[g] == rest;
      }
    } else {
      assert TimelineOf(r, g) == z;
      if g in r {
        assert r[g] == z;
      }
    }
  }

  /** What `CleanedSpec` states about one GPU. */
  ghost predicate CleanedFacts(tl: map<int, seq<Entry<int>>>, n: int, cutoff: real, g: int)
  {
    var r := Cleaned(tl, n, cutoff).0;
    (g in r ==> Valid(r[g]))
    && (0 <= g < n && g in r ==> r[g] != [])
    && (0 <= g < n ==> forall e :: e in TimelineOf(r, g) <==> e in TimelineOf(tl, g) && !(0.0 <= e.score <= cutoff))
    && (!(0 <= g < n) ==> TimelineOf(r, g) == TimelineOf(tl, g) && (g in r <==> g in tl))
  }

  // ---------------------------------------------------------------------
  // The history manager

  class LoadHistory {
    const config: Config
    const store: Store

    constructor (config: Config, store: Store)
      ensures this.config == config && this.store == store
    {
      this.config := config;
      this.store := store;
    }

    /** `add_data_point` for `gpu` at `timestamp`, whose local date and hour
        strings are given. */
    method AddDataPoint(gpu: int, m: SampleMetrics, timestamp: real, date: string, hour: string) returns (ok: bool)
      modifies store`rawSamples, store`timeline
      ensures ok == store.online
      ensures store.online ==>
        store.rawSamples == Added(old(store.rawSamples), gpu, m, timestamp, date, hour)
        && store.timeline == Indexed(old(store.timeline), gpu, timestamp)
      ensures !store.online ==> unchanged(store`rawSamples, store`timeline)
    {
      if !store.online {
        return false;
      }
      store.rawSamples := Added(store.rawSamples, gpu, m, timestamp, date, hour);
      store.timeline := Indexed(store.timeline, gpu, timestamp);
      ok := true;
    }

    /** `get_data_range`. */
    method GetDataRange(gpu: int, start: real, end: real, limit: int) returns (pts: seq<RawSample>)
      ensures pts == DataRange(store.online, store.rawSamples, store.timeline, gpu, start, end, limit)
    {
      if !store.online {
        return [];
      }
      var es := Limit(RangeByScore(TimelineOf(store.timeline, gpu), start, end), limit);
      pts := [];
      var i := 0;
      while i < |es|
        invariant 0 <= i <= |es|
        invariant pts == Points(store.rawSamples, gpu, es[..i])
      {
        PointsSnoc(store.rawSamples, gpu, es, i);
        var key := (gpu, es[i].member);
        if key in store.rawSamples {
          pts := pts + [store.rawSamples[key]];
        }
        i := i + 1;
      }
      assert es[..|es|] == es;
    }

    /** `aggregate_hourly` for `gpu` and `hour`, where KEYS listed `keys`:
        each of the GPU's stored samples once. On success the hourly hash is
        written. */
    method AggregateHourly(gpu: int, hour: string, keys: seq<(int, int)>) returns (r: Option<Aggregated>)
      requires Distinct(keys)
      requires forall k :: k in keys <==> k in store.rawSamples && k.0 == gpu
      modifies store`hourly
      ensures r == Aggregate(store.online, store.rawSamples, keys, hour)
      ensures r.Some? ==> r.value.stats.count == |HourKeys(store.rawSamples, gpu, hour)|
      ensures store.hourly == if r.Some? then old(store.hourly)[(gpu, hour) := r.value.stats] else old(store.hourly)
    {
      if !store.online {
        return None;
      }
      var complete, utils, used, free, temps, count := ScanHour(hour, keys);
      AggregateCount(store.rawSamples, keys, gpu, hour);
      if !complete || count == 0 {
        return None;
      }
      var stats := HourlyAggregate(count, Mean(utils), MaxOf(utils), MinOf(utils), Mean(used), Mean(free));
      var t := if temps == [] then None else Some((Mean(temps), MaxOf(temps)));
      r := Some(Aggregated(stats, t));
      store.hourly := store.hourly[(gpu, hour) := stats];
    }

    /** The loop of `aggregate_hourly`: the values of the samples at `keys`
        that belong to `hour`, or `complete == false` when one of them lacks a
        field that is read (which raises). */
    method ScanHour(hour: string, keys: seq<(int, int)>)
      returns (complete: bool, utils: seq<real>, used: seq<real>, free: seq<real>, temps: seq<real>, count: int)
      ensures complete <==> AllComplete(InHour(store.rawSamples, keys, hour))
      ensures complete ==>
        count == |InHour(store.rawSamples, keys, hour)|
        && (utils, used, free, temps) == Columns(InHour(store.rawSamples, keys, hour))
    {
      ghost var ss: seq<RawSample> := [];
      utils, used, free, temps := [], [], [], [];
      count := 0;
      var i := 0;
      while i < |keys|
        invariant 0 <= i <= |keys|
        invariant ss == InHour(store.rawSamples, keys[..i], hour)
        invariant AllComplete(ss)
        invariant count == |ss|
        invariant (utils, used, free, temps) == Columns(ss)
      {
        InHourSnoc(store.rawSamples, keys, hour, i);
        var k := keys[i];
        if k in store.rawSamples && store.rawSamples[k].hour == hour {
          var s := store.rawSamples[k];
          if !Complete(s) {
            IncompleteInHour(store.rawSamples, keys, hour, i);
            return false, [], [], [], [], 0;
          }
          ValuesSnoc(ss, s);
          ss := ss + [s];
          utils := utils + [s.utilization.value];
          used := used + [s.memoryUsed.value as real];
          free := free + [s.memoryFree.value as real];
          if s.temperature.Some? {
            temps := temps + [s.temperature.value as real];
          }
          assert temps == Columns(ss).3;
          count := count + 1;
        }
        i := i + 1;
      }
      assert keys[..|keys|] == keys;
      complete := true;
    }

    /** `get_hourly_stats` over the hour strings it walks, newest first. */
    method GetHourlyStats(gpu: int, hours: seq<string>) returns (stats: seq<HourStat>)
      ensures stats == HourlyStatsResult(store.online, store.hourly, gpu, hours)
    {
      if !store.online {
        return [];
      }
      stats := [];
      var i := 0;
      while i < |hours|
        invariant 0 <= i <= |hours|
        invariant stats == HourlyStats(store.hourly, gpu, hours[..i])
      {
        HourlyStatsSnoc(store.hourly, gpu, hours, i);
        var key := (gpu, hours[i]);
        if key in store.hourly {
          stats := stats + [StatOf(hours[i], store.hourly[key])];
        }
        i := i + 1;
      }
      assert hours[..|hours|] == hours;
    }

    /** `get_daily_summary` over the date strings it walks, newest first. */
    method GetDailySummary(gpu: int, dates: seq<string>) returns (summaries: seq<DailySummary>)
      ensures summaries == DailySummaryResult(store.online, store.hourly, gpu, dates)
    {
      if !store.online {
        return [];
      }
      summaries := [];
      var i := 0;
      while i < |dates|
        invariant 0 <= i <= |dates|
        invariant summaries == DailySummaries(store.hourly, gpu, dates[..i])
      {
        DailySummariesSnoc(store.hourly, gpu, dates, i);
        var date := dates[i];
        var utils: seq<real> := [];
        var memory: seq<real> := [];
        var h: nat := 0;
        while h < 24
          invariant h <= 24
          invariant utils == DayUtils(store.hourly, gpu, date, h)
          invariant memory == DayMemory(store.hourly, gpu, date, h)
        {
          var key := (gpu, HourKey(date, h));
          if key in store.hourly {
            utils := utils + [store.hourly[key].avgUtilization];
            memory := memory + [store.hourly[key].avgMemoryUsed];
          }
          h := h + 1;
        }
        if utils != [] {
          summaries := summaries + [DailySummary(date, Mean(utils), MaxOf(utils), MinOf(utils), Mean(memory), |utils|)];
        }
        i := i + 1;
      }
      assert dates[..|dates|] == dates;
    }

    /** `get_peak_hours` over the hour strings of the days it analyses. */
    method GetPeakHours(gpu: int, hours: seq<string>, topN: int) returns (peaks: seq<(string, real)>)
      ensures peaks == TopPeaks(Peaks(HourlyStatsResult(store.online, store.hourly, gpu, hours)), topN)
    {
      var stats := GetHourlyStats(gpu, hours);
      peaks := TopPeaks(Peaks(stats), topN);
    }

    /** `cleanup_old_data` at `now`, for the GPUs the count query reports:
        each timeline loses its entries at least 7 days old. */
    method CleanupOldData(countOutput: string, now: real) returns (cleaned: int)
      requires TimelinesValid(store.timeline)
      modifies store`timeline
      ensures store.online ==>
        store.timeline == Cleaned(old(store.timeline), GpuCount(countOutput), now - RawRetention).0
      ensures store.online ==> cleaned == Expired(old(store.timeline), GpuCount(countOutput), now - RawRetention)
      ensures store.online ==> TimelinesValid(store.timeline)
      ensures !store.online ==> cleaned == 0 && unchanged(store`timeline)
    {
      if !store.online {
        return 0;
      }
      CleanedSpec(store.timeline, GpuCount(countOutput), now - RawRetention);
      cleaned := Sweep(GpuCount(countOutput), now - RawRetention);
    }

    /** The loop over GPUs `0 .. n-1` of `cleanup_old_data`. */
    method Sweep(n: int, cutoff: real) returns (cleaned: int)
      modifies store`timeline
      ensures store.timeline == Cleaned(old(store.timeline), n, cutoff).0
      ensures cleaned == Cleaned(old(store.timeline), n, cutoff).1
    {
      cleaned := 0;
      var g := 0;
      while g < n
        invariant 0 <= g <= if n < 0 then 0 else n
        invariant store.timeline == Cleaned(old(store.timeline), g, cutoff).0
        invariant cleaned == Cleaned(old(store.timeline), g, cutoff).1
      {
        var removed: nat;
        store.timeline, removed := RemoveAt(store.timeline, g, 0.0, cutoff).0, RemoveAt(store.timeline, g, 0.0, cutoff).1;
        cleaned := cleaned + removed;
        g := g + 1;
      }
      if n < 0 {
        assert Cleaned(old(store.timeline), n, cutoff) == Cleaned(old(store.timeline), 0, cutoff);
      }
    }
  }
}

/** The Redis database the components share, one field per keyspace. A key
    that has expired or was never written is simply absent. `online` is false
    while the server cannot be reached: every command then fails, and each
    operation takes its error path at its first command. */
module Store {
  import opened Common
  import opened Model
  import opened SortedSets

  class Store {
    var online: bool

    /** `gpu:metrics:{gpu}` and the expiry set on it. */
    var metrics: map<int, GPUMetrics>
    var metricsTtl: map<int, int>

    /** `gpu:available` and its expiry. */
    var available: set<int>
    var availableTtl: Option<int>

    /** `gpu:paused_new_tasks` and `gpu:preferred_for_new_tasks`. */
    var paused: set<int>
    var preferred: set<int>

    /** `process:{pid}`, `gpu:{gpu}:processes` (no empty set is kept, as in
        Redis) and `process:registry` (pid to process type). */
    var records: map<int, ProcHash>
    var gpuProcs: map<int, set<int>>
    var registry: map<int, string>

    /** `thresholds:current`. */
    var thresholds: map<string, HashValue>

    /** `load:history:{gpu}` (member and score are the sample's timestamp) and
        `load:history:{gpu}:{second}`. */
    var historyIndex: map<int, seq<Entry<real>>>
    var historyDetail: map<(int, int), LoadSample>

    /** `load:raw:{gpu}:{second}`, `load:timeline:{gpu}` (member is the raw
        key's second) and `load:hourly:{gpu}:{hour}`. */
    var rawSamples: map<(int, int), RawSample>
    var timeline: map<int, seq<Entry<int>>>
    var hourly: map<(int, string), HourlyAggregate>

    /** `balance:history:{second}`, `balance:history:index` (member is the
        record's second) and `balance:daemon:status`. */
    var balanceHistory: map<int, BalanceRecord>
    var balanceIndex: seq<Entry<int>>
    var daemonStatus: map<string, HashValue>

    /** An empty, reachable database. */
    constructor ()
      ensures online
      ensures metrics == map[] && metricsTtl == map[]
      ensures available == {} && availableTtl == None
      ensures paused == {} && preferred == {}
      ensures records == map[] && gpuProcs == map[] && registry == map[]
      ensures thresholds == map[]
      ensures historyIndex == map[] && historyDetail == map[]
      ensures rawSamples == map[] && timeline == map[] && hourly == map[]
      ensures balanceHistory == map[] && balanceIndex == [] && daemonStatus == map[]
    {
      online := true;
      metrics, metricsTtl := map[], map[];
      available, availableTtl := {}, None;
      paused, preferred := {}, {};
      records, gpuProcs, registry := map[], map[], map[];
      thresholds := map[];
      historyIndex, historyDetail := map[], map[];
      rawSamples, timeline, hourly := map[], map[], map[];
      balanceHistory, balanceIndex, daemonStatus := map[], [], map[];
    }
  }
}

/** The records the components exchange and keep in the store: configuration,
    one GPU's metrics, a tracked process, and the load samples of the history
    keyspaces. */
module Model {
  import opened Common

  /** The `thresholds` dictionary of the configuration object. */
  datatype Thresholds = Thresholds(
    minMemoryMb: int,
    maxUtilization: real,
    maxTemperature: int,
    utilLow: real,
    utilHigh: real,
    adaptive: bool)

  /** The configuration fields the core reads, as an explicit record. */
  datatype Config = Config(
    metricsTtl: int,
    enableTemperature: bool,
    enableMigration: bool,
    thresholds: Thresholds,
    heartbeatTimeout: real)

  /** The values the configuration takes when no environment variable is set. */
  const DefaultConfig: Config :=
    Config(10, true, false, Thresholds(2000, 90.0, 85, 50.0, 85.0, true), 30.0)

  /** One GPU's reading as the monitor collects and publishes it. */
  datatype GPUMetrics = GPUMetrics(
    gpuId: int,
    name: string,
    utilization: real,
    memoryUsed: int,
    memoryTotal: int,
    memoryFree: int,
    temperature: int,
    powerUsage: int,
    numProcesses: int,
    timestamp: real)

  /** A dictionary from GPU id to metrics, as a list in insertion order. */
  type MetricsDict = seq<GPUMetrics>

  /** The ids of a metrics dictionary, in iteration order. */
  function Ids(ms: MetricsDict): (r: seq<int>)
    ensures |r| == |ms|
    ensures forall i :: 0 <= i < |ms| ==> r[i] == ms[i].gpuId
  {
    if ms == [] then [] else Ids(ms[..|ms| - 1]) + [ms[|ms| - 1].gpuId]
  }

  /** No GPU id occurs twice, as in a dictionary. */
  predicate UniqueIds(ms: MetricsDict)
  {
    forall i, j :: 0 <= i < j < |ms| ==> ms[i].gpuId != ms[j].gpuId
  }

  /** The `status` field of a process record: 'running', 'stuck' or 'dead'. */
  datatype ProcStatus = Running | Stuck | Dead

  /** A tracked collect/train/eval process. */
  datatype ProcessInfo = ProcessInfo(
    pid: int,
    gpuId: int,
    procType: string,
    status: ProcStatus,
    priority: int,
    startTime: real,
    lastHeartbeat: real,
    gamesCompleted: int,
    iteration: int)

  /** The hash `process:{pid}`: a complete record, or the fields a heartbeat
      wrote for a pid that had no record (which reads back as no record). */
  datatype ProcHash =
    | Full(info: ProcessInfo)
    | Partial(lastHeartbeat: real, status: Option<ProcStatus>, gamesCompleted: Option<int>, iteration: Option<int>)

  /** A value of a string-valued store hash: text, or the text Python's `str`
      gives for a float, which `float` reads back exactly and `int` refuses. */
  datatype HashValue = Text(text: string) | Number(number: real)

  /** The hash `load:history:{gpu}:{second}` written by `collect_metrics`. */
  datatype LoadSample = LoadSample(
    timestamp: real,
    hour: int,
    dayOfWeek: int,
    utilization: real,
    memoryUsed: int,
    memoryTotal: int,
    memoryFree: int,
    temperature: int,
    numProcesses: int)

  /** The fields of a `load:raw:{gpu}:{second}` hash that aggregation reads;
      a field the caller's metrics did not supply is `None`. */
  datatype RawSample = RawSample(
    timestamp: real,
    date: string,
    hour: string,
    utilization: Option<real>,
    memoryUsed: Option<int>,
    memoryFree: Option<int>,
    temperature: Option<int>)

  /** The hash `load:hourly:{gpu}:{hour}`. */
  datatype HourlyAggregate = HourlyAggregate(
    count: int,
    avgUtilization: real,
    maxUtilization: real,
    minUtilization: real,
    avgMemoryUsed: real,
    avgMemoryFree: real)

  /** The hash `balance:history:{second}`. */
  datatype BalanceRecord = BalanceRecord(
    timestamp: real,
    actionsTaken: int,
    actionsTotal: int)
}

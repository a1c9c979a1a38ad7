# gpu_balance in Dafny

This project models the decision logic of `gpu_balance`, a coordinator for a GPU
fleet. Several components share one Redis store:

- the **GPU monitor** reads `nvidia-smi`, publishes per-GPU metrics and the set of
  available GPUs;
- the **process tracker** keeps a process registry in three indices: the record of
  each pid, the pid set of each GPU, and the global registry;
- the **task scheduler** scores GPUs from 0 to 100 and chooses one or several for
  new tasks;
- the **threshold manager** learns hourly load patterns and derives adaptive
  thresholds from them;
- the **load balancer** detects overloaded and idle GPUs and plans pause, encourage
  or migrate actions, which it then executes;
- the **load history** aggregates raw samples into hourly and daily statistics;
- the **balance daemon** runs balancing rounds, counts the balanced ones and
  records them in a capped history.

Modules:

- `Store` (store.dfy) is the store. It is one class whose fields are the
  keyspaces: hashes are `map`s, sets are `set<int>`, and sorted sets are sorted
  `seq<Entry>` values.
- Every component is a class holding the store as a constant. Its methods name
  in `modifies` only the fields they write.
- `store.online == false` stands for a store that cannot be reached. Each
  operation then takes the `except` branch of the source and returns its default
  result.
- `Common`, `Text`, `Sorting` and `SortedSets` model the Python built-ins and the
  Redis commands the core relies on:
  - `int()` truncation;
  - `int(str(n))` and `int()` on text, and `float()` on plain decimal text, read as an exact real;
  - `split`/`join`;
  - the stable `sort(reverse=True)`, `max`/`min` with a key, and `sorted`;
  - ZADD, ZRANGEBYSCORE, ZREMRANGEBYRANK and ZREMRANGEBYSCORE.

Parameters, mostly suffixed `Output` or `readings`, replace external inputs:

- the clock (`now`, the current hour, date and hour strings);
- the text that `nvidia-smi` prints;
- the order in which a Redis scan returns keys.

Some defects are modelled as the code evidently intends:

- `config.gpu_balancing[...]` is read at:
  - `gpu_balance/load_balancer.py:354`
  - `gpu_balance/task_scheduler.py:168`
  - `gpu_balance/task_scheduler.py:364`
  - `gpu_balance/threshold_manager.py:119`
  - `gpu_balance/balance_daemon.py:202`

  The configuration object has no such attribute. The model reads the
  configuration record's `thresholds` and `enableMigration` fields directly.
- `allocate_gpus` calls `constraints.get` on `None` (`gpu_balance/task_scheduler.py:268-269`).
  The model treats a missing constraints map as an empty one, as it does for
  `allocate_gpu`, whose as-written form is under Findings.
- The `@property` decorators of `ProcessInfo.age` and `heartbeat_age` are
  followed by `def` lines at column 0 (`gpu_balance/process_tracker.py:38-46`),
  so the module does not compile as written. `StalePids` and `CheckHeartbeats`
  use the evidently intended heartbeat age, `now - last_heartbeat`.

## Model

| member | source | states |
|---|---|---|
| `Common.Trunc` | gpu_balance/threshold_manager.py:168 | Python `int()` of a float truncates toward zero. The result is within 1 of x, on x's side of zero, and never further from zero than x. |
| `Common.MaxOfIsMax` | gpu_balance/history.py:182 | `max` of a non-empty list is one of its elements and bounds every element. |
| `Common.MinOfIsMin` | gpu_balance/history.py:183 | `min` of a non-empty list is one of its elements and is below every element. |
| `Common.SumBounds` | gpu_balance/history.py:181-183 | The sum of n values lies between n·min and n·max. |
| `Common.MeanBetween` | gpu_balance/history.py:181-183 | The average of a non-empty list lies between its minimum and its maximum. |
| `Common.Filter` | gpu_balance/load_balancer.py:181-182 | A filtering comprehension keeps exactly the elements that pass the test. Its length is the number that pass. |
| `Common.FilterAppend` | gpu_balance/load_balancer.py:181-182 | Filtering distributes over appending one element, which keeps the input order. |
| `Common.RemoveFirst` | gpu_balance/load_balancer.py:298 | `list.remove` shortens the list by one when x is present, and leaves it unchanged otherwise. |
| `Common.RemoveFirstDistinct` | gpu_balance/load_balancer.py:317 | On a list without repeats, `remove(x)` leaves exactly the other elements, still without repeats. |
| `Text.NatToStringValue` | gpu_balance/threshold_manager.py:390 | The decimal digits `str` prints for a natural number denote that number. |
| `Text.IntToStringRoundTrip` | gpu_balance/threshold_manager.py:96 | `int(str(n)) == n` for every integer, so an integer field survives being saved as text. |
| `Text.SplitJoin` | gpu_balance/utils.py:205-208 | Joining the pieces of a split with the separator gives back the text. |
| `Text.JoinSplit` | gpu_balance/utils.py:205-208 | Splitting a join of separator-free pieces gives back the pieces. |
| `Text.SplitNoSeparator` | gpu_balance/utils.py:205 | Text without the separator splits into itself alone. |
| `Text.Split` | gpu_balance/utils.py:205 | A split yields at least one piece, and no piece holds the separator. |
| `TextExamples.ParseIntRejects` | gpu_balance/utils.py:300-316 | `int()` rejects empty, blank, sign-only, trailing-garbage and doubled-underscore text. |
| `TextExamples.ParseIntStrips` | gpu_balance/utils.py:97 | `int()` ignores surrounding whitespace, such as the newline of command output. |
| `TextExamples.ParseIntSign` | gpu_balance/utils.py:312 | `int()` reads a leading minus sign. |
| `TextExamples.ParseIntUnderscores` | gpu_balance/utils.py:312 | `int()` reads a plus sign and digit-group underscores. |
| `TextExamples.ParseDecimalWhole` | gpu_balance/utils.py:147 | `float()` reads a whole number. |
| `TextExamples.ParseDecimalFraction` | gpu_balance/utils.py:329 | `float()` reads a decimal fraction exactly. |
| `TextExamples.ParseDecimalRejects` | gpu_balance/utils.py:317-331 | `float()` rejects "N/A" and a lone point. |
| `Sorting.SortDesc` | gpu_balance/task_scheduler.py:230 | The descending sort is a permutation of its input. |
| `Sorting.SortDescSorted` | gpu_balance/task_scheduler.py:292 | The descending sort's result is non-increasing in the key. |
| `Sorting.SortDescHead` | gpu_balance/task_scheduler.py:230-231 | Because the sort is stable, its head is the first element of maximum key. |
| `Sorting.SortDescOfSorted` | gpu_balance/load_balancer.py:320 | Because the sort is stable, an already non-increasing list comes back unchanged. |
| `Sorting.FirstMaxIsFirstMaximum` | gpu_balance/load_balancer.py:293 | `max(..., key=)` returns the first element whose key is maximal. |
| `Sorting.FirstMin` | gpu_balance/load_balancer.py:302 | `min(..., key=)` returns an element whose key is minimal. |
| `Sorting.SortAsc` | gpu_balance/utils.py:281 | `sorted` is a permutation of its input. |
| `Sorting.SortAscSorted` | gpu_balance/utils.py:281 | `sorted`'s result is ascending. |
| `SortedSets.ZAddValid` | gpu_balance/threshold_manager.py:165 | ZADD keeps a sorted set ordered by score, with each member present once. |
| `SortedSets.ZAddEntries` | gpu_balance/balance_daemon.py:130 | After ZADD the member is present with the new score, and every other member keeps its entry. |
| `SortedSets.ZAddFrom` | gpu_balance/balance_daemon.py:130 | ZADD adds at most one entry, and adds no entry other than the new one. |
| `SortedSets.KeepTopSuffix` | gpu_balance/threshold_manager.py:175 | ZREMRANGEBYRANK 0 -(n+1) keeps the last min(n, size) entries. |
| `SortedSets.KeepTopSpec` | gpu_balance/balance_daemon.py:133 | Trimming keeps the set valid, and every entry before the kept suffix scores no higher than any entry of it. |
| `SortedSets.KeepTopDrops` | gpu_balance/balance_daemon.py:133 | An entry the trim drops scores no higher than any entry it keeps. |
| `SortedSets.RangeByScore` | gpu_balance/history.py:120-127 | ZRANGEBYSCORE returns exactly the entries scored within [lo, hi]. |
| `SortedSets.Limit` | gpu_balance/history.py:124-125 | `start=0, num=limit` keeps a prefix of at most `limit` entries; a negative limit keeps all. |
| `SortedSets.RemoveRangeByScoreCount` | gpu_balance/history.py:359-364 | ZREMRANGEBYSCORE reports the number of entries scored in the range. |
| `SortedSets.RemoveRangeByScoreEntries` | gpu_balance/history.py:359-363 | After ZREMRANGEBYSCORE, exactly the entries outside the range remain. |
| `SortedSets.RemoveRangeByScoreValid` | gpu_balance/history.py:359-363 | ZREMRANGEBYSCORE keeps the sorted set valid. |
| `Utils.GpuCountOfNumber` | gpu_balance/utils.py:94-101 | When the command prints one integer, `get_gpu_count` returns that integer. |
| `Utils.GpuCount` | gpu_balance/utils.py:94-101 | The printed integer, or 0 when the output is not one integer. |
| `Utils.GpuCountOfTwoLines` | gpu_balance/utils.py:94-101 | Output of two lines is not one integer, so the count falls back to 0. |
| `Utils.Reading` | gpu_balance/utils.py:117 | An empty reading is 0; otherwise the reading is Python's `int`, which may fail. |
| `Utils.GpuMemory` | gpu_balance/utils.py:114-132 | free = total − used. A failed reading makes every field 0, and otherwise used and total are the readings. |
| `Utils.GpuMemoryOfNumbers` | gpu_balance/utils.py:114-128 | Printed used and total figures come back unchanged, with free their difference. |
| `Utils.GpuUtilization` | gpu_balance/utils.py:145-151 | The reading as a float, or 0.0 when it is empty or unreadable. |
| `Utils.GpuUtilizationOfNumber` | gpu_balance/utils.py:147 | A whole-number percentage is read as that number. |
| `Utils.GpuTemperature` | gpu_balance/utils.py:163-169 | The reading as an integer, or 0 when it is empty or unreadable. |
| `Utils.GpuName` | gpu_balance/utils.py:181-186 | The output when it is non-empty, and "GPU {id}" otherwise; never empty. |
| `Utils.ProcessLines` | gpu_balance/utils.py:205-215 | A successful parse yields at most one process per line. |
| `Utils.ParseProcessLines` | gpu_balance/utils.py:204-217 | The loop over the output lines computes the line parse specified by `ProcessLines`. |
| `Utils.GetProcessesOnGpu` | gpu_balance/utils.py:189-221 | `get_processes_on_gpu` returns the parse of the output, or [] when the output is empty or a number fails to parse. |
| `Utils.ProcessLinesFailed` | gpu_balance/utils.py:211-220 | Once a prefix of the lines fails to parse, the whole call returns no process. |
| `Utils.ProcessLineParses` | gpu_balance/utils.py:208-214 | A printed "name,pid,memory" line splits into exactly those three fields. |
| `Utils.ProcessLinesSnoc` | gpu_balance/utils.py:205-214 | Appending a well-formed line appends its process to the parse. |
| `Utils.ProcessLinesOfParse` | gpu_balance/utils.py:205-217 | Parsing the printed lines of processes gives back those processes. |
| `Utils.ProcessesRoundTrip` | gpu_balance/utils.py:199-219 | Printing processes one per line and parsing the text gives them back, in order. |
| `Utils.ProcessesBadPid` | gpu_balance/utils.py:210-220 | A line whose pid is not an integer empties the whole result. |
| `Utils.AvailableSet` | gpu_balance/utils.py:274-279 | A GPU is available iff it has published metrics with free ≥ min_memory and utilization ≤ max_util. |
| `Utils.StrictlyAscendingUnique` | gpu_balance/utils.py:281 | Two strictly ascending lists with the same elements are equal, which makes `sorted`'s output unique. |
| `Utils.PublishGpuMetrics` | gpu_balance/utils.py:222-245 | The GPU's metrics hash is replaced, with its TTL; a TTL ≤ 0 removes the key. A store failure changes nothing and returns false. |
| `Utils.ScanAvailable` | gpu_balance/utils.py:266-279 | The key scan collects each available GPU exactly once. |
| `Utils.GetAvailableGpus` | gpu_balance/utils.py:246-286 | The result is strictly ascending and holds exactly the available GPUs; a store failure gives []. |
| `Utils.AvailableSetAsWritten` | gpu_balance/utils.py:275-276 | With bytes keys every lookup falls back to 0. A GPU then passes only when min_memory ≤ 0 and max_util ≥ 0, whatever its metrics. |
| `Utils.AvailableAsWrittenMissesIdleGpu` | gpu_balance/utils.py:275-278 | An idle GPU with 8000 MB free is available as intended, but is not reported as written. |
| `Utils.SafeInt` | gpu_balance/utils.py:300-316 | Python `int()` on int, float (truncated), bool and text values; `default` on text that does not parse and on None. |
| `Utils.SafeFloat` | gpu_balance/utils.py:317-331 | Python `float()` on each value kind, read as an exact real; `default` on text that does not parse and on None. |
| `Utils.SafeIntOfText` | gpu_balance/utils.py:311-316 | A printed integer is read back; "N/A" gives the default. |
| `GpuMonitor.CollectGpuMetrics` | gpu_balance/gpu_monitor.py:73-117 | A GPU's record holds its readings. free = total − used, temperature is 0 unless enabled, and `num_processes` is the number of parsed processes. |
| `GpuMonitor.CollectOfNumbers` | gpu_balance/gpu_monitor.py:83-112 | Printed numeric readings and process lines come back as the record's fields. |
| `GpuMonitor.CollectedMetrics` | gpu_balance/gpu_monitor.py:126-140 | A count ≤ 0 gives no GPU; otherwise one record per GPU. |
| `GpuMonitor.CollectedMetricsSpec` | gpu_balance/gpu_monitor.py:126-140 | Record i is `collect_gpu_metrics` of GPU i, for i = 0..count−1 in order, and carries id i, so no id appears twice. |
| `GpuMonitor.GPUMonitor.CollectAllGpus` | gpu_balance/gpu_monitor.py:119-140 | Sets `gpu_count` from the command, then returns the records of that many GPUs. |
| `GpuMonitor.AvailableIds` | gpu_balance/gpu_monitor.py:176-183 | The available list holds exactly the GPUs with free ≥ min_memory and util ≤ max_util. |
| `GpuMonitor.AvailableIdsInOrder` | gpu_balance/gpu_monitor.py:180-183 | The available list keeps the metrics' order. |
| `GpuMonitor.PublishedValues` | gpu_balance/gpu_monitor.py:152-164 | After publication every GPU of the round has its record; with a TTL ≤ 0 none is kept. |
| `GpuMonitor.PublishedOthers` | gpu_balance/gpu_monitor.py:152-164 | Publication leaves other GPUs' records unchanged and adds no other key. |
| `GpuMonitor.PublishedThenAvailable` | gpu_balance/utils.py:261-281 | A GPU the monitor lists as available is found available in the published metrics, and the converse holds too. |
| `GpuMonitor.GPUMonitor.PublishMetrics` | gpu_balance/gpu_monitor.py:142-164 | Every GPU is published. The result is true iff all publishes succeed, and true for an empty round. |
| `GpuMonitor.GPUMonitor.UpdateAvailableGpus` | gpu_balance/gpu_monitor.py:166-199 | Returns the available list whether or not the store answers. A non-empty list replaces the set with a 15 s expiry; an empty one deletes the key. |
| `GpuMonitor.GPUMonitor.PublishAll` | gpu_balance/gpu_monitor.py:218-221 | Publishes the metrics, then replaces the available set; a store failure changes nothing. |
| `GpuMonitor.GPUMonitor.MonitorOnce` | gpu_balance/gpu_monitor.py:201-226 | Returns the collected records. An empty round, or an unreachable store, publishes nothing. |
| `GpuMonitor.MonitorOnceAsWritten` | gpu_balance/gpu_monitor.py:224-245 | The summary names an undefined variable, so any round that collected something raises. |
| `GpuMonitor.MonitorOnceAsWrittenRaises` | gpu_balance/gpu_monitor.py:238-246 | On a one-GPU machine, `monitor_once` as written raises instead of returning the record. |
| `GpuMonitor.GPUMonitor.Start` | gpu_balance/gpu_monitor.py:257-266 | `start` leaves the monitor running, whether or not it already was. |
| `GpuMonitor.GPUMonitor.Stop` | gpu_balance/gpu_monitor.py:268-277 | `stop` leaves the monitor stopped, whether or not it was running. |
| `ProcessTracker.RegisteredSpec` | gpu_balance/process_tracker.py:85-108 | A 'running' record with start = heartbeat = now, the pid in its GPU's set, and registry[pid] = type. A previous GPU's set keeps the pid, and nothing else changes. |
| `ProcessTracker.ProcessTracker.RegisterProcess` | gpu_balance/process_tracker.py:69-118 | The three indices become `Registered(...)` of the old ones; a store failure changes nothing and returns false. |
| `ProcessTracker.HeartbeatSpec` | gpu_balance/process_tracker.py:131-139 | A live record gets heartbeat = now, plus the supplied status and counters. A missing record stays missing, and no other record changes. |
| `ProcessTracker.HeartbeatRevives` | gpu_balance/process_tracker.py:120-143 | A heartbeat that reports a stuck process running makes it running again, and it is no longer stale. |
| `ProcessTracker.ProcessTracker.UpdateHeartbeat` | gpu_balance/process_tracker.py:120-143 | The heartbeat is written without checking that the record exists; the call is true unless the store fails. |
| `ProcessTracker.ProcessTracker.GetProcessInfo` | gpu_balance/process_tracker.py:145-174 | Returns the full record stored for the pid, and none for a missing or partial hash or a store failure. |
| `ProcessTracker.LivePids` | gpu_balance/process_tracker.py:190-193 | A listing keeps exactly the pids that still have a record. |
| `ProcessTracker.ProcessTracker.ListLive` | gpu_balance/process_tracker.py:190-195 | The loop returns one record for each live pid of the index, each once. |
| `ProcessTracker.ProcessTracker.GetProcessesByGpu` | gpu_balance/process_tracker.py:176-199 | The live records among the GPU's pid set; dangling entries are skipped, and a store failure gives []. |
| `ProcessTracker.ProcessTracker.GetAllProcesses` | gpu_balance/process_tracker.py:201-223 | The live records among the registry's pids; a store failure gives []. |
| `ProcessTracker.StalePids` | gpu_balance/process_tracker.py:238-241 | The stale pids are exactly the registry pids with a live record and now − heartbeat > timeout, a strict inequality. |
| `ProcessTracker.MarkStuckSpec` | gpu_balance/process_tracker.py:248-251 | Marking sets the status of the given live records to 'stuck', touches no other record, and leaves the other two indices alone. |
| `ProcessTracker.MarkStuckAdd` | gpu_balance/process_tracker.py:238-252 | Marking one more pid updates exactly that pid's record. |
| `ProcessTracker.CheckHeartbeatsIdempotent` | gpu_balance/process_tracker.py:225-257 | A second check right after the first finds the same pids and changes nothing more. |
| `ProcessTracker.ProcessTracker.CheckHeartbeats` | gpu_balance/process_tracker.py:225-257 | Returns each stale pid once and marks exactly those records stuck. |
| `ProcessTracker.UnregisteredSpec` | gpu_balance/process_tracker.py:308-325 | A missing record changes nothing. Otherwise the pid leaves all three indices, and every other pid's record is kept. |
| `ProcessTracker.ProcessTracker.UnregisterProcess` | gpu_balance/process_tracker.py:298-329 | The result is true iff the store answers and a record existed; the indices become `Unregistered(...)`. |
| `ProcessTracker.ReapedNone` | gpu_balance/process_tracker.py:271-288 | Reaping no pid leaves the tracker unchanged. |
| `ProcessTracker.ReapedStep` | gpu_balance/process_tracker.py:271-288 | Reaping one more pid is unregistering it after the others. |
| `ProcessTracker.ReapedSpec` | gpu_balance/process_tracker.py:271-288 | Every reaped pid leaves the registry, its record and its GPU's set; every other pid is untouched. |
| `ProcessTracker.ProcessTracker.ReapStale` | gpu_balance/process_tracker.py:271-288 | The reaping loop removes each stale pid and counts one per pid. |
| `ProcessTracker.ProcessTracker.CleanupStaleProcesses` | gpu_balance/process_tracker.py:259-296 | Marks the stale pids stuck, then reaps them. Returns their number; a store failure returns 0. |
| `ProcessTracker.ProcessTracker.GetProcessCountByGpu` | gpu_balance/process_tracker.py:331-352 | Raw pid-set sizes for every GPU that has a set, each at least 1. |
| `ProcessTracker.TypeCountsSpec` | gpu_balance/process_tracker.py:364-367 | The keys are exactly the types present, and each value counts the records of that type. |
| `ProcessTracker.TypeCountsSnoc` | gpu_balance/process_tracker.py:365-367 | One more record raises the count of its type by one. |
| `ProcessTracker.TypeCountsTotal` | gpu_balance/process_tracker.py:362-369 | The counts sum to the number of records listed. |
| `ProcessTracker.ProcessTracker.CountByType` | gpu_balance/process_tracker.py:364-367 | The counting loop computes `TypeCounts`. |
| `ProcessTracker.ProcessTracker.GetProcessCountByType` | gpu_balance/process_tracker.py:354-373 | Counts the live registry records by type; the counts sum to `len(get_all_processes())`. |
| `ProcessTracker.TotalUpdate` | gpu_balance/process_tracker.py:367 | Overwriting one count changes the total by the difference. |
| `TaskScheduler.TaskScheduler.GetGpuMetrics` | gpu_balance/task_scheduler.py:72-103 | The published hash of the GPU, or none when it is absent or the store fails. |
| `TaskScheduler.UtilTerm` | gpu_balance/task_scheduler.py:144-147 | The utilization term lies in [0, 40]. It is 40 at u = 0 and 0 from u = 100. |
| `TaskScheduler.UtilTermMonotone` | gpu_balance/task_scheduler.py:145 | The utilization term does not increase with utilization. |
| `TaskScheduler.MemTerm` | gpu_balance/task_scheduler.py:150-157 | 0 when free < min. With min < 8000 it lies in [0, 30], and is 30 from free ≥ 8000. It fails only when free ≥ min = 8000, a division by zero. |
| `TaskScheduler.ProcTerm` | gpu_balance/task_scheduler.py:160-163 | The process term lies in [0, 20]. It is 20 at 0 processes and 0 from 5 processes. |
| `TaskScheduler.ProcTermMonotone` | gpu_balance/task_scheduler.py:161 | The process term does not increase with the process count. |
| `TaskScheduler.TempTerm` | gpu_balance/task_scheduler.py:166-171 | The temperature term lies in [0, 10] for a positive limit, and is 0 at or above the limit. A zero limit fails. |
| `TaskScheduler.ScoreOf` | gpu_balance/task_scheduler.py:122-180 | Without metrics the score is 0 with sentinel values 100 % / 0 MB / 999 processes. Scoring fails exactly on the two divisions by zero. |
| `TaskScheduler.ScoreBounds` | gpu_balance/task_scheduler.py:109-114 | For readings within range, the score exists and lies in [0, 100]. |
| `TaskScheduler.ScoreMonotone` | gpu_balance/task_scheduler.py:144-163 | More utilization or more processes never raises the score. |
| `TaskScheduler.ScoreExample` | gpu_balance/task_scheduler.py:144-171 | A GPU at 20 % utilization with 8000 MB free and no processes scores 82. |
| `TaskScheduler.TaskScheduler.ScoreGpu` | gpu_balance/task_scheduler.py:105-180 | Scores the published metrics of the GPU. |
| `TaskScheduler.ScoresOf` | gpu_balance/task_scheduler.py:224-227 | One score per id in order, or failure when some id fails to score. |
| `TaskScheduler.TaskScheduler.ScoreAll` | gpu_balance/task_scheduler.py:224-227 | The scoring loop computes `ScoresOf`. |
| `TaskScheduler.ScoresOfNonePrefix` | gpu_balance/task_scheduler.py:225-227 | A failure on a prefix of the ids fails the whole scoring. |
| `TaskScheduler.Limits` | gpu_balance/task_scheduler.py:202-203 | A constraint overrides the adaptive threshold only when it is given. |
| `TaskScheduler.Allocation` | gpu_balance/task_scheduler.py:211-221 | No GPU when none is available. An available `specific_gpu` is returned unchanged. |
| `TaskScheduler.AllocationBest` | gpu_balance/task_scheduler.py:224-241 | Otherwise the choice is available and of maximal score; on a tie it is the lowest id. |
| `TaskScheduler.BestScored` | gpu_balance/task_scheduler.py:230-231 | The head of the stable sort over ascending ids is the lowest id of maximal score. |
| `TaskScheduler.TaskScheduler.AllocateGpu` | gpu_balance/task_scheduler.py:182-245 | `allocate_gpu` computes `Allocation` over the GPUs available under the adaptive thresholds and the constraints, and leaves the thresholds hash as `get_adaptive_thresholds` leaves it (`AdaptiveStore`). |
| `TaskScheduler.AllocationAsWritten` | gpu_balance/task_scheduler.py:197-203 | With constraints given, as written agrees with `Allocation`. |
| `TaskScheduler.AllocationAsWrittenWithoutConstraints` | gpu_balance/task_scheduler.py:202 | Without constraints `allocate_gpu` returns none as written, where the intended call returns the GPU. |
| `TaskScheduler.Allocations` | gpu_balance/task_scheduler.py:277-279 | No GPU is available, so none is allocated. |
| `TaskScheduler.AllocationsChosen` | gpu_balance/task_scheduler.py:282-295 | min(count, available) distinct available ids; count = −1 means all of them. |
| `TaskScheduler.AllocationsRanked` | gpu_balance/task_scheduler.py:292-295 | The ids are in non-increasing score order, and no GPU left out scores above a chosen one. |
| `TaskScheduler.TopChosen` | gpu_balance/task_scheduler.py:295 | The first n sorted ids are distinct and available. |
| `TaskScheduler.TopRanked` | gpu_balance/task_scheduler.py:292-295 | The first n sorted ids are ranked by score and dominate the rest. |
| `TaskScheduler.SortedIdsDistinct` | gpu_balance/task_scheduler.py:292 | Sorting the scores of distinct ids keeps the ids distinct. |
| `TaskScheduler.SortedCovers` | gpu_balance/task_scheduler.py:292 | Every scored id appears in the sorted list. |
| `TaskScheduler.TaskScheduler.AllocateGpus` | gpu_balance/task_scheduler.py:247-305 | `allocate_gpus` computes `Allocations` over the GPUs available under the adaptive thresholds and the constraints, and leaves the thresholds hash as `get_adaptive_thresholds` leaves it. |
| `TaskScheduler.TaskScheduler.AllocateUnder` | gpu_balance/task_scheduler.py:271-305 | Under given thresholds, filters, scores, sorts and takes the first `count` GPUs (all of them for -1), which is `Allocations`. |
| `TaskScheduler.RecommendedSpec` | gpu_balance/task_scheduler.py:368-411 | With n available: `none` iff n = 0; `spread` over the first k ascending ids iff k ≤ n; `balanced` over all iff n < k ≤ 2n. Otherwise `concentrate` on the top max(1, n//2) by score. |
| `TaskScheduler.RecommendedExample` | gpu_balance/task_scheduler.py:393-402 | Eight tasks on three GPUs concentrate on one GPU. |
| `TaskScheduler.TaskScheduler.ConcentrateTasks` | gpu_balance/task_scheduler.py:395-405 | The concentrate branch scores and sorts the available GPUs, and leaves the thresholds hash as `get_adaptive_thresholds` leaves it. |
| `TaskScheduler.TaskScheduler.RecommendAllocation` | gpu_balance/task_scheduler.py:344-419 | `recommend_allocation` computes `Recommended` over the GPUs available under the configured thresholds. The thresholds hash is saved as `get_adaptive_thresholds` saves it on the concentrate branch only, and is untouched otherwise. |
| `ThresholdManager.CurrentThresholds` | gpu_balance/threshold_manager.py:90-110 | An empty or unreadable hash gives the defaults, and `adaptive` holds iff the stored text is 'True'. |
| `ThresholdManager.Saved` | gpu_balance/threshold_manager.py:389-399 | Saving writes the seven threshold fields and keeps every other field of the hash. |
| `ThresholdManager.SavedFields` | gpu_balance/threshold_manager.py:389-397 | The integer field is stored as its decimal text, `adaptive` as 'True'/'False', and the rest as their values. |
| `ThresholdManager.SaveLoadRoundTrip` | gpu_balance/threshold_manager.py:92-103 | Loading what was saved gives back every field of the thresholds. |
| `ThresholdManager.ThresholdManager.GetCurrentThresholds` | gpu_balance/threshold_manager.py:83-110 | Reads the stored hash; an unreachable store gives the defaults. |
| `ThresholdManager.ThresholdManager.SaveThresholds` | gpu_balance/threshold_manager.py:378-404 | The hash becomes `Saved(old, t)`; a store failure changes nothing and returns false. |
| `ThresholdManager.AdaptedThresholds` | gpu_balance/threshold_manager.py:347-360 | For any averages: util_high ∈ [70, 95], util_low ∈ [30, 60], low < high, min_memory ∈ [1000, 4000], max_utilization = 95, adaptive = true. |
| `ThresholdManager.AdaptedRegimes` | gpu_balance/threshold_manager.py:332-350 | Hours 8 to 20 inclusive use the daytime formulas. Other hours use the night formulas, so at night util_low ∈ [50, 60] and util_high ≤ 90. |
| `ThresholdManager.NightIsStricter` | gpu_balance/threshold_manager.py:334-345 | For the same averages, the night thresholds are never looser than the daytime ones. |
| `ThresholdManager.AdaptedMonotone` | gpu_balance/threshold_manager.py:336-350 | Higher average load never lowers any adaptive threshold. |
| `ThresholdManager.AdaptiveOutcome` | gpu_balance/threshold_manager.py:291-372 | With adaptive false or no pattern for the hour, the current thresholds unchanged; otherwise the adapted ones from the averages. |
| `ThresholdManager.AdaptivePersisted` | gpu_balance/threshold_manager.py:363 | The adapted thresholds are persisted and read back unchanged. |
| `ThresholdManager.AdaptiveStable` | gpu_balance/threshold_manager.py:282-372 | Running the adaptation again over the same history gives the same thresholds. |
| `ThresholdManager.ThresholdManager.HourPatterns` | gpu_balance/threshold_manager.py:307-318 | The loop gathers the current hour's pattern from each GPU that has one. |
| `ThresholdManager.HourLoads` | gpu_balance/threshold_manager.py:307-318 | Every gathered pattern is for the current hour, at most one per GPU. |
| `ThresholdManager.ThresholdManager.GetAdaptiveThresholds` | gpu_balance/threshold_manager.py:282-376 | Returns `AdaptiveOutcome` and saves it exactly when it adapted. |
| `ThresholdManager.Adjusted` | gpu_balance/threshold_manager.py:430-438 | Each field given replaces the current one and the rest are kept; `adaptive` is the flag passed. |
| `ThresholdManager.AdjustNothing` | gpu_balance/threshold_manager.py:428-440 | An adjustment with no field changes only the time and the reason. |
| `ThresholdManager.ThresholdManager.AdjustThresholds` | gpu_balance/threshold_manager.py:406-444 | The stored hash becomes the saved adjustment, which keeps `adaptive`. |
| `ThresholdManager.EnableAdaptiveAsWritten` | gpu_balance/threshold_manager.py:514-516 | As written, `enable_adaptive` keeps the current flag whatever its argument. |
| `ThresholdManager.EnableAdaptiveAsWrittenIgnoresFlag` | gpu_balance/threshold_manager.py:504-516 | Disabling as written leaves adaptive thresholds enabled. |
| `ThresholdManager.EnabledThresholds` | gpu_balance/threshold_manager.py:504-516 | Intended: the flag becomes the argument, with the time and reason updated. |
| `ThresholdManager.EnabledThresholdsStored` | gpu_balance/threshold_manager.py:504-516 | Read back, the flag is the argument and the numeric thresholds are unchanged. |
| `ThresholdManager.ThresholdManager.EnableAdaptive` | gpu_balance/threshold_manager.py:504-516 | The stored flag becomes the argument. |
| `ThresholdManager.ThresholdManager.CollectMetrics` | gpu_balance/threshold_manager.py:130-181 | Each GPU's index gains the timestamp and its detail gains the sample. A store failure changes nothing and returns false. |
| `ThresholdManager.ThresholdManager.Collect` | gpu_balance/threshold_manager.py:146-175 | The loop over the metrics records every GPU in turn. |
| `ThresholdManager.ThresholdManager.CollectOne` | gpu_balance/threshold_manager.py:148-175 | One turn records the next GPU. |
| `ThresholdManager.CollectedDetailSpec` | gpu_balance/threshold_manager.py:168-169 | Every GPU of the round has its sample under (gpu, int(now)), and other keys are untouched. |
| `ThresholdManager.RecordedSpec` | gpu_balance/threshold_manager.py:165-175 | After ZADD and the trim the index is valid and holds at most 10000 entries; a newest timestamp ends up last. |
| `ThresholdManager.RecordStepBounded` | gpu_balance/threshold_manager.py:165-175 | Recording keeps every index within 10000 entries. |
| `ThresholdManager.CollectedIndexBounded` | gpu_balance/threshold_manager.py:146-175 | A whole round keeps every index within 10000 entries. |
| `ThresholdManager.Details` | gpu_balance/threshold_manager.py:215-222 | Samples whose detail hash is missing are skipped. |
| `ThresholdManager.BucketsSpec` | gpu_balance/threshold_manager.py:209-231 | The hour buckets hold, for each hour, exactly that hour's utilizations and memory figures in order, each hour once. |
| `ThresholdManager.AddSampleNew` | gpu_balance/threshold_manager.py:224-231 | A sample of an hour not yet seen opens a new bucket, and the buckets still summarise the samples. |
| `ThresholdManager.AddSampleExisting` | gpu_balance/threshold_manager.py:229-231 | A sample of an hour already seen extends that bucket, and the buckets still summarise the samples. |
| `ThresholdManager.FindDistinct` | gpu_balance/threshold_manager.py:229 | With distinct bucket hours, looking up a bucket's hour finds that bucket. |
| `ThresholdManager.PatternsOfSound` | gpu_balance/threshold_manager.py:234-247 | Each pattern comes from one bucket of at least 5 samples. |
| `ThresholdManager.PatternsOfComplete` | gpu_balance/threshold_manager.py:234-247 | Every bucket of at least 5 samples yields its pattern. |
| `ThresholdManager.PatternsOfDistinct` | gpu_balance/threshold_manager.py:234-247 | Distinct bucket hours give patterns of distinct hours. |
| `ThresholdManager.PatternAt` | gpu_balance/threshold_manager.py:311-312 | The pattern of the hour is found iff some pattern has that hour, and it is one of the patterns. |
| `ThresholdManager.SamplePatternsSound` | gpu_balance/threshold_manager.py:234-247 | A pattern's count is the number of the hour's samples (≥ 5), its average their mean, its peak their max, and its memory the truncated mean. |
| `ThresholdManager.SamplePatternsComplete` | gpu_balance/threshold_manager.py:235 | An hour has a pattern iff it has at least 5 samples. |
| `ThresholdManager.SamplePatternsDistinct` | gpu_balance/threshold_manager.py:239 | Each hour has at most one pattern. |
| `ThresholdManager.PatternAverageBelowPeak` | gpu_balance/threshold_manager.py:242-244 | Each pattern's average is at most its peak. |
| `ThresholdManager.DetailsSnoc` | gpu_balance/threshold_manager.py:215-222 | One more index entry adds its detail sample exactly when the detail hash exists. |
| `ThresholdManager.GroupByHour` | gpu_balance/threshold_manager.py:215-231 | The loop over the window fills the hour buckets. |
| `ThresholdManager.PatternsFromBuckets` | gpu_balance/threshold_manager.py:234-247 | The loop over the buckets builds the patterns. |
| `ThresholdManager.ThresholdManager.AnalyzePatterns` | gpu_balance/threshold_manager.py:183-253 | The patterns of the samples in the window [now − days, now]; a store failure gives none. |
| `ThresholdManager.PeakOrder` | gpu_balance/threshold_manager.py:270-274 | The (hour, average) pairs, a permutation of the patterns' pairs, in non-increasing average. |
| `ThresholdManager.PeakOrderHours` | gpu_balance/threshold_manager.py:270-276 | Every pattern hour appears, and nothing else does. |
| `ThresholdManager.PeakPairs` | gpu_balance/threshold_manager.py:270-273 | One (hour, average) pair per pattern, in dictionary order. |
| `ThresholdManager.ThresholdManager.PredictPeakHours` | gpu_balance/threshold_manager.py:255-280 | `predict_peak_hours` ranks the patterns of the window. |
| `LoadBalancer.OverloadedAndIdle` | gpu_balance/load_balancer.py:39-53 | The two tests are independent: a GPU at 10 % with 27500/30000 MB used is both overloaded and idle. |
| `LoadBalancer.LoadScore` | gpu_balance/load_balancer.py:55-61 | The load score fails exactly when total memory is 0. |
| `LoadBalancer.LoadScoreBounds` | gpu_balance/load_balancer.py:55-61 | For util ∈ [0, 100] and 0 ≤ used ≤ total, the load score lies in [0, 100]. |
| `LoadBalancer.Loads` | gpu_balance/load_balancer.py:167-178 | One load score per GPU in metrics order, or failure iff some GPU reports 0 total memory. |
| `LoadBalancer.LoadBalancer.LoadScores` | gpu_balance/load_balancer.py:170-178 | The loop over the GPUs computes `Loads`. |
| `LoadBalancer.VarianceProperties` | gpu_balance/load_balancer.py:185-187 | The variance is never negative, and is 0 when all loads are equal. |
| `LoadBalancer.LoadMap` | gpu_balance/load_balancer.py:195-207 | The details map has an entry for exactly the GPUs of the round. |
| `LoadBalancer.FilterIdsDistinct` | gpu_balance/load_balancer.py:181-182 | A filtered id list has no repeats when the round's ids have none. |
| `LoadBalancer.DetectedDistinct` | gpu_balance/load_balancer.py:181-182 | The overloaded and idle lists name each GPU once. |
| `LoadBalancer.DetectedImbalanced` | gpu_balance/load_balancer.py:158-192 | Imbalanced iff both lists are non-empty. An empty round, or one with a zero-memory GPU, gives the default result. |
| `LoadBalancer.DetectedWellFormed` | gpu_balance/load_balancer.py:181-192 | What planning relies on: distinct overloaded ids, and a balanced result has an empty list. |
| `LoadBalancer.DetectedLists` | gpu_balance/load_balancer.py:181-207 | Every overloaded (idle) GPU is in the overloaded (idle) list, and every listed GPU has a load score. |
| `LoadBalancer.DetectedStats` | gpu_balance/load_balancer.py:184-214 | Variance ≥ 0, 0 for one GPU; the average load exists and lies between the least and greatest load. |
| `LoadBalancer.SingleGpuDetected` | gpu_balance/load_balancer.py:181-192 | A lone GPU that is both overloaded and idle puts the round out of balance. |
| `LoadBalancer.DetectedAsWritten` | gpu_balance/load_balancer.py:185-214 | As written, a round of exactly one GPU raises and gives the default; other rounds agree with the intended detection. |
| `LoadBalancer.DetectedAsWrittenSingleGpu` | gpu_balance/load_balancer.py:185-214 | A lone GPU that is both overloaded and idle is imbalanced as intended, and balanced as written. |
| `LoadBalancer.DetectImbalanceAsWrittenNeverImbalanced` | gpu_balance/load_balancer.py:155-234 | Behind `monitor_once` as written, detection always returns the default, though rounds with loads are not the default as intended. |
| `LoadBalancer.LoadBalancer.Classify` | gpu_balance/load_balancer.py:158-224 | Classifies a round exactly as `Detected` specifies. |
| `LoadBalancer.LoadBalancer.DetectImbalance` | gpu_balance/load_balancer.py:141-234 | Monitors once and classifies the round; the lists are distinct, and a balanced result has an empty list. |
| `LoadBalancer.Pauses` | gpu_balance/load_balancer.py:264-272 | One `pause_new_tasks` per overloaded GPU, in order: source = that GPU, priority 7. |
| `LoadBalancer.Encourages` | gpu_balance/load_balancer.py:275-283 | One `encourage_new_tasks` per idle GPU, in order: target = that GPU, priority 5. |
| `LoadBalancer.NoMigrationPlanSpec` | gpu_balance/load_balancer.py:261-320 | After the stable sort every pause precedes every encourage, each group in input order. |
| `LoadBalancer.LoadBalancer.NoMigrationActions` | gpu_balance/load_balancer.py:264-283 | The two loops emit the pauses, then the encourages. |
| `LoadBalancer.MigrationPlanSizes` | gpu_balance/load_balancer.py:288-317 | At most one migration per idle and per overloaded GPU. min(idle, overloaded) sources leave the caller's list, which keeps only overloaded GPUs. |
| `LoadBalancer.LowestMigration` | gpu_balance/load_balancer.py:302-314 | A migration moves the lowest-priority process of its source. |
| `LoadBalancer.MigrationPlanActions` | gpu_balance/load_balancer.py:288-317 | Every migration goes from an overloaded GPU to an idle one and moves that source's lowest-priority process. |
| `LoadBalancer.MigrationPlanDistinct` | gpu_balance/load_balancer.py:288-317 | Sources and targets repeat nowhere, and no source stays in the remaining overloaded list. |
| `LoadBalancer.MigrationPlanByLoad` | gpu_balance/load_balancer.py:293 | Each source has the highest load among the sources after it and the overloaded GPUs left. |
| `LoadBalancer.Plan` | gpu_balance/load_balancer.py:255-257 | With either list empty the plan is empty and the overloaded list untouched. |
| `LoadBalancer.PlanMigrationUnsorted` | gpu_balance/load_balancer.py:320 | Migrations share one priority, so the sort leaves the migration plan in loop order. |
| `LoadBalancer.PlanSoFarStep` | gpu_balance/load_balancer.py:288-317 | One turn of the migration loop keeps the loop's invariant. |
| `LoadBalancer.PlanSoFarEnd` | gpu_balance/load_balancer.py:288-290 | When the loop ends, what it emitted is the migration plan. |
| `LoadBalancer.LoadBalancer.MigrationActions` | gpu_balance/load_balancer.py:288-317 | The migration loop computes the migration plan over the process lists it read. |
| `LoadBalancer.LoadBalancer.CreateRebalancePlan` | gpu_balance/load_balancer.py:236-326 | Returns the plan for the strategy, and the caller's overloaded list after the loop's removals. |
| `LoadBalancer.LoadBalancer.MigrateProcess` | gpu_balance/load_balancer.py:372-412 | `_migrate_process` refuses in every branch: process missing, `collect`, `train` or another type. |
| `LoadBalancer.MigrationsNeverSucceed` | gpu_balance/load_balancer.py:352-362 | No migration action ever succeeds. |
| `LoadBalancer.LoadBalancer.ExecuteAction` | gpu_balance/load_balancer.py:328-370 | Pause (encourage) adds the GPU to its marker set and succeeds; migration fails. A store failure changes nothing. |
| `LoadBalancer.NoMigrationAllSucceed` | gpu_balance/load_balancer.py:339-350 | On a reachable store every action of a no-migration plan succeeds. |
| `LoadBalancer.LoadBalancer.ExecuteAll` | gpu_balance/load_balancer.py:454-457 | Counts the successful actions and applies their markers in order. |
| `LoadBalancer.MarkedNoMigration` | gpu_balance/load_balancer.py:339-350 | A no-migration plan pauses exactly its overloaded GPUs and prefers exactly its idle ones. |
| `LoadBalancer.MarkedMigrations` | gpu_balance/load_balancer.py:352-362 | Migrations set no marker. |
| `LoadBalancer.PlanMarks` | gpu_balance/load_balancer.py:328-362 | The markers a non-empty plan sets, for each strategy. |
| `LoadBalancer.BalanceOutcomeSpec` | gpu_balance/load_balancer.py:434-468 | No imbalance gives balanced with 0 actions; otherwise balanced ⇔ actions_taken > 0. No-migration succeeds fully and migration never does. |
| `LoadBalancer.LoadBalancer.Rebalance` | gpu_balance/load_balancer.py:442-468 | Plans, executes and reports; the markers are those the plan's successful actions set. |
| `LoadBalancer.LoadBalancer.BalanceOnce` | gpu_balance/load_balancer.py:414-468 | One round: monitor, detect, plan, execute and report, with the whole effect on the store. |
| `LoadBalancer.LoadBalancer.ClearBalanceFlags` | gpu_balance/load_balancer.py:470-484 | Both marker sets are emptied; a store failure keeps them and returns false. |
| `History.IndexedSpec` | gpu_balance/history.py:89-91 | The GPU's timeline gains (int(ts), ts), stays valid, and other GPUs' timelines are untouched. |
| `History.LoadHistory.AddDataPoint` | gpu_balance/history.py:52-97 | Merges the sample into the hash under (gpu, int(ts)), where a field not supplied keeps its stored value (`Added`), and indexes it; a store failure changes nothing and returns false. |
| `History.Kept` | gpu_balance/history.py:78-85 | An HSET field holds the value written, or else the one already stored. |
| `History.SampleOf` | gpu_balance/history.py:78-85 | The merged raw hash has the call's time fields; each supplied metric is the new one, and each other metric is the stored one. |
| `History.Added` | gpu_balance/history.py:77-85 | Only the key (gpu, int(ts)) changes, and it holds the merge of the sample with the stored hash. |
| `History.AddedIdempotent` | gpu_balance/history.py:77-85 | Writing the same metrics twice in one second leaves what the first write left. |
| `History.PointsSpec` | gpu_balance/history.py:129-133 | Only entries whose hash still exists yield a point, and every such entry does. |
| `History.DataRangeSpec` | gpu_balance/history.py:118-135 | At most `limit` points, each from a timeline entry in [start, end]; with no limit every such point is returned. |
| `History.AddedIsInRange` | gpu_balance/history.py:78-133 | The hash just written is returned by a range query covering its timestamp. |
| `History.LoadHistory.GetDataRange` | gpu_balance/history.py:99-139 | `get_data_range` computes `DataRange`. |
| `History.ScanMatchesOwn` | gpu_balance/history.py:154-155 | The key scan matches the GPU's own keys. |
| `History.ScanMatchesOtherGpus` | gpu_balance/history.py:154-155 | The prefix pattern for GPU 1 also matches the keys of GPUs 10 to 19. |
| `History.InHour` | gpu_balance/history.py:163-171 | Only samples of the requested hour are aggregated. |
| `History.InHourCount` | gpu_balance/history.py:162-171 | The count is the number of distinct keys whose sample is of that hour. |
| `History.IncompleteInHour` | gpu_balance/history.py:165-170 | A matching sample missing a field makes the aggregation fail. |
| `History.SelectedIsHourKeys` | gpu_balance/history.py:154-165 | Over a scan of exactly the GPU's keys, the selected keys are the GPU's samples of the hour. |
| `History.TemperaturesSpec` | gpu_balance/history.py:169-170 | Temperatures are collected iff some matching sample has one. |
| `History.AggregateOfSpec` | gpu_balance/history.py:173-190 | None iff nothing matches or a field is missing. Otherwise count = samples and min ≤ avg ≤ max, with min and max attained; temperature stats iff a temperature exists. |
| `History.AggregateCount` | gpu_balance/history.py:162-186 | Over a per-GPU scan, the count is the number of the GPU's samples of that hour. |
| `History.AggregateAsWrittenMixesGpus` | gpu_balance/history.py:154-174 | A sample of GPU 10 is counted in GPU 1's aggregate as written; the intended aggregate of GPU 1 is empty. |
| `History.LoadHistory.ScanHour` | gpu_balance/history.py:157-171 | The scan loop collects the hour's columns and count. |
| `History.LoadHistory.AggregateHourly` | gpu_balance/history.py:141-208 | Returns the aggregate and stores it under (gpu, hour); nothing is stored when there is none. |
| `History.HourlyStatsSpec` | gpu_balance/history.py:229-244 | The stats are exactly the requested hours that have an aggregate, each from its aggregate. |
| `History.AggregatedIsReported` | gpu_balance/history.py:193-244 | An aggregate just stored is reported by the hourly stats. |
| `History.LoadHistory.GetHourlyStats` | gpu_balance/history.py:210-250 | `get_hourly_stats` computes `HourlyStatsResult`. |
| `History.TwoDigitsInjective` | gpu_balance/history.py:276 | The `{hour:02d}` keys of different hours differ. |
| `History.DayUtilsSpec` | gpu_balance/history.py:275-282 | A day's list is non-empty iff some hour has an aggregate, and holds only those hours' averages. |
| `History.DayUtilsContains` | gpu_balance/history.py:275-282 | Every hour with an aggregate contributes its average. |
| `History.DaySummarySpec` | gpu_balance/history.py:284-292 | A day is summarised iff some hour has an aggregate. 1 ≤ data_points ≤ 24 and min ≤ avg ≤ max, over those hours only. |
| `History.DailySummariesSnoc` | gpu_balance/history.py:267-292 | Each requested day with data adds its summary, in order. |
| `History.LoadHistory.GetDailySummary` | gpu_balance/history.py:252-298 | `get_daily_summary` computes `DailySummaryResult`. |
| `History.Peaks` | gpu_balance/history.py:321-324 | One (hour, average) pair per hourly stat, in order. |
| `History.TopPeaksSpec` | gpu_balance/history.py:325-327 | At most `top_n` pairs from the input, non-increasing; no pair left out has a higher average than a kept one. |
| `History.LoadHistory.GetPeakHours` | gpu_balance/history.py:300-331 | `get_peak_hours` ranks the hourly stats and keeps the top ones. |
| `History.CleanedAt` | gpu_balance/history.py:355-363 | Exactly GPUs 0..count−1 have their timelines swept. |
| `History.CleanedCount` | gpu_balance/history.py:355-364 | The count returned is the number of expired entries over those GPUs. |
| `History.CleanedSpec` | gpu_balance/history.py:355-369 | Exactly the entries scored in [0, cutoff] are removed, timelines stay valid, other GPUs are untouched, and the count is the number removed. |
| `History.LoadHistory.Sweep` | gpu_balance/history.py:355-364 | The sweep loop computes `Cleaned`. |
| `History.LoadHistory.CleanupOldData` | gpu_balance/history.py:333-373 | Sweeps with cutoff now − 7 days over the counted GPUs; a store failure returns 0 and changes nothing. |
| `BalanceDaemon.UptimePartsSpec` | gpu_balance/balance_daemon.py:170-172 | minutes < 60, seconds < 60, and 3600h + 60m + s = ⌊seconds⌋. |
| `BalanceDaemon.FormatUptimeRoundTrip` | gpu_balance/balance_daemon.py:174-179 | Reading back the formatted uptime gives the whole seconds. |
| `BalanceDaemon.FormatUptimeInjective` | gpu_balance/balance_daemon.py:174-179 | Different whole seconds format differently. |
| `BalanceDaemon.FormatUptimeUnits` | gpu_balance/balance_daemon.py:174-179 | "Xh Ym Zs" from an hour, "Ym Zs" from a minute, and "Zs" below a minute. |
| `BalanceDaemon.FormatUptimeFields` | gpu_balance/balance_daemon.py:174-179 | The formatted uptime is its fields joined by spaces. |
| `BalanceDaemon.Fields` | gpu_balance/balance_daemon.py:174-179 | The formatted uptime has one to three fields. |
| `BalanceDaemon.FieldsRead` | gpu_balance/balance_daemon.py:175 | The fields are read back from their joined text. |
| `BalanceDaemon.RecordedSpec` | gpu_balance/balance_daemon.py:114-133 | The record is stored under int(now), with other records kept. The index stays valid, holds at most 1000 entries, and ends with the newest round when the clock has passed every indexed round. |
| `BalanceDaemon.TrimmedIndexSpec` | gpu_balance/balance_daemon.py:130-133 | The trimmed index is valid, within 1000 entries, and adds nothing but the new round. |
| `BalanceDaemon.TrimmedIndexDrops` | gpu_balance/balance_daemon.py:130-133 | After ZADD and ZREMRANGEBYRANK(0, -1001) the index has min(size, 1000) entries, is the suffix of the added index, and drops only entries scored no higher than any kept one. |
| `BalanceDaemon.RecordedTrim` | gpu_balance/balance_daemon.py:114-133 | The index a recorded round leaves has min(size, 1000) entries of the added index, its last ones, and every dropped entry is older than every kept one. |
| `BalanceDaemon.TrimmedIndexNewest` | gpu_balance/balance_daemon.py:130-133 | A round newer than every indexed one survives the trim, last. |
| `BalanceDaemon.RecordedKeepsBelowLimit` | gpu_balance/balance_daemon.py:133 | Below the cap, no earlier entry is dropped. |
| `BalanceDaemon.QuietRoundRecorded` | gpu_balance/balance_daemon.py:91-95 | A round without imbalance counts as balanced and is recorded with 0 actions. |
| `BalanceDaemon.RecordedAsWritten` | gpu_balance/balance_daemon.py:115-124 | As written the hash write fails on the nested `details` dict, so history never changes. |
| `BalanceDaemon.RecordedAsWrittenLosesRound` | gpu_balance/balance_daemon.py:113-138 | A balanced round is recorded as intended, and lost as written. |
| `BalanceDaemon.BalanceDaemon.RecordBalanceHistory` | gpu_balance/balance_daemon.py:106-138 | History becomes `Recorded(...)` on a reachable store, and is unchanged otherwise. |
| `BalanceDaemon.BalanceDaemon.Balance` | gpu_balance/balance_daemon.py:89 | One balancer round, which leaves the balance history alone. |
| `BalanceDaemon.BalanceDaemon.Tally` | gpu_balance/balance_daemon.py:91-95 | The counter rises, and history is recorded, exactly when the round balanced. |
| `BalanceDaemon.BalanceDaemon.BalanceRound` | gpu_balance/balance_daemon.py:85-97 | The balancer's round, then the count and the record of a balanced round. |
| `BalanceDaemon.BalanceDaemon.CheckAndBalance` | gpu_balance/balance_daemon.py:78-104 | An exception gives balanced=false with its message and changes nothing; otherwise the round's effect. |
| `BalanceDaemon.BalanceDaemon.SignalHandler` | gpu_balance/balance_daemon.py:67-76 | The handler sets the stop flag. |
| `BalanceDaemon.RoundsRun` | gpu_balance/balance_daemon.py:218-223 | The loop runs at most as many rounds as it is given. |
| `BalanceDaemon.RoundsRunSpec` | gpu_balance/balance_daemon.py:218-223 | The loop runs rounds until the first one during which a signal arrives, and that round is the last. |
| `BalanceDaemon.RoundsRunNext` | gpu_balance/balance_daemon.py:218-223 | When some round brings a signal, a round the loop runs brings it exactly when it is the last one run. |
| `BalanceDaemon.PassOfTally` | gpu_balance/balance_daemon.py:91-95 | A pass records (on a reachable store) and counts its result exactly when it balanced, whatever else it did. |
| `BalanceDaemon.PassesSnoc` | gpu_balance/balance_daemon.py:217-231 | One more pass extends the fold `Passes` by its result and leaves its new state. |
| `BalanceDaemon.StepEffectIsPass` | gpu_balance/balance_daemon.py:78-104 | A pass with the round's effect has the result and new state that `PassOf` computes from the old state. |
| `BalanceDaemon.BalanceDaemon.Pass` | gpu_balance/balance_daemon.py:218-223 | One iteration: the result and the new monitoring keys, markers, history, GPU count and counter are `PassOf` of the old ones, and the stop flag is set when the signal arrives. |
| `BalanceDaemon.PassesHistory` | gpu_balance/balance_daemon.py:217-231 | The loop's fold gives one result per round, leaves the history `Records` of the balanced results, and raises the count by their number. |
| `BalanceDaemon.RecordsQuiet` | gpu_balance/balance_daemon.py:114-133 | A loop that balanced nothing, or ran on an unreachable store, leaves the history unchanged. |
| `BalanceDaemon.RecordsIndexBounded` | gpu_balance/balance_daemon.py:130-133 | However many rounds are recorded, the index stays valid, and once anything is recorded it holds at most 1000 entries. |
| `BalanceDaemon.BalanceDaemon.Loop` | gpu_balance/balance_daemon.py:217-231 | Runs `RoundsRun` rounds. The results and the monitoring keys, markers, history, GPU count and counter they leave are the fold `Passes` of the rounds, and the stop flag is set at the end. |
| `BalanceDaemon.StartStopSpec` | gpu_balance/balance_daemon.py:206-244 | After a run the status says stopped, with its stop time, and keeps what the start wrote. |
| `BalanceDaemon.BalanceDaemon.Run` | gpu_balance/balance_daemon.py:191-231 | Writes the start status, loops until stopped, then writes the stopped status; an unreachable store fails at the first write. A run that started leaves the state `Passes` computes and the history `Records` computes. |
| `BalanceDaemon.BalanceDaemon.GetStatus` | gpu_balance/balance_daemon.py:140-158 | running = not stopped, the count, and the uptime and its formatting from the start time. |
| `BalanceDaemon.BalanceDaemon.constructor` | gpu_balance/balance_daemon.py:37-61 | A new daemon is not stopped, has counted nothing and started now. |

## Left out

- Logging, log messages and reason strings: they do not affect results. A reason is modelled only where it is stored in the thresholds hash, and the adaptive one is not stored as written (next line).
- `AdaptiveReason`, `AdaptedThresholds`, `AdaptiveOutcome`, `AdaptivePersisted` and `GetAdaptiveThresholds`: the stored adaptive reason drops the `({avg_utilization:.1f}%)` part that gpu_balance/threshold_manager.py:339 and :345 put in it. The model keeps only the day or night prefix and the hour, because it holds utilization as an exact real. Python formats the binary float, and the two can round differently. So the `reason` field of the adapted thresholds, and of the hash `_save_thresholds` writes, differs from the program's text. The numeric fields and the other stored fields are as written.
- TTLs on raw samples, hourly aggregates, history records and detail hashes: expiry is left out, and an expired key is an absent key. The TTL of published metrics and of the available set is kept as a store field.
- The refresh loop in `cleanup_old_data` (gpu_balance/history.py:345-349): it only resets TTLs.
- `day_of_week`: it is stored with each threshold sample, but the source never uses it for patterns (`day_of_week=0`).
- `details` of `detect_imbalance`: only the load score of each GPU is kept. The other fields only restate the metrics, and the per-GPU process listing feeds only their counts.
- `get_gpu_status` (gpu_balance/load_balancer.py:110-140) and `get_allocation_status` (gpu_balance/task_scheduler.py:307-342): they are read-only dictionary reports with no decision logic.
- The two `get_status_summary` methods:
  - `process_tracker` calls a method that does not exist, so that one always returns `{}`;
  - `threshold_manager`'s method only assembles a report of values modelled elsewhere.
- `export_data` (gpu_balance/history.py:375-407) and `format_timestamp`: file output and datetime formatting.
- `run_nvidia_smi`: the command's output is an input. `get_redis_client` and the store connection: a reachable or unreachable store is the `online` flag.
- `main` and argument parsing (gpu_balance/balance_daemon.py:251-339). `run_once` is left out because it is `check_and_balance` itself. Signal registration, the background monitor thread and `_monitor_loop` are also left out.
- Iteration order of Redis scans (`KEYS`, `SMEMBERS`, `HKEYS`). For the process listing, the model leaves the order open. For the history key scan, the order is a parameter.
- The clock: every `time.time()` of one call is one `now`, and hour and date strings are parameters. `**metrics` cannot override the date and hour fields of a raw sample.
- Member strings of sorted sets: the member `"{timestamp}:{gpu_id}"` of the threshold index is its timestamp, and a timeline or history member is its key's integer second.
- Partial store failure: a store either answers every call of an operation or none.
- `CreateRebalancePlan` requires distinct overloaded ids. Detection always gives them, and with repeats the loop would re-read a GPU's processes.
- `ProcessesRoundTrip` requires process names without commas or newlines. Such names would split into other fields.
- `Run` requires a stop signal among the given rounds: the source loop runs until one arrives.
- `CheckAndBalance`: an exception raised inside the balancer is modelled as an input fault that strikes before any effect.
- `FormatUptime` on a negative uptime follows Python's floor division; no property is stated for it.
- `run`'s `pid` is a parameter.
- `GetProcessCountByType` states its listing only up to the order of the pids.
- `ParseDecimal`, `SafeFloat` and `FloatValue` read only plain decimal text. Python's `float()` also accepts exponents ("1e3", "1e-05"), "inf", "nan" and digits grouped with `_`; the model reads those as text that does not parse. Floats are exact reals, so rounding to binary doubles is not modelled.
- `UpdateHeartbeat` takes, of the keyword fields `update_heartbeat` writes, only `status`, `games_completed` and `iteration`. Other fields a caller could pass (`gpu_id`, `priority`, `proc_type`, `start_time`, or a `last_heartbeat` that overrides the clock) are not modelled.
- `AddDataPoint` takes, of the `**metrics` fields, only the four that aggregation reads back (utilization, memory used, memory free, temperature). Other fields are written but never read by the core.

## Findings

| source | as written | input that shows it | evidently intended | confidence | as-written member | corrected member |
|---|---|---|---|---|---|---|
| gpu_balance/load_balancer.py:185-214 | `avg_load` is bound only when there are at least two GPUs, so with one GPU building the result raises and the default is returned | one GPU at 10 % with 27500/30000 MB used | the average of the single load is reported and the imbalance detected | not executed | `LoadBalancer.DetectedAsWrittenSingleGpu` | `LoadBalancer.DetectedStats` |
| gpu_balance/utils.py:275-276 | the metrics hash is read with bytes keys from a client that decodes responses, so every reading falls back to 0 | one published GPU with 8000 MB free at 10 % | the stored free memory and utilization are compared | not executed | `Utils.AvailableAsWrittenMissesIdleGpu` | `Utils.GetAvailableGpus` |
| gpu_balance/gpu_monitor.py:245 | `_log_summary` names `total_free_mb`, which is not defined, so `monitor_once` raises for any non-empty round and `detect_imbalance` always returns the default | any machine with one GPU | the summary logs `total_free` and the round returns its metrics | not executed | `GpuMonitor.MonitorOnceAsWrittenRaises` | `GpuMonitor.GPUMonitor.MonitorOnce` |
| gpu_balance/threshold_manager.py:514-516 | `enable_adaptive` passes only a reason, so the `adaptive` flag keeps its value | `enable_adaptive(False)` while adaptive | the flag is set to the argument | not executed | `ThresholdManager.EnableAdaptiveAsWrittenIgnoresFlag` | `ThresholdManager.EnabledThresholdsStored` |
| gpu_balance/task_scheduler.py:202-203 | `constraints.get` is called on `None`, so `allocate_gpu` without constraints always returns none | `allocate_gpu()` with one available GPU | no constraints is an empty map | not executed | `TaskScheduler.AllocationAsWrittenWithoutConstraints` | `TaskScheduler.AllocationBest` |
| gpu_balance/history.py:154-155 | the pattern `load:raw:{gpu_id}*` also matches GPUs whose id starts with the same digits | a sample of GPU 10 aggregated for GPU 1 | only the GPU's own keys are scanned | not executed | `History.AggregateAsWrittenMixesGpus` | `History.AggregateCount` |
| gpu_balance/balance_daemon.py:115-124 | the history hash is written with a nested `details` dict, which the Redis client rejects, so no round is ever recorded | any balanced round | the record is written and indexed | not executed; assumes redis-py 3 or later | `BalanceDaemon.RecordedAsWrittenLosesRound` | `BalanceDaemon.RecordedSpec` |

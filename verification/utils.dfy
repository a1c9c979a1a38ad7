/** The `nvidia-smi` output parsers, the conversion helpers and the sorted
    availability filter over the published metrics. Each parser takes the text
    the command printed (already stripped, empty when the command failed). */
module Utils {
  import opened Common
  import opened Text
  import opened Model
  import opened Sorting
  import opened Store

  /** `get_gpu_count`: the output as one integer; 0 when it is empty or is not
      an integer. */
  function GpuCount(output: string): (r: int)
    ensures ParseInt(output).Some? ==> r == ParseInt(output).value
    ensures ParseInt(output).None? ==> r == 0
  {
    if output == "" then 0
    else match ParseInt(output)
      case Some(n) => n
      case None => 0
  }

  /** The count the command prints is the count returned. */
  lemma GpuCountOfNumber(n: int)
    ensures GpuCount(IntToString(n)) == n
  {
    IntToStringRoundTrip(n);
  }

  /** The output of the count query on a machine that prints one line per GPU
      is not one integer, so it reads as no GPU at all. */
  lemma GpuCountOfTwoLines()
    ensures GpuCount("2\n2") == 0
  {
    var t := "2\n2";
    assert Strip(t) == t by {
      assert !IsSpace(t[0]) && !IsSpace(t[|t| - 1]);
      StripOfTrimmed(t);
    }
    assert !IsDigitRun(t) by { assert !IsDigit(t[1]) && t[1] != '_'; }
  }

  /** An integer reading: empty text is 0, otherwise Python's `int`. */
  function Reading(s: string): (r: Option<int>)
    ensures s == "" ==> r == Some(0)
    ensures s != "" ==> r == ParseInt(s)
  {
    if s == "" then Some(0) else ParseInt(s)
  }

  datatype MemoryInfo = MemoryInfo(used: int, total: int, free: int)

  /** `get_gpu_memory`: used and total readings, free = total - used; a reading
      that is not an integer makes every field 0. */
  function GpuMemory(usedOut: string, totalOut: string): (r: MemoryInfo)
    ensures r.free == r.total - r.used
    ensures Reading(usedOut).None? || Reading(totalOut).None? ==> r == MemoryInfo(0, 0, 0)
    ensures Reading(usedOut).Some? && Reading(totalOut).Some? ==>
              r.used == Reading(usedOut).value && r.total == Reading(totalOut).value
  {
    match (Reading(usedOut), Reading(totalOut))
    case (Some(u), Some(t)) => MemoryInfo(u, t, t - u)
    case _ => MemoryInfo(0, 0, 0)
  }

  /** The numbers the command prints come back unchanged, and free is their difference. */
  lemma GpuMemoryOfNumbers(used: int, total: int)
    ensures GpuMemory(IntToString(used), IntToString(total)) == MemoryInfo(used, total, total - used)
  {
    IntToStringRoundTrip(used);
    IntToStringRoundTrip(total);
  }

  /** `get_gpu_utilization`: the reading as a float, 0.0 when empty or unreadable. */
  function GpuUtilization(output: string): (r: real)
    ensures output != "" && ParseDecimal(output).Some? ==> r == ParseDecimal(output).value
    ensures output == "" || ParseDecimal(output).None? ==> r == 0.0
  {
    if output == "" then 0.0
    else match ParseDecimal(output)
      case Some(x) => x
      case None => 0.0
  }

  /** A whole-number percentage is read as that number. */
  lemma GpuUtilizationOfNumber(n: nat)
    ensures GpuUtilization(NatToString(n)) == n as real
  {
    var s := NatToString(n);
    assert Strip(s) == s by {
      assert !IsSpace(s[0]) && !IsSpace(s[|s| - 1]);
      StripOfTrimmed(s);
    }
    assert '.' !in s by {
      forall i | 0 <= i < |s| ensures s[i] != '.' { assert IsDigit(s[i]); }
    }
    assert s[0] != '-' && s[0] != '+' by { assert IsDigit(s[0]); }
    assert AllDigits(s);
    NatToStringValue(n);
  }

  /** `get_gpu_temperature`: the reading as an integer, 0 when empty or unreadable. */
  function GpuTemperature(output: string): (r: int)
    ensures Reading(output).Some? ==> r == Reading(output).value
    ensures Reading(output).None? ==> r == 0
  {
    match Reading(output)
    case Some(t) => t
    case None => 0
  }

  /** `get_gpu_name`: the output, or "GPU {id}" when there is none. */
  function GpuName(output: string, gpuId: int): (r: string)
    ensures output != "" ==> r == output
    ensures output == "" ==> r == "GPU " + IntToString(gpuId)
    ensures |r| > 0
  {
    if output != "" then output else "GPU " + IntToString(gpuId)
  }

  /** One entry of `get_processes_on_gpu`. */
  datatype GpuProcess = GpuProcess(name: string, pid: int, memoryUsed: int)

  /** The lines of the process query: empty lines and lines that are not three
      comma-separated fields are skipped; a pid or memory field that is not an
      integer fails the whole parse (`None`). */
  function ProcessLines(lines: seq<string>): (r: Option<seq<GpuProcess>>)
    ensures r.Some? ==> |r.value| <= |lines|
  {
    if lines == [] then Some([])
    else
      match ProcessLines(lines[..|lines| - 1])
      case None => None
      case Some(ps) =>
        var line := lines[|lines| - 1];
        var parts := Split(line, ',');
        if line == "" || |parts| != 3 then Some(ps)
        else match (ParseInt(parts[1]), ParseInt(parts[2]))
          case (Some(pid), Some(mem)) => Some(ps + [GpuProcess(parts[0], pid, mem)])
          case _ => None
  }

  /** The processes listed by the query output; none when it is empty or fails. */
  function ProcessesOnGpu(output: string): (r: seq<GpuProcess>)
  {
    if output == "" then []
    else match ProcessLines(Split(output, '\n'))
      case Some(ps) => ps
      case None => []
  }

  /** `get_processes_on_gpu`. */
  method GetProcessesOnGpu(output: string) returns (processes: seq<GpuProcess>)
    ensures processes == ProcessesOnGpu(output)
  {
    if output == "" {
      return [];
    }
    var parsed := ParseProcessLines(Split(output, '\n'));
    processes := if parsed.Some? then parsed.value else [];
  }

  /** The parsing loop of `get_processes_on_gpu`, line by line; `None` for
      the `ValueError` that empties the result. */
  method ParseProcessLines(lines: seq<string>) returns (parsed: Option<seq<GpuProcess>>)
    ensures parsed == ProcessLines(lines)
  {
    var processes := [];
    var i := 0;
    while i < |lines|
      invariant 0 <= i <= |lines|
      invariant ProcessLines(lines[..i]) == Some(processes)
    {
      assert lines[..i + 1][..i] == lines[..i];
      var line := lines[i];
      if line != "" {
        var parts := Split(line, ',');
        if |parts| == 3 {
          var pid := ParseInt(parts[1]);
          var mem := ParseInt(parts[2]);
          if pid.None? || mem.None? {
            assert ProcessLines(lines[..i + 1]) == None;
            ProcessLinesFailed(lines, i + 1);
            return None;
          }
          processes := processes + [GpuProcess(parts[0], pid.value, mem.value)];
        }
      }
      i := i + 1;
    }
    assert lines[..|lines|] == lines;
    parsed := Some(processes);
  }

  /** Once a prefix of the lines fails, the whole parse fails. */
  lemma {:induction false} ProcessLinesFailed(lines: seq<string>, k: nat)
    requires k <= |lines| && ProcessLines(lines[..k]) == None
    ensures ProcessLines(lines) == None
    decreases |lines| - k
  {
    if k < |lines| {
      assert lines[..k + 1][..k] == lines[..k];
      ProcessLinesFailed(lines, k + 1);
    } else {
      assert lines[..k] == lines;
    }
  }

  /** The line the query prints for one process. */
  function ProcessLine(p: GpuProcess): string
  {
    p.name + "," + IntToString(p.pid) + "," + IntToString(p.memoryUsed)
  }

  function ProcessLinesOf(ps: seq<GpuProcess>): (r: seq<string>)
    ensures |r| == |ps|
    ensures forall i :: 0 <= i < |ps| ==> r[i] == ProcessLine(ps[i])
  {
    seq(|ps|, i requires 0 <= i < |ps| => ProcessLine(ps[i]))
  }

  lemma NoCommaInNumber(n: int)
    ensures ',' !in IntToString(n) && '\n' !in IntToString(n)
  {
    var s := IntToString(n);
    var d := NatToString(if n < 0 then -n else n);
    forall i | 0 <= i < |d| ensures d[i] != ',' && d[i] != '\n' { assert IsDigit(d[i]); }
    assert s == d || s == "-" + d;
  }

  /** One printed line parses back to its process. */
  lemma ProcessLineParses(p: GpuProcess)
    requires ',' !in p.name && '\n' !in p.name
    ensures Split(ProcessLine(p), ',') == [p.name, IntToString(p.pid), IntToString(p.memoryUsed)]
    ensures ProcessLine(p) != "" && '\n' !in ProcessLine(p)
  {
    var parts := [p.name, IntToString(p.pid), IntToString(p.memoryUsed)];
    NoCommaInNumber(p.pid);
    NoCommaInNumber(p.memoryUsed);
    assert Join(parts[2..], ',') == IntToString(p.memoryUsed);
    assert Join(parts[1..], ',') == IntToString(p.pid) + "," + IntToString(p.memoryUsed);
    assert Join(parts, ',') == ProcessLine(p);
    JoinSplit(parts, ',');
  }

  /** Appending a well-formed line appends its process. */
  lemma ProcessLinesSnoc(lines: seq<string>, ps: seq<GpuProcess>, p: GpuProcess)
    requires ProcessLines(lines) == Some(ps)
    requires ',' !in p.name && '\n' !in p.name
    ensures ProcessLines(lines + [ProcessLine(p)]) == Some(ps + [p])
  {
    var all := lines + [ProcessLine(p)];
    assert all[..|all| - 1] == lines;
    ProcessLineParses(p);
    IntToStringRoundTrip(p.pid);
    IntToStringRoundTrip(p.memoryUsed);
  }

  /** No process name holds a field or line separator. */
  predicate PlainNames(ps: seq<GpuProcess>)
  {
    forall i :: 0 <= i < |ps| ==> ',' !in ps[i].name && '\n' !in ps[i].name
  }

  lemma ProcessLinesOfSnoc(init: seq<GpuProcess>, p: GpuProcess)
    ensures ProcessLinesOf(init + [p]) == ProcessLinesOf(init) + [ProcessLine(p)]
  {
    var all := ProcessLinesOf(init + [p]);
    var lines := ProcessLinesOf(init);
    forall i | 0 <= i < |all| ensures all[i] == (lines + [ProcessLine(p)])[i] {
      if i < |lines| { assert (init + [p])[i] == init[i]; }
    }
  }

  lemma {:induction false} ProcessLinesOfParse(ps: seq<GpuProcess>)
    requires PlainNames(ps)
    ensures ProcessLines(ProcessLinesOf(ps)) == Some(ps)
  {
    if ps != [] {
      var init := ps[..|ps| - 1];
      var p := ps[|ps| - 1];
      assert ps == init + [p];
      assert PlainNames(init) by {
        forall i | 0 <= i < |init| ensures ',' !in init[i].name && '\n' !in init[i].name {
          assert init[i] == ps[i];
        }
      }
      ProcessLinesOfParse(init);
      ProcessLinesSnoc(ProcessLinesOf(init), init, p);
      ProcessLinesOfSnoc(init, p);
    }
  }

  /** Printing processes one per line and parsing the text gives them back. */
  lemma ProcessesRoundTrip(ps: seq<GpuProcess>)
    requires |ps| > 0
    requires PlainNames(ps)
    ensures ProcessesOnGpu(Join(ProcessLinesOf(ps), '\n')) == ps
  {
    var lines := ProcessLinesOf(ps);
    forall k | 0 <= k < |lines| ensures '\n' !in lines[k] && lines[k] != "" {
      ProcessLineParses(ps[k]);
    }
    var out := Join(lines, '\n');
    JoinSplit(lines, '\n');
    assert Split(out, '\n') == lines;
    ProcessLinesOfParse(ps);
    SplitNoSeparator("", '\n');
    assert out != "";
  }

  /** Any failure to read a pid or a memory figure empties the whole list. */
  lemma ProcessesBadPid(name: string, pid: string, mem: string)
    requires ',' !in name && ',' !in pid && ',' !in mem && '\n' !in name + pid + mem
    requires ParseInt(pid).None?
    ensures ProcessesOnGpu(name + "," + pid + "," + mem) == []
  {
    var line := name + "," + pid + "," + mem;
    var parts := [name, pid, mem];
    assert Join(parts[2..], ',') == mem;
    assert Join(parts[1..], ',') == pid + "," + mem;
    assert Join(parts, ',') == line;
    JoinSplit(parts, ',');
    assert '\n' !in line by {
      assert forall i :: 0 <= i < |line| ==> line[i] in name + pid + mem || line[i] == ',';
    }
    SplitNoSeparator(line, '\n');
    assert [line][..0] == [];
  }

  /** The availability test of the monitor and of `get_available_gpus`. */
  predicate Available(m: GPUMetrics, minMemory: int, maxUtil: real)
  {
    m.memoryFree >= minMemory && m.utilization <= maxUtil
  }

  /** The ids of the published metrics that pass the availability test. */
  function AvailableSet(metrics: map<int, GPUMetrics>, minMemory: int, maxUtil: real): (r: set<int>)
    ensures forall g :: g in r <==> g in metrics && Available(metrics[g], minMemory, maxUtil)
  {
    set g | g in metrics && Available(metrics[g], minMemory, maxUtil)
  }

  /** Every value at most the next one, and no value twice. */
  predicate StrictlyAscending(s: seq<int>)
  {
    forall i, j :: 0 <= i < j < |s| ==> s[i] < s[j]
  }

  /** A strictly ascending list is determined by its elements. */
  lemma {:induction false} StrictlyAscendingUnique(a: seq<int>, b: seq<int>)
    requires StrictlyAscending(a) && StrictlyAscending(b)
    requires forall x :: x in a <==> x in b
    ensures a == b
    decreases |a|
  {
    assert a != [] ==> a[0] in a;
    assert b != [] ==> b[0] in b;
    if a != [] && b != [] {
      assert a[0] == b[0] by {
        var i :| 0 <= i < |a| && a[i] == b[0];
        var j :| 0 <= j < |b| && b[j] == a[0];
        assert a[0] <= a[i] && b[0] <= b[j];
      }
      forall x ensures x in a[1..] <==> x in b[1..] {
        if x in a[1..] {
          var i :| 1 <= i < |a| && a[i] == x;
          assert x > a[0];
        }
        if x in b[1..] {
          var j :| 1 <= j < |b| && b[j] == x;
          assert x > b[0];
        }
        assert x in a <==> x in b;
        assert a == [a[0]] + a[1..] && b == [b[0]] + b[1..];
      }
      StrictlyAscendingUnique(a[1..], b[1..]);
      assert a == [a[0]] + a[1..] && b == [b[0]] + b[1..];
    }
  }

  /** `publish_gpu_metrics`: write one GPU's hash `gpu:metrics:{gpu}` and set
      its expiry; an expiry that is not positive deletes the key at once, as
      EXPIRE does. Fails, changing nothing, when the store cannot be reached. */
  method PublishGpuMetrics(store: Store, m: GPUMetrics, ttl: int) returns (ok: bool)
    modifies store`metrics, store`metricsTtl
    ensures ok == store.online
    ensures store.online && ttl > 0 ==>
              store.metrics == old(store.metrics)[m.gpuId := m]
              && store.metricsTtl == old(store.metricsTtl)[m.gpuId := ttl]
    ensures store.online && ttl <= 0 ==>
              store.metrics == old(store.metrics) - {m.gpuId}
              && store.metricsTtl == old(store.metricsTtl) - {m.gpuId}
    ensures !store.online ==> unchanged(store`metrics, store`metricsTtl)
  {
    if !store.online {
      return false;
    }
    if ttl > 0 {
      store.metrics := store.metrics[m.gpuId := m];
      store.metricsTtl := store.metricsTtl[m.gpuId := ttl];
    } else {
      store.metrics := store.metrics - {m.gpuId};
      store.metricsTtl := store.metricsTtl - {m.gpuId};
    }
    return true;
  }

  /** `get_available_gpus`: the ids of the published metrics that pass the test,
      in ascending order; none when the store cannot be reached. The scan order
      of the keys is left open. */
  method GetAvailableGpus(store: Store, minMemory: int, maxUtil: real) returns (gpus: seq<int>)
    ensures !store.online ==> gpus == []
    ensures store.online ==> StrictlyAscending(gpus)
    ensures store.online ==> forall g :: g in gpus <==> g in AvailableSet(store.metrics, minMemory, maxUtil)
  {
    if !store.online {
      return [];
    }
    var found := ScanAvailable(store.metrics, minMemory, maxUtil);
    gpus := SortAsc(found);
    SortAscSorted(found);
    MultisetDistinct(gpus);
    forall x ensures x in gpus <==> x in found {
      assert x in multiset(gpus) <==> x in multiset(found);
    }
  }

  /** The key scan of `get_available_gpus`: each passing id once, in scan order. */
  method ScanAvailable(metrics: map<int, GPUMetrics>, minMemory: int, maxUtil: real) returns (found: seq<int>)
    ensures forall g :: g in found <==> g in AvailableSet(metrics, minMemory, maxUtil)
    ensures forall x :: multiset(found)[x] <= 1
  {
    var rest := metrics.Keys;
    found := [];
    ghost var done: set<int> := {};
    while rest != {}
      invariant rest + done == metrics.Keys && rest !! done
      invariant forall g :: g in found <==> g in done && Available(metrics[g], minMemory, maxUtil)
      invariant forall x :: multiset(found)[x] <= 1
      decreases |rest|
    {
      NonEmptyHasMember(rest);
      var g :| g in rest;
      if Available(metrics[g], minMemory, maxUtil) {
        assert g !in found;
        found := found + [g];
      }
      rest := rest - {g};
      done := done + {g};
    }
  }

  /** `get_available_gpus` as written: it looks the fields up under byte-string
      names on a client that returns text names, so every GPU reads as 0 MB free
      and 0 % busy. */
  function AvailableSetAsWritten(metrics: map<int, GPUMetrics>, minMemory: int, maxUtil: real): (r: set<int>)
    ensures 0 >= minMemory && 0.0 <= maxUtil ==> r == metrics.Keys
    ensures !(0 >= minMemory && 0.0 <= maxUtil) ==> r == {}
  {
    set g | g in metrics && 0 >= minMemory && 0.0 <= maxUtil
  }

  /** With the default thresholds, an idle GPU with 8000 MB free is available,
      but the lookup as written reports no GPU at all. */
  lemma AvailableAsWrittenMissesIdleGpu()
    ensures var m := GPUMetrics(0, "GPU 0", 10.0, 0, 8000, 8000, 40, 0, 0, 0.0);
            AvailableSet(map[0 := m], 2000, 90.0) == {0}
            && AvailableSetAsWritten(map[0 := m], 2000, 90.0) == {}
  {
    var m := GPUMetrics(0, "GPU 0", 10.0, 0, 8000, 8000, 40, 0, 0, 0.0);
    assert 0 in AvailableSet(map[0 := m], 2000, 90.0);
  }

  /** Python values handed to `safe_int` / `safe_float`. */
  datatype PyValue = PyInt(i: int) | PyFloat(f: real) | PyBool(b: bool) | PyStr(s: string) | PyNone

  /** `safe_int`: Python `int(value)`, or `default` on a value or type error. */
  function SafeInt(v: PyValue, default: int): (r: int)
    ensures v.PyInt? ==> r == v.i
    ensures v.PyFloat? ==> r == Trunc(v.f)
    ensures v.PyBool? ==> r == (if v.b then 1 else 0)
    ensures v.PyStr? ==> r == (if ParseInt(v.s).Some? then ParseInt(v.s).value else default)
    ensures v.PyNone? ==> r == default
  {
    match v
    case PyInt(i) => i
    case PyFloat(f) => Trunc(f)
    case PyBool(b) => if b then 1 else 0
    case PyStr(s) => (match ParseInt(s) case Some(n) => n case None => default)
    case PyNone => default
  }

  /** `safe_float`: Python `float(value)` as an exact real, or `default` on a
      value or type error; text is read by `ParseDecimal`. */
  function SafeFloat(v: PyValue, default: real): (r: real)
    ensures v.PyInt? ==> r == v.i as real
    ensures v.PyFloat? ==> r == v.f
    ensures v.PyBool? ==> r == (if v.b then 1.0 else 0.0)
    ensures v.PyStr? ==> r == (if ParseDecimal(v.s).Some? then ParseDecimal(v.s).value else default)
    ensures v.PyNone? ==> r == default
  {
    match v
    case PyInt(i) => i as real
    case PyFloat(f) => f
    case PyBool(b) => if b then 1.0 else 0.0
    case PyStr(s) => (match ParseDecimal(s) case Some(x) => x case None => default)
    case PyNone => default
  }

  /** An integer written out as text converts back to itself, and text that is
      not an integer gives the default. */
  lemma SafeIntOfText(n: int, d: int)
    ensures SafeInt(PyStr(IntToString(n)), d) == n
    ensures SafeInt(PyStr("N/A"), d) == d
  {
    IntToStringRoundTrip(n);
    var t := "N/A";
    assert Strip(t) == t by {
      assert !IsSpace(t[0]) && !IsSpace(t[|t| - 1]);
      StripOfTrimmed(t);
    }
    assert !IsDigitRun(t) by { assert !IsDigit(t[0]); }
  }
}

/** The balancing daemon: a loop that runs one balancing round per interval
    until a stop signal arrives, counts the rounds that ended balanced, records
    each of them in `balance:history:*`, and publishes its own state in
    `balance:daemon:status`. The clock, the process id and the moments at which
    signals arrive are parameters. */
module BalanceDaemon {
  import opened Common
  import opened Text
  import opened Model
  import opened SortedSets
  import opened Store
  import opened Utils
  import opened GpuMonitor
  import opened LoadBalancer

  /** `balance:history:index` keeps this many records. */
  const HistoryLimit: nat := 1000

  // ---------------------------------------------------------------------
  // Uptime formatting
  // ---------------------------------------------------------------------

  /** Hours, minutes and seconds of an uptime. */
  datatype Uptime = Uptime(hours: int, minutes: int, seconds: int)

  /** Python's `a % b` on floats for a positive `b`: the remainder takes the
      sign of the divisor. */
  function FloatMod(a: real, b: real): real
    requires b > 0.0
  {
    a - b * ((a / b).Floor as real)
  }

  /** `int(seconds // 3600)`, `int((seconds % 3600) // 60)` and
      `int(seconds % 60)`. */
  function UptimeParts(seconds: real): Uptime
  {
    Uptime((seconds / 3600.0).Floor, (FloatMod(seconds, 3600.0) / 60.0).Floor, Trunc(FloatMod(seconds, 60.0)))
  }

  /** The three parts rebuild the whole seconds of any uptime, negative ones
      included; minutes and seconds stay below 60. */
  lemma UptimePartsSpec(seconds: real)
    ensures var u := UptimeParts(seconds);
      && 0 <= u.minutes < 60 && 0 <= u.seconds < 60
      && u.hours * 3600 + u.minutes * 60 + u.seconds == seconds.Floor
      && (0.0 <= seconds ==> 0 <= u.hours)
  {
    var u := UptimeParts(seconds);
    var h := u.hours;
    var rem := FloatMod(seconds, 3600.0);
    var m := u.minutes;
    assert rem == seconds - 3600.0 * (h as real);
    assert (h as real) <= seconds / 3600.0 < (h as real) + 1.0;
    assert 0.0 <= rem < 3600.0;
    assert (m as real) <= rem / 60.0 < (m as real) + 1.0;
    var f := (seconds / 60.0).Floor;
    assert (f as real) <= seconds / 60.0 < (f as real) + 1.0;
    assert ((60 * h + m) as real) <= seconds / 60.0 < ((60 * h + m) as real) + 1.0;
    assert f == 60 * h + m;
    var x := FloatMod(seconds, 60.0);
    assert x == rem - 60.0 * (m as real);
    assert u.seconds == x.Floor;
    assert (x.Floor as real) <= x < (x.Floor as real) + 1.0;
    var t := seconds.Floor;
    assert (t as real) <= seconds < (t as real) + 1.0;
    assert ((h * 3600 + m * 60 + u.seconds) as real) <= seconds < ((h * 3600 + m * 60 + u.seconds) as real) + 1.0;
  }

  /** `_format_uptime`: "Xh Ym Zs" once there is a full hour, "Ym Zs" once
      there is a full minute, otherwise "Zs". */
  function FormatUptime(seconds: real): string
  {
    var u := UptimeParts(seconds);
    if u.hours > 0 then IntToString(u.hours) + "h " + IntToString(u.minutes) + "m " + IntToString(u.seconds) + "s"
    else if u.minutes > 0 then IntToString(u.minutes) + "m " + IntToString(u.seconds) + "s"
    else IntToString(u.seconds) + "s"
  }

  /** A run of digits followed by its unit letter, as `_format_uptime` writes
      a number. */
  function ParseUnit(p: string, unit: char): Option<int>
  {
    if 2 <= |p| && p[|p| - 1] == unit && AllDigits(p[..|p| - 1]) then Some(DigitsValue(p[..|p| - 1])) else None
  }

  /** Reads a formatted uptime back into whole seconds. */
  function ParseUptime(text: string): Option<int>
  {
    var parts := Split(text, ' ');
    if |parts| == 1 then ParseUnit(parts[0], 's')
    else if |parts| == 2 then
      var m, s := ParseUnit(parts[0], 'm'), ParseUnit(parts[1], 's');
      if m.Some? && s.Some? then Some(m.value * 60 + s.value) else None
    else if |parts| == 3 then
      var h, m, s := ParseUnit(parts[0], 'h'), ParseUnit(parts[1], 'm'), ParseUnit(parts[2], 's');
      if h.Some? && m.Some? && s.Some? then Some(h.value * 3600 + m.value * 60 + s.value) else None
    else None
  }

  /** A non-negative number with its unit letter has no space and reads back. */
  lemma UnitPart(n: int, unit: char)
    requires 0 <= n && unit != ' '
    ensures ' ' !in IntToString(n) + [unit]
    ensures ParseUnit(IntToString(n) + [unit], unit) == Some(n)
  {
    var d := NatToString(n);
    var p := IntToString(n) + [unit];
    assert IntToString(n) == d;
    assert p[..|p| - 1] == d;
    NatToStringValue(n);
    forall i | 0 <= i < |p| ensures p[i] != ' ' {
      if i < |p| - 1 {
        assert p[i] == d[i];
      }
    }
  }

  /** The space-separated fields `_format_uptime` shows. */
  function Fields(u: Uptime): (f: seq<string>)
    ensures 1 <= |f| <= 3
  {
    var sp := IntToString(u.seconds) + "s";
    if u.hours > 0 then [IntToString(u.hours) + "h", IntToString(u.minutes) + "m", sp]
    else if u.minutes > 0 then [IntToString(u.minutes) + "m", sp]
    else [sp]
  }

  /** The formatted text is its fields joined by spaces. */
  lemma FormatUptimeFields(seconds: real)
    ensures FormatUptime(seconds) == Join(Fields(UptimeParts(seconds)), ' ')
  {
    var u := UptimeParts(seconds);
    var f := Fields(u);
    var t := FormatUptime(seconds);
    if u.hours > 0 {
      assert f[1..] == [f[1], f[2]] && f[1..][1..] == [f[2]];
      assert Join(f[1..][1..], ' ') == f[2];
      assert Join(f[1..], ' ') == f[1] + [' '] + f[2];
      assert Join(f, ' ') == f[0] + [' '] + (f[1] + [' '] + f[2]);
      assert t == f[0] + [' '] + (f[1] + [' '] + f[2]);
    } else if u.minutes > 0 {
      assert f[1..] == [f[1]];
      assert Join(f, ' ') == f[0] + [' '] + f[1];
      assert t == f[0] + [' '] + f[1];
    }
  }

  /** The seconds a set of fields stands for. */
  function FieldsValue(u: Uptime): int
  {
    if u.hours > 0 then u.hours * 3600 + u.minutes * 60 + u.seconds
    else if u.minutes > 0 then u.minutes * 60 + u.seconds
    else u.seconds
  }

  /** Text that splits into the fields reads back to their seconds. */
  lemma ParseFields(text: string, u: Uptime)
    requires 0 <= u.minutes && 0 <= u.seconds
    requires Split(text, ' ') == Fields(u)
    ensures ParseUptime(text) == Some(FieldsValue(u))
  {
    var parts := Split(text, ' ');
    UnitPart(u.seconds, 's');
    var s := ParseUnit(IntToString(u.seconds) + "s", 's');
    assert s == Some(u.seconds);
    if u.hours > 0 {
      UnitPart(u.minutes, 'm');
      UnitPart(u.hours, 'h');
      var h, m := ParseUnit(IntToString(u.hours) + "h", 'h'), ParseUnit(IntToString(u.minutes) + "m", 'm');
      assert h == Some(u.hours) && m == Some(u.minutes);
      assert parts == [IntToString(u.hours) + "h", IntToString(u.minutes) + "m", IntToString(u.seconds) + "s"];
      assert ParseUptime(text) == Some(u.hours * 3600 + u.minutes * 60 + u.seconds);
      assert ParseUptime(text) == Some(FieldsValue(u));
    } else if u.minutes > 0 {
      UnitPart(u.minutes, 'm');
      var m := ParseUnit(IntToString(u.minutes) + "m", 'm');
      assert m == Some(u.minutes);
      assert parts == [IntToString(u.minutes) + "m", IntToString(u.seconds) + "s"];
      assert ParseUptime(text) == Some(u.minutes * 60 + u.seconds);
      assert ParseUptime(text) == Some(FieldsValue(u));
    } else {
      assert parts == [IntToString(u.seconds) + "s"];
      assert |parts| == 1;
      assert ParseUptime(text) == ParseUnit(parts[0], 's');
      assert ParseUptime(text) == Some(u.seconds);
      assert ParseUptime(text) == Some(FieldsValue(u));
    }
  }

  /** The fields split apart again and read back to the seconds they stand for. */
  lemma FieldsRead(u: Uptime)
    requires 0 <= u.minutes && 0 <= u.seconds
    ensures Split(Join(Fields(u), ' '), ' ') == Fields(u)
    ensures ParseUptime(Join(Fields(u), ' ')) == Some(FieldsValue(u))
  {
    var f := Fields(u);
    UnitPart(u.seconds, 's');
    UnitPart(u.minutes, 'm');
    if u.hours > 0 {
      UnitPart(u.hours, 'h');
    }
    JoinSplit(f, ' ');
    ParseFields(Join(f, ' '), u);
  }

  /** A non-negative uptime is shown to the second: reading the text back gives
      its whole seconds. */
  lemma {:induction false} FormatUptimeRoundTrip(seconds: real)
    requires 0.0 <= seconds
    ensures ParseUptime(FormatUptime(seconds)) == Some(seconds.Floor)
  {
    var u := UptimeParts(seconds);
    UptimePartsSpec(seconds);
    assert FieldsValue(u) == seconds.Floor;
    FormatUptimeFields(seconds);
    FieldsRead(u);
  }

  /** Two non-negative uptimes in different seconds are never shown alike. */
  lemma FormatUptimeInjective(a: real, b: real)
    requires 0.0 <= a && 0.0 <= b && a.Floor != b.Floor
    ensures FormatUptime(a) != FormatUptime(b)
  {
    FormatUptimeRoundTrip(a);
    FormatUptimeRoundTrip(b);
  }

  /** Hours are shown exactly from one hour of uptime on, minutes exactly from
      one minute on. */
  lemma FormatUptimeUnits(seconds: real)
    requires 0.0 <= seconds
    ensures |Split(FormatUptime(seconds), ' ')| == if seconds >= 3600.0 then 3 else if seconds >= 60.0 then 2 else 1
  {
    var u := UptimeParts(seconds);
    UptimePartsSpec(seconds);
    FormatUptimeFields(seconds);
    FieldsRead(u);
    var t := seconds.Floor;
    assert (t as real) <= seconds < (t as real) + 1.0;
    if seconds >= 3600.0 {
      assert u.hours > 0;
    } else if seconds >= 60.0 {
      assert u.hours == 0 && u.minutes > 0;
    } else {
      assert u.hours == 0 && u.minutes == 0;
    }
  }

  // ---------------------------------------------------------------------
  // Balance history
  // ---------------------------------------------------------------------

  /** `result.get('actions_total', 0)`. */
  function TotalOf(r: BalanceResult): int
  {
    match r.actionsTotal
    case Some(n) => n
    case None => 0
  }

  /** `balance:history:*` and `balance:history:index`. */
  function History(store: Store): (map<int, BalanceRecord>, seq<Entry<int>>)
    reads store
  {
    (store.balanceHistory, store.balanceIndex)
  }

  /** `_record_balance_history` on a reachable store: the record under the
      current second, the index entry scored with the time, and the index cut
      back to its newest `HistoryLimit` entries. */
  function Recorded(h: (map<int, BalanceRecord>, seq<Entry<int>>), now: real, r: BalanceResult): (map<int, BalanceRecord>, seq<Entry<int>>)
  {
    var key := Trunc(now);
    (h.0[key := BalanceRecord(now, r.actionsTaken, TotalOf(r))], KeepTop(ZAdd(h.1, key, now), HistoryLimit))
  }

  /** The record is stored under its second and the others are kept; the index
      stays well formed, holds at most `HistoryLimit` entries, holds nothing
      but old entries and the new one, and, when the clock has moved past
      every indexed record, ends with the new one. `RecordedTrim` says which
      entries the trim keeps. */
  lemma RecordedSpec(h: (map<int, BalanceRecord>, seq<Entry<int>>), now: real, r: BalanceResult)
    requires Valid(h.1)
    ensures var (hist, index) := Recorded(h, now, r);
      && hist[Trunc(now)] == BalanceRecord(now, r.actionsTaken, TotalOf(r))
      && (forall k :: k in h.0 && k != Trunc(now) ==> k in hist && hist[k] == h.0[k])
      && Valid(index) && |index| <= HistoryLimit
      && (forall i :: 0 <= i < |index| ==> index[i] in h.1 || index[i] == Entry(Trunc(now), now))
      && ((forall i :: 0 <= i < |h.1| ==> h.1[i].score < now) ==> index[|index| - 1] == Entry(Trunc(now), now))
  {
    var key := Trunc(now);
    var index := KeepTop(ZAdd(h.1, key, now), HistoryLimit);
    assert Recorded(h, now, r) == (h.0[key := BalanceRecord(now, r.actionsTaken, TotalOf(r))], index);
    TrimmedIndexSpec(h.1, key, now);
    if forall i :: 0 <= i < |h.1| ==> h.1[i].score < now {
      TrimmedIndexNewest(h.1, key, now);
    }
  }

  /** Which entries the trim of `_record_balance_history` keeps: the newest
      min(size, `HistoryLimit`) of the index with the new round, so that no
      dropped entry scores above a kept one. */
  lemma RecordedTrim(h: (map<int, BalanceRecord>, seq<Entry<int>>), now: real, r: BalanceResult)
    requires Valid(h.1)
    ensures var z, index := ZAdd(h.1, Trunc(now), now), Recorded(h, now, r).1;
      && |index| == (if |z| <= HistoryLimit then |z| else HistoryLimit)
      && index == z[|z| - |index|..]
      && (forall e, k :: e in z && e !in index && k in index ==> e.score <= k.score)
  {
    TrimmedIndexDrops(h.1, Trunc(now), now);
  }

  /** The index after adding `key` at `now` and trimming is well formed,
      holds at most `HistoryLimit` entries, and holds only old entries and
      the new one. */
  lemma TrimmedIndexSpec(z0: seq<Entry<int>>, key: int, now: real)
    requires Valid(z0)
    ensures var index := KeepTop(ZAdd(z0, key, now), HistoryLimit);
      && Valid(index) && |index| <= HistoryLimit
      && forall i :: 0 <= i < |index| ==> index[i] in z0 || index[i] == Entry(key, now)
  {
    var z := ZAdd(z0, key, now);
    var index := KeepTop(z, HistoryLimit);
    ZAddValid(z0, key, now);
    ZAddFrom(z0, key, now);
    KeepTopSpec(z, HistoryLimit);
    forall i | 0 <= i < |index| ensures index[i] in z0 || index[i] == Entry(key, now) {
      assert index[i] == z[|z| - |index| + i];
    }
  }

  /** The trim keeps the newest min(size, `HistoryLimit`) entries of the
      index with the new round, and no dropped entry scores above a kept one. */
  lemma TrimmedIndexDrops(z0: seq<Entry<int>>, key: int, now: real)
    requires Valid(z0)
    ensures var z := ZAdd(z0, key, now);
      var index := KeepTop(z, HistoryLimit);
      && |index| == (if |z| <= HistoryLimit then |z| else HistoryLimit)
      && index == z[|z| - |index|..]
      && (forall e, k :: e in z && e !in index && k in index ==> e.score <= k.score)
  {
    var z := ZAdd(z0, key, now);
    ZAddValid(z0, key, now);
    KeepTopSuffix(z, HistoryLimit);
    KeepTopDrops(z, HistoryLimit);
  }

  /** When every old entry scores below `now`, the new entry ends the index. */
  lemma TrimmedIndexNewest(z0: seq<Entry<int>>, key: int, now: real)
    requires Valid(z0)
    requires forall i :: 0 <= i < |z0| ==> z0[i].score < now
    ensures var index := KeepTop(ZAdd(z0, key, now), HistoryLimit);
      |index| > 0 && index[|index| - 1] == Entry(key, now)
  {
    var z := ZAdd(z0, key, now);
    ZAddValid(z0, key, now);
    ZAddFrom(z0, key, now);
    ZAddEntries(z0, key, now);
    var p :| 0 <= p < |z| && z[p] == Entry(key, now);
    var last := z[|z| - 1];
    assert last in z0 || last == Entry(key, now);
    assert z[p].score <= last.score;
    assert forall e :: e in z0 ==> e.score < now;
    assert last !in z0;
    var index := KeepTop(z, HistoryLimit);
    assert index[|index| - 1] == z[|z| - 1];
  }

  /** Below the limit the index loses no other record. */
  lemma RecordedKeepsBelowLimit(h: (map<int, BalanceRecord>, seq<Entry<int>>), now: real, r: BalanceResult)
    requires Valid(h.1) && |h.1| < HistoryLimit
    ensures forall i :: 0 <= i < |h.1| && h.1[i].member != Trunc(now) ==> h.1[i] in Recorded(h, now, r).1
  {
    var z := ZAdd(h.1, Trunc(now), now);
    ZAddFrom(h.1, Trunc(now), now);
    ZAddEntries(h.1, Trunc(now), now);
    assert Recorded(h, now, r).1 == z;
  }

  /** A round that found nothing to balance is recorded with no actions. */
  lemma QuietRoundRecorded(h: (map<int, BalanceRecord>, seq<Entry<int>>), now: real,
                           imb: Imbalance, plan: (seq<RebalanceAction>, seq<int>), online: bool)
    requires !imb.imbalanced
    ensures BalanceOutcome(imb, plan, online).balanced
    ensures Recorded(h, now, BalanceOutcome(imb, plan, online)).0[Trunc(now)] == BalanceRecord(now, 0, 0)
  {
  }

  /** `_record_balance_history` as written: the hash it writes carries the
      imbalance details as a nested dictionary, which the Redis client refuses
      with a `DataError` before sending anything; the handler swallows it, so
      nothing is ever recorded. */
  function RecordedAsWritten(h: (map<int, BalanceRecord>, seq<Entry<int>>), now: real, r: BalanceResult): (g: (map<int, BalanceRecord>, seq<Entry<int>>))
    ensures g == h
  {
    h
  }

  /** Even the first balanced round on an empty store leaves no history as
      written, while the intended write stores it and indexes it. */
  lemma RecordedAsWrittenLosesRound()
    ensures var r := BalanceOutcome(NoImbalance, ([], []), true);
      && r.balanced
      && RecordedAsWritten((map[], []), 100.0, r) == (map[], [])
      && Recorded((map[], []), 100.0, r).0 == map[100 := BalanceRecord(100.0, 0, 0)]
      && Recorded((map[], []), 100.0, r).1 == [Entry(100, 100.0)]
  {
    var r := BalanceOutcome(NoImbalance, ([], []), true);
    assert Trunc(100.0) == 100;
    var empty: seq<Entry<int>> := [];
    assert Without(empty, 100) == [];
    assert ZAdd(empty, 100, 100.0) == [Entry(100, 100.0)];
  }

  // ---------------------------------------------------------------------
  // The daemon
  // ---------------------------------------------------------------------

  /** What `check_and_balance` returns: the balancer's result, or the message
      of an exception it caught. */
  datatype Checked = Ran(result: BalanceResult) | Failed(error: string)

  predicate Balanced(c: Checked)
  {
    c.Ran? && c.result.balanced
  }

  /** The inputs of one loop round: what the balancer reads, the clock, an
      exception escaping the balancer, and whether a stop signal arrives
      during the round or the wait after it. */
  datatype Round = Round(countOutput: string, readings: int -> GpuReadings, now: real, fault: Option<string>, signal: bool)

  /** What a pass of the loop can change: the monitoring keys, the marker
      sets, the balance history, the monitor's GPU count and the counter. */
  datatype Snapshot = Snapshot(mon: MonitorKeys, marks: (set<int>, set<int>),
                               history: (map<int, BalanceRecord>, seq<Entry<int>>), gpuCount: int, count: int)

  /** One pass of the loop from the state `s0` on a store that is `online` or
      not: an escaping exception changes nothing; otherwise the balancing round
      has its effect (the processes of the overloaded GPUs read as `listed`),
      and a balanced round is counted and recorded at the round's time. */
  ghost function PassOf(config: Config, strategy: BalanceStrategy, online: bool, round: Round,
                        listed: map<int, seq<ProcessInfo>>, s0: Snapshot): (Checked, Snapshot)
  {
    if round.fault.Some? then (Failed(round.fault.value), s0)
    else
      var (result, mon, marks) :=
        RoundOutcome(config, strategy, round.countOutput, round.readings, round.now, online, listed, s0.mon, s0.marks);
      (Ran(result),
       Snapshot(mon, marks,
                if result.balanced && online then Recorded(s0.history, round.now, result) else s0.history,
                GpuCount(round.countOutput),
                s0.count + if result.balanced then 1 else 0))
  }

  /** What one pass of the loop did, as a relation between the states before
      and after it: an escaping exception changes nothing; otherwise the
      balancing round had its effect, and a balanced round was counted and
      recorded at the round's time. */
  ghost predicate StepEffect(config: Config, strategy: BalanceStrategy, online: bool, round: Round,
                             r: Checked, listed: map<int, seq<ProcessInfo>>, s0: Snapshot, s1: Snapshot)
  {
    if round.fault.Some? then r == Failed(round.fault.value) && s1 == s0
    else
      && r.Ran?
      && RoundEffect(config, strategy, round.countOutput, round.readings, round.now, online, listed, r.result,
                     s0.mon, s1.mon, s0.marks, s1.marks)
      && s1.gpuCount == GpuCount(round.countOutput)
      && s1.history == (if r.result.balanced && online then Recorded(s0.history, round.now, r.result) else s0.history)
      && s1.count == s0.count + (if r.result.balanced then 1 else 0)
  }

  /** A pass that had that effect has the result and the new state that
      `PassOf` computes. */
  lemma StepEffectIsPass(config: Config, strategy: BalanceStrategy, online: bool, round: Round,
                         r: Checked, listed: map<int, seq<ProcessInfo>>, s0: Snapshot, s1: Snapshot)
    requires StepEffect(config, strategy, online, round, r, listed, s0, s1)
    ensures PassOf(config, strategy, online, round, listed, s0) == (r, s1)
  {
  }

  /** The passes of the loop over the first |listeds| rounds from `s0`: their
      results, and the state after the last. */
  ghost function Passes(config: Config, strategy: BalanceStrategy, online: bool, rounds: seq<Round>,
                        listeds: seq<map<int, seq<ProcessInfo>>>, s0: Snapshot): (seq<Checked>, Snapshot)
    requires |listeds| <= |rounds|
    decreases |listeds|
  {
    if listeds == [] then ([], s0)
    else
      var n := |listeds| - 1;
      var before := Passes(config, strategy, online, rounds, listeds[..n], s0);
      var after := PassOf(config, strategy, online, rounds[n], listeds[n], before.1);
      (before.0 + [after.0], after.1)
  }

  /** What a pass does to the history and the counter depends only on its
      result: a balanced one is recorded (on a reachable store) and counted. */
  lemma PassOfTally(config: Config, strategy: BalanceStrategy, online: bool, round: Round,
                    listed: map<int, seq<ProcessInfo>>, s0: Snapshot)
    ensures PassOf(config, strategy, online, round, listed, s0).1.history
            == if Balanced(PassOf(config, strategy, online, round, listed, s0).0) && online
               then Recorded(s0.history, round.now, PassOf(config, strategy, online, round, listed, s0).0.result)
               else s0.history
    ensures PassOf(config, strategy, online, round, listed, s0).1.count
            == s0.count + if Balanced(PassOf(config, strategy, online, round, listed, s0).0) then 1 else 0
  {
  }

  /** One more pass extends the fold by its result and its state. */
  lemma PassesSnoc(config: Config, strategy: BalanceStrategy, online: bool, rounds: seq<Round>,
                   listeds: seq<map<int, seq<ProcessInfo>>>, s0: Snapshot, results: seq<Checked>, before: Snapshot,
                   r: Checked, listed: map<int, seq<ProcessInfo>>, after: Snapshot)
    requires |listeds| < |rounds|
    requires (results, before) == Passes(config, strategy, online, rounds, listeds, s0)
    requires (r, after) == PassOf(config, strategy, online, rounds[|listeds|], listed, before)
    ensures (results + [r], after) == Passes(config, strategy, online, rounds, listeds + [listed], s0)
  {
    assert (listeds + [listed])[..|listeds|] == listeds;
  }

  /** The passes yield one result per round, and the history they leave is
      the old one with every balanced result recorded in order. */
  lemma {:induction false} PassesHistory(config: Config, strategy: BalanceStrategy, online: bool, rounds: seq<Round>,
                                         listeds: seq<map<int, seq<ProcessInfo>>>, s0: Snapshot)
    requires |listeds| <= |rounds|
    ensures var (results, s) := Passes(config, strategy, online, rounds, listeds, s0);
      |results| == |listeds| && s.history == Records(s0.history, online, rounds, results)
      && s.count == s0.count + CountWhere(results, Balanced)
  {
    if listeds != [] {
      var n := |listeds| - 1;
      PassesHistory(config, strategy, online, rounds, listeds[..n], s0);
      var before := Passes(config, strategy, online, rounds, listeds[..n], s0);
      var after := PassOf(config, strategy, online, rounds[n], listeds[n], before.1);
      PassOfTally(config, strategy, online, rounds[n], listeds[n], before.1);
      var results := before.0 + [after.0];
      assert results[..n] == before.0;
      CountWhereAppend(before.0, after.0, Balanced);
    }
  }

  /** The balance history after the loop produced `results` for the first
      rounds: every balanced result is recorded, in order, at its round's time. */
  function Records(h: (map<int, BalanceRecord>, seq<Entry<int>>), online: bool, rounds: seq<Round>, results: seq<Checked>)
    : (map<int, BalanceRecord>, seq<Entry<int>>)
    requires |results| <= |rounds|
    decreases |results|
  {
    if results == [] then h
    else
      var n := |results| - 1;
      var prev := Records(h, online, rounds, results[..n]);
      if Balanced(results[n]) && online then Recorded(prev, rounds[n].now, results[n].result) else prev
  }

  /** A loop that balanced nothing, or ran on a store that cannot be
      reached, leaves the history as it was. */
  lemma {:induction false} RecordsQuiet(h: (map<int, BalanceRecord>, seq<Entry<int>>), online: bool, rounds: seq<Round>, results: seq<Checked>)
    requires |results| <= |rounds|
    requires !online || CountWhere(results, Balanced) == 0
    ensures Records(h, online, rounds, results) == h
  {
    if results != [] {
      var n := |results| - 1;
      assert results[..n] + [results[n]] == results;
      CountWhereAppend(results[..n], results[n], Balanced);
      RecordsQuiet(h, online, rounds, results[..n]);
    }
  }

  /** However many rounds are recorded, the index stays well formed, and
      once anything is recorded it holds at most `HistoryLimit` entries. */
  lemma {:induction false} RecordsIndexBounded(h: (map<int, BalanceRecord>, seq<Entry<int>>), online: bool, rounds: seq<Round>, results: seq<Checked>)
    requires |results| <= |rounds| && Valid(h.1)
    ensures var r := Records(h, online, rounds, results);
      Valid(r.1) && (r.1 == h.1 || |r.1| <= HistoryLimit)
  {
    if results != [] {
      var n := |results| - 1;
      RecordsIndexBounded(h, online, rounds, results[..n]);
      var prev := Records(h, online, rounds, results[..n]);
      if Balanced(results[n]) && online {
        TrimmedIndexSpec(prev.1, Trunc(rounds[n].now), rounds[n].now);
      }
    }
  }

  /** `BalanceStrategy.value`. */
  function StrategyName(s: BalanceStrategy): string
  {
    match s
    case NoMigration => "no_migration"
    case ProcessMigration => "process_migration"
  }

  /** `balance:daemon:status` once `run` has started. */
  function Started(status: map<string, HashValue>, pid: int, startTime: real, strategy: BalanceStrategy, interval: real): map<string, HashValue>
  {
    status["pid" := Number(pid as real)]["start_time" := Number(startTime)]["strategy" := Text(StrategyName(strategy))]
          ["interval" := Number(interval)]["status" := Text("running")]
  }

  /** `balance:daemon:status` after `_cleanup`. */
  function Stopped(status: map<string, HashValue>, stopTime: real): map<string, HashValue>
  {
    status["status" := Text("stopped")]["stop_time" := Number(stopTime)]
  }

  /** After a run the status says stopped and still carries what the start
      wrote, except its status field. */
  lemma StartStopSpec(status: map<string, HashValue>, pid: int, startTime: real, strategy: BalanceStrategy, interval: real, stopTime: real)
    ensures var s := Stopped(Started(status, pid, startTime, strategy, interval), stopTime);
      && s["status"] == Text("stopped") && s["stop_time"] == Number(stopTime)
      && s["pid"] == Number(pid as real) && s["start_time"] == Number(startTime)
      && s["strategy"] == Text(StrategyName(strategy)) && s["interval"] == Number(interval)
      && forall k :: k in status && k !in {"pid", "start_time", "strategy", "interval", "status", "stop_time"} ==> k in s && s[k] == status[k]
  {
  }

  /** How many rounds the loop runs: none once stopped, else up to and
      including the first round that brings a signal. */
  function RoundsRun(stopped: bool, rounds: seq<Round>): (n: nat)
    ensures n <= |rounds|
  {
    if stopped || rounds == [] then 0
    else if rounds[0].signal then 1
    else 1 + RoundsRun(false, rounds[1..])
  }

  /** The loop runs exactly the rounds before the first signal and the one
      that brings it. */
  lemma {:induction false} RoundsRunSpec(rounds: seq<Round>)
    ensures forall i :: 0 <= i < RoundsRun(false, rounds) - 1 ==> !rounds[i].signal
    ensures RoundsRun(false, rounds) < |rounds| ==> rounds[RoundsRun(false, rounds) - 1].signal
    ensures (exists i :: 0 <= i < |rounds| && rounds[i].signal) ==> 0 < RoundsRun(false, rounds) && rounds[RoundsRun(false, rounds) - 1].signal
  {
    if rounds != [] && !rounds[0].signal {
      RoundsRunSpec(rounds[1..]);
      var n := RoundsRun(false, rounds);
      assert n == 1 + RoundsRun(false, rounds[1..]);
      forall i | 0 <= i < n - 1 ensures !rounds[i].signal {
        if i > 0 {
          assert rounds[i] == rounds[1..][i - 1];
        }
      }
      if exists i :: 0 <= i < |rounds| && rounds[i].signal {
        var i :| 0 <= i < |rounds| && rounds[i].signal;
        assert rounds[1..][i - 1].signal;
      }
    }
  }

  /** When some round brings a signal, a round the loop runs brings it
      exactly when it is the last one run. */
  lemma RoundsRunNext(rounds: seq<Round>, i: int)
    requires 0 <= i < RoundsRun(false, rounds)
    requires exists j :: 0 <= j < |rounds| && rounds[j].signal
    ensures rounds[i].signal <==> i + 1 == RoundsRun(false, rounds)
  {
    RoundsRunSpec(rounds);
    var n := RoundsRun(false, rounds);
    if i + 1 < n {
      assert !rounds[i].signal;
    } else {
      assert rounds[n - 1].signal;
    }
  }

  /** What `get_status` reports, apart from the ISO rendering of the start time. */
  datatype Status = Status(running: bool, uptimeSeconds: real, uptimeFormatted: string, balanceCount: int,
                           interval: real, strategy: string, startTime: real)

  class BalanceDaemon {
    const interval: real
    const strategy: BalanceStrategy
    const config: Config
    const store: Store
    const balancer: LoadBalancer
    const startTime: real

    /** `stop_event`. */
    var stopped: bool
    var balanceCount: int

    /** A daemon started at `now` on `store`, with its own balancer; the
        signal handlers it registers are the calls of `SignalHandler`. */
    constructor (interval: real, strategy: BalanceStrategy, config: Config, store: Store, now: real)
      ensures this.interval == interval && this.strategy == strategy
      ensures this.config == config && this.store == store && startTime == now
      ensures !stopped && balanceCount == 0
      ensures Valid()
    {
      this.interval := interval;
      this.strategy := strategy;
      this.config := config;
      this.store := store;
      balancer := new LoadBalancer(config, store);
      startTime := now;
      stopped := false;
      balanceCount := 0;
    }

    /** The balancer and its parts share the daemon's store and configuration. */
    predicate Valid()
    {
      balancer.store == store && balancer.config == config && balancer.Valid()
    }

    /** What the loop can change, in the current state. */
    ghost function Snap(): Snapshot
      reads this`balanceCount, store, balancer.monitor`gpuCount
    {
      Snapshot(Monitoring(store), Markers(store), History(store), balancer.monitor.gpuCount, balanceCount)
    }

    /** `_signal_handler`: SIGTERM and SIGINT set the stop flag. */
    method SignalHandler()
      modifies this`stopped
      ensures stopped
    {
      stopped := true;
    }

    /** `_record_balance_history`; a store that cannot be reached keeps
        nothing, since the handler swallows the failure. */
    method RecordBalanceHistory(result: BalanceResult, now: real)
      modifies store`balanceHistory, store`balanceIndex
      ensures History(store) == if store.online then Recorded(old(History(store)), now, result) else old(History(store))
    {
      if !store.online {
        return;
      }
      var key := Trunc(now);
      store.balanceHistory := store.balanceHistory[key := BalanceRecord(now, result.actionsTaken, TotalOf(result))];
      store.balanceIndex := KeepTop(ZAdd(store.balanceIndex, key, now), HistoryLimit);
    }

    /** The part of `check_and_balance` inside its handler when the balancer
        returns: run a balancing round, then count and record it if it ended
        balanced. */
    method BalanceRound(countOutput: string, readings: int -> GpuReadings, now: real)
      returns (result: BalanceResult, ghost listed: map<int, seq<ProcessInfo>>)
      requires Valid()
      modifies balancer.monitor`gpuCount, store`metrics, store`metricsTtl, store`available, store`availableTtl,
               store`paused, store`preferred, store`balanceHistory, store`balanceIndex, this`balanceCount
      ensures RoundEffect(config, strategy, countOutput, readings, now, store.online, listed, result,
                          old(Monitoring(store)), Monitoring(store), old(Markers(store)), Markers(store))
      ensures balancer.monitor.gpuCount == GpuCount(countOutput)
      ensures balanceCount == old(balanceCount) + (if result.balanced then 1 else 0)
      ensures History(store) == if result.balanced && store.online then Recorded(old(History(store)), now, result) else old(History(store))
    {
      result, listed := Balance(countOutput, readings, now);
      Tally(result, now);
    }

    /** The balancer's round, which leaves the balance history alone. */
    method Balance(countOutput: string, readings: int -> GpuReadings, now: real)
      returns (result: BalanceResult, ghost listed: map<int, seq<ProcessInfo>>)
      requires Valid()
      modifies balancer.monitor`gpuCount, store`metrics, store`metricsTtl, store`available, store`availableTtl,
               store`paused, store`preferred
      ensures RoundEffect(config, strategy, countOutput, readings, now, store.online, listed, result,
                          old(Monitoring(store)), Monitoring(store), old(Markers(store)), Markers(store))
      ensures balancer.monitor.gpuCount == GpuCount(countOutput)
      ensures History(store) == old(History(store))
    {
      ghost var keys;
      result, listed, keys := balancer.BalanceOnce(strategy, countOutput, readings, now);
    }

    /** Count a balanced round and record it. */
    method Tally(result: BalanceResult, now: real)
      modifies store`balanceHistory, store`balanceIndex, this`balanceCount
      ensures balanceCount == old(balanceCount) + (if result.balanced then 1 else 0)
      ensures History(store) == if result.balanced && store.online then Recorded(old(History(store)), now, result) else old(History(store))
      ensures Monitoring(store) == old(Monitoring(store)) && Markers(store) == old(Markers(store))
    {
      if result.balanced {
        balanceCount := balanceCount + 1;
        RecordBalanceHistory(result, now);
      }
    }

    /** `check_and_balance`: one balancing round. A balanced result bumps the
        counter and is recorded; an exception escaping the balancer (`fault`,
        raised before it changed anything) is reported as unbalanced and
        leaves the counter alone. */
    method CheckAndBalance(countOutput: string, readings: int -> GpuReadings, now: real, fault: Option<string>,
                           ghost before: Snapshot)
      returns (r: Checked, ghost listed: map<int, seq<ProcessInfo>>)
      requires Valid() && before == Snap()
      modifies balancer.monitor`gpuCount, store`metrics, store`metricsTtl, store`available, store`availableTtl,
               store`paused, store`preferred, store`balanceHistory, store`balanceIndex, this`balanceCount
      ensures fault.Some? ==> r == Failed(fault.value) && unchanged(store) && unchanged(balancer.monitor)
      ensures fault.None? ==>
        && r.Ran?
        && RoundEffect(config, strategy, countOutput, readings, now, store.online, listed, r.result,
                       before.mon, Monitoring(store), before.marks, Markers(store))
        && balancer.monitor.gpuCount == GpuCount(countOutput)
      ensures balanceCount == before.count + (if Balanced(r) then 1 else 0)
      ensures History(store) == if Balanced(r) && store.online then Recorded(before.history, now, r.result) else before.history
    {
      if fault.Some? {
        return Failed(fault.value), map[];
      }
      var result;
      result, listed := BalanceRound(countOutput, readings, now);
      r := Ran(result);
    }

    /** One pass of the loop in `run` from the state `before`: a balancing
        round, then the wait during which a signal may arrive. The result and
        the state `after` it leaves are the pass `PassOf` computes. */
    method Pass(round: Round, ghost online: bool, ghost before: Snapshot)
      returns (r: Checked, ghost listed: map<int, seq<ProcessInfo>>, ghost after: Snapshot)
      requires Valid() && online == store.online && before == Snap()
      modifies balancer.monitor`gpuCount, store`metrics, store`metricsTtl, store`available, store`availableTtl,
               store`paused, store`preferred, store`balanceHistory, store`balanceIndex, this`balanceCount, this`stopped
      ensures after == Snap() && (r, after) == PassOf(config, strategy, online, round, listed, before)
      ensures stopped == (old(stopped) || round.signal)
    {
      r, listed := CheckAndBalance(round.countOutput, round.readings, round.now, round.fault, before);
      after := Snap();
      StepEffectIsPass(config, strategy, online, round, r, listed, before, after);
      if round.signal {
        SignalHandler();
      }
    }

    /** The loop of `run`: rounds until the stop flag is set. */
    method Loop(rounds: seq<Round>) returns (results: seq<Checked>, ghost listeds: seq<map<int, seq<ProcessInfo>>>)
      requires Valid()
      requires stopped || exists i :: 0 <= i < |rounds| && rounds[i].signal
      modifies balancer.monitor`gpuCount, store`metrics, store`metricsTtl, store`available, store`availableTtl,
               store`paused, store`preferred, store`balanceHistory, store`balanceIndex, this`balanceCount, this`stopped
      ensures stopped && |results| == |listeds| == RoundsRun(old(stopped), rounds)
      ensures (results, Snap()) == Passes(config, strategy, store.online, rounds, listeds, old(Snap()))
    {
      results := [];
      listeds := [];
      ghost var n := RoundsRun(stopped, rounds);
      ghost var online := store.online;
      ghost var s0 := Snap();
      ghost var cur := s0;
      if !stopped {
        RoundsRunSpec(rounds);
      }
      var i := 0;
      while !stopped
        invariant 0 <= i <= n
        invariant !stopped ==> i < n == RoundsRun(false, rounds)
        invariant stopped ==> i == n
        invariant |results| == |listeds| == i
        invariant cur == Snap()
        invariant (results, cur) == Passes(config, strategy, online, rounds, listeds, s0)
        decreases |rounds| - i
      {
        var r, listed, after := Pass(rounds[i], online, cur);
        RoundsRunNext(rounds, i);
        PassesSnoc(config, strategy, online, rounds, listeds, s0, results, cur, r, listed, after);
        results := results + [r];
        listeds := listeds + [listed];
        cur := after;
        i := i + 1;
      }
    }

    /** `run`: mark the daemon running, balance once per round until the stop
        flag is set, then `_cleanup` marks it stopped. A store that cannot be
        reached makes the first write raise before the loop starts, and the
        cleanup, outside that write's handler, never runs. Rounds are taken
        from `rounds`, which must bring a signal unless the flag is already
        set. */
    method Run(pid: int, rounds: seq<Round>, stopTime: real)
      returns (ok: bool, results: seq<Checked>, ghost listeds: seq<map<int, seq<ProcessInfo>>>)
      requires Valid()
      requires stopped || exists i :: 0 <= i < |rounds| && rounds[i].signal
      modifies balancer.monitor`gpuCount, store`metrics, store`metricsTtl, store`available, store`availableTtl,
               store`paused, store`preferred, store`balanceHistory, store`balanceIndex, store`daemonStatus,
               this`balanceCount, this`stopped
      ensures ok == store.online
      ensures !ok ==> results == [] && unchanged(store) && unchanged(this) && unchanged(balancer.monitor)
      ensures ok ==> stopped && |results| == |listeds| == RoundsRun(old(stopped), rounds)
      ensures ok ==> store.daemonStatus == Stopped(Started(old(store.daemonStatus), pid, startTime, strategy, interval), stopTime)
      ensures ok ==> (results, Snap()) == Passes(config, strategy, store.online, rounds, listeds, old(Snap()))
      ensures ok ==> History(store) == Records(old(History(store)), store.online, rounds, results)
      ensures balanceCount == old(balanceCount) + CountWhere(results, Balanced)
    {
      if !store.online {
        return false, [], [];
      }
      store.daemonStatus := Started(store.daemonStatus, pid, startTime, strategy, interval);
      ghost var s0 := Snap();
      results, listeds := Loop(rounds);
      PassesHistory(config, strategy, store.online, rounds, listeds, s0);
      store.daemonStatus := Stopped(store.daemonStatus, stopTime);
      ok := true;
    }

    /** `get_status` at time `now`. */
    method GetStatus(now: real) returns (s: Status)
      ensures s.running == !stopped && s.balanceCount == balanceCount
      ensures s.uptimeSeconds == now - startTime && s.uptimeFormatted == FormatUptime(now - startTime)
      ensures s.interval == interval && s.strategy == StrategyName(strategy) && s.startTime == startTime
    {
      var uptime := now - startTime;
      s := Status(!stopped, uptime, FormatUptime(uptime), balanceCount, interval, StrategyName(strategy), startTime);
    }
  }
}

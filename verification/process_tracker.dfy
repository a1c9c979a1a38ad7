/** The process tracker keeps every collect/train/eval process in three
    indices of the store: the record hash `process:{pid}`, the pid set of each
    GPU `gpu:{gpu}:processes`, and the registry `process:registry` (pid to
    type). The value-level functions below say what each operation does to
    the three indices; the tracker's methods are proved to do exactly that. */
module ProcessTracker {
  import opened Common
  import opened Model
  import opened Store

  /** The three indices. */
  datatype Tracker = Tracker(
    records: map<int, ProcHash>,
    gpuProcs: map<int, set<int>>,
    registry: map<int, string>)

  /** What the tracker's own writes keep true: a complete record is stored
      under its own pid, and no GPU keeps an empty pid set (Redis drops a set
      when its last member is removed). */
  predicate Valid(t: Tracker)
  {
    (forall p :: p in t.records && t.records[p].Full? ==> t.records[p].info.pid == p)
    && (forall g :: g in t.gpuProcs ==> t.gpuProcs[g] != {})
  }

  /** `get_process_info`: the record, or none when the hash is missing or
      lacks the registration fields (a hash a heartbeat wrote on its own). */
  function Info(t: Tracker, pid: int): Option<ProcessInfo>
  {
    if pid in t.records && t.records[pid].Full? then Some(t.records[pid].info) else None
  }

  /** SADD on the set of GPU `g`. */
  function AddMember(m: map<int, set<int>>, g: int, p: int): map<int, set<int>>
  {
    m[g := (if g in m then m[g] else {}) + {p}]
  }

  /** SREM on the set of GPU `g`; the key goes when the set becomes empty. */
  function RemoveMember(m: map<int, set<int>>, g: int, p: int): map<int, set<int>>
  {
    if g !in m then m
    else if m[g] - {p} == {} then m - {g}
    else m[g := m[g] - {p}]
  }

  /** The record `register_process` writes. */
  function NewRecord(pid: int, gpuId: int, procType: string, priority: int, now: real): ProcessInfo
  {
    ProcessInfo(pid, gpuId, procType, Running, priority, now, now, 0, 0)
  }

  /** `register_process`: overwrite the record, add the pid to its GPU's set
      and map it to its type in the registry. */
  function Registered(t: Tracker, pid: int, gpuId: int, procType: string, priority: int, now: real): Tracker
  {
    Tracker(
      t.records[pid := Full(NewRecord(pid, gpuId, procType, priority, now))],
      AddMember(t.gpuProcs, gpuId, pid),
      t.registry[pid := procType])
  }

  /** Registration makes the pid live with a fresh running record on its GPU,
      never takes it out of a GPU it was on before, leaves every other pid and
      GPU as it was, and keeps the indices valid. */
  lemma RegisteredSpec(t: Tracker, pid: int, gpuId: int, procType: string, priority: int, now: real)
    ensures var r := Registered(t, pid, gpuId, procType, priority, now);
            Info(r, pid) == Some(ProcessInfo(pid, gpuId, procType, Running, priority, now, now, 0, 0))
            && gpuId in r.gpuProcs && pid in r.gpuProcs[gpuId]
            && pid in r.registry && r.registry[pid] == procType
            && (forall g :: g in t.gpuProcs ==> g in r.gpuProcs && t.gpuProcs[g] <= r.gpuProcs[g])
            && (forall g :: g != gpuId ==> (g in r.gpuProcs <==> g in t.gpuProcs))
            && (forall g :: g != gpuId && g in t.gpuProcs ==> r.gpuProcs[g] == t.gpuProcs[g])
            && (forall p :: p != pid ==> Info(r, p) == Info(t, p))
            && (forall p :: p != pid ==> (p in r.registry <==> p in t.registry))
            && (Valid(t) ==> Valid(r))
  {
  }

  /** The hash after `update_heartbeat` set `last_heartbeat` and the fields
      supplied (a status and the two counters). A pid without a hash gets one
      holding only those fields. */
  function HeartbeatHash(h: Option<ProcHash>, now: real, status: Option<ProcStatus>,
                         games: Option<int>, iteration: Option<int>): ProcHash
  {
    match h
    case None => Partial(now, status, games, iteration)
    case Some(Full(i)) =>
      Full(i.(lastHeartbeat := now,
              status := if status.Some? then status.value else i.status,
              gamesCompleted := if games.Some? then games.value else i.gamesCompleted,
              iteration := if iteration.Some? then iteration.value else i.iteration))
    case Some(Partial(_, s, g, it)) =>
      Partial(now, if status.Some? then status else s, if games.Some? then games else g,
              if iteration.Some? then iteration else it)
  }

  /** `update_heartbeat`, which writes whether or not the pid is registered. */
  function Heartbeat(t: Tracker, pid: int, now: real, status: Option<ProcStatus>,
                     games: Option<int>, iteration: Option<int>): Tracker
  {
    var h := if pid in t.records then Some(t.records[pid]) else None;
    t.(records := t.records[pid := HeartbeatHash(h, now, status, games, iteration)])
  }

  /** A heartbeat moves a live record's heartbeat to `now` and overwrites the
      status and the counters supplied; a pid with no record still has none
      that reads back; nothing else changes. */
  lemma HeartbeatSpec(t: Tracker, pid: int, now: real, status: Option<ProcStatus>,
                      games: Option<int>, iteration: Option<int>)
    ensures var r := Heartbeat(t, pid, now, status, games, iteration);
            (Info(t, pid).None? ==> Info(r, pid).None?)
            && (Info(t, pid).Some? ==>
                  var i := Info(t, pid).value;
                  Info(r, pid) == Some(i.(lastHeartbeat := now,
                                          status := if status.Some? then status.value else i.status,
                                          gamesCompleted := if games.Some? then games.value else i.gamesCompleted,
                                          iteration := if iteration.Some? then iteration.value else i.iteration)))
            && pid in r.records
            && (forall p :: p != pid ==> Info(r, p) == Info(t, p))
            && r.gpuProcs == t.gpuProcs && r.registry == t.registry
            && (Valid(t) ==> Valid(r))
  {
  }

  /** A heartbeat that reports the process running takes a stuck record out
      of the stale ones until the timeout passes again. */
  lemma HeartbeatRevives(t: Tracker, pid: int, now: real, timeout: real, games: Option<int>, iteration: Option<int>)
    requires Info(t, pid).Some? && Info(t, pid).value.status == Stuck
    requires timeout >= 0.0
    ensures var r := Heartbeat(t, pid, now, Some(Running), games, iteration);
            Info(r, pid).value.status == Running && pid !in StalePids(r, now, timeout)
  {
    HeartbeatSpec(t, pid, now, Some(Running), games, iteration);
  }

  /** The pids of `pids` whose record reads back. */
  function LivePids(t: Tracker, pids: set<int>): (r: set<int>)
    ensures forall p :: p in r <==> p in pids && Info(t, p).Some?
  {
    set p | p in pids && Info(t, p).Some?
  }

  /** What `get_processes_by_gpu` and `get_all_processes` return for the pid
      set `pids`: one record per live pid (`keys` says whose), in some order. */
  ghost predicate Listing(t: Tracker, pids: set<int>, infos: seq<ProcessInfo>, keys: seq<int>)
  {
    |keys| == |infos|
    && Distinct(keys)
    && (forall p :: p in keys <==> p in LivePids(t, pids))
    && (forall i :: 0 <= i < |keys| ==> Info(t, keys[i]) == Some(infos[i]))
  }

  /** The pids `check_heartbeats` reports: registered, live, and silent for
      strictly longer than the timeout. */
  function StalePids(t: Tracker, now: real, timeout: real): (r: set<int>)
    ensures forall p :: p in r <==>
              p in t.registry && Info(t, p).Some? && now - Info(t, p).value.lastHeartbeat > timeout
  {
    set p | p in t.registry && Info(t, p).Some? && now - Info(t, p).value.lastHeartbeat > timeout
  }

  /** Set the status of the live records of `s` to stuck. */
  function MarkStuck(t: Tracker, s: set<int>): Tracker
  {
    t.(records := map p | p in t.records ::
         if p in s && t.records[p].Full? then Full(t.records[p].info.(status := Stuck)) else t.records[p])
  }

  /** Marking changes only the status of the marked live records. */
  lemma MarkStuckSpec(t: Tracker, s: set<int>)
    ensures var r := MarkStuck(t, s);
            (forall p :: p in s && Info(t, p).Some? ==> Info(r, p) == Some(Info(t, p).value.(status := Stuck)))
            && (forall p :: p !in s ==> Info(r, p) == Info(t, p))
            && (forall p :: Info(r, p).Some? <==> Info(t, p).Some?)
            && r.gpuProcs == t.gpuProcs && r.registry == t.registry
            && (Valid(t) ==> Valid(r))
  {
  }

  /** `check_heartbeats` is idempotent: checking again at the same instant
      reports the same pids and changes nothing more. */
  lemma CheckHeartbeatsIdempotent(t: Tracker, now: real, timeout: real)
    ensures var s := StalePids(t, now, timeout);
            var r := MarkStuck(t, s);
            StalePids(r, now, timeout) == s && MarkStuck(r, s) == r
  {
    var s := StalePids(t, now, timeout);
    var r := MarkStuck(t, s);
    MarkStuckSpec(t, s);
    assert StalePids(r, now, timeout) == s;
    assert MarkStuck(r, s).records == r.records;
  }

  /** `unregister_process`: a pid without a readable record is left alone;
      otherwise it leaves the set of its record's GPU and the registry, and
      its record is deleted. */
  function Unregistered(t: Tracker, pid: int): Tracker
  {
    match Info(t, pid)
    case None => t
    case Some(info) =>
      Tracker(t.records - {pid}, RemoveMember(t.gpuProcs, info.gpuId, pid), t.registry - {pid})
  }

  /** Unregistering leaves a pid without a readable record untouched, and
      otherwise removes the pid from its record, its GPU's set and the
      registry, keeping everything else and the indices' validity. */
  lemma UnregisteredSpec(t: Tracker, pid: int)
    ensures Info(t, pid).None? ==> Unregistered(t, pid) == t
    ensures Info(t, pid).Some? ==>
              var r := Unregistered(t, pid);
              var g := Info(t, pid).value.gpuId;
              pid !in r.records && pid !in r.registry
              && (g in r.gpuProcs ==> pid !in r.gpuProcs[g])
              && (forall p :: p != pid ==> Info(r, p) == Info(t, p))
              && (forall p :: p != pid ==> (p in r.registry <==> p in t.registry))
              && (forall h :: h != g ==> (h in r.gpuProcs <==> h in t.gpuProcs))
              && (forall h :: h != g && h in t.gpuProcs ==> r.gpuProcs[h] == t.gpuProcs[h])
    ensures Valid(t) ==> Valid(Unregistered(t, pid))
  {
  }

  /** The pids of `s` whose record names GPU `g`. */
  function Owned(t: Tracker, s: set<int>, g: int): set<int>
  {
    set p | p in s && Info(t, p).Some? && Info(t, p).value.gpuId == g
  }

  /** The indices after unregistering every pid of `s`, in any order. */
  function Reaped(t: Tracker, s: set<int>): Tracker
  {
    Tracker(
      map p | p in t.records && p !in s :: t.records[p],
      map g | g in t.gpuProcs && t.gpuProcs[g] - Owned(t, s, g) != {} :: t.gpuProcs[g] - Owned(t, s, g),
      map p | p in t.registry && p !in s :: t.registry[p])
  }

  lemma ReapedNone(t: Tracker)
    requires Valid(t)
    ensures Reaped(t, {}) == t
  {
    var r := Reaped(t, {});
    assert r.records == t.records;
    assert r.registry == t.registry;
    forall g | g in t.gpuProcs ensures g in r.gpuProcs && r.gpuProcs[g] == t.gpuProcs[g] {
      assert Owned(t, {}, g) == {};
      assert t.gpuProcs[g] - Owned(t, {}, g) == t.gpuProcs[g];
    }
    assert r.gpuProcs == t.gpuProcs;
  }

  /** Unregistering one more live pid extends the reaped set by it. */
  lemma ReapedStep(t: Tracker, s: set<int>, pid: int)
    requires pid !in s && Info(t, pid).Some?
    ensures Unregistered(Reaped(t, s), pid) == Reaped(t, s + {pid})
  {
    var r := Reaped(t, s);
    var info := Info(t, pid).value;
    assert Info(r, pid) == Some(info);
    var u := Unregistered(r, pid);
    var w := Reaped(t, s + {pid});
    assert u.records == w.records;
    assert u.registry == w.registry;
    forall g ensures Owned(t, s + {pid}, g) == Owned(t, s, g) + (if g == info.gpuId then {pid} else {}) {
    }
    forall g ensures (g in u.gpuProcs <==> g in w.gpuProcs) && (g in u.gpuProcs ==> u.gpuProcs[g] == w.gpuProcs[g]) {
      if g == info.gpuId && g in t.gpuProcs {
        assert t.gpuProcs[g] - Owned(t, s + {pid}, g) == (t.gpuProcs[g] - Owned(t, s, g)) - {pid};
      }
    }
    assert u.gpuProcs == w.gpuProcs;
  }

  /** After reaping, no pid of `s` has a record or a registry entry or sits in
      its record's GPU set; every other pid and GPU keeps its entries except
      for the reaped members, and the indices stay valid. */
  lemma ReapedSpec(t: Tracker, s: set<int>)
    ensures var r := Reaped(t, s);
            (forall p :: p in s ==> p !in r.records && p !in r.registry)
            && (forall p :: p in s && Info(t, p).Some? && Info(t, p).value.gpuId in r.gpuProcs ==>
                  p !in r.gpuProcs[Info(t, p).value.gpuId])
            && (forall p :: p !in s ==> Info(r, p) == Info(t, p) && (p in r.registry <==> p in t.registry))
            && (forall g, p :: g in t.gpuProcs && p in t.gpuProcs[g] && p !in Owned(t, s, g) ==>
                  g in r.gpuProcs && p in r.gpuProcs[g])
    ensures Valid(t) ==> Valid(Reaped(t, s))
  {
    var r := Reaped(t, s);
    forall g, p | g in t.gpuProcs && p in t.gpuProcs[g] && p !in Owned(t, s, g)
      ensures g in r.gpuProcs && p in r.gpuProcs[g]
    {
      assert p in t.gpuProcs[g] - Owned(t, s, g);
    }
  }

  /** `get_process_count_by_type` of a list of records. */
  function TypeCounts(infos: seq<ProcessInfo>): map<string, int>
  {
    if infos == [] then map[]
    else
      var c := TypeCounts(infos[..|infos| - 1]);
      var k := infos[|infos| - 1].procType;
      c[k := (if k in c then c[k] else 0) + 1]
  }

  /** The keys are exactly the types present, and each value counts the
      records of that type. */
  lemma {:induction false} TypeCountsSpec(infos: seq<ProcessInfo>)
    ensures forall k :: k in TypeCounts(infos) <==> exists i :: 0 <= i < |infos| && infos[i].procType == k
    ensures forall k :: k in TypeCounts(infos) ==> TypeCounts(infos)[k] == CountWhere(infos, (i: ProcessInfo) => i.procType == k)
  {
    if infos != [] {
      var init, c := infos[..|infos| - 1], TypeCounts(infos[..|infos| - 1]);
      TypeCountsSpec(init);
      assert infos == init + [infos[|infos| - 1]];
      TypeCountsStep(init, infos[|infos| - 1], c);
    }
  }

  /** Counting one more record of type `x.procType` keeps the counts right. */
  lemma TypeCountsStep(init: seq<ProcessInfo>, x: ProcessInfo, c: map<string, int>)
    requires forall k :: k in c <==> exists i :: 0 <= i < |init| && init[i].procType == k
    requires forall k :: k in c ==> c[k] == CountWhere(init, (i: ProcessInfo) => i.procType == k)
    ensures var s, r := init + [x], c[x.procType := (if x.procType in c then c[x.procType] else 0) + 1];
      && (forall k :: k in r <==> exists i :: 0 <= i < |s| && s[i].procType == k)
      && (forall k :: k in r ==> r[k] == CountWhere(s, (i: ProcessInfo) => i.procType == k))
  {
    var s, k := init + [x], x.procType;
    assert forall j :: 0 <= j < |init| ==> s[j] == init[j];
    assert s[|init|] == x;
    forall q | q in c && q != k
      ensures CountWhere(s, (i: ProcessInfo) => i.procType == q) == c[q]
    {
      CountWhereAppend(init, x, (i: ProcessInfo) => i.procType == q);
    }
    CountWhereAppend(init, x, (i: ProcessInfo) => i.procType == k);
    if k !in c {
      CountWhereNone(init, (i: ProcessInfo) => i.procType == k);
    }
  }

  lemma {:induction false} CountWhereNone<T>(s: seq<T>, p: T -> bool)
    requires forall i :: 0 <= i < |s| ==> !p(s[i])
    ensures CountWhere(s, p) == 0
  {
    if s != [] {
      CountWhereNone(s[..|s| - 1], p);
    }
  }

  lemma NonEmptyMapHasKey(m: map<string, int>)
    requires m != map[]
    ensures exists k :: k in m
  {
    assert (forall k :: k !in m) ==> m == map[];
  }

  /** The sum of a count map's values. */
  ghost function Total(m: map<string, int>): int
    decreases |m|
  {
    if m == map[] then 0
    else
      NonEmptyMapHasKey(m);
      var k :| k in m;
      m[k] + Total(m - {k})
  }

  /** The total does not depend on which key is taken first. */
  lemma {:induction false} TotalRemove(m: map<string, int>, j: string)
    requires j in m
    ensures Total(m) == m[j] + Total(m - {j})
    decreases |m|
  {
    NonEmptyMapHasKey(m);
    var k :| k in m && Total(m) == m[k] + Total(m - {k});
    if k != j {
      TotalRemove(m - {k}, j);
      TotalRemove(m - {j}, k);
      assert m - {k} - {j} == m - {j} - {k};
    }
  }

  lemma TotalUpdate(m: map<string, int>, k: string, v: int)
    ensures Total(m[k := v]) == Total(m) - (if k in m then m[k] else 0) + v
  {
    TotalRemove(m[k := v], k);
    assert m[k := v] - {k} == m - {k};
    if k in m {
      TotalRemove(m, k);
    } else {
      assert m - {k} == m;
    }
  }

  /** One more record of type `k` adds one to the total. */
  lemma TotalBump(c: map<string, int>, k: string, n: int)
    requires Total(c) == n
    ensures Total(c[k := (if k in c then c[k] else 0) + 1]) == n + 1
  {
    TotalUpdate(c, k, (if k in c then c[k] else 0) + 1);
  }

  lemma TypeCountsSnoc(infos: seq<ProcessInfo>)
    requires infos != []
    ensures var c := TypeCounts(infos[..|infos| - 1]);
            var k := infos[|infos| - 1].procType;
            TypeCounts(infos) == c[k := (if k in c then c[k] else 0) + 1]
  {
  }

  /** The counts by type add up to the number of records listed. */
  lemma {:induction false} TypeCountsTotal(infos: seq<ProcessInfo>)
    ensures Total(TypeCounts(infos)) == |infos|
  {
    if infos == [] {
      assert TypeCounts(infos) == map[];
    } else {
      var init := infos[..|infos| - 1];
      var k := infos[|infos| - 1].procType;
      var c := TypeCounts(init);
      var m := c[k := (if k in c then c[k] else 0) + 1];
      TypeCountsTotal(init);
      TypeCountsSnoc(infos);
      TotalBump(c, k, |init|);
      assert TypeCounts(infos) == m && Total(m) == |infos|;
    }
  }

  class ProcessTracker {
    const config: Config
    const store: Store

    constructor (config: Config, store: Store)
      ensures this.config == config && this.store == store
    {
      this.config := config;
      this.store := store;
    }

    /** The three indices as they stand in the store. */
    function State(): Tracker
      reads store
    {
      Tracker(store.records, store.gpuProcs, store.registry)
    }

    /** `register_process`; fails, changing nothing, when the store cannot be
        reached. */
    method RegisterProcess(pid: int, gpuId: int, procType: string, priority: int, now: real) returns (ok: bool)
      modifies store`records, store`gpuProcs, store`registry
      ensures ok == store.online
      ensures store.online ==> State() == Registered(old(State()), pid, gpuId, procType, priority, now)
      ensures !store.online ==> unchanged(store`records, store`gpuProcs, store`registry)
    {
      if !store.online {
        return false;
      }
      store.records := store.records[pid := Full(NewRecord(pid, gpuId, procType, priority, now))];
      store.gpuProcs := AddMember(store.gpuProcs, gpuId, pid);
      store.registry := store.registry[pid := procType];
      return true;
    }

    /** `update_heartbeat`; it does not look whether the pid is registered. */
    method UpdateHeartbeat(pid: int, now: real, status: Option<ProcStatus>, games: Option<int>, iteration: Option<int>)
      returns (ok: bool)
      modifies store`records
      ensures ok == store.online
      ensures store.online ==> State() == Heartbeat(old(State()), pid, now, status, games, iteration)
      ensures !store.online ==> unchanged(store`records)
    {
      if !store.online {
        return false;
      }
      var h := if pid in store.records then Some(store.records[pid]) else None;
      store.records := store.records[pid := HeartbeatHash(h, now, status, games, iteration)];
      return true;
    }

    /** `get_process_info`: none as well when the store cannot be reached. */
    method GetProcessInfo(pid: int) returns (info: Option<ProcessInfo>)
      ensures store.online ==> info == Info(State(), pid)
      ensures !store.online ==> info == None
      ensures info.Some? ==> pid in store.records && store.records[pid] == Full(info.value)
    {
      if !store.online {
        return None;
      }
      if pid in store.records && store.records[pid].Full? {
        return Some(store.records[pid].info);
      }
      return None;
    }

    /** The records of the live pids of `pids`, one each, in the order the
        pids are visited (which is left open). */
    method ListLive(pids: set<int>) returns (infos: seq<ProcessInfo>, ghost keys: seq<int>)
      requires store.online
      ensures Listing(State(), pids, infos, keys)
    {
      var rest := pids;
      infos, keys := [], [];
      ghost var done: set<int> := {};
      while rest != {}
        invariant rest + done == pids && rest !! done
        invariant |keys| == |infos| && Distinct(keys)
        invariant forall p :: p in keys <==> p in done && Info(State(), p).Some?
        invariant forall i :: 0 <= i < |keys| ==> Info(State(), keys[i]) == Some(infos[i])
        decreases |rest|
      {
        NonEmptyHasMember(rest);
        var pid :| pid in rest;
        var info := GetProcessInfo(pid);
        if info.Some? {
          assert pid !in keys;
          infos, keys := infos + [info.value], keys + [pid];
        }
        rest := rest - {pid};
        done := done + {pid};
      }
    }

    /** `get_processes_by_gpu`: the records of the GPU's pids that still have
        one; none when the store cannot be reached. */
    method GetProcessesByGpu(gpuId: int) returns (infos: seq<ProcessInfo>, ghost keys: seq<int>)
      ensures store.online ==>
                Listing(State(), if gpuId in store.gpuProcs then store.gpuProcs[gpuId] else {}, infos, keys)
      ensures !store.online ==> infos == []
    {
      if !store.online {
        return [], [];
      }
      var pids := if gpuId in store.gpuProcs then store.gpuProcs[gpuId] else {};
      infos, keys := ListLive(pids);
    }

    /** `get_all_processes`: the records of the registered pids that still
        have one; none when the store cannot be reached. */
    method GetAllProcesses() returns (infos: seq<ProcessInfo>, ghost keys: seq<int>)
      ensures store.online ==> Listing(State(), store.registry.Keys, infos, keys)
      ensures !store.online ==> infos == []
    {
      if !store.online {
        return [], [];
      }
      infos, keys := ListLive(store.registry.Keys);
    }

    /** `check_heartbeats`: the stale pids, each reported once, whose records
        are now marked stuck; nothing else changes. */
    method CheckHeartbeats(now: real) returns (stale: seq<int>)
      requires Valid(State())
      modifies store`records
      ensures store.online ==> Distinct(stale)
      ensures store.online ==> forall p :: p in stale <==> p in StalePids(old(State()), now, config.heartbeatTimeout)
      ensures store.online ==> State() == MarkStuck(old(State()), StalePids(old(State()), now, config.heartbeatTimeout))
      ensures !store.online ==> stale == [] && unchanged(store`records)
      ensures Valid(State())
    {
      var timeout := config.heartbeatTimeout;
      ghost var t0 := State();
      var all, keys := GetAllProcesses();
      stale := [];
      if !store.online {
        return;
      }
      ghost var marked: set<int> := {};
      var i := 0;
      while i < |all|
        invariant 0 <= i <= |all|
        invariant State() == MarkStuck(t0, marked)
        invariant forall p :: p in marked <==> p in stale
        invariant Distinct(stale)
        invariant forall p :: p in stale ==> p in keys[..i]
        invariant forall p :: p in marked <==> p in keys[..i] && now - Info(t0, p).value.lastHeartbeat > timeout
      {
        assert keys[..i + 1] == keys[..i] + [keys[i]];
        var process := all[i];
        assert process.pid == keys[i];
        assert keys[i] !in keys[..i];
        if now - process.lastHeartbeat > timeout {
          MarkStuckSpec(t0, marked);
          store.records := store.records[process.pid := Full(store.records[process.pid].info.(status := Stuck))];
          MarkStuckAdd(t0, marked, process.pid);
          stale := stale + [process.pid];
          marked := marked + {process.pid};
        }
        i := i + 1;
      }
      assert keys[..|all|] == keys;
      forall p ensures p in marked <==> p in StalePids(t0, now, timeout) {
        assert p in keys <==> p in LivePids(t0, t0.registry.Keys);
      }
      assert marked == StalePids(t0, now, timeout);
      MarkStuckSpec(t0, marked);
    }

    /** `cleanup_stale_processes`: marks the stale pids, then unregisters each
        of them and counts them. */
    method CleanupStaleProcesses(now: real) returns (cleaned: int)
      requires Valid(State())
      modifies store`records, store`gpuProcs, store`registry
      ensures store.online ==>
                var s := StalePids(old(State()), now, config.heartbeatTimeout);
                cleaned == |s| && State() == Reaped(MarkStuck(old(State()), s), s)
      ensures !store.online ==> cleaned == 0 && unchanged(store`records, store`gpuProcs, store`registry)
      ensures Valid(State())
    {
      ghost var t0 := State();
      var stale := CheckHeartbeats(now);
      cleaned := 0;
      if !store.online {
        return;
      }
      ghost var s := StalePids(t0, now, config.heartbeatTimeout);
      ghost var t1 := State();
      MarkStuckSpec(t0, s);
      forall p | p in s ensures Info(t1, p).Some? {
        assert p in stale;
      }
      cleaned := ReapStale(stale, t1, s);
    }

    /** The loop of `cleanup_stale_processes` over the stale pids. */
    method ReapStale(stale: seq<int>, ghost t1: Tracker, ghost s: set<int>) returns (cleaned: int)
      requires store.online && Valid(t1) && State() == t1
      requires Distinct(stale) && forall p :: p in stale <==> p in s
      requires forall p :: p in s ==> Info(t1, p).Some?
      modifies store`records, store`gpuProcs, store`registry
      ensures cleaned == |s| && State() == Reaped(t1, s)
    {
      cleaned := 0;
      ReapedNone(t1);
      ghost var gone: set<int> := {};
      var i := 0;
      while i < |stale|
        invariant 0 <= i <= |stale|
        invariant State() == Reaped(t1, gone)
        invariant forall p :: p in gone <==> p in stale[..i]
        invariant cleaned == |gone|
      {
        assert stale[..i + 1] == stale[..i] + [stale[i]];
        var pid := stale[i];
        assert pid !in stale[..i];
        assert pid in s && Info(t1, pid).Some?;
        var info := GetProcessInfo(pid);
        ReapedSpec(t1, gone);
        if info.None? {
          i := i + 1;
          continue;
        }
        ReapedStep(t1, gone, pid);
        store.gpuProcs := RemoveMember(store.gpuProcs, info.value.gpuId, pid);
        store.registry := store.registry - {pid};
        store.records := store.records - {pid};
        cleaned := cleaned + 1;
        gone := gone + {pid};
        i := i + 1;
      }
      assert stale[..|stale|] == stale;
      assert forall p :: p in gone <==> p in s;
      assert gone == s;
    }

    /** `unregister_process`: false, changing nothing, when the pid has no
        readable record or the store cannot be reached. */
    method UnregisterProcess(pid: int) returns (ok: bool)
      modifies store`records, store`gpuProcs, store`registry
      ensures ok <==> store.online && Info(old(State()), pid).Some?
      ensures store.online ==> State() == Unregistered(old(State()), pid)
      ensures !store.online ==> unchanged(store`records, store`gpuProcs, store`registry)
    {
      var info := GetProcessInfo(pid);
      if info.None? {
        return false;
      }
      store.gpuProcs := RemoveMember(store.gpuProcs, info.value.gpuId, pid);
      store.registry := store.registry - {pid};
      store.records := store.records - {pid};
      return true;
    }

    /** `get_process_count_by_gpu`: the size of every GPU's pid set, dangling
        pids included; empty when the store cannot be reached. */
    method GetProcessCountByGpu() returns (counts: map<int, int>)
      ensures store.online ==> counts.Keys == store.gpuProcs.Keys
      ensures store.online ==> forall g :: g in counts ==> counts[g] == |store.gpuProcs[g]|
      ensures Valid(State()) ==> forall g :: g in counts ==> counts[g] >= 1
      ensures !store.online ==> counts == map[]
    {
      counts := map[];
      if !store.online {
        return;
      }
      var rest := store.gpuProcs.Keys;
      while rest != {}
        invariant rest <= store.gpuProcs.Keys
        invariant counts.Keys == store.gpuProcs.Keys - rest
        invariant forall g :: g in counts ==> counts[g] == |store.gpuProcs[g]|
        decreases |rest|
      {
        NonEmptyHasMember(rest);
        var g :| g in rest;
        counts := counts[g := |store.gpuProcs[g]|];
        rest := rest - {g};
      }
      assert Valid(State()) ==> forall g :: g in store.gpuProcs ==> |store.gpuProcs[g]| >= 1;
    }

    /** `get_process_count_by_type`: how many listed records have each type;
        the counts add up to the number of records `get_all_processes`
        lists. */
    method GetProcessCountByType() returns (counts: map<string, int>, ghost all: seq<ProcessInfo>)
      ensures store.online ==> (exists keys :: Listing(State(), store.registry.Keys, all, keys))
      ensures !store.online ==> all == []
      ensures counts == TypeCounts(all)
      ensures Total(counts) == |all|
    {
      var infos, keys := GetAllProcesses();
      all := infos;
      counts := CountByType(infos);
      TypeCountsTotal(infos);
      assert store.online ==> Listing(State(), store.registry.Keys, all, keys);
    }

    /** The counting loop of `get_process_count_by_type`. */
    method CountByType(infos: seq<ProcessInfo>) returns (counts: map<string, int>)
      ensures counts == TypeCounts(infos)
    {
      counts := map[];
      var i := 0;
      while i < |infos|
        invariant 0 <= i <= |infos|
        invariant counts == TypeCounts(infos[..i])
      {
        assert infos[..i + 1][..i] == infos[..i] && infos[..i + 1][i] == infos[i];
        TypeCountsSnoc(infos[..i + 1]);
        var k := infos[i].procType;
        counts := counts[k := (if k in counts then counts[k] else 0) + 1];
        i := i + 1;
      }
      assert infos[..|infos|] == infos;
    }
  }

  /** Marking one more live pid. */
  lemma MarkStuckAdd(t: Tracker, s: set<int>, pid: int)
    requires pid !in s && Info(t, pid).Some?
    ensures MarkStuck(t, s + {pid}).records
            == MarkStuck(t, s).records[pid := Full(Info(t, pid).value.(status := Stuck))]
  {
  }
}

/** The cpu-boost engine: per-cpu boost records, the migration sync worker, input and
    app-launch boosting, their expiries, and the floor the CPUFREQ_ADJUST notifier injects.
    Every entry point is one atomic step; policy queries, the thermal pair, the clock and
    the suspend state are parameters, and each cpufreq_update_policy call is returned as a
    "re-evaluate this cpu" event. */
module CpuBoost {
  import opened Wrappers

  /** UINT_MAX: the app-launch sentinel in `input_boost_min` and the upper limit of Adjust. */
  const UINT_MAX: nat := 0xFFFF_FFFF
  /** Moduli of `unsigned int` and `u64` arithmetic. */
  const U32: nat := 0x1_0000_0000
  const U64: nat := 0x1_0000_0000_0000_0000
  /** MIN_INPUT_INTERVAL: 150 ms, in µs. */
  const MIN_INPUT_INTERVAL_US: nat := 150000

  function Max(a: nat, b: nat): nat { if a >= b then a else b }
  function Min(a: nat, b: nat): nat { if a <= b then a else b }

  /** A delayed work item (`boost_rem`, `input_boost_rem`): idle, or queued to fire after a delay. */
  datatype Expiry = Idle | Queued(delayMs: nat)

  /** `struct cpu_sync`, without its thread, wait queue, lock and wake guard. */
  datatype CpuSync = CpuSync(
    cpu: nat,
    pending: bool,
    srcCpu: nat,
    taskLoad: nat,
    boostMin: nat,
    inputBoostMin: nat,
    boostRem: Expiry,
    inputBoostRem: Expiry)

  /** The zero-initialised per-cpu record of cpu `i`. */
  function IdleRecord(i: nat): CpuSync
  {
    CpuSync(i, false, 0, 0, 0, 0, Idle, Idle)
  }

  /** The module parameters. */
  datatype BoostConfig = BoostConfig(
    boostMs: nat,
    loadBasedSyncs: bool,
    migrationLoadThreshold: nat,
    syncThreshold: nat,
    syncThresholdMin: nat,
    inputBoostFreq: nat,
    inputBoostMs: nat,
    appLaunchBoostMs: nat,
    disableWhileSuspended: bool)

  const DefaultConfig: BoostConfig := BoostConfig(0, true, 30, 0, 0, 0, 0, 1500, false)

  /** What cpufreq_get_policy yields: a failure, or the fields of the policy this engine reads. */
  datatype PolicySnapshot = PolicySnapshot(cur: nat, max: nat, util: nat, cpuinfoMinFreq: nat)
  datatype PolicyQuery = QueryFailed | QueryOk(policy: PolicySnapshot)

  /** The thermal pair read from `cpu_thermal_info`. */
  datatype ThermalAdvice = ThermalAdvice(throttling: bool, limitedMaxFreq: nat)

  /** The effect of the ADJUST notifier: nothing, or cpufreq_verify_within_limits(policy, floor, UINT_MAX). */
  datatype AdjustOutcome = NoChange | RaiseMin(floor: nat)

  // ---------------------------------------------------------------- CPUFREQ_ADJUST

  /** The input floor resolved against the policy: the sentinel means the policy maximum,
      and no input floor goes above the policy maximum. */
  function ResolvedInputFloor(inputBoostMin: nat, policyMax: nat): (r: nat)
    ensures r <= policyMax
    ensures r == policyMax || r == inputBoostMin
    ensures inputBoostMin == UINT_MAX ==> r == policyMax
    ensures inputBoostMin != UINT_MAX && inputBoostMin <= policyMax ==> r == inputBoostMin
  {
    Min(if inputBoostMin == UINT_MAX then policyMax else inputBoostMin, policyMax)
  }

  /** The CPUFREQ_ADJUST branch of boost_adjust_notify for one cpu. */
  function AdjustFloor(boostMin: nat, inputBoostMin: nat, policyMin: nat, policyMax: nat): (r: AdjustOutcome)
    // no boost of either kind: nothing to do
    ensures boostMin == 0 && inputBoostMin == 0 ==> r == NoChange
    // a non-zero input floor already covered by the policy minimum suppresses the migration floor too
    ensures 0 < ResolvedInputFloor(inputBoostMin, policyMax) <= policyMin ==> r == NoChange
    // and those are the only two reasons for leaving the policy alone
    ensures r == NoChange ==>
      (boostMin == 0 && inputBoostMin == 0) || 0 < ResolvedInputFloor(inputBoostMin, policyMax) <= policyMin
    // otherwise the floor is the larger of the two floors
    ensures r.RaiseMin? ==>
      var ib := ResolvedInputFloor(inputBoostMin, policyMax);
      r.floor >= boostMin && r.floor >= ib && (r.floor == boostMin || r.floor == ib)
    ensures r.RaiseMin? ==> r.floor <= Max(boostMin, policyMax)
  {
    if boostMin == 0 && inputBoostMin == 0 then NoChange
    else
      var ib := ResolvedInputFloor(inputBoostMin, policyMax);
      if ib != 0 && ib <= policyMin then NoChange
      else RaiseMin(Max(boostMin, ib))
  }

  /** After an app launch (input floor UINT_MAX) Adjust raises the minimum to the policy maximum,
      or to the migration floor if that is higher; unless the maximum is already the minimum. */
  lemma AppLaunchFloorIsPolicyMax(boostMin: nat, policyMin: nat, policyMax: nat)
    ensures 0 < policyMax <= policyMin ==> AdjustFloor(boostMin, UINT_MAX, policyMin, policyMax) == NoChange
    ensures policyMax > policyMin ==>
      AdjustFloor(boostMin, UINT_MAX, policyMin, policyMax) == RaiseMin(Max(boostMin, policyMax))
  {
  }

  // ---------------------------------------------------------------- migration sync

  /** `dest_policy.max * task_load / 100` in 32-bit unsigned arithmetic, then at least the
      source's current frequency. */
  function RawSyncRequest(destMax: nat, taskLoad: nat, srcCur: nat): (r: nat)
    ensures r >= srcCur
    ensures taskLoad == 0 ==> r == srcCur
    ensures destMax * taskLoad < U32 ==> r == Max(destMax * taskLoad / 100, srcCur)
  {
    Max((destMax * taskLoad) % U32 / 100, srcCur)
  }

  /** The two ceilings on a sync request: `sync_threshold` when set, `limited_max_freq` while
      throttling. The result is the request brought under both. */
  function ClampSyncRequest(req: nat, syncThreshold: nat, thermal: ThermalAdvice): (r: nat)
    ensures r <= req
    ensures syncThreshold != 0 ==> r <= syncThreshold
    ensures thermal.throttling ==> r <= thermal.limitedMaxFreq
    // and it is one of the ceilings that apply, so it is the least of them
    ensures r == req || (syncThreshold != 0 && r == syncThreshold) ||
            (thermal.throttling && r == thermal.limitedMaxFreq)
    ensures ((syncThreshold == 0 || req <= syncThreshold) &&
             (!thermal.throttling || req <= thermal.limitedMaxFreq)) ==> r == req
  {
    var capped := if syncThreshold != 0 then Min(req, syncThreshold) else req;
    if thermal.throttling && capped > thermal.limitedMaxFreq then thermal.limitedMaxFreq else capped
  }

  /** The frequency one sync cycle arms as `boost_min`, or None when the cycle is discarded. */
  function SyncTarget(cfg: BoostConfig, thermal: ThermalAdvice, src: PolicyQuery, dest: PolicyQuery, taskLoad: nat): (r: Option<nat>)
    // a failed query on either side discards the cycle
    ensures src.QueryFailed? || dest.QueryFailed? ==> r == None
    ensures r.Some? ==>
      (src.QueryOk? && dest.QueryOk? &&
       r.value == ClampSyncRequest(RawSyncRequest(dest.policy.max, taskLoad, src.policy.cur), cfg.syncThreshold, thermal))
    // an armed floor is above the hardware minimum, under both ceilings and not below sync_threshold_min
    ensures r.Some? ==> r.value > dest.policy.cpuinfoMinFreq
    ensures r.Some? && cfg.syncThreshold != 0 ==> r.value <= cfg.syncThreshold
    ensures r.Some? && thermal.throttling ==> r.value <= thermal.limitedMaxFreq
    ensures r.Some? && cfg.syncThresholdMin != 0 ==> r.value >= cfg.syncThresholdMin
    // and a cycle with both policies is discarded only for those reasons
    ensures src.QueryOk? && dest.QueryOk? && r.None? ==>
      var req := ClampSyncRequest(RawSyncRequest(dest.policy.max, taskLoad, src.policy.cur), cfg.syncThreshold, thermal);
      req <= dest.policy.cpuinfoMinFreq || (cfg.syncThresholdMin != 0 && req < cfg.syncThresholdMin)
  {
    if src.QueryFailed? || dest.QueryFailed? then None
    else
      var req := ClampSyncRequest(RawSyncRequest(dest.policy.max, taskLoad, src.policy.cur), cfg.syncThreshold, thermal);
      if req <= dest.policy.cpuinfoMinFreq then None
      else if cfg.syncThresholdMin != 0 && req < cfg.syncThresholdMin then None
      else Some(req)
  }

  /** The worked example: dest max 2,000,000, load 50 and source at 1,200,000 ask for 1,200,000,
      which sync_threshold = 1,000,000 caps to 1,000,000. */
  lemma SyncWorkedExample(cfg: BoostConfig)
    requires cfg.syncThreshold == 1000000 && cfg.syncThresholdMin == 0
    ensures RawSyncRequest(2000000, 50, 1200000) == 1200000
    ensures SyncTarget(cfg, ThermalAdvice(false, 0),
      QueryOk(PolicySnapshot(1200000, 2265600, 50, 300000)),
      QueryOk(PolicySnapshot(300000, 2000000, 0, 300000)), 50) == Some(1000000)
  {
  }

  /** The product `dest_policy.max * task_load` wraps at 2^32: a stale load of 2000 against a
      2,265,600 kHz maximum asks for 2,362,327 kHz instead of 45,312,000 kHz. */
  lemma SyncRequestWraps()
    ensures 2265600 * 2000 >= U32
    ensures RawSyncRequest(2265600, 2000, 300000) == 2362327
    ensures RawSyncRequest(2265600, 2000, 300000) < 2265600 * 2000 / 100
  {
  }

  /** The record after one sync cycle that picked up a pending request. */
  function SyncedRecord(s: CpuSync, target: Option<nat>, destOnline: bool, boostMs: nat): (r: CpuSync)
    // the request is consumed whatever happens next
    ensures !r.pending
    // a discarded cycle leaves the floor and its expiry as they were
    ensures target.None? ==> r.boostMin == s.boostMin && r.boostRem == s.boostRem
    // an armed floor on an online cpu comes with a fresh expiry after boost_ms
    ensures target.Some? && destOnline ==> r.boostMin == target.value && r.boostRem == Queued(boostMs)
    // a cpu that went offline is left with no floor and no expiry
    ensures target.Some? && !destOnline ==> r.boostMin == 0 && r.boostRem == Idle
    // nothing else in the record changes
    ensures r.(pending := s.pending, boostMin := s.boostMin, boostRem := s.boostRem) == s
  {
    match target
    case None => s.(pending := false)
    case Some(f) =>
      if destOnline then s.(pending := false, boostMin := f, boostRem := Queued(boostMs))
      else s.(pending := false, boostMin := 0, boostRem := Idle)
  }

  /** The cpus a successful sync cycle asks to re-evaluate: source first, then destination, each if online. */
  function SyncReevaluations(src: nat, dest: nat, online: set<nat>): seq<nat>
  {
    (if src in online then [src] else []) + (if dest in online then [dest] else [])
  }

  // ---------------------------------------------------------------- input boosting

  /** `now - last_input_time` in u64 arithmetic. */
  function ElapsedUs(now: nat, last: nat): (r: nat)
    ensures r < U64
    ensures last <= now < last + U64 ==> r == now - last
  {
    (now - last) % U64
  }

  /** The gate of cpuboost_input_event. */
  predicate InputEventAccepted(cfg: BoostConfig, suspended: bool, now: nat, lastInputTime: nat, passQueued: bool)
  {
    !(suspended && cfg.disableWhileSuspended) &&
    cfg.inputBoostFreq != 0 &&
    ElapsedUs(now, lastInputTime) >= MIN_INPUT_INTERVAL_US &&
    !passQueued
  }

  /** Debounce: after an event accepted with timestamp `stamp`, any event less than 150 ms
      later is dropped, and one 150 ms or more later (with no pass queued) is accepted again. */
  lemma DebounceWindow(cfg: BoostConfig, suspended: bool, stamp: nat, now: nat, passQueued: bool)
    requires stamp <= now < stamp + U64
    ensures now < stamp + MIN_INPUT_INTERVAL_US ==> !InputEventAccepted(cfg, suspended, now, stamp, passQueued)
    ensures now >= stamp + MIN_INPUT_INTERVAL_US ==>
      (InputEventAccepted(cfg, suspended, now, stamp, passQueued) <==>
        !(suspended && cfg.disableWhileSuspended) && cfg.inputBoostFreq != 0 && !passQueued)
  {
  }

  /** The floor the input pass gives a cpu: the target frequency, or `limited_max_freq`
      while throttling if that is lower. */
  function InputFloorFor(freq: nat, thermal: ThermalAdvice): (r: nat)
    ensures r <= freq
    ensures thermal.throttling ==> r <= thermal.limitedMaxFreq
    ensures r == freq || r == thermal.limitedMaxFreq
    ensures !thermal.throttling || freq <= thermal.limitedMaxFreq ==> r == freq
  {
    if thermal.throttling && freq > thermal.limitedMaxFreq then thermal.limitedMaxFreq else freq
  }

  /** Whether the input pass boosts a cpu: online, its policy query succeeds, and it runs below the target. */
  predicate InputBoostApplies(isOnline: bool, q: PolicyQuery, freq: nat)
  {
    isOnline && q.QueryOk? && q.policy.cur < freq
  }

  /** A record after the input pass. */
  function InputBoosted(s: CpuSync, applies: bool, cfg: BoostConfig, thermal: ThermalAdvice): (r: CpuSync)
    // a cpu the pass skips keeps its record
    ensures !applies ==> r == s
    // a boosted cpu gets the thermal-lowered input floor and a fresh expiry after input_boost_ms
    ensures applies ==> r.inputBoostMin == InputFloorFor(cfg.inputBoostFreq, thermal) && r.inputBoostRem == Queued(cfg.inputBoostMs)
    ensures applies ==> r.inputBoostMin <= cfg.inputBoostFreq
    ensures applies && thermal.throttling ==> r.inputBoostMin <= thermal.limitedMaxFreq
    // the migration side of the record is never touched
    ensures r.(inputBoostMin := s.inputBoostMin, inputBoostRem := s.inputBoostRem) == s
  {
    if applies then s.(inputBoostMin := InputFloorFor(cfg.inputBoostFreq, thermal), inputBoostRem := Queued(cfg.inputBoostMs))
    else s
  }

  /** A record after an app launch (with a non-zero duration): the sentinel floor, and on the
      last record the one expiry, which queue_delayed_work leaves alone if it is already queued. */
  function AppLaunched(s: CpuSync, isLast: bool, appLaunchBoostMs: nat): (r: CpuSync)
    // every record gets the sentinel floor
    ensures r.inputBoostMin == UINT_MAX
    // only the last record's expiry can change, and only from idle to queued
    ensures !isLast || s.inputBoostRem.Queued? ==> r.inputBoostRem == s.inputBoostRem
    ensures isLast ==> r.inputBoostRem.Queued?
    ensures isLast && s.inputBoostRem.Idle? ==> r.inputBoostRem == Queued(appLaunchBoostMs)
    // the migration side of the record is never touched
    ensures r.(inputBoostMin := s.inputBoostMin, inputBoostRem := s.inputBoostRem) == s
  {
    s.(inputBoostMin := UINT_MAX,
       inputBoostRem := if isLast && s.inputBoostRem.Idle? then Queued(appLaunchBoostMs) else s.inputBoostRem)
  }

  // ---------------------------------------------------------------- the engine

  class CpuBoostEngine {
    /** The number of possible cpus, and their `sync_info` records. */
    const n: nat
    const sync: array<CpuSync>
    var online: set<nat>
    var cfg: BoostConfig
    var lastInputTime: nat
    /** Whether `input_boost_work` is queued. */
    var inputPassQueued: bool

    ghost predicate Valid()
      reads this, sync
    {
      n >= 1 && sync.Length == n && lastInputTime < U64 &&
      forall i :: 0 <= i < n ==> sync[i].cpu == i && sync[i].srcCpu < n
    }

    /** The state at boot: zeroed per-cpu records, the default parameters, no input seen. */
    constructor (ncpus: nat, onlineCpus: set<nat>)
      requires ncpus >= 1
      ensures Valid() && fresh(sync)
      ensures n == ncpus && online == onlineCpus && cfg == DefaultConfig
      ensures forall i :: 0 <= i < n ==> sync[i] == IdleRecord(i)
      ensures lastInputTime == 0 && !inputPassQueued
    {
      n := ncpus;
      sync := new CpuSync[ncpus](i => IdleRecord(if i < 0 then 0 else i));
      online := onlineCpus;
      cfg := DefaultConfig;
      lastInputTime := 0;
      inputPassQueued := false;
      new;
      assert forall i :: 0 <= i < ncpus ==> sync[i] == IdleRecord(i);
    }

    /** boost_adjust_notify, CPUFREQ_ADJUST, on the policy of `cpu`. */
    method AdjustNotify(cpu: nat, policyMin: nat, policyMax: nat) returns (r: AdjustOutcome)
      requires Valid() && cpu < n
      ensures r == AdjustFloor(sync[cpu].boostMin, sync[cpu].inputBoostMin, policyMin, policyMax)
    {
      var s := sync[cpu];
      r := AdjustFloor(s.boostMin, s.inputBoostMin, policyMin, policyMax);
    }

    /** do_boost_rem on `cpu`: drop its migration floor and re-evaluate it. */
    method DoBoostRem(cpu: nat) returns (reevaluate: seq<nat>)
      requires Valid() && cpu < n
      modifies sync
      ensures Valid()
      ensures sync[..] == old(sync[..])[cpu := old(sync[cpu]).(boostMin := 0, boostRem := Idle)]
      ensures reevaluate == [cpu]
    {
      sync[cpu] := sync[cpu].(boostMin := 0, boostRem := Idle);
      reevaluate := [cpu];
    }

    /** do_input_boost_rem on `cpu`: drop its input floor and re-evaluate it. */
    method DoInputBoostRem(cpu: nat) returns (reevaluate: seq<nat>)
      requires Valid() && cpu < n
      modifies sync
      ensures Valid()
      ensures sync[..] == old(sync[..])[cpu := old(sync[cpu]).(inputBoostMin := 0, inputBoostRem := Idle)]
      ensures reevaluate == [cpu]
    {
      sync[cpu] := sync[cpu].(inputBoostMin := 0, inputBoostRem := Idle);
      reevaluate := [cpu];
    }

    /** boost_migration_notify for a task moving from `src` to `dest`. `srcPolicy` is the query of
        `src`; `staleUtil` is what the uninitialised policy buffer holds when that query fails;
        `selfWake` says the destination's sync thread is the current context. */
    method MigrationNotify(dest: nat, src: nat, srcPolicy: PolicyQuery, staleUtil: nat, suspended: bool, selfWake: bool)
      requires Valid() && dest < n && src < n
      modifies sync
      ensures Valid()
      ensures (suspended && cfg.disableWhileSuspended) || cfg.boostMs == 0 ||
              (srcPolicy.QueryOk? && cfg.loadBasedSyncs && srcPolicy.policy.util < cfg.migrationLoadThreshold) ||
              selfWake ==>
        sync[..] == old(sync[..])
      ensures !((suspended && cfg.disableWhileSuspended) || cfg.boostMs == 0 ||
                (srcPolicy.QueryOk? && cfg.loadBasedSyncs && srcPolicy.policy.util < cfg.migrationLoadThreshold) ||
                selfWake) ==>
        var util := if srcPolicy.QueryOk? then srcPolicy.policy.util else staleUtil;
        sync[..] == old(sync[..])[dest := old(sync[dest]).(
          pending := true, srcCpu := src, taskLoad := if cfg.loadBasedSyncs then util else 0)]
    {
      if suspended && cfg.disableWhileSuspended {
        return;
      }
      if cfg.boostMs == 0 {
        return;
      }
      var util := staleUtil;
      if srcPolicy.QueryOk? {
        util := srcPolicy.policy.util;
        if cfg.loadBasedSyncs && util < cfg.migrationLoadThreshold {
          return;
        }
      }
      if selfWake {
        return;
      }
      sync[dest] := sync[dest].(pending := true, srcCpu := src, taskLoad := if cfg.loadBasedSyncs then util else 0);
    }

    /** One cycle of boost_mig_sync_thread on `dest` once it is woken. `srcPolicy` is the query of
        the record's `srcCpu`, `destPolicy` that of `dest`. */
    method SyncCycle(dest: nat, srcPolicy: PolicyQuery, destPolicy: PolicyQuery, thermal: ThermalAdvice)
      returns (reevaluate: seq<nat>)
      requires Valid() && dest < n
      modifies sync
      ensures Valid()
      // no request pending: the thread keeps waiting
      ensures !old(sync[dest].pending) ==> sync[..] == old(sync[..]) && reevaluate == []
      // a pending request is consumed, and armed or discarded
      ensures old(sync[dest].pending) ==>
        var s := old(sync[dest]);
        var target := SyncTarget(cfg, thermal, srcPolicy, destPolicy, s.taskLoad);
        sync[..] == old(sync[..])[dest := SyncedRecord(s, target, dest in online, cfg.boostMs)] &&
        reevaluate == (if target.Some? then SyncReevaluations(s.srcCpu, dest, online) else [])
    {
      reevaluate := [];
      var s := sync[dest];
      if !s.pending {
        return;
      }
      s := s.(pending := false);
      sync[dest] := s;
      if srcPolicy.QueryFailed? || destPolicy.QueryFailed? {
        return;
      }
      var req := Max((destPolicy.policy.max * s.taskLoad) % U32 / 100, srcPolicy.policy.cur);
      if cfg.syncThreshold != 0 {
        req := Min(req, cfg.syncThreshold);
      }
      if thermal.throttling && req > thermal.limitedMaxFreq {
        req := Min(req, thermal.limitedMaxFreq);
      }
      if req <= destPolicy.policy.cpuinfoMinFreq {
        return;
      }
      if cfg.syncThresholdMin != 0 && req < cfg.syncThresholdMin {
        return;
      }
      s := s.(boostRem := Idle, boostMin := req);
      if s.srcCpu in online {
        reevaluate := reevaluate + [s.srcCpu];
      }
      if dest in online {
        reevaluate := reevaluate + [dest];
        s := s.(boostRem := Queued(cfg.boostMs));
      } else {
        s := s.(boostMin := 0);
      }
      sync[dest] := s;
    }

    /** do_app_launch_boost. The cancellation before the loop goes through an uninitialised
        pointer and is not modelled; `reevaluate` is the set update_policy_online refreshes. */
    method DoAppLaunchBoost() returns (reevaluate: set<nat>)
      requires Valid()
      modifies sync
      ensures Valid()
      ensures cfg.appLaunchBoostMs == 0 ==> sync[..] == old(sync[..]) && reevaluate == {}
      ensures cfg.appLaunchBoostMs != 0 ==>
        (forall i :: 0 <= i < n ==> sync[i] == AppLaunched(old(sync[i]), i == n - 1, cfg.appLaunchBoostMs)) &&
        reevaluate == set c | c in online && c < n
    {
      reevaluate := {};
      if cfg.appLaunchBoostMs == 0 {
        return;
      }
      var i := 0;
      while i < n
        invariant 0 <= i <= n
        invariant forall j :: 0 <= j < i ==> sync[j] == old(sync[j]).(inputBoostMin := UINT_MAX)
        invariant forall j :: i <= j < n ==> sync[j] == old(sync[j])
      {
        sync[i] := sync[i].(inputBoostMin := UINT_MAX);
        i := i + 1;
      }
      reevaluate := set c | c in online && c < n;
      var last := sync[n - 1];
      if last.inputBoostRem.Idle? {
        sync[n - 1] := last.(inputBoostRem := Queued(cfg.appLaunchBoostMs));
      }
    }

    /** do_input_boost: the queued input pass, over the online cpus in order; `query[i]` is the
        policy query of cpu `i`. */
    method DoInputBoost(query: seq<PolicyQuery>, thermal: ThermalAdvice) returns (reevaluate: seq<nat>)
      requires Valid() && |query| == n
      modifies sync, this`inputPassQueued
      ensures Valid() && !inputPassQueued
      ensures forall i :: 0 <= i < n ==>
        sync[i] == InputBoosted(old(sync[i]), InputBoostApplies(i in online, query[i], cfg.inputBoostFreq), cfg, thermal)
      ensures forall c: nat :: c in reevaluate <==> c < n && InputBoostApplies(c in online, query[c], cfg.inputBoostFreq)
    {
      inputPassQueued := false;
      reevaluate := [];
      var i := 0;
      while i < n
        invariant 0 <= i <= n && !inputPassQueued
        invariant forall j :: 0 <= j < i ==>
          sync[j] == InputBoosted(old(sync[j]), InputBoostApplies(j in online, query[j], cfg.inputBoostFreq), cfg, thermal)
        invariant forall j :: i <= j < n ==> sync[j] == old(sync[j])
        invariant forall c: nat :: c in reevaluate <==> c < i && InputBoostApplies(c in online, query[c], cfg.inputBoostFreq)
      {
        if i in online && query[i].QueryOk? && query[i].policy.cur < cfg.inputBoostFreq {
          var floor := cfg.inputBoostFreq;
          if thermal.throttling && cfg.inputBoostFreq > thermal.limitedMaxFreq {
            floor := thermal.limitedMaxFreq;
          }
          sync[i] := sync[i].(inputBoostMin := floor, inputBoostRem := Queued(cfg.inputBoostMs));
          reevaluate := reevaluate + [i];
        }
        i := i + 1;
      }
    }

    /** cpuboost_input_event at time `nowUs`; `stampUs` is the second clock reading stored as
        `last_input_time` once the pass is queued. */
    method InputEvent(nowUs: nat, stampUs: nat, suspended: bool)
      requires Valid() && nowUs < U64 && stampUs < U64
      modifies this`lastInputTime, this`inputPassQueued
      ensures Valid()
      ensures InputEventAccepted(cfg, suspended, nowUs, old(lastInputTime), old(inputPassQueued)) ==>
        inputPassQueued && lastInputTime == stampUs
      ensures !InputEventAccepted(cfg, suspended, nowUs, old(lastInputTime), old(inputPassQueued)) ==>
        inputPassQueued == old(inputPassQueued) && lastInputTime == old(lastInputTime)
    {
      if suspended && cfg.disableWhileSuspended {
        return;
      }
      if cfg.inputBoostFreq == 0 {
        return;
      }
      if (nowUs - lastInputTime) % U64 < MIN_INPUT_INTERVAL_US {
        return;
      }
      if inputPassQueued {
        return;
      }
      inputPassQueued := true;
      lastInputTime := stampUs;
    }
  }

  // ---------------------------------------------------------------- scenarios

  /** A migration from a cpu at 20% utilisation under the default threshold of 30 is dropped. */
  method LowLoadMigrationIsDropped() returns (pending: bool)
    ensures !pending
  {
    var e := new CpuBoostEngine(2, {0, 1});
    e.cfg := e.cfg.(boostMs := 40);
    e.MigrationNotify(0, 1, QueryOk(PolicySnapshot(1000000, 2265600, 20, 300000)), 0, false, false);
    pending := e.sync[0].pending;
  }

  /** Two migrations to the same cpu before its worker runs are seen as one request from the
      latest source, which one sync cycle consumes. */
  method MigrationsCoalesce() returns (src: nat, load: nat, pendingAfter: bool, floor: nat)
    ensures src == 2 && load == 90
    ensures !pendingAfter && floor == 1200000
  {
    var e := new CpuBoostEngine(4, {0, 1, 2, 3});
    e.cfg := e.cfg.(boostMs := 40);
    e.MigrationNotify(0, 1, QueryOk(PolicySnapshot(900000, 2265600, 50, 300000)), 0, false, false);
    e.MigrationNotify(0, 2, QueryOk(PolicySnapshot(1200000, 2265600, 90, 300000)), 0, false, false);
    src, load := e.sync[0].srcCpu, e.sync[0].taskLoad;
    var _ := e.SyncCycle(0, QueryOk(PolicySnapshot(1200000, 2265600, 90, 300000)),
                         QueryOk(PolicySnapshot(300000, 1000000, 0, 300000)), ThermalAdvice(false, 0));
    pendingAfter, floor := e.sync[0].pending, e.sync[0].boostMin;
  }

  /** Firing an expiry again after it has fired changes nothing: the second do_boost_rem and
      the second do_input_boost_rem leave the records as the first left them. */
  method ExpiryRefireChangesNothing(e: CpuBoostEngine, cpu: nat) returns (boostRemAgain: bool, inputRemAgain: bool)
    requires e.Valid() && cpu < e.n
    modifies e.sync
    ensures boostRemAgain && inputRemAgain
    ensures e.sync[..] == old(e.sync[..])[cpu := old(e.sync[cpu]).(
      boostMin := 0, boostRem := Idle, inputBoostMin := 0, inputBoostRem := Idle)]
  {
    var _ := e.DoBoostRem(cpu);
    var once := e.sync[..];
    var _ := e.DoBoostRem(cpu);
    boostRemAgain := e.sync[..] == once;
    var _ := e.DoInputBoostRem(cpu);
    once := e.sync[..];
    var _ := e.DoInputBoostRem(cpu);
    inputRemAgain := e.sync[..] == once;
  }

  /** An app launch on two cpus arms the one expiry on cpu 1 only: once it fires, cpu 1's input
      floor is back to 0 while cpu 0 keeps the UINT_MAX floor. */
  method AppLaunchExpiresOnLastCpuOnly() returns (floor0: nat, floor1: nat, expiry0: Expiry)
    ensures floor0 == UINT_MAX && floor1 == 0 && expiry0 == Idle
  {
    var e := new CpuBoostEngine(2, {0, 1});
    var _ := e.DoAppLaunchBoost();
    assert e.sync[1].inputBoostRem == Queued(1500);
    var _ := e.DoInputBoostRem(1);
    floor0, floor1, expiry0 := e.sync[0].inputBoostMin, e.sync[1].inputBoostMin, e.sync[0].inputBoostRem;
  }
}

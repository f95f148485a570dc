/** The MSM thermal throttle step: one temperature reading per polling period
    decides between power-off, a disabled recheck, un-throttling and the choice
    of a frequency cap from a ten-level table with hysteresis. */
module MsmThermal {
  import opened Wrappers

  const MSM_THERMAL_SAFE_DIFF: int := 5
  const MSM_THERMAL_POLLING_FREQ_PRESET: nat := 5

  /** `LONG_MAX` on the 32-bit target, the initial value of both frequency fields of `info`. */
  const LONG_MAX: nat := 0x7FFF_FFFF

  /** The policy-notifier event code of CPUFREQ_ADJUST. */
  const CPUFREQ_ADJUST: nat := 0

  /** Delay, in ms, of the recheck while the module is disabled, and of the slow polling rate. */
  const DISABLED_RECHECK_MS: nat := 1000
  const COOL_POLLING_MS: nat := 250

  datatype ThermalLevel = ThermalLevel(freq: nat, temp: int)

  /** `thermal_level`: the cap for each offset above `temp_threshold`. */
  const ThermalLevels: seq<ThermalLevel> := [
    ThermalLevel(2726400, -1),
    ThermalLevel(2496000, 0),
    ThermalLevel(2265600, 1),
    ThermalLevel(1958400, 2),
    ThermalLevel(1728000, 3),
    ThermalLevel(1497600, 4),
    ThermalLevel(1267200, 5),
    ThermalLevel(1036800, 6),
    ThermalLevel(729600, 8),
    ThermalLevel(422400, 10)
  ]

  /** `polling_val`: polling delays in ms, indexed by `polling_freq_preset`. */
  const PollingVal: seq<nat> := [0, 250, 200, 125, 100, 50, 40, 25]

  /** The module parameters. */
  datatype ThermalConfig = ThermalConfig(
    enableMain: bool,
    enableExtreme: bool,
    tempThreshold: int,
    tempThresholdCrit: int,
    pollingFreqPreset: nat)

  const DefaultConfig: ThermalConfig := ThermalConfig(true, false, 70, 110, MSM_THERMAL_POLLING_FREQ_PRESET)

  /** What the step asks of its environment once it is done. */
  datatype CheckOutcome =
    | PowerOff                        // sys_sync() and kernel_power_off()
    | Reschedule(delayMs: nat)        // the next check_temp after this many ms
    | PollingOutOfTable(preset: nat)  // the delay would be read past the end of polling_val

  /** What the policy notifier does to a policy. */
  datatype ClampOutcome = Untouched | ClampWithin(lo: nat, hi: nat)

  // ---------------------------------------------------------------- the table

  /** The table is ordered: temperatures strictly increase and caps strictly decrease. */
  lemma TableOrdered(i: int)
    requires 0 <= i < |ThermalLevels| - 1
    ensures ThermalLevels[i].temp < ThermalLevels[i + 1].temp
    ensures ThermalLevels[i].freq > ThermalLevels[i + 1].freq
  {
  }

  /** Every cap in the table is non-zero, so `freq != 0` means "a level matched". */
  lemma TableFreqsNonZero(i: int)
    requires 0 <= i < |ThermalLevels|
    ensures ThermalLevels[i].freq > 0
    decreases |ThermalLevels| - i
  {
    if i < |ThermalLevels| - 1 {
      TableOrdered(i);
      TableFreqsNonZero(i + 1);
    }
  }

  /** The lowest index the scan looks at: level 0 only when not throttling. */
  function LowestLevel(throttling: bool): nat
  {
    if throttling then 1 else 0
  }

  /** The index the descending scan stops at, from `i` down to `lo`, or -1 if none matches. */
  function MatchFrom(t: int, i: int, lo: nat): (k: int)
    requires -1 <= i < |ThermalLevels|
    ensures k == -1 || lo <= k <= i
    ensures k != -1 ==> t >= ThermalLevels[k].temp
    decreases i + 1
  {
    if i < lo then -1
    else if t >= ThermalLevels[i].temp then i
    else MatchFrom(t, i - 1, lo)
  }

  /** The cap the scan of check_temp selects for offset `t`, 0 when no level matches. */
  function LevelFreq(t: int, throttling: bool): (r: nat)
    // a non-zero cap is the cap of a scanned level whose temperature `t` reaches
    ensures r != 0 ==>
      exists k :: LowestLevel(throttling) <= k < |ThermalLevels| && ThermalLevels[k].freq == r && ThermalLevels[k].temp <= t
  {
    var k := MatchFrom(t, |ThermalLevels| - 1, LowestLevel(throttling));
    if k < 0 then 0 else ThermalLevels[k].freq
  }

  /** The scan stops at the HIGHEST index in [lo, i] whose temperature `t` reaches. */
  lemma {:induction false} MatchFromIsHighest(t: int, i: int, lo: nat)
    requires -1 <= i < |ThermalLevels|
    ensures var k := MatchFrom(t, i, lo);
      (k == -1 || (lo <= k <= i && t >= ThermalLevels[k].temp)) &&
      (forall j :: k < j <= i && lo <= j ==> t < ThermalLevels[j].temp)
    decreases i + 1
  {
    if i >= lo && t < ThermalLevels[i].temp {
      MatchFromIsHighest(t, i - 1, lo);
    }
  }

  /** Because the temperatures increase, a level matches iff the lowest one scanned does. */
  lemma {:induction false} MatchFromNone(t: int, i: int, lo: nat)
    requires lo <= i < |ThermalLevels|
    ensures MatchFrom(t, i, lo) == -1 <==> t < ThermalLevels[lo].temp
    decreases i
  {
    if i > lo {
      if t >= ThermalLevels[i].temp {
        TempsIncrease(lo, i);
      } else {
        MatchFromNone(t, i - 1, lo);
      }
    }
  }

  lemma {:induction false} TempsIncrease(a: int, b: int)
    requires 0 <= a <= b < |ThermalLevels|
    ensures ThermalLevels[a].temp <= ThermalLevels[b].temp
    decreases b - a
  {
    if a < b {
      TableOrdered(a);
      TempsIncrease(a + 1, b);
    }
  }

  lemma {:induction false} FreqsDecrease(a: int, b: int)
    requires 0 <= a <= b < |ThermalLevels|
    ensures ThermalLevels[a].freq >= ThermalLevels[b].freq
    decreases b - a
  {
    if a < b {
      TableOrdered(a);
      FreqsDecrease(a + 1, b);
    }
  }

  /** A higher reading never stops the scan at a lower index. */
  lemma {:induction false} MatchFromMonotone(t1: int, t2: int, i: int, lo: nat)
    requires -1 <= i < |ThermalLevels|
    requires t1 <= t2
    ensures MatchFrom(t1, i, lo) <= MatchFrom(t2, i, lo)
    decreases i + 1
  {
    if i >= lo && t2 < ThermalLevels[i].temp {
      MatchFromMonotone(t1, t2, i - 1, lo);
    } else if i >= lo {
      MatchFromIsHighest(t1, i, lo);
    }
  }

  /** A level matches exactly when `t` reaches the lowest scanned temperature:
      -1 when idle, 0 while throttling. */
  lemma LevelMatchesIff(t: int, throttling: bool)
    ensures LevelFreq(t, throttling) != 0 <==> t >= ThermalLevels[LowestLevel(throttling)].temp
  {
    var lo := LowestLevel(throttling);
    var k := MatchFrom(t, |ThermalLevels| - 1, lo);
    MatchFromNone(t, |ThermalLevels| - 1, lo);
    MatchFromIsHighest(t, |ThermalLevels| - 1, lo);
    if k >= 0 {
      TableFreqsNonZero(k);
    }
  }

  /** The chosen cap is non-increasing in the temperature: hotter never means a higher cap. */
  lemma LevelFreqMonotone(t1: int, t2: int, throttling: bool)
    requires t1 <= t2 && LevelFreq(t1, throttling) != 0
    ensures LevelFreq(t2, throttling) != 0
    ensures LevelFreq(t2, throttling) <= LevelFreq(t1, throttling)
  {
    var lo := LowestLevel(throttling);
    var n := |ThermalLevels| - 1;
    MatchFromMonotone(t1, t2, n, lo);
    MatchFromIsHighest(t1, n, lo);
    MatchFromIsHighest(t2, n, lo);
    FreqsDecrease(MatchFrom(t1, n, lo), MatchFrom(t2, n, lo));
    TableFreqsNonZero(MatchFrom(t2, n, lo));
  }

  /** While throttling the scan stops before level 0: the cap is at most level 1's. */
  lemma LevelZeroUnreachableWhileThrottling(t: int)
    ensures LevelFreq(t, true) <= ThermalLevels[1].freq
    ensures LevelFreq(t, true) != ThermalLevels[0].freq
  {
    var n := |ThermalLevels| - 1;
    MatchFromIsHighest(t, n, 1);
    var k := MatchFrom(t, n, 1);
    if k >= 1 {
      FreqsDecrease(1, k);
    }
    TableOrdered(0);
  }

  /** The hysteresis band: past the un-throttle guard (t >= -safe_diff) no level matches
      exactly for t in [-5, -2] when idle and for t in [-5, -1] while throttling. */
  lemma HysteresisBand(t: int, throttling: bool)
    requires t >= -MSM_THERMAL_SAFE_DIFF
    ensures LevelFreq(t, throttling) == 0 <==> (if throttling then t <= -1 else t <= -2)
  {
    LevelMatchesIff(t, throttling);
  }

  /** The scan of check_temp (msm_thermal.c lines 187-194): from level 9 down to level 0, or
      level 1 while throttling, stopping at the first level whose temperature `t` reaches. */
  method SelectLevel(t: int, throttling: bool) returns (freq: nat)
    ensures freq == LevelFreq(t, throttling)
  {
    freq := 0;
    var lo := LowestLevel(throttling);
    var i := |ThermalLevels| - 1;
    while i >= lo
      invariant lo - 1 <= i < |ThermalLevels|
      invariant MatchFrom(t, |ThermalLevels| - 1, lo) == MatchFrom(t, i, lo)
      decreases i
    {
      if t >= ThermalLevels[i].temp {
        freq := ThermalLevels[i].freq;
        break;
      }
      i := i - 1;
    }
  }

  // ---------------------------------------------------------------- polling

  /** get_polling_interval_jiffies in ms. Its reset guard `!preset && preset > 7` can never
      hold, so a preset past the eight-entry table is read out of bounds (None). */
  function PollingIntervalMs(preset: nat): (r: Option<nat>)
    ensures r.Some? <==> preset < |PollingVal|
    ensures r.Some? ==> r.value == PollingVal[preset]
    ensures preset == 0 ==> r == Some(0)
  {
    var p := if preset == 0 && preset > 7 then MSM_THERMAL_POLLING_FREQ_PRESET else preset;
    if p < |PollingVal| then Some(PollingVal[p]) else None
  }

  /** The reset guard of get_polling_interval_jiffies is unsatisfiable. */
  lemma PollingResetNeverFires(preset: nat)
    ensures !(preset == 0 && preset > 7)
  {
  }

  /** The reschedule at the end of check_temp: the preset's rate within 3*safe_diff of the
      threshold, 250 ms further below it. */
  function NextCheck(t: int, safeDiff: int, preset: nat): (r: CheckOutcome)
    ensures r != PowerOff
    ensures t < -3 * safeDiff ==> r == Reschedule(COOL_POLLING_MS)
    ensures t >= -3 * safeDiff && preset < |PollingVal| ==> r == Reschedule(PollingVal[preset])
    ensures t >= -3 * safeDiff && preset >= |PollingVal| ==> r == PollingOutOfTable(preset)
  {
    if t >= -3 * safeDiff then
      match PollingIntervalMs(preset)
      case Some(ms) => Reschedule(ms)
      case None => PollingOutOfTable(preset)
    else
      Reschedule(COOL_POLLING_MS)
  }

  // ---------------------------------------------------------------- policy notifier

  /** msm_thermal_cpufreq_callback: an ADJUST event, or any event while a limit change is being
      pushed, keeps the policy within [cpuinfo.min_freq, limited_max_freq]; others are untouched. */
  function CpufreqCallback(event: nat, pendingChange: bool, cpuinfoMinFreq: nat, limitedMaxFreq: nat): (r: ClampOutcome)
    ensures r.ClampWithin? <==> event == CPUFREQ_ADJUST || pendingChange
    ensures r.ClampWithin? ==> r.lo == cpuinfoMinFreq && r.hi == limitedMaxFreq
  {
    if event != CPUFREQ_ADJUST && !pendingChange then Untouched
    else ClampWithin(cpuinfoMinFreq, limitedMaxFreq)
  }

  // ---------------------------------------------------------------- the `info` record

  class ThermalInfo {
    var cfg: ThermalConfig
    var cpuinfoMaxFreq: nat
    var limitedMaxFreq: nat
    var safeDiff: int
    var throttling: bool
    var pendingChange: bool

    /** Between steps no limit change is in flight, and `safe_diff` keeps its constant value. */
    ghost predicate Valid()
      reads this
    {
      !pendingChange && safeDiff == MSM_THERMAL_SAFE_DIFF
    }

    /** The static initialiser of `info` and the module parameters. */
    constructor ()
      ensures Valid()
      ensures cfg == DefaultConfig
      ensures cpuinfoMaxFreq == LONG_MAX && limitedMaxFreq == LONG_MAX
      ensures !throttling
    {
      cfg := DefaultConfig;
      cpuinfoMaxFreq := LONG_MAX;
      limitedMaxFreq := LONG_MAX;
      safeDiff := MSM_THERMAL_SAFE_DIFF;
      throttling := false;
      pendingChange := false;
    }

    /** limit_cpu_freqs: a no-op when the cap already is `maxFreq`; otherwise stores it and asks
        every online cpu to re-evaluate its policy (`reevaluate`) with `pending_change` raised,
        which is lowered again before returning. */
    method LimitCpuFreqs(maxFreq: nat) returns (reevaluate: bool)
      requires Valid()
      modifies this`limitedMaxFreq, this`pendingChange
      ensures Valid()
      ensures limitedMaxFreq == maxFreq
      ensures reevaluate <==> old(limitedMaxFreq) != maxFreq
    {
      reevaluate := false;
      if limitedMaxFreq == maxFreq {
        return;
      }
      limitedMaxFreq := maxFreq;
      pendingChange := true;
      reevaluate := true;  // every online cpu re-evaluates its policy
      pendingChange := false;
    }

    /** check_temp for one reading `temp` of the sensor. */
    method CheckTemp(temp: int) returns (outcome: CheckOutcome, reevaluate: bool)
      requires Valid()
      modifies this`limitedMaxFreq, this`throttling, this`pendingChange
      ensures Valid()
      // critical temperature without extreme mode: power off, nothing else
      ensures temp >= cfg.tempThresholdCrit && !cfg.enableExtreme ==>
        outcome == PowerOff && !reevaluate &&
        limitedMaxFreq == old(limitedMaxFreq) && throttling == old(throttling)
      // disabled: recheck after 1000 ms, nothing else
      ensures !(temp >= cfg.tempThresholdCrit && !cfg.enableExtreme) && !cfg.enableMain ==>
        outcome == Reschedule(DISABLED_RECHECK_MS) && !reevaluate &&
        limitedMaxFreq == old(limitedMaxFreq) && throttling == old(throttling)
      // enabled: the next check follows the offset from the threshold
      ensures !(temp >= cfg.tempThresholdCrit && !cfg.enableExtreme) && cfg.enableMain ==>
        outcome == NextCheck(temp - cfg.tempThreshold, safeDiff, cfg.pollingFreqPreset)
      // cooled below the band: restore the hardware maximum if throttling
      ensures (!(temp >= cfg.tempThresholdCrit && !cfg.enableExtreme) && cfg.enableMain &&
               temp - cfg.tempThreshold < -safeDiff) ==>
        if old(throttling) then
          limitedMaxFreq == cpuinfoMaxFreq && !throttling &&
          (reevaluate <==> old(limitedMaxFreq) != cpuinfoMaxFreq)
        else
          limitedMaxFreq == old(limitedMaxFreq) && !throttling && !reevaluate
      // in or above the band: a matching level sets the cap and throttling; no match changes nothing
      ensures (!(temp >= cfg.tempThresholdCrit && !cfg.enableExtreme) && cfg.enableMain &&
               temp - cfg.tempThreshold >= -safeDiff) ==>
        var f := LevelFreq(temp - cfg.tempThreshold, old(throttling));
        if f != 0 then
          limitedMaxFreq == f && throttling && (reevaluate <==> old(limitedMaxFreq) != f)
        else
          limitedMaxFreq == old(limitedMaxFreq) && throttling == old(throttling) && !reevaluate
    {
      reevaluate := false;
      if temp >= cfg.tempThresholdCrit && !cfg.enableExtreme {
        outcome := PowerOff;
        return;
      }
      if !cfg.enableMain {
        outcome := Reschedule(DISABLED_RECHECK_MS);
        return;
      }
      var t := temp - cfg.tempThreshold;
      if t < -safeDiff {
        if throttling {
          reevaluate := LimitCpuFreqs(cpuinfoMaxFreq);
          throttling := false;
        }
      } else {
        var freq := SelectLevel(t, throttling);
        if freq != 0 {
          reevaluate := LimitCpuFreqs(freq);
          if !throttling {
            throttling := true;
          }
        }
      }
      outcome := NextCheck(t, safeDiff, cfg.pollingFreqPreset);
    }
  }
}

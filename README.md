# cpu-boost, MSM thermal throttle and max17048 voltage tweak, modelled in Dafny

This project models three pieces of sequential decision logic from a kernel for the
MSM8974 phone SoC. Each is a small state machine over integer state.

- **cpu-boost** (`cpu_boost.dfy`, module `CpuBoost`). The engine temporarily raises the
  minimum frequency of cpus after three events: a task migration (the destination is synced
  to the source), an input event (every online cpu is boosted), and an app launch (every cpu is
  boosted to its policy maximum). Each boost is removed again by a delayed expiry. Class
  `CpuBoostEngine` holds the per-cpu `sync_info` records as an `array<CpuSync>`, plus:
  - the online set;
  - the module parameters;
  - `last_input_time`;
  - whether the input pass is queued.

  Each `boost_rem` / `input_boost_rem` delayed work is an `Expiry` value in its record: `Idle`,
  or `Queued(delay in ms)`. Each entry point is one atomic method. Each `cpufreq_update_policy`
  call is returned as a "re-evaluate cpu c" event. The CPUFREQ_ADJUST floor is the pure function
  `AdjustFloor`.
- **MSM thermal** (`msm_thermal.dfy`, module `MsmThermal`). Each polling step takes one
  temperature reading. It either requests power-off, rechecks later while disabled, lifts the
  throttle, or picks a frequency cap from the ten-level `thermal_level` table with hysteresis.
  It returns the next polling delay. Class `ThermalInfo` holds the `info` record and the module
  parameters. The table scan is the method `SelectLevel`, which has loop invariants.
- **max17048 tweak** (`max17048_tweaks.dfy`, module `Max17048Tweaks`). The setter checks its
  input against [3504, 4400] mV and rounds it up to a multiple of 16 before storing it in one
  global, which the getter returns. C's truncating `/` and `%` are written out (`CDiv`, `CRem`).

Inputs from outside become parameters:
- policy snapshots, and whether each policy query succeeded;
- the thermal pair (`throttling`, `limited_max_freq`) that cpu-boost reads;
- the clock, in µs;
- the suspend state;
- whether the current context is the destination's sync thread;
- the temperature reading.

Widths are modelled where they matter. `dest_policy.max * task_load` wraps modulo 2^32 and
`now - last_input_time` wraps modulo 2^64. `LONG_MAX` is the 32-bit value 2147483647, since the
target is 32-bit ARM.

Behaviour kept as the code has it:
- When the source policy query fails, `boost_migration_notify` does not drop the event. It skips
  only the load-threshold check. With `load_based_syncs` set it stores the uninitialised `util`
  as the task load (otherwise the task load is 0, as always). The model takes that stale value
  as the parameter `staleUtil`; `SyncRequestWraps` shows how such a value can make the 32-bit
  product wrap.
- A non-zero resolved input floor at or below `policy.min` suppresses the migration floor too.
- An app launch arms one expiry only: the one in the record of the last possible cpu. If that
  expiry is already queued, `queue_delayed_work` leaves it as it is. When it fires, the other
  cpus keep `input_boost_min = UINT_MAX` (see `AppLaunchExpiresOnLastCpuOnly`).
- The reset guard `!polling_freq_preset && polling_freq_preset > 7` can never hold. A preset of
  8 or more would read past the end of `polling_val`, which the model reports as the outcome
  `PollingOutOfTable`. Preset 0 gives a 0 ms delay.
- `info.cpuinfo_max_freq` is never updated, so lifting the throttle restores the cap to `LONG_MAX`.

## Model

| member | source | states |
|---|---|---|
| CpuBoost.ResolvedInputFloor | drivers/cpufreq/cpu-boost.c:141-142 | the resolved input floor never exceeds policy.max; the UINT_MAX sentinel becomes policy.max; a value below the sentinel that is at most policy.max is kept |
| CpuBoost.AdjustFloor | drivers/cpufreq/cpu-boost.c:137-159 | no change exactly when both floors are 0, or when the resolved input floor is non-zero and at most policy.min (even if boost_min is larger); otherwise the new minimum is the larger of boost_min and the resolved input floor |
| CpuBoost.AppLaunchFloorIsPolicyMax | drivers/cpufreq/cpu-boost.c:141-159 | with the app-launch sentinel, Adjust raises the minimum to max(boost_min, policy.max) when policy.max > policy.min, and does nothing when 0 < policy.max <= policy.min |
| CpuBoost.CpuBoostEngine.AdjustNotify | drivers/cpufreq/cpu-boost.c:126-163 | the ADJUST notifier applies AdjustFloor to the cpu's current boost_min and input_boost_min |
| CpuBoost.RawSyncRequest | drivers/cpufreq/cpu-boost.c:224 | the request is at least src.cur; it equals src.cur when task_load is 0; without 32-bit overflow it is max(dest.max*task_load/100, src.cur) |
| CpuBoost.ClampSyncRequest | drivers/cpufreq/cpu-boost.c:226-233 | the clamped request is at most the raw request, at most sync_threshold when that is non-zero, at most limited_max_freq while throttling, and equal to one of the ceilings that apply, so it is exactly the least of them; unchanged when neither ceiling is exceeded |
| CpuBoost.SyncTarget | drivers/cpufreq/cpu-boost.c:219-239 | a failed query on either side discards the cycle; an armed floor is the clamped request, above cpuinfo.min_freq and not below a non-zero sync_threshold_min; with both policies known, those two checks are the only reasons to discard |
| CpuBoost.SyncRequestWraps | drivers/cpufreq/cpu-boost.c:224 | a task load of 2000 against dest max 2,265,600 overflows 32 bits and requests 2,362,327 instead of 45,312,000 |
| CpuBoost.SyncWorkedExample | drivers/cpufreq/cpu-boost.c:224-227 | dest max 2,000,000, load 50 and src cur 1,200,000 request 1,200,000, which sync_threshold 1,000,000 caps to 1,000,000 |
| CpuBoost.SyncedRecord | drivers/cpufreq/cpu-boost.c:241-267 | pending is cleared; a discarded cycle keeps boost_min and its expiry; an armed floor on an online cpu is stored, with a new expiry after boost_ms; an offline cpu gets boost_min 0 and no expiry; no other field changes |
| CpuBoost.CpuBoostEngine.SyncCycle | drivers/cpufreq/cpu-boost.c:207-268 | with nothing pending the thread keeps waiting and nothing changes; otherwise only the dest record changes, to SyncedRecord of SyncTarget; an armed cycle re-evaluates the source and then the dest, each only if online |
| CpuBoost.CpuBoostEngine.DoBoostRem | drivers/cpufreq/cpu-boost.c:177-186 | only this cpu's boost_min is set to 0, its expiry is consumed, and the cpu is re-evaluated |
| CpuBoost.CpuBoostEngine.DoInputBoostRem | drivers/cpufreq/cpu-boost.c:188-197 | only this cpu's input_boost_min is set to 0, its expiry is consumed, and the cpu is re-evaluated |
| CpuBoost.ExpiryRefireChangesNothing | drivers/cpufreq/cpu-boost.c:177-197 | calling do_boost_rem and then do_input_boost_rem twice each on one cpu: each second call leaves the records as the first left them, and only that cpu's two floors and expiries are cleared |
| CpuBoost.CpuBoostEngine.MigrationNotify | drivers/cpufreq/cpu-boost.c:274-317 | no state changes when suspended with disable_while_suspended, when boost_ms is 0, when the source query succeeds with util below the threshold under load-based syncs, or when the dest thread is the current context; otherwise only the dest record changes: pending set, src_cpu and task_load overwritten (last writer wins), and a failed query stores the stale util |
| CpuBoost.ElapsedUs | drivers/cpufreq/cpu-boost.c:390 | u64 subtraction stays below 2^64 and is the plain difference when the clock has not wrapped |
| CpuBoost.InputEventAccepted | drivers/cpufreq/cpu-boost.c:381-394 | (predicate, no contract) an input event passes the gate iff it is not suspended with disable_while_suspended, input_boost_freq is non-zero, at least 150 ms have passed in u64 arithmetic, and no pass is queued |
| CpuBoost.DebounceWindow | drivers/cpufreq/cpu-boost.c:386-397 | after an accepted event stamped t, an event before t+150 ms is dropped; from t+150 ms on, an event is accepted iff boosting is enabled, not suspended-off and no pass is queued |
| CpuBoost.CpuBoostEngine.InputEvent | drivers/cpufreq/cpu-boost.c:376-398 | an accepted event queues the pass and stores the new timestamp; a dropped event changes nothing |
| CpuBoost.InputFloorFor | drivers/cpufreq/cpu-boost.c:361-367 | the input floor is input_boost_freq, lowered to limited_max_freq while throttling when that is lower; never above either |
| CpuBoost.InputBoosted | drivers/cpufreq/cpu-boost.c:359-370 | a skipped cpu keeps its record; a boosted cpu gets InputFloorFor (never above input_boost_freq, nor above limited_max_freq while throttling) and an expiry after input_boost_ms; the migration fields never change |
| CpuBoost.CpuBoostEngine.DoInputBoost | drivers/cpufreq/cpu-boost.c:344-374 | exactly the online cpus whose query succeeds and whose cur is below input_boost_freq get InputFloorFor and an expiry after input_boost_ms, and are re-evaluated; every other record is unchanged; the pass is no longer queued |
| CpuBoost.AppLaunched | drivers/cpufreq/cpu-boost.c:333-341 | every record gets the UINT_MAX floor; only the last record's expiry can change, from idle to queued after app_launch_boost_ms; a queued expiry is left alone; the migration fields never change |
| CpuBoost.CpuBoostEngine.DoAppLaunchBoost | drivers/cpufreq/cpu-boost.c:323-342 | a no-op when app_launch_boost_ms is 0; otherwise every possible cpu's input_boost_min becomes UINT_MAX, only the last record's expiry is armed (if it was idle), migration floors are untouched, and the online cpus are re-evaluated |
| CpuBoost.CpuBoostEngine.constructor | drivers/cpufreq/cpu-boost.c:482-493 | every possible cpu starts with a zeroed record carrying its own id, no expiry queued, default parameters and last_input_time 0 |
| CpuBoost.LowLoadMigrationIsDropped | drivers/cpufreq/cpu-boost.c:289-293 | with threshold 30, load-based syncs on and source util 20, the migration leaves pending false |
| CpuBoost.MigrationsCoalesce | drivers/cpufreq/cpu-boost.c:300-304 | two migrations before the worker runs leave the later source and load; one cycle consumes them and arms 1,200,000 |
| CpuBoost.AppLaunchExpiresOnLastCpuOnly | drivers/cpufreq/cpu-boost.c:333-341 | on two cpus, after an app launch and its one expiry, cpu 1's input floor is 0 while cpu 0 keeps UINT_MAX with no expiry queued |
| MsmThermal.TableOrdered | drivers/thermal/msm_thermal.c:78-90 | the table's temperatures strictly increase and its caps strictly decrease |
| MsmThermal.MatchFrom | drivers/thermal/msm_thermal.c:187-194 | the descending scan stops at an index in [lo, i] whose temperature the offset reaches, or finds none |
| MsmThermal.LevelFreq | drivers/thermal/msm_thermal.c:187-196 | the cap the scan selects: a non-zero cap is the cap of a scanned level (level 1 up while throttling) whose temperature the offset reaches |
| MsmThermal.MatchFromIsHighest | drivers/thermal/msm_thermal.c:187-194 | the scan stops at the highest index in range whose temperature the offset reaches |
| MsmThermal.LevelMatchesIff | drivers/thermal/msm_thermal.c:187-196 | a level matches iff the offset reaches the lowest scanned temperature (-1 when idle, 0 while throttling) |
| MsmThermal.LevelFreqMonotone | drivers/thermal/msm_thermal.c:78-90 | the chosen cap is non-increasing in the offset: if t1 <= t2 and t1 matches, t2 matches with a cap no higher |
| MsmThermal.LevelZeroUnreachableWhileThrottling | drivers/thermal/msm_thermal.c:187 | while throttling the cap is at most level 1's and never level 0's |
| MsmThermal.HysteresisBand | drivers/thermal/msm_thermal.c:175-202 | past the un-throttle guard, no level matches exactly for offsets in [-5,-2] when idle and [-5,-1] while throttling |
| MsmThermal.SelectLevel | drivers/thermal/msm_thermal.c:187-194 | the loop from 9 down to the throttling flag, with early break, computes LevelFreq |
| MsmThermal.PollingIntervalMs | drivers/thermal/msm_thermal.c:96-105 | presets 0-7 give polling_val[preset] (0 ms for preset 0); any other preset reads past the table, since the reset guard never fires |
| MsmThermal.PollingResetNeverFires | drivers/thermal/msm_thermal.c:98 | the reset condition is unsatisfiable |
| MsmThermal.NextCheck | drivers/thermal/msm_thermal.c:204-210 | within 3*safe_diff below the threshold the preset's delay is used, further below 250 ms |
| MsmThermal.CpufreqCallback | drivers/thermal/msm_thermal.c:107-119 | the policy is clamped to [cpuinfo.min_freq, limited_max_freq] iff the event is ADJUST or a limit change is pending; otherwise untouched |
| MsmThermal.ThermalInfo.constructor | drivers/thermal/msm_thermal.c:59-71 | both frequency fields start at LONG_MAX, safe_diff 5, not throttling, no change pending, default parameters |
| MsmThermal.ThermalInfo.LimitCpuFreqs | drivers/thermal/msm_thermal.c:125-146 | the cap becomes the target; online cpus are re-evaluated iff it changed; pending_change is false again on return |
| MsmThermal.ThermalInfo.CheckTemp | drivers/thermal/msm_thermal.c:148-211 | a critical reading without extreme mode requests power-off; disabled rechecks after 1000 ms with no change; below -safe_diff the throttle is lifted to cpuinfo_max_freq if set and otherwise nothing changes; else a matching level sets the cap and throttling, and no match changes nothing; the next delay follows NextCheck |
| Max17048Tweaks.CDiv | drivers/misc/max17048_tweaks.c:66 | C's `/` by a positive divisor: the Euclidean quotient for a non-negative dividend, and never positive for a negative one |
| Max17048Tweaks.CRem | drivers/misc/max17048_tweaks.c:66 | C's remainder: dividend = quotient*divisor + remainder, the remainder is strictly between -divisor and divisor and has the sign of the dividend |
| Max17048Tweaks.RoundUpToStep | drivers/misc/max17048_tweaks.c:66 | the stored value is a multiple of 16, at least the input and less than input+16 |
| Max17048Tweaks.RoundedStaysInRange | drivers/misc/max17048_tweaks.c:65-66 | an input in [3504, 4400] is stored as a multiple of 16 within [3504, 4400] |
| Max17048Tweaks.RoundUpKeepsSteps | drivers/misc/max17048_tweaks.c:66 | a multiple of 16 is stored exactly |
| Max17048Tweaks.RoundUpIsLeast | drivers/misc/max17048_tweaks.c:66 | the stored value is the least multiple of 16 not below the input |
| Max17048Tweaks.MaxVoltageTweak.constructor | drivers/misc/max17048_tweaks.c:17 | the initial stored value is 0 |
| Max17048Tweaks.MaxVoltageTweak.GetMaxVoltageMv | drivers/misc/max17048_tweaks.c:57-60 | get returns the stored value, which is 0 or an in-range multiple of 16 |
| Max17048Tweaks.MaxVoltageTweak.SetMaxVoltageMv | drivers/misc/max17048_tweaks.c:63-71 | an in-range input stores its round-up; an out-of-range input leaves the stored value unchanged |
| Max17048Tweaks.SetOfGetIsNoOp | drivers/misc/max17048_tweaks.c:57-71 | setting the value just read leaves the stored value unchanged |

## Left out

- Concurrency is not modelled: the sync kthread's wait/wake, the per-cpu spinlock, the `being_woken` compare-and-swap around `wake_up`, workqueue execution and `get_online_cpus`/`put_online_cpus`. Each handler is one atomic step, and expiries are `Queued` values that the expiry methods consume when called.
- Foreign calls become parameters or returned events: `cpufreq_get_policy` results are parameters; `cpufreq_update_policy` and `update_policy_online` are the returned `reevaluate` events; `tsens_get_temp` is the `temp` parameter; `cpufreq_verify_within_limits` is returned as the bounds it would be called with (`RaiseMin`, `ClampWithin`).
- CpuBoost.CpuBoostEngine.DoAppLaunchBoost: does not model the cancellation at line 331, which goes through an uninitialised pointer. The model removes no expiry there.
- MsmThermal.ThermalInfo.LimitCpuFreqs: `pending_change` is true only while the online cpus re-evaluate, and those re-evaluations are one returned event, so the model never exposes that moment. `CpufreqCallback` takes `pending_change` as a parameter instead.
- The CPUFREQ_START branch (`set_cpus_allowed`), input-handler connect/disconnect, the input device id table, `cpu_boost_init`, and thermal probe/remove/init are registration plumbing and are left out.
- `sys_sync` and `kernel_power_off` appear only as the `PowerOff` outcome.
- Time is a parameter: jiffies and ktime conversions are left out. Delays are in ms and the input clock is in µs.
- The input event's type, code and value are ignored by the source and are not parameters.
- sysfs and module-parameter read/write handlers, `sscanf`/`sprintf`, `misc_register` and `sysfs_create_group` are I/O and are left out. Parameters are plain fields (`cfg`) that a caller may assign.
- The link between `cpu_thermal_info` (cpu-boost.c line 104) and the thermal driver's static `info` is not modelled. cpu-boost receives the thermal pair as a `ThermalAdvice` parameter.
- 32-bit bounds on `unsigned int` and `uint32_t` values are modelled only where a wrap can change a result: the task-load product and the input-time difference. Elsewhere the values are naturals. The `long` subtraction `temp - temp_threshold` is taken as exact, without overflow.
- include/linux/fastchg.h and include/linux/power/max17048_battery.h are not part of this model: they hold only constants and declarations.
- Debug and error logging (`pr_debug`, `pr_info`, `pr_err`) is left out.

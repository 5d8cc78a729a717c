# Server Guardian, modelled in Dafny

Server Guardian is a root daemon (`server_guardian.py`) that protects one
network-facing host. A single loop ticks once a second and applies four
policies:

- a packet-filter rule that caps concurrent connections per source;
- a daily unique-address circuit breaker;
- a daily traffic-volume circuit breaker;
- a throttle state machine that cuts the interface's bandwidth for a fixed
  punishment window after a stretch of sustained high throughput.

This project models the loop on explicit state and proves what the loop
promises.

The model has five modules:

- `Config` holds the constants of the source's configuration block.
- `Enforcement` models the host's network policy as values:
  - the INPUT chain of the packet filter, changed by `iptables -D` and `-A`;
  - the root queueing discipline of the interface, changed by `tc qdisc del`
    and `add`.

  A command that fails has its failure swallowed, so it is modelled as a
  command that leaves its target unchanged.
- `Policy` models one iteration of the loop on values. `GuardState` holds the
  six fields of `ServerGuardian`, the loop's `last_traffic` and the installed
  shaper. `Step` runs rollover, accounting, the two breaker tests and the
  throttle step in the source's order. `Step` and its parts state in their
  contracts what each phase does.
- `Runs` covers runs of the loop over a sequence of samples. A run stops at
  the first shutdown. Its lemmas cover:
  - daily totals telescoping since the last rollover;
  - the unique-address breaker over a day;
  - sustained load and short bursts;
  - the punishment window.
- `Guardian` holds the class `ServerGuardian`. Its real fields are the
  object's fields. The packet-filter chain and the shaper are ghost fields,
  which only `InitIptables` and `SetTcSpeed` change. `Tick` is one loop
  iteration and is proved equal to `Policy.Step`, keeping the object
  invariant `Valid()`. `MainLoop` constructs the guardian, starts it, and
  has `Drive` call `Tick` over a bounded sequence of samples. It is proved
  equal to `Runs.Run` from the startup state.

Each tick's inputs are injected as a `Sample`:

- the day number (for `datetime.date.today()`);
- the cumulative rx+tx byte counter;
- the remote addresses listed by `netstat`;
- the wall clock in whole seconds (for `time.time()`).

The two floating-point tests become exact integer comparisons, because both
divide by a power of two:

- the rate test (lines 155 and 187) becomes `diff*8 > TRIGGER_SPEED * 2^20`;
- the traffic test (lines 158-159) becomes
  `daily_traffic_bytes > MAX_DAILY_TRAFFIC * 2^30`.

Python's true division of integers is correctly rounded, and the quotients
near the thresholds (100) are exactly representable. So the float comparison
and the integer one agree.

Four definitions carry no contract of their own; the rows below state their
properties through the members that use them:

- `Policy.HighRate` is the rate test of server_guardian.py:155 and 187;
- `Policy.OverTraffic` is the traffic test of server_guardian.py:158-159;
- `Policy.TooManyIps` is the address test of server_guardian.py:167;
- `Runs.Run` is the loop of server_guardian.py:140-197 over a sequence of
  samples, which stops at the first shutdown.

The model follows the code in three places where an idealised account of
the daemon would differ:

- a negative byte delta (for example after a counter reset) is added to the
  daily total as it is; nothing clamps it to zero;
- entering THROTTLED does not reset the high-load counter. The counter stays
  at `TRIGGER_DURATION` for the whole punishment and is zeroed only on
  recovery. `Policy.ThrottleInv` records this;
- the counter grows by one per tick, not by elapsed seconds.

## Model

| member | source | states |
|---|---|---|
| `Enforcement.FirstIndex` | server_guardian.py:74 | the position `iptables -D` acts on: it holds the rule, and no earlier position does |
| `Enforcement.DeleteRule` | server_guardian.py:74 | removes one copy of the rule from the chain (as a multiset) and shortens it by one; a chain without the rule is left unchanged, because the failed `-D` is swallowed |
| `Enforcement.InstallConnLimitPositions` | server_guardian.py:70-76 | in order: the first copy of the connlimit rule is taken out where it stood, the other rules keep their order, and the rule goes to the end; a chain without it just gains it at the end |
| `Enforcement.InstallConnLimit` | server_guardian.py:70-76 | afterwards the chain ends with the connlimit rule, holds as many copies as before but at least one, and keeps every other rule |
| `Enforcement.InstallConnLimitIdempotent` | server_guardian.py:73-76 | from a chain with at most one copy, one install leaves exactly one copy, and a second install changes no rule's count |
| `Enforcement.SetTcSpeed` | server_guardian.py:78-86 | whatever qdisc was installed, the interface ends with a token bucket filter at the given rate, burst 32 kbit, latency 400 ms |
| `Policy.Boot` | server_guardian.py:133-136 | the startup state is Normal with counter and end time 0 and the interface at full bandwidth; it keeps the baseline sample and today's date, has an empty address set and a zero total, and satisfies the throttle invariant within both limits |
| `Policy.Rollover` | server_guardian.py:110-117 | the stored date becomes today; on a new day the address set is empty and the total zero; on the same day nothing changes; no other field changes |
| `Policy.Account` | server_guardian.py:146-152 | the daily total changes by exactly `current - last`, negative deltas included, and `last` becomes `current`; nothing else changes |
| `Policy.AbsorbIps` | server_guardian.py:163-165 | the address set becomes the old set union the listed addresses; it never shrinks, and addresses already in it do not change it |
| `Policy.Throttle` | server_guardian.py:171-197 | Throttled before the end time: nothing changes; at or after the end time: Normal, counter 0, full bandwidth. Normal: a high tick adds one to the counter, and the machine throttles (punishment speed, end = now + 900) exactly when the counter reaches the trigger; any other tick zeroes the counter. Daily fields never change |
| `Policy.Step` | server_guardian.py:140-197 | one iteration: the total moves by exactly the delta (from zero after a rollover); shutdown on the traffic test iff the total strictly exceeds the ceiling, with no address absorbed; shutdown on the address test iff the traffic test passed and the set exceeds the ceiling; a shutdown leaves the throttle fields alone; a tick that goes on is within both limits and is the throttle step on the accounted state |
| `Policy.StepKeepsInvariant` | server_guardian.py:186-194 | every iteration keeps the throttle invariant (Normal below the trigger at full speed, Throttled at the trigger at punishment speed) |
| `Policy.EntersThrottledExactlyAtTrigger` | server_guardian.py:187-194 | from Normal, a tick leads to Throttled iff it goes on, is high, and takes the counter from TRIGGER_DURATION-1 to TRIGGER_DURATION; it then sets the end time and the punishment speed |
| `Runs.RunAppend` | server_guardian.py:140-168 | a run over one more sample is the old run extended by one iteration, unless the old run already shut down |
| `Runs.HaltIsFinal` | server_guardian.py:120-130 | after a shutdown, further samples change neither the state nor the reason: exactly one shutdown happens |
| `Runs.RunKeepsInvariant` | server_guardian.py:171-197 | every state a run reaches keeps the throttle invariant |
| `Runs.RunWithinLimits` | server_guardian.py:157-168 | a run that has not shut down is within both daily limits |
| `Runs.RunLastTraffic` | server_guardian.py:146-149 | a run that goes on holds the last sample as its previous byte sample |
| `Runs.DailyTotalTelescopes` | server_guardian.py:136-152 | the daily total is the latest sample minus the last sample taken before the most recent rollover (or the startup baseline when none happened) |
| `Runs.DailyIpsAccumulate` | server_guardian.py:163-165 | within one day the address set never shrinks, and a run that goes on holds the starting set plus every address listed since |
| `Runs.TooManyAddressesHalt` | server_guardian.py:163-168 | more than MAX_DAILY_UNIQUE_IPS distinct addresses within one day always end the run in a shutdown |
| `Runs.HighTickCounts` | server_guardian.py:187-190 | a high tick in Normal that stays below the trigger keeps Normal and adds one to the counter |
| `Runs.LowTickResets` | server_guardian.py:195-197 | a tick at or below the trigger rate in Normal keeps Normal and zeroes the counter |
| `Runs.SustainedLoadCounts` | server_guardian.py:186-190 | consecutive high ticks that keep the counter below the trigger keep the machine Normal, and the counter grows by one per tick |
| `Runs.BurstPrefixesNormal` | server_guardian.py:186-190 | every prefix of such a burst leaves the machine Normal |
| `Runs.SustainedLoadThrottles` | server_guardian.py:186-194 | high ticks that take the counter to TRIGGER_DURATION keep Normal before the last tick, and on that tick throttle to the punishment speed with end = now + PUNISH_DURATION |
| `Runs.ShortBurstNeverThrottles` | server_guardian.py:186-197 | a burst short of the trigger followed by one low tick never throttles, and the counter ends at zero |
| `Runs.PunishmentHolds` | server_guardian.py:174-183 | while every tick comes before the end time, mode, counter, end time and shaper do not change, whatever the rates |
| `Runs.PunishmentEnds` | server_guardian.py:174-180 | the first tick at or after the end time returns to Normal with the counter at zero and full bandwidth |
| `Guardian.ServerGuardian.constructor` | server_guardian.py:50-56 | a new guardian is Normal with counter and end time 0, an empty address set, a zero total and today's date |
| `Guardian.ServerGuardian.InitIptables` | server_guardian.py:70-76 | the chain ends with the connlimit rule, keeps its number of copies but at least one, and keeps every other rule |
| `Guardian.ServerGuardian.SetTcSpeed` | server_guardian.py:78-86 | the shaper becomes a token bucket filter at the given rate, whatever was installed |
| `Guardian.ServerGuardian.ShutdownServer` | server_guardian.py:120-130 | the guardian is shut down with the given reason |
| `Guardian.ServerGuardian.Start` | server_guardian.py:133-136 | the state becomes the startup state `Boot`, the connlimit rule is installed, the invariant `Valid()` holds, and today's total counts from the baseline |
| `Guardian.ServerGuardian.CheckDailyReset` | server_guardian.py:110-117 | the state becomes `Rollover` of the old state; on a new day the day's origin becomes the previous sample |
| `Guardian.ServerGuardian.AccountTraffic` | server_guardian.py:146-152 | returns the delta against the previous sample; the state becomes `Account` of the old state |
| `Guardian.ServerGuardian.AbsorbActiveIps` | server_guardian.py:163-165 | adding the addresses one at a time leaves the state `AbsorbIps` of the old state |
| `Guardian.ServerGuardian.AdvanceThrottle` | server_guardian.py:171-197 | the state becomes `Throttle` of the old state with this tick's delta and clock |
| `Guardian.ServerGuardian.AbsorbAndThrottle` | server_guardian.py:163-197 | after a passed traffic test, absorbing the addresses, the address test and the throttle step leave the state and outcome of `Step` from the iteration's starting state, and keep `Valid()` |
| `Guardian.ServerGuardian.TickRunning` | server_guardian.py:141-197 | on a running guardian: the new state and outcome are those of `Step`, `Valid()` is kept, the chain is not touched, and the day's origin moves to the previous sample on a rollover |
| `Guardian.ServerGuardian.Tick` | server_guardian.py:141-197 | a shut-down guardian changes nothing; otherwise the new state and outcome are those of `Step`; `Valid()` is kept: the total equals the latest sample minus the day's origin, the address set is the union of today's lists, the connlimit rule is installed, and a running guardian is within both limits |
| `Guardian.RunStopsEarly` | server_guardian.py:120-130 | once the run over a prefix has shut down, it is the run over all the samples |
| `Guardian.DriveOne` | server_guardian.py:140-197 | one tick of a running guardian extends the run by its sample, keeping `Valid()` and the chain |
| `Guardian.Drive` | server_guardian.py:140-197 | ticking until the samples run out or the guardian shuts down ends in the state and outcome of `Run` over all the samples |
| `Guardian.MainLoop` | server_guardian.py:132-197 | startup followed by the loop over the samples ends in the state and outcome of `Run` from `Boot`; the chain holds the connlimit rule as `InstallConnLimit` promises |

## Left out

- Running the shell commands (`run_cmd` and `subprocess`) is not modelled. Their effect on the packet filter and on the qdisc is kept as ghost state, and a failing command leaves its target unchanged.
- Reading `/sys/class/net/.../rx_bytes` and `tx_bytes` (`get_current_traffic`) and the `netstat` pipeline (`get_active_ips`) are left out, because both are I/O. Their results are inputs of each `Sample`. Their fallbacks to 0 and to an empty list are two of the allowed inputs.
- `datetime.date.today()` and `time.time()` are left out, because they are clocks. They are replaced by an injected day number and an injected integer second.
- The root-privilege check, `time.sleep`, `sys.exit`, the append to the shutdown log file and the `shutdown -h now` command are left out, because they are process and OS control. A shutdown is the terminal status `ShutDown(reason)`. The reason records the daily total or the address count that the log message would print.
- The `KeyboardInterrupt` handler and all `print` output, including the float formatting of Mbps and GB, are left out, because they are interactive output.
- Guardian.MainLoop: runs over a finite sequence of samples instead of `while True`. Any prefix of an endless run is one such call.
- Guardian.ServerGuardian.Tick: on a guardian that has already shut down it is a no-op. The real process no longer exists at that point.
- Enforcement.DeleteRule: its contract states the multiset of rules left and the new length. Which copy goes (the first) and the order of the rest are stated, for the connlimit rule the daemon deletes, by `Enforcement.InstallConnLimitPositions`.
- The model of `tc qdisc add` treats the kernel's default root qdisc as "nothing installed". Only a filter the guardian installed makes `tc qdisc add` fail.
- `DATA_FILE`, `TRAFFIC_RESET_HOUR`, `INTERFACE` and the `threading` import are left out, because no behaviour depends on them.

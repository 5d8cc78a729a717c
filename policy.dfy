/**
 * One iteration of the guardian's control loop on values: daily rollover,
 * byte accounting, the two circuit-breaker tests and the throttle state
 * machine, in the order the loop runs them.
 */
module Policy {
  import opened Config
  import opened Enforcement

  datatype Mode = Normal | Throttled

  /**
   * Everything one iteration reads and writes: the guardian's own fields,
   * the byte sample kept from the previous iteration, and the queueing
   * discipline its bandwidth changes leave on the interface.
   */
  datatype GuardState = GuardState(
    mode: Mode,
    highLoad: nat,      // consecutive high-load ticks seen while Normal
    punishEnd: int,     // wall-clock second at which the punishment ends
    ips: set<string>,   // distinct remote addresses seen today
    bytes: int,         // today's traffic total (may go negative: deltas are not clamped)
    date: int,          // day number of the last rollover check
    lastTraffic: nat,   // cumulative rx+tx byte counter at the previous sample
    shaper: Shaper)

  /**
   * What one iteration observes: today's day number, the cumulative rx+tx
   * byte counter, the remote addresses of established connections, and the
   * wall clock in whole seconds.
   */
  datatype Sample = Sample(today: int, traffic: nat, activeIps: seq<string>, now: int)

  /** Why the guardian shut the host down. */
  datatype Reason = TrafficExceeded(bytes: int) | UniqueIpsExceeded(count: nat)

  /** The outcome of one iteration: it goes on, or it shut the host down in the given state. */
  datatype Verdict = Continue(state: GuardState) | Halt(state: GuardState, reason: Reason)

  /** `diff*8/2^20 > TRIGGER_SPEED` in exact integer form: the division is by a power of two. */
  predicate HighRate(diff: int) {
    diff * 8 > TRIGGER_SPEED * MIB
  }

  /** `bytes/2^30 > MAX_DAILY_TRAFFIC` in exact integer form. */
  predicate OverTraffic(bytes: int) {
    bytes > MAX_DAILY_TRAFFIC * GIB
  }

  predicate TooManyIps(ips: set<string>) {
    |ips| > MAX_DAILY_UNIQUE_IPS
  }

  function Elements(l: seq<string>): set<string> {
    set x | x in l
  }

  /** The state right after startup: Normal, nothing counted, full bandwidth, the baseline sample kept. */
  function Boot(today: int, baseline: nat): (g: GuardState)
    ensures Running(g)
    ensures g.mode == Normal && g.highLoad == 0 && g.punishEnd == 0 && g.shaper == TbfAt(MAX_SPEED_LIMIT)
    ensures g.ips == {} && g.bytes == 0 && g.date == today && g.lastTraffic == baseline
  {
    GuardState(Normal, 0, 0, {}, 0, today, baseline, TbfAt(MAX_SPEED_LIMIT))
  }

  /** check_daily_reset: a new day starts from an empty address set and a zero total. */
  function Rollover(g: GuardState, today: int): (r: GuardState)
    ensures r.date == today
    ensures today == g.date ==> r == g
    ensures today != g.date ==> r.ips == {} && r.bytes == 0
    ensures r.(ips := g.ips, bytes := g.bytes, date := g.date) == g
  {
    if today != g.date then g.(ips := {}, bytes := 0, date := today) else g
  }

  /** The byte delta is added to the daily total as it is, and the sample is kept for the next tick. */
  function Account(g: GuardState, traffic: nat): (r: GuardState)
    ensures r.bytes - g.bytes == traffic - g.lastTraffic
    ensures r.lastTraffic == traffic
    ensures r.(bytes := g.bytes, lastTraffic := g.lastTraffic) == g
  {
    g.(bytes := g.bytes + (traffic - g.lastTraffic), lastTraffic := traffic)
  }

  /** Every active address joins the daily set; the set only grows, and not for addresses already in it. */
  function AbsorbIps(g: GuardState, active: seq<string>): (r: GuardState)
    ensures r.ips == g.ips + Elements(active)
    ensures g.ips <= r.ips && |g.ips| <= |r.ips|
    ensures Elements(active) <= g.ips ==> r == g
    ensures r.(ips := g.ips) == g
  {
    var ips := g.ips + Elements(active);
    assert |g.ips| <= |ips| by {
      assert |ips| == |g.ips| + |ips - g.ips|;
    }
    g.(ips := ips)
  }

  /**
   * The throttle state machine, given this tick's byte delta and clock.
   * Throttled: nothing changes until the punishment ends, then the interface
   * is opened up again. Normal: a high tick bumps the counter, any other tick
   * zeroes it, and the counter reaching TRIGGER_DURATION starts a punishment
   * (the counter is left as it is). Daily fields are never touched.
   */
  function Throttle(g: GuardState, diff: int, now: int): (r: GuardState)
    ensures g.mode == Throttled && now < g.punishEnd ==> r == g
    ensures g.mode == Throttled && now >= g.punishEnd ==>
      r == g.(mode := Normal, highLoad := 0, shaper := TbfAt(MAX_SPEED_LIMIT))
    ensures g.mode == Normal && !HighRate(diff) ==> r == g.(highLoad := 0)
    ensures g.mode == Normal && HighRate(diff) ==>
      && r.highLoad == g.highLoad + 1
      && (r.mode == Throttled <==> g.highLoad + 1 >= TRIGGER_DURATION)
      && (r.mode == Throttled ==> r.punishEnd == now + PUNISH_DURATION && r.shaper == TbfAt(THROTTLE_SPEED_LIMIT))
      && (r.mode == Normal ==> r.punishEnd == g.punishEnd && r.shaper == g.shaper)
    ensures r.(mode := g.mode, highLoad := g.highLoad, punishEnd := g.punishEnd, shaper := g.shaper) == g
  {
    if g.mode == Throttled then
      var remaining := g.punishEnd - now;
      if remaining <= 0 then
        g.(shaper := SetTcSpeed(g.shaper, MAX_SPEED_LIMIT), mode := Normal, highLoad := 0)
      else
        g
    else if HighRate(diff) then
      var h := g.highLoad + 1;
      if h >= TRIGGER_DURATION then
        g.(highLoad := h, shaper := SetTcSpeed(g.shaper, THROTTLE_SPEED_LIMIT), mode := Throttled,
           punishEnd := now + PUNISH_DURATION)
      else
        g.(highLoad := h)
    else
      g.(highLoad := 0)
  }

  /** The throttle fields of `g` with the daily fields of `d`. */
  function WithDaily(g: GuardState, d: GuardState): GuardState {
    g.(ips := d.ips, bytes := d.bytes, date := d.date, lastTraffic := d.lastTraffic)
  }

  /**
   * One iteration of the control loop. The day's total moves by exactly the
   * byte delta (after a rollover, from zero); the traffic test comes first
   * and a shutdown on it absorbs no address; the address test comes second;
   * a shutdown leaves the throttle fields alone; a tick that goes on advances
   * the throttle machine on the accounted state with this tick's delta.
   */
  function Step(g: GuardState, s: Sample): (v: Verdict)
    ensures v.state.date == s.today && v.state.lastTraffic == s.traffic
    ensures v.state.bytes == (if s.today != g.date then 0 else g.bytes) + (s.traffic - g.lastTraffic)
    ensures (v.Halt? && v.reason.TrafficExceeded?) <==> OverTraffic(v.state.bytes)
    ensures (v.Halt? && v.reason.TrafficExceeded?) ==> v.state.ips == (if s.today != g.date then {} else g.ips)
    ensures !(v.Halt? && v.reason.TrafficExceeded?) ==>
      v.state.ips == (if s.today != g.date then {} else g.ips) + Elements(s.activeIps)
    ensures (v.Halt? && v.reason.UniqueIpsExceeded?) <==> !OverTraffic(v.state.bytes) && TooManyIps(v.state.ips)
    ensures v.Halt? ==> WithDaily(g, v.state) == v.state
    ensures v.Continue? ==> WithinLimits(v.state)
    ensures v.Continue? ==> v.state == Throttle(WithDaily(g, v.state), s.traffic - g.lastTraffic, s.now)
  {
    var diffTraffic := s.traffic - g.lastTraffic;
    var a := Account(Rollover(g, s.today), s.traffic);
    if OverTraffic(a.bytes) then
      Halt(a, TrafficExceeded(a.bytes))
    else
      var b := AbsorbIps(a, s.activeIps);
      if TooManyIps(b.ips) then
        Halt(b, UniqueIpsExceeded(|b.ips|))
      else
        Continue(Throttle(b, diffTraffic, s.now))
  }

  /**
   * The throttle invariant: Normal keeps the counter below the trigger and the
   * interface at full speed; Throttled holds the counter at the trigger value
   * (it is not reset on entry) and the interface at the punishment speed.
   */
  ghost predicate ThrottleInv(g: GuardState) {
    && (g.mode == Normal ==> g.highLoad < TRIGGER_DURATION && g.shaper == TbfAt(MAX_SPEED_LIMIT))
    && (g.mode == Throttled ==> g.highLoad == TRIGGER_DURATION && g.shaper == TbfAt(THROTTLE_SPEED_LIMIT))
  }

  /** Neither daily ceiling is exceeded. */
  ghost predicate WithinLimits(g: GuardState) {
    !OverTraffic(g.bytes) && !TooManyIps(g.ips)
  }

  ghost predicate Running(g: GuardState) {
    ThrottleInv(g) && WithinLimits(g)
  }

  /** Every iteration keeps the throttle invariant, and one that goes on is within both daily limits. */
  lemma StepKeepsInvariant(g: GuardState, s: Sample)
    requires ThrottleInv(g)
    ensures ThrottleInv(Step(g, s).state)
    ensures Step(g, s).Continue? ==> Running(Step(g, s).state)
  {
  }

  /**
   * Under the invariant the machine enters Throttled exactly on a high tick
   * that takes the counter from TRIGGER_DURATION - 1 to TRIGGER_DURATION.
   */
  lemma EntersThrottledExactlyAtTrigger(g: GuardState, s: Sample)
    requires ThrottleInv(g) && g.mode == Normal
    ensures Step(g, s).state.mode == Throttled <==>
      Step(g, s).Continue? && HighRate(s.traffic - g.lastTraffic) && g.highLoad == TRIGGER_DURATION - 1
    ensures Step(g, s).state.mode == Throttled ==>
      Step(g, s).state.punishEnd == s.now + PUNISH_DURATION && Step(g, s).state.shaper == TbfAt(THROTTLE_SPEED_LIMIT)
  {
  }
}

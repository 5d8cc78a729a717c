/**
 * Runs of the control loop: a sequence of iterations that stops at the first
 * shutdown. The lemmas here relate many ticks: daily totals since the last
 * rollover, the unique-address breaker over a day, sustained load and the
 * punishment window.
 */
module Runs {
  import opened Config
  import opened Enforcement
  import opened Policy

  /** The iterations of the loop over `ss`, stopping at the first shutdown. */
  function Run(g: GuardState, ss: seq<Sample>): Verdict
    decreases |ss|
  {
    if ss == [] then Continue(g)
    else
      match Step(g, ss[0])
      case Continue(g') => Run(g', ss[1..])
      case Halt(_, _) => Step(g, ss[0])
  }

  /** One more sample: the run is extended by one iteration unless it had already shut down. */
  lemma {:induction false} RunAppend(g: GuardState, ss: seq<Sample>, s: Sample)
    ensures Run(g, ss + [s]) == if Run(g, ss).Halt? then Run(g, ss) else Step(Run(g, ss).state, s)
    decreases |ss|
  {
    if ss == [] {
      assert [s][1..] == [];
    } else {
      assert (ss + [s])[0] == ss[0] && (ss + [s])[1..] == ss[1..] + [s];
      match Step(g, ss[0])
      case Continue(g') => RunAppend(g', ss[1..], s);
      case Halt(_, _) =>
    }
  }

  /** A shutdown is final: later samples change neither the state nor the reason. */
  lemma {:induction false} HaltIsFinal(g: GuardState, ss: seq<Sample>, more: seq<Sample>)
    requires Run(g, ss).Halt?
    ensures Run(g, ss + more) == Run(g, ss)
    decreases |ss|
  {
    assert ss != [];
    assert (ss + more)[0] == ss[0] && (ss + more)[1..] == ss[1..] + more;
    match Step(g, ss[0])
    case Continue(g') => HaltIsFinal(g', ss[1..], more);
    case Halt(_, _) =>
  }

  /** Every state a run reaches keeps the throttle invariant, the state it shut down in included. */
  lemma {:induction false} RunKeepsInvariant(g: GuardState, ss: seq<Sample>)
    requires ThrottleInv(g)
    ensures ThrottleInv(Run(g, ss).state)
    decreases |ss|
  {
    if ss != [] {
      StepKeepsInvariant(g, ss[0]);
      match Step(g, ss[0])
      case Continue(g') => RunKeepsInvariant(g', ss[1..]);
      case Halt(_, _) =>
    }
  }

  /** A run that goes on stays within both daily limits. */
  lemma {:induction false} RunWithinLimits(g: GuardState, ss: seq<Sample>)
    requires WithinLimits(g)
    ensures Run(g, ss).Continue? ==> WithinLimits(Run(g, ss).state)
    decreases |ss|
  {
    if ss != [] {
      match Step(g, ss[0])
      case Continue(g') => RunWithinLimits(g', ss[1..]);
      case Halt(_, _) =>
    }
  }

  /** A run that goes on has taken the last sample as its previous one. */
  lemma {:induction false} RunLastTraffic(g: GuardState, ss: seq<Sample>)
    ensures Run(g, ss).Continue? ==> Run(g, ss).state.lastTraffic == if ss == [] then g.lastTraffic else ss[|ss| - 1].traffic
    decreases |ss|
  {
    if ss != [] {
      match Step(g, ss[0])
      case Continue(g') =>
        RunLastTraffic(g', ss[1..]);
        if ss[1..] != [] {
          assert ss[1..][|ss[1..]| - 1] == ss[|ss| - 1];
        }
      case Halt(_, _) =>
    }
  }

  // ---------------------------------------------------------------------------
  // Daily accounting

  /**
   * The byte sample the current day's total is measured from, computed from
   * the dates alone: the last sample taken before the most recent date change
   * among `ss`, or `origin` when the date never changes.
   */
  function DayOrigin(date: int, last: nat, origin: int, ss: seq<Sample>): int
    decreases |ss|
  {
    if ss == [] then origin
    else DayOrigin(ss[0].today, ss[0].traffic, if ss[0].today != date then last else origin, ss[1..])
  }

  /**
   * The daily total telescopes: it is the latest sample minus the sample the
   * day started from, whatever the samples in between were.
   */
  lemma {:induction false} DailyTotalTelescopes(g: GuardState, ss: seq<Sample>)
    ensures Run(g, ss).Continue? ==>
      Run(g, ss).state.bytes == Run(g, ss).state.lastTraffic - DayOrigin(g.date, g.lastTraffic, g.lastTraffic - g.bytes, ss)
    decreases |ss|
  {
    if ss != [] {
      match Step(g, ss[0])
      case Continue(g') =>
        DailyTotalTelescopes(g', ss[1..]);
        assert g'.lastTraffic - g'.bytes == if ss[0].today != g.date then g.lastTraffic else g.lastTraffic - g.bytes;
      case Halt(_, _) =>
    }
  }

  /** All addresses listed by the samples. */
  function ListedIps(ss: seq<Sample>): set<string>
    decreases |ss|
  {
    if ss == [] then {} else Elements(ss[0].activeIps) + ListedIps(ss[1..])
  }

  predicate SameDay(date: int, ss: seq<Sample>) {
    forall i :: 0 <= i < |ss| ==> ss[i].today == date
  }

  /**
   * Within one day the address set only grows, and a run that goes on holds
   * exactly the addresses it started with plus every address listed since.
   */
  lemma {:induction false} DailyIpsAccumulate(g: GuardState, ss: seq<Sample>)
    requires SameDay(g.date, ss)
    ensures g.ips <= Run(g, ss).state.ips
    ensures Run(g, ss).Continue? ==> Run(g, ss).state.ips == g.ips + ListedIps(ss)
    decreases |ss|
  {
    if ss != [] {
      assert ss[0].today == g.date;
      match Step(g, ss[0])
      case Continue(g') =>
        assert SameDay(g'.date, ss[1..]) by {
          forall i | 0 <= i < |ss[1..]| ensures ss[1..][i].today == g'.date {
            assert ss[1..][i] == ss[i + 1];
          }
        }
        DailyIpsAccumulate(g', ss[1..]);
      case Halt(_, _) =>
    }
  }

  /** More than MAX_DAILY_UNIQUE_IPS distinct addresses within one day always end in a shutdown. */
  lemma TooManyAddressesHalt(g: GuardState, ss: seq<Sample>)
    requires SameDay(g.date, ss)
    requires WithinLimits(g) && TooManyIps(g.ips + ListedIps(ss))
    ensures Run(g, ss).Halt?
  {
    DailyIpsAccumulate(g, ss);
    RunWithinLimits(g, ss);
  }

  // ---------------------------------------------------------------------------
  // Throttle state machine over many ticks

  /** The sample before sample `i`, the baseline `last` for the first. */
  function PrevTraffic(last: nat, ss: seq<Sample>, i: nat): nat
    requires i < |ss|
  {
    if i == 0 then last else ss[i - 1].traffic
  }

  /** Every tick of `ss` runs above the trigger rate. */
  predicate AllHigh(last: nat, ss: seq<Sample>) {
    forall i :: 0 <= i < |ss| ==> HighRate(ss[i].traffic - PrevTraffic(last, ss, i))
  }

  lemma AllHighPrefix(last: nat, ss: seq<Sample>, k: nat)
    requires AllHigh(last, ss) && k <= |ss|
    ensures AllHigh(last, ss[..k])
  {
    forall i | 0 <= i < k ensures HighRate(ss[..k][i].traffic - PrevTraffic(last, ss[..k], i)) {
      assert PrevTraffic(last, ss[..k], i) == PrevTraffic(last, ss, i);
    }
  }

  /** One high tick in Normal below the trigger: still Normal, and the counter grows by one if the tick goes on. */
  lemma HighTickCounts(g: GuardState, s: Sample)
    requires g.mode == Normal && HighRate(s.traffic - g.lastTraffic) && g.highLoad + 1 < TRIGGER_DURATION
    ensures Step(g, s).state.mode == Normal
    ensures Step(g, s).Continue? ==> Step(g, s).state.highLoad == g.highLoad + 1
  {
  }

  /** One low tick in Normal: still Normal, and the counter is zero if the tick goes on. */
  lemma LowTickResets(g: GuardState, s: Sample)
    requires g.mode == Normal && !HighRate(s.traffic - g.lastTraffic)
    ensures Step(g, s).state.mode == Normal
    ensures Step(g, s).Continue? ==> Step(g, s).state.highLoad == 0
  {
  }

  /** The state after `front` and one more sample whose rate is measured against the last sample of `front`. */
  lemma LastTick(g: GuardState, ss: seq<Sample>) returns (front: seq<Sample>, prev: Verdict)
    requires ss != []
    ensures front == ss[..|ss| - 1] && ss == front + [ss[|ss| - 1]] && prev == Run(g, front)
    ensures Run(g, ss) == if prev.Halt? then prev else Step(prev.state, ss[|ss| - 1])
    ensures prev.Continue? ==> prev.state.lastTraffic == PrevTraffic(g.lastTraffic, ss, |ss| - 1)
  {
    front := ss[..|ss| - 1];
    prev := Run(g, front);
    assert ss == front + [ss[|ss| - 1]];
    RunAppend(g, front, ss[|ss| - 1]);
    RunLastTraffic(g, front);
  }

  /**
   * Fewer high ticks than it takes to reach the trigger keep the machine
   * Normal; while the run goes on the counter has grown by one per tick.
   */
  lemma {:induction false} SustainedLoadCounts(g: GuardState, ss: seq<Sample>)
    requires g.mode == Normal && AllHigh(g.lastTraffic, ss)
    requires g.highLoad + |ss| < TRIGGER_DURATION
    ensures Run(g, ss).state.mode == Normal
    ensures Run(g, ss).Continue? ==> Run(g, ss).state.highLoad == g.highLoad + |ss|
    decreases |ss|
  {
    if ss != [] {
      var front, prev := LastTick(g, ss);
      AllHighPrefix(g.lastTraffic, ss, |front|);
      SustainedLoadCounts(g, front);
      if prev.Continue? {
        HighTickCounts(prev.state, ss[|ss| - 1]);
      }
    }
  }

  /** Every state a run over a prefix of an all-high burst below the trigger reaches is Normal. */
  lemma BurstPrefixesNormal(g: GuardState, ss: seq<Sample>)
    requires g.mode == Normal && AllHigh(g.lastTraffic, ss)
    requires g.highLoad + |ss| < TRIGGER_DURATION
    ensures forall k :: 0 <= k <= |ss| ==> Run(g, ss[..k]).state.mode == Normal
  {
    forall k | 0 <= k <= |ss| ensures Run(g, ss[..k]).state.mode == Normal {
      AllHighPrefix(g.lastTraffic, ss, k);
      SustainedLoadCounts(g, ss[..k]);
    }
  }

  /**
   * Sustained load throttles exactly on the tick the counter reaches
   * TRIGGER_DURATION: every earlier state is Normal, and on that tick the
   * interface drops to the punishment speed for PUNISH_DURATION seconds.
   */
  lemma SustainedLoadThrottles(g: GuardState, ss: seq<Sample>)
    requires g.mode == Normal && AllHigh(g.lastTraffic, ss)
    requires ss != [] && g.highLoad + |ss| == TRIGGER_DURATION
    ensures forall k :: 0 <= k < |ss| ==> Run(g, ss[..k]).state.mode == Normal
    ensures Run(g, ss).Continue? ==>
      var r := Run(g, ss).state;
      r.mode == Throttled && r.punishEnd == ss[|ss| - 1].now + PUNISH_DURATION &&
      r.shaper == TbfAt(THROTTLE_SPEED_LIMIT) && r.highLoad == TRIGGER_DURATION
  {
    var front, prev := LastTick(g, ss);
    AllHighPrefix(g.lastTraffic, ss, |front|);
    BurstPrefixesNormal(g, front);
    forall k | 0 <= k < |ss| ensures Run(g, ss[..k]).state.mode == Normal {
      assert ss[..k] == front[..k];
    }
    SustainedLoadCounts(g, front);
  }

  /**
   * A burst one tick short of the trigger, followed by a tick at or below the
   * trigger rate, never throttles and leaves the counter at zero.
   */
  lemma ShortBurstNeverThrottles(g: GuardState, ss: seq<Sample>)
    requires g.mode == Normal && ss != [] && g.highLoad + |ss| <= TRIGGER_DURATION
    requires AllHigh(g.lastTraffic, ss[..|ss| - 1])
    requires !HighRate(ss[|ss| - 1].traffic - PrevTraffic(g.lastTraffic, ss, |ss| - 1))
    ensures forall k :: 0 <= k <= |ss| ==> Run(g, ss[..k]).state.mode == Normal
    ensures Run(g, ss).Continue? ==> Run(g, ss).state.highLoad == 0
  {
    var front, prev := LastTick(g, ss);
    BurstPrefixesNormal(g, front);
    SustainedLoadCounts(g, front);
    if prev.Continue? {
      LowTickResets(prev.state, ss[|ss| - 1]);
    }
    forall k | 0 <= k <= |ss| ensures Run(g, ss[..k]).state.mode == Normal {
      if k < |ss| {
        assert ss[..k] == front[..k];
      } else {
        assert ss[..k] == ss;
      }
    }
  }

  /** Every sample of `ss` comes before the end of the punishment. */
  predicate BeforeEnd(end: int, ss: seq<Sample>) {
    forall i :: 0 <= i < |ss| ==> ss[i].now < end
  }

  /**
   * During the punishment window nothing about throttling changes, whatever
   * the rates: mode, counter, end time and the installed shaper stay put.
   */
  lemma {:induction false} PunishmentHolds(g: GuardState, ss: seq<Sample>)
    requires g.mode == Throttled && BeforeEnd(g.punishEnd, ss)
    ensures WithDaily(g, Run(g, ss).state) == Run(g, ss).state
    decreases |ss|
  {
    if ss != [] {
      var n := |ss| - 1;
      var front := ss[..n];
      assert ss == front + [ss[n]];
      assert BeforeEnd(g.punishEnd, front) by {
        forall i | 0 <= i < |front| ensures front[i].now < g.punishEnd { assert front[i] == ss[i]; }
      }
      PunishmentHolds(g, front);
      RunAppend(g, front, ss[n]);
    }
  }

  /**
   * The first tick at or after the end of the punishment restores full
   * bandwidth, returns to Normal and zeroes the counter.
   */
  lemma PunishmentEnds(g: GuardState, ss: seq<Sample>)
    requires g.mode == Throttled && ss != []
    requires BeforeEnd(g.punishEnd, ss[..|ss| - 1]) && ss[|ss| - 1].now >= g.punishEnd
    ensures Run(g, ss).Continue? ==>
      var r := Run(g, ss).state;
      r.mode == Normal && r.highLoad == 0 && r.shaper == TbfAt(MAX_SPEED_LIMIT)
  {
    var n := |ss| - 1;
    var front := ss[..n];
    assert ss == front + [ss[n]];
    PunishmentHolds(g, front);
    RunAppend(g, front, ss[n]);
  }
}

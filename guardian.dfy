/**
 * The guardian object: its fields are updated in place each iteration, the
 * host's packet filter and queueing discipline are ghost fields that only its
 * enforcement methods touch, and MainLoop drives Tick over the samples the
 * host produces.
 */
module Guardian {
  import opened Config
  import opened Enforcement
  import opened Policy
  import opened Runs

  /** Whether the guardian still runs or has shut the host down (and exited). */
  datatype Status = Active | ShutDown(reason: Reason)

  function StatusOf(v: Verdict): Status {
    if v.Halt? then ShutDown(v.reason) else Active
  }

  /** The union of the address lists in `lists`. */
  function UnionOf(lists: seq<seq<string>>): set<string>
    decreases |lists|
  {
    if lists == [] then {} else UnionOf(lists[..|lists| - 1]) + Elements(lists[|lists| - 1])
  }

  class ServerGuardian {
    var currentState: Mode
    var highLoadDuration: nat
    var punishEndTime: int
    var dailyIps: set<string>
    var dailyTrafficBytes: int
    var lastCheckDate: int
    /** The previous byte sample (a local of the loop, kept here because Tick is one iteration of it). */
    var lastTraffic: nat
    /** Set once shutdown_server has run: nothing changes after that. */
    var status: Status

    /** The root queueing discipline of the interface. */
    ghost var shaper: Shaper
    /** The INPUT chain of the packet filter. */
    ghost var inputChain: seq<Rule>
    /** The byte sample today's total is measured from. */
    ghost var dayOrigin: int
    /** The address lists absorbed since the last rollover. */
    ghost var dayLists: seq<seq<string>>

    ghost function State(): GuardState
      reads this
    {
      GuardState(currentState, highLoadDuration, punishEndTime, dailyIps, dailyTrafficBytes,
                 lastCheckDate, lastTraffic, shaper)
    }

    /**
     * The object invariant: the throttle invariant; today's total is the
     * latest sample minus the day's origin; the address set is the union of
     * today's lists; the guard rule is installed; and while the guardian runs
     * neither daily ceiling is exceeded.
     */
    ghost predicate Valid()
      reads this
    {
      && ThrottleInv(State())
      && dailyTrafficBytes == lastTraffic - dayOrigin
      && dailyIps == UnionOf(dayLists)
      && Count(inputChain, GUARD_RULE) >= 1
      && (status == Active ==> WithinLimits(State()))
    }

    /** The fields as the object is built, on a host whose chain and qdisc are as given. */
    constructor (today: int, ghost chain: seq<Rule>, ghost qdisc: Shaper)
      ensures State() == GuardState(Normal, 0, 0, {}, 0, today, 0, qdisc)
      ensures status == Active && inputChain == chain && dayOrigin == 0 && dayLists == []
    {
      punishEndTime := 0;
      highLoadDuration := 0;
      currentState := Normal;
      dailyIps := {};
      dailyTrafficBytes := 0;
      lastCheckDate := today;
      lastTraffic := 0;
      status := Active;
      shaper := qdisc;
      inputChain := chain;
      dayOrigin := 0;
      dayLists := [];
    }

    /**
     * Delete the guard rule if present, then append it: the chain ends with the
     * guard rule, keeps its number of copies but at least one, and keeps every
     * other rule.
     */
    method InitIptables()
      modifies this`inputChain
      ensures |inputChain| > 0 && inputChain[|inputChain| - 1] == GUARD_RULE
      ensures multiset(inputChain) == multiset(old(inputChain)) - multiset{GUARD_RULE} + multiset{GUARD_RULE}
      ensures Count(inputChain, GUARD_RULE) == if Count(old(inputChain), GUARD_RULE) == 0 then 1 else Count(old(inputChain), GUARD_RULE)
    {
      inputChain := DeleteRule(inputChain, GUARD_RULE);
      inputChain := inputChain + [GUARD_RULE];
    }

    /** Replace whatever shaper is installed by a token bucket filter at `speedMbit`. */
    method SetTcSpeed(speedMbit: nat)
      modifies this`shaper
      ensures shaper == TbfAt(speedMbit)
    {
      shaper := QdiscDel(shaper);
      shaper := QdiscAdd(shaper, TbfAt(speedMbit));
    }

    /** The shutdown: terminal, recorded with its reason. */
    method ShutdownServer(reason: Reason)
      modifies this`status
      ensures status == ShutDown(reason)
    {
      status := ShutDown(reason);
    }

    /** Startup: install the connection limit, open the interface fully and take the baseline sample. */
    method Start(baseline: nat)
      requires State() == GuardState(Normal, 0, 0, {}, 0, lastCheckDate, lastTraffic, shaper)
      requires status == Active && dayLists == []
      modifies this
      ensures Valid()
      ensures State() == Boot(old(lastCheckDate), baseline)
      ensures status == Active && dayOrigin == baseline && dayLists == []
      ensures multiset(inputChain) == multiset(old(inputChain)) - multiset{GUARD_RULE} + multiset{GUARD_RULE}
      ensures Count(inputChain, GUARD_RULE) == if Count(old(inputChain), GUARD_RULE) == 0 then 1 else Count(old(inputChain), GUARD_RULE)
    {
      InitIptables();
      SetTcSpeed(MAX_SPEED_LIMIT);
      lastTraffic := baseline;
      dayOrigin := baseline;
    }

    /** On a new day, forget the addresses and the total; the day now counts from the current sample. */
    method CheckDailyReset(today: int)
      modifies this`dailyIps, this`dailyTrafficBytes, this`lastCheckDate, this`dayOrigin, this`dayLists
      ensures State() == Rollover(old(State()), today)
      ensures today != old(lastCheckDate) ==> dayOrigin == lastTraffic && dayLists == []
      ensures today == old(lastCheckDate) ==> dayOrigin == old(dayOrigin) && dayLists == old(dayLists)
    {
      if today != lastCheckDate {
        dailyIps := {};
        dailyTrafficBytes := 0;
        lastCheckDate := today;
        dayOrigin := lastTraffic;
        dayLists := [];
      }
    }

    /** Add the byte delta against the previous sample to today's total, keep the sample, and return the delta. */
    method AccountTraffic(currentTraffic: nat) returns (diffTraffic: int)
      modifies this`lastTraffic, this`dailyTrafficBytes
      ensures diffTraffic == currentTraffic - old(lastTraffic)
      ensures State() == Account(old(State()), currentTraffic)
    {
      diffTraffic := currentTraffic - lastTraffic;
      lastTraffic := currentTraffic;
      dailyTrafficBytes := dailyTrafficBytes + diffTraffic;
    }

    /** Add every listed address to today's set, one at a time. */
    method AbsorbActiveIps(activeIps: seq<string>)
      modifies this`dailyIps, this`dayLists
      ensures State() == AbsorbIps(old(State()), activeIps)
      ensures dayLists == old(dayLists) + [activeIps]
    {
      for i := 0 to |activeIps|
        invariant dailyIps == old(dailyIps) + Elements(activeIps[..i])
        invariant dayLists == old(dayLists)
      {
        assert activeIps[..i + 1] == activeIps[..i] + [activeIps[i]];
        dailyIps := dailyIps + {activeIps[i]};
      }
      assert activeIps[..|activeIps|] == activeIps;
      dayLists := dayLists + [activeIps];
    }

    /** The throttle state machine for one tick, given its byte delta and the clock. */
    method AdvanceThrottle(diffTraffic: int, now: int)
      modifies this`currentState, this`highLoadDuration, this`punishEndTime, this`shaper
      ensures State() == Throttle(old(State()), diffTraffic, now)
    {
      if currentState == Throttled {
        var remaining := punishEndTime - now;
        if remaining <= 0 {
          SetTcSpeed(MAX_SPEED_LIMIT);
          currentState := Normal;
          highLoadDuration := 0;
        }
      } else {
        if HighRate(diffTraffic) {
          highLoadDuration := highLoadDuration + 1;
          if highLoadDuration >= TRIGGER_DURATION {
            SetTcSpeed(THROTTLE_SPEED_LIMIT);
            currentState := Throttled;
            punishEndTime := now + PUNISH_DURATION;
          }
        } else {
          highLoadDuration := 0;
        }
      }
    }

    /**
     * One iteration of the main loop on a running guardian: the new state and
     * the outcome are those of Step, the invariant is kept, the day's origin
     * moves to the previous sample on a rollover, and the packet filter is not
     * touched.
     */
    method TickRunning(s: Sample) returns (outcome: Status)
      requires Valid() && status == Active
      modifies this
      ensures Valid() && outcome == status
      ensures State() == Step(old(State()), s).state
      ensures status == StatusOf(Step(old(State()), s))
      ensures inputChain == old(inputChain)
      ensures dayOrigin == if s.today != old(lastCheckDate) then old(lastTraffic) else old(dayOrigin)
    {
      ghost var g := State();
      StepKeepsInvariant(g, s);
      CheckDailyReset(s.today);
      var diffTraffic := AccountTraffic(s.traffic);
      if OverTraffic(dailyTrafficBytes) {
        ShutdownServer(TrafficExceeded(dailyTrafficBytes));
        return status;
      }
      outcome := AbsorbAndThrottle(g, s, diffTraffic);
    }

    /**
     * The rest of an iteration once the traffic test has passed: absorb the
     * listed addresses, apply the address test, and step the throttle
     * machine. The result is that of Step from the state `g` the iteration
     * started in.
     */
    method AbsorbAndThrottle(ghost g: GuardState, s: Sample, diffTraffic: int) returns (outcome: Status)
      requires ThrottleInv(g) && status == Active
      requires State() == Account(Rollover(g, s.today), s.traffic) && !OverTraffic(dailyTrafficBytes)
      requires diffTraffic == s.traffic - g.lastTraffic
      requires dailyTrafficBytes == lastTraffic - dayOrigin && dailyIps == UnionOf(dayLists)
      requires Count(inputChain, GUARD_RULE) >= 1
      modifies this
      ensures Valid() && outcome == status
      ensures State() == Step(g, s).state && status == StatusOf(Step(g, s))
      ensures inputChain == old(inputChain) && dayOrigin == old(dayOrigin)
    {
      StepKeepsInvariant(g, s);
      ghost var lists := dayLists;
      AbsorbActiveIps(s.activeIps);
      assert dayLists[..|dayLists| - 1] == lists;
      if TooManyIps(dailyIps) {
        ShutdownServer(UniqueIpsExceeded(|dailyIps|));
        return status;
      }
      AdvanceThrottle(diffTraffic, s.now);
      outcome := status;
    }

    /**
     * One iteration of the main loop. A guardian that has shut down changes
     * nothing; a running one takes the step of TickRunning.
     */
    method Tick(s: Sample) returns (outcome: Status)
      requires Valid()
      modifies this
      ensures Valid() && outcome == status
      ensures old(status).ShutDown? ==> unchanged(this)
      ensures old(status) == Active ==>
        && State() == Step(old(State()), s).state
        && status == StatusOf(Step(old(State()), s))
        && inputChain == old(inputChain)
        && dayOrigin == if s.today != old(lastCheckDate) then old(lastTraffic) else old(dayOrigin)
    {
      if status.ShutDown? {
        return status;
      }
      outcome := TickRunning(s);
    }
  }

  /** The loop may leave early: once the run over a prefix has shut down, it is the whole run. */
  lemma RunStopsEarly(start: GuardState, samples: seq<Sample>, i: nat)
    requires i <= |samples| && (i < |samples| ==> Run(start, samples[..i]).Halt?)
    ensures Run(start, samples[..i]) == Run(start, samples)
  {
    if i < |samples| {
      assert samples == samples[..i] + samples[i..];
      HaltIsFinal(start, samples[..i], samples[i..]);
    } else {
      assert samples[..i] == samples;
    }
  }

  /** One pass of the loop: a tick on a running guardian extends the run by one sample. */
  method DriveOne(guardian: ServerGuardian, ghost start: GuardState, ghost done: seq<Sample>, s: Sample)
    returns (outcome: Status)
    requires guardian.Valid() && guardian.status == Active
    requires guardian.State() == Run(start, done).state && Run(start, done).Continue?
    modifies guardian
    ensures guardian.Valid() && outcome == guardian.status
    ensures guardian.State() == Run(start, done + [s]).state
    ensures outcome == StatusOf(Run(start, done + [s]))
    ensures guardian.inputChain == old(guardian.inputChain)
  {
    RunAppend(start, done, s);
    outcome := guardian.Tick(s);
  }

  /**
   * The loop of main_loop over a bounded stream of samples: call Tick until
   * the samples run out or the guardian shuts the host down. The final state
   * and outcome are those of Run from the state the loop started in.
   */
  method Drive(guardian: ServerGuardian, ghost start: GuardState, samples: seq<Sample>) returns (outcome: Status)
    requires guardian.Valid() && guardian.status == Active && guardian.State() == start
    modifies guardian
    ensures guardian.Valid()
    ensures guardian.State() == Run(start, samples).state
    ensures outcome == StatusOf(Run(start, samples)) && outcome == guardian.status
    ensures guardian.inputChain == old(guardian.inputChain)
  {
    outcome := Active;
    var i := 0;
    ghost var done: seq<Sample> := [];
    while i < |samples| && outcome == Active
      invariant 0 <= i <= |samples| && done == samples[..i]
      invariant guardian.Valid() && outcome == guardian.status
      invariant guardian.State() == Run(start, done).state
      invariant outcome == StatusOf(Run(start, done))
      invariant guardian.inputChain == old(guardian.inputChain)
    {
      outcome := DriveOne(guardian, start, done, samples[i]);
      done := done + [samples[i]];
      i := i + 1;
    }
    RunStopsEarly(start, samples, i);
  }

  /**
   * The whole program on a bounded stream of samples: build the guardian,
   * start it, and drive it over the samples. The final state and outcome are
   * those of Run from the startup state, and the chain holds the guard rule.
   */
  method MainLoop(today: int, ghost chain: seq<Rule>, ghost qdisc: Shaper, baseline: nat, samples: seq<Sample>)
    returns (guardian: ServerGuardian, outcome: Status)
    ensures guardian.Valid()
    ensures guardian.State() == Run(Boot(today, baseline), samples).state
    ensures outcome == StatusOf(Run(Boot(today, baseline), samples)) && outcome == guardian.status
    ensures multiset(guardian.inputChain) == multiset(chain) - multiset{GUARD_RULE} + multiset{GUARD_RULE}
    ensures Count(guardian.inputChain, GUARD_RULE) == if Count(chain, GUARD_RULE) == 0 then 1 else Count(chain, GUARD_RULE)
  {
    guardian := new ServerGuardian(today, chain, qdisc);
    guardian.Start(baseline);
    outcome := Drive(guardian, Boot(today, baseline), samples);
  }
}

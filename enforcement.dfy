/**
 * The host's network policy as the guardian changes it: the INPUT chain of the
 * packet filter (changed by `iptables -D` and `iptables -A`) and the root
 * queueing discipline of the interface (changed by `tc qdisc del` and
 * `tc qdisc add`). Every command's failure is swallowed, so a failing command
 * is modelled as one that leaves its target unchanged.
 */
module Enforcement {
  import opened Config

  /** A rule of the INPUT chain. */
  datatype Rule =
    | ConnLimitReject(above: nat)   // reject TCP SYNs from a source with more than `above` connections
    | OtherRule(spec: string)       // any rule someone else installed

  /** The one rule the guardian manages. */
  const GUARD_RULE: Rule := ConnLimitReject(MAX_CONCURRENT_IPS)

  /** Copies of `r` in the chain. */
  function Count(chain: seq<Rule>, r: Rule): nat {
    multiset(chain)[r]
  }

  /** The position of the first copy of `r` in the chain. */
  function FirstIndex(chain: seq<Rule>, r: Rule): (k: nat)
    requires r in chain
    ensures k < |chain| && chain[k] == r && r !in chain[..k]
  {
    if chain[0] == r then 0
    else
      assert chain == [chain[0]] + chain[1..];
      var k := FirstIndex(chain[1..], r) + 1;
      assert chain[..k] == [chain[0]] + chain[1..][..k - 1];
      k
  }

  /**
   * `iptables -D INPUT <r>`: removes the first rule equal to `r`, the rules
   * around it keeping their order; when there is none the command fails and
   * the chain is left as it was.
   */
  function DeleteRule(chain: seq<Rule>, r: Rule): (c: seq<Rule>)
    ensures multiset(c) == multiset(chain) - multiset{r}
    ensures r !in chain ==> c == chain
    ensures r in chain ==> |c| == |chain| - 1
  {
    if r in chain then
      var k := FirstIndex(chain, r);
      assert chain == chain[..k] + [r] + chain[k + 1..];
      chain[..k] + chain[k + 1..]
    else
      chain
  }

  /**
   * init_iptables: delete the guard rule if present, then append it.
   * The chain afterwards ends with the guard rule, holds as many copies of it
   * as before but at least one, and every other rule as often as before
   * (one copy taken out if there was one, one put back).
   */
  function InstallConnLimit(chain: seq<Rule>): (c: seq<Rule>)
    ensures |c| > 0 && c[|c| - 1] == GUARD_RULE
    ensures Count(c, GUARD_RULE) == if Count(chain, GUARD_RULE) == 0 then 1 else Count(chain, GUARD_RULE)
    ensures multiset(c) == multiset(chain) - multiset{GUARD_RULE} + multiset{GUARD_RULE}
  {
    DeleteRule(chain, GUARD_RULE) + [GUARD_RULE]
  }

  /**
   * In order: the first copy of the guard rule (if any) is taken out where it
   * stood, every other rule keeps its position relative to the rest, and the
   * guard rule goes to the end of the chain.
   */
  lemma InstallConnLimitPositions(chain: seq<Rule>)
    ensures GUARD_RULE in chain ==>
      InstallConnLimit(chain) == chain[..FirstIndex(chain, GUARD_RULE)] + chain[FirstIndex(chain, GUARD_RULE) + 1..] + [GUARD_RULE]
    ensures GUARD_RULE !in chain ==> InstallConnLimit(chain) == chain + [GUARD_RULE]
  {
  }

  /** Installing from a chain with at most one copy leaves exactly one, and doing it again changes no count. */
  lemma InstallConnLimitIdempotent(chain: seq<Rule>)
    requires Count(chain, GUARD_RULE) <= 1
    ensures Count(InstallConnLimit(chain), GUARD_RULE) == 1
    ensures multiset(InstallConnLimit(InstallConnLimit(chain))) == multiset(InstallConnLimit(chain))
  {
    var once := InstallConnLimit(chain);
    var twice := InstallConnLimit(once);
    forall r ensures multiset(twice)[r] == multiset(once)[r] {
      assert Count(twice, r) == Count(once, r);
    }
  }

  /** The root queueing discipline of the interface. */
  datatype Shaper =
    | DefaultQdisc                                     // the kernel's default, nothing installed
    | Tbf(rateMbit: nat, burstKbit: nat, latencyMs: nat) // a token bucket filter

  /** The filter set_tc_speed installs for a given rate. */
  function TbfAt(speedMbit: nat): Shaper {
    Tbf(speedMbit, TBF_BURST_KBIT, TBF_LATENCY_MS)
  }

  /** `tc qdisc del dev <if> root`: back to the default; fails harmlessly when nothing is installed. */
  function QdiscDel(q: Shaper): Shaper {
    DefaultQdisc
  }

  /**
   * `tc qdisc add dev <if> root tbf …`: refused (and the refusal swallowed) when a
   * filter is already installed. SetTcSpeed always deletes first, so that branch
   * is never taken from it; it is the reason the deletion is there.
   */
  function QdiscAdd(q: Shaper, t: Shaper): Shaper {
    if q == DefaultQdisc then t else q
  }

  /** set_tc_speed: whatever was installed before, the interface ends up capped at `speedMbit`. */
  function SetTcSpeed(q: Shaper, speedMbit: nat): (r: Shaper)
    ensures r == TbfAt(speedMbit)
  {
    QdiscAdd(QdiscDel(q), TbfAt(speedMbit))
  }
}

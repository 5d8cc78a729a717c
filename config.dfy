/** The guardian's configuration: constants read once, never changed while it runs. */
module Config {

  /** Per-source cap on concurrent connections enforced by the packet-filter rule. */
  const MAX_CONCURRENT_IPS: nat := 8

  /** Daily unique-address ceiling: more distinct addresses than this in one day shut the host down. */
  const MAX_DAILY_UNIQUE_IPS: nat := 15

  /** Bandwidth ceiling in mbit/s outside punishment. */
  const MAX_SPEED_LIMIT: nat := 150

  /** Bandwidth ceiling in mbit/s during punishment. */
  const THROTTLE_SPEED_LIMIT: nat := 60

  /** A tick whose throughput is above this many mbit/s counts as high load. */
  const TRIGGER_SPEED: nat := 100

  /** Consecutive high-load ticks that start a punishment. */
  const TRIGGER_DURATION: nat := 10

  /** Length of a punishment window, in seconds of the wall clock. */
  const PUNISH_DURATION: nat := 900

  /** Daily traffic ceiling in GiB: a larger total shuts the host down. */
  const MAX_DAILY_TRAFFIC: nat := 100

  /** Burst allowance and queueing latency of every token bucket filter installed. */
  const TBF_BURST_KBIT: nat := 32
  const TBF_LATENCY_MS: nat := 400

  /** The divisors of the two floating-point tests: bytes per mebibyte and per gibibyte. */
  const MIB: nat := 1024 * 1024
  const GIB: nat := 1024 * 1024 * 1024
}

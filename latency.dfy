/**
 * The simulated backend latency: a delay drawn uniformly from whole
 * milliseconds between a minimum and a maximum, clamped into that range.
 * The random draw is a parameter `u` in [0, 1), standing for `Math.random()`.
 */
module Latency {
  import opened Wrappers
  import Arith

  const DefaultMinMs: int := 120
  const DefaultMaxMs: int := 420

  /** Optional bounds; a missing one falls back to its default. */
  datatype LatencyOptions = LatencyOptions(minMs: Option<int>, maxMs: Option<int>)

  function MinOf(opts: Option<LatencyOptions>): int {
    if opts.Some? && opts.value.minMs.Some? then opts.value.minMs.value else DefaultMinMs
  }

  function MaxOf(opts: Option<LatencyOptions>): int {
    if opts.Some? && opts.value.maxMs.Some? then opts.value.maxMs.value else DefaultMaxMs
  }

  /** `floor(u * (max - min + 1)) + min`: a whole number in [min, max] when min <= max. */
  function RandomInt(min: int, max: int, u: real): (r: int)
    requires 0.0 <= u < 1.0
    ensures min <= max ==> min <= r <= max
  {
    FloorBounds(u, max - min + 1);
    (u * (max - min + 1) as real).Floor + min
  }

  /** The draw scaled by a positive whole number stays below it. */
  lemma FloorBounds(u: real, k: int)
    requires 0.0 <= u < 1.0
    ensures k >= 1 ==> 0 <= (u * k as real).Floor < k
  {
    if k >= 1 {
      var x := u * k as real;
      assert 0.0 <= x < k as real;
    }
  }

  /** `Math.max(minMs, Math.min(maxMs, randomInt(minMs, maxMs)))`. */
  function Delay(opts: Option<LatencyOptions>, u: real): (d: int)
    requires 0.0 <= u < 1.0
    ensures d >= MinOf(opts)
    ensures MinOf(opts) <= MaxOf(opts) ==> d <= MaxOf(opts)
    ensures MinOf(opts) <= MaxOf(opts) ==> d == RandomInt(MinOf(opts), MaxOf(opts), u)
    ensures MinOf(opts) > MaxOf(opts) ==> d == MinOf(opts)
  {
    var lo, hi := MinOf(opts), MaxOf(opts);
    var r := RandomInt(lo, hi, u);
    var capped := if hi < r then hi else r;
    if lo < capped then capped else lo
  }

  /** Every delay is a possible outcome: the draw `(d - min) / (max - min + 1)` yields `d`. */
  lemma EveryDelayReachable(opts: Option<LatencyOptions>, d: int)
    requires MinOf(opts) <= d <= MaxOf(opts)
    ensures var u := (d - MinOf(opts)) as real / (MaxOf(opts) - MinOf(opts) + 1) as real;
      0.0 <= u < 1.0 && Delay(opts, u) == d
  {
    var lo, hi := MinOf(opts), MaxOf(opts);
    var k := (hi - lo + 1) as real;
    var u := (d - lo) as real / k;
    Arith.QuotientBounds((d - lo) as real, k);
    assert u * k == (d - lo) as real;
  }

  /** With no options the delay lies between 120 and 420 ms. */
  lemma DefaultDelayBounds(u: real)
    requires 0.0 <= u < 1.0
    ensures 120 <= Delay(None, u) <= 420
  {
  }
}

/**
  A wave is the set of curve parameters of one animated line: four horizontal
  control coordinates, two vertical offsets and the line spacing. This module
  holds the animation's constants, the ranges the random generators draw from,
  and the generators themselves (public/lines.js:36-91).

  `Math.random` is modelled as a nondeterministic choice of an integer in the
  generator's range; `Math.round` as `JsRound`.
*/
module Waves {
  import opened Wrappers

  const SPACE_BETWEEN_LINES: int := 6
  const NUMBER_OF_LINES: nat := 40
  const SVG_WIDTH: nat := 100

  datatype Wave = Wave(spaceBetweenLines: int, waveInterval: seq<int>, waveHeights: seq<int>)

  /** Every wave the animator builds: the fixed spacing, four intervals, two heights. */
  predicate WellFormed(w: Wave) {
    w.spaceBetweenLines == SPACE_BETWEEN_LINES && |w.waveInterval| == 4 && |w.waveHeights| == 2
  }

  /** `Math.round(num / den)`: the nearest integer, halves rounded towards +infinity. */
  function JsRound(num: int, den: int): (r: int)
    requires den > 0
    ensures 2 * den * r <= 2 * num + den < 2 * den * r + 2 * den
  {
    (2 * num + den) / (2 * den)
  }

  /** Lowest value `getOneWaveInterval(w, k)` can return. */
  function IntervalLow(w: nat, k: int): int
    requires 0 <= k < 4
  {
    match k
    case 0 => JsRound(-(w as int), 5)
    case 1 => 0
    case 2 => JsRound(w, 2)
    case 3 => 2 * w
  }

  /** Highest value `getOneWaveInterval(w, k)` can return. */
  function IntervalHigh(w: nat, k: int): int
    requires 0 <= k < 4
  {
    match k
    case 0 => 0
    case 1 => JsRound(w, 2)
    case 2 => w
    case 3 => 3 * w
  }

  /** Lowest value `getWaveHeight(w)` can return. */
  function HeightLow(w: nat): int {
    JsRound(-(w as int), 10)
  }

  /** Highest value `getWaveHeight(w)` can return. */
  function HeightHigh(w: nat): int {
    JsRound(4 * w, 10)
  }

  /**
    Every range is non-empty, and each interval range ends at or before the
    next one begins: ranges 0 and 1 meet at 0, ranges 1 and 2 meet at
    round(w/2), and range 3 starts at 2w, above range 2's end w.
  */
  lemma RangesChain(w: nat)
    ensures forall k :: 0 <= k < 4 ==> IntervalLow(w, k) <= IntervalHigh(w, k)
    ensures forall k :: 0 <= k < 3 ==> IntervalHigh(w, k) <= IntervalLow(w, k + 1)
    ensures HeightLow(w) <= 0 <= HeightHigh(w)
  {
  }

  /** The ranges at the width the animator uses. */
  lemma DefaultRanges()
    ensures IntervalLow(SVG_WIDTH, 0) == -20 && IntervalHigh(SVG_WIDTH, 0) == 0
    ensures IntervalLow(SVG_WIDTH, 1) == 0 && IntervalHigh(SVG_WIDTH, 1) == 50
    ensures IntervalLow(SVG_WIDTH, 2) == 50 && IntervalHigh(SVG_WIDTH, 2) == 100
    ensures IntervalLow(SVG_WIDTH, 3) == 200 && IntervalHigh(SVG_WIDTH, 3) == 300
    ensures HeightLow(SVG_WIDTH) == -10 && HeightHigh(SVG_WIDTH) == 40
  {
  }

  /** A wave whose every component lies in the range its generator draws from. */
  predicate InRanges(w: nat, wave: Wave) {
    WellFormed(wave) &&
    (forall k :: 0 <= k < 4 ==> IntervalLow(w, k) <= wave.waveInterval[k] <= IntervalHigh(w, k)) &&
    (forall j :: 0 <= j < 2 ==> HeightLow(w) <= wave.waveHeights[j] <= HeightHigh(w))
  }

  /** A wave within the generator ranges never folds back: its intervals are in order. */
  lemma InRangesOrdered(w: nat, wave: Wave)
    requires InRanges(w, wave)
    ensures wave.waveInterval[0] <= 0 <= wave.waveInterval[1]
    ensures wave.waveInterval[1] <= wave.waveInterval[2] <= wave.waveInterval[3]
  {
  }

  /** `getOneWaveInterval`: a random value for interval `k`; no value for any other `k`. */
  method OneWaveInterval(w: nat, k: int) returns (r: Option<int>)
    ensures r.Some? <==> 0 <= k < 4
    ensures r.Some? ==> IntervalLow(w, k) <= r.value <= IntervalHigh(w, k)
  {
    if 0 <= k < 4 {
      RangesChain(w);
      var lo, hi := IntervalLow(w, k), IntervalHigh(w, k);
      assert lo <= lo <= hi;
      var v :| lo <= v <= hi;
      r := Some(v);
    } else {
      // `getOneWaveInterval` in lines.js logs a diagnostic and returns undefined
      r := None;
    }
  }

  /** `getWaveHeight`: a random height. */
  method WaveHeight(w: nat) returns (h: int)
    ensures HeightLow(w) <= h <= HeightHigh(w)
  {
    RangesChain(w);
    var lo, hi := HeightLow(w), HeightHigh(w);
    assert lo <= lo <= hi;
    h :| lo <= h <= hi;
  }

  /** `getWaveIntervals`: four intervals, each from its own generator. */
  method WaveIntervals(w: nat) returns (intervals: seq<int>)
    ensures |intervals| == 4
    ensures forall k :: 0 <= k < 4 ==> IntervalLow(w, k) <= intervals[k] <= IntervalHigh(w, k)
  {
    intervals := [];
    for i := 0 to 4
      invariant |intervals| == i
      invariant forall k :: 0 <= k < i ==> IntervalLow(w, k) <= intervals[k] <= IntervalHigh(w, k)
    {
      var v := OneWaveInterval(w, i);
      intervals := intervals + [v.value];
    }
  }

  /** `getRandomWave`: a fresh well-formed wave with every component in range. */
  method RandomWave(w: nat) returns (wave: Wave)
    ensures InRanges(w, wave)
  {
    var intervals := WaveIntervals(w);
    var h0 := WaveHeight(w);
    var h1 := WaveHeight(w);
    wave := Wave(SPACE_BETWEEN_LINES, intervals, [h0, h1]);
  }
}

/**
  The step rule of `getNextStep` (public/lines.js:121-152) on values: every
  component of a wave moves one unit towards the same component of the target,
  or stays where it is once it has reached it. What happens to the target on
  arrival is stated by `TargetRefreshed`; the in-place update itself is
  `Animation.Animator.NextStep`.
*/
module Stepping {
  import opened Waves

  function Abs(x: int): nat {
    if x < 0 then -x else x
  }

  /** One component's step: one unit closer to `t`, or no move when already there. */
  function StepToward(c: int, t: int): (r: int)
    ensures c == t ==> r == c
    ensures c != t ==> Abs(r - c) == 1 && Abs(r - t) == Abs(c - t) - 1
  {
    if c > t then c - 1
    else if c < t then c + 1
    else c
  }

  /** Component-wise `StepToward` over two sequences of the same length. */
  function StepAll(cs: seq<int>, ts: seq<int>): seq<int>
    requires |cs| == |ts|
  {
    seq(|cs|, k requires 0 <= k < |cs| => StepToward(cs[k], ts[k]))
  }

  /** Two waves no component of which is more than one unit apart. */
  predicate Near(a: Wave, b: Wave) {
    WellFormed(a) && WellFormed(b) &&
    (forall k :: 0 <= k < 4 ==> Abs(a.waveInterval[k] - b.waveInterval[k]) <= 1) &&
    (forall j :: 0 <= j < 2 ==> Abs(a.waveHeights[j] - b.waveHeights[j]) <= 1)
  }

  /** The wave `getNextStep(wave, target, _)` returns. */
  function Step(wave: Wave, target: Wave): (r: Wave)
    requires WellFormed(wave) && WellFormed(target)
    ensures WellFormed(r) && Near(wave, r)
    ensures forall k :: 0 <= k < 4 ==>
      (r.waveInterval[k] == wave.waveInterval[k] <==> wave.waveInterval[k] == target.waveInterval[k])
    ensures forall j :: 0 <= j < 2 ==>
      (r.waveHeights[j] == wave.waveHeights[j] <==> wave.waveHeights[j] == target.waveHeights[j])
  {
    Wave(SPACE_BETWEEN_LINES,
         StepAll(wave.waveInterval, target.waveInterval),
         StepAll(wave.waveHeights, target.waveHeights))
  }

  /** Every component of a step that has not reached the target is one unit closer to it. */
  lemma StepCloser(wave: Wave, target: Wave)
    requires WellFormed(wave) && WellFormed(target)
    ensures forall k :: 0 <= k < 4 && wave.waveInterval[k] != target.waveInterval[k] ==>
      Abs(Step(wave, target).waveInterval[k] - target.waveInterval[k]) ==
      Abs(wave.waveInterval[k] - target.waveInterval[k]) - 1
    ensures forall j :: 0 <= j < 2 && wave.waveHeights[j] != target.waveHeights[j] ==>
      Abs(Step(wave, target).waveHeights[j] - target.waveHeights[j]) ==
      Abs(wave.waveHeights[j] - target.waveHeights[j]) - 1
  {
  }

  /** A step between two waves inside the generator ranges stays inside them. */
  lemma StepKeepsRanges(w: nat, wave: Wave, target: Wave)
    requires InRanges(w, wave) && InRanges(w, target)
    ensures InRanges(w, Step(wave, target))
  {
  }

  /**
    How `getNextStep` leaves the target: a component the wave has reached is
    replaced by a fresh value from that component's own generator; every other
    component, and the spacing, stay as they were.
  */
  predicate TargetRefreshed(w: nat, wave: Wave, before: Wave, after: Wave)
    requires WellFormed(wave) && WellFormed(before)
  {
    WellFormed(after) &&
    (forall k :: 0 <= k < 4 ==>
      if wave.waveInterval[k] == before.waveInterval[k]
      then IntervalLow(w, k) <= after.waveInterval[k] <= IntervalHigh(w, k)
      else after.waveInterval[k] == before.waveInterval[k]) &&
    (forall j :: 0 <= j < 2 ==>
      if wave.waveHeights[j] == before.waveHeights[j]
      then HeightLow(w) <= after.waveHeights[j] <= HeightHigh(w)
      else after.waveHeights[j] == before.waveHeights[j])
  }

  /** A refreshed target stays inside the generator ranges. */
  lemma RefreshKeepsRanges(w: nat, wave: Wave, before: Wave, after: Wave)
    requires WellFormed(wave) && InRanges(w, before)
    requires TargetRefreshed(w, wave, before, after)
    ensures InRanges(w, after)
  {
  }

  /** `n` steps of one component towards a target that does not move. */
  function StepTowardTimes(c: int, t: int, n: nat): int
    decreases n
  {
    if n == 0 then c else StepTowardTimes(StepToward(c, t), t, n - 1)
  }

  /** Each step shortens the distance to a fixed target by exactly one, down to zero. */
  lemma {:induction false} DistanceAfterSteps(c: int, t: int, n: nat)
    ensures Abs(StepTowardTimes(c, t, n) - t) == if n >= Abs(c - t) then 0 else Abs(c - t) - n
    decreases n
  {
    if n > 0 {
      DistanceAfterSteps(StepToward(c, t), t, n - 1);
    }
  }

  /** A component reaches a fixed target after exactly its distance in steps. */
  lemma ReachesTargetExactly(c: int, t: int, n: nat)
    ensures StepTowardTimes(c, t, n) == t <==> n >= Abs(c - t)
  {
    DistanceAfterSteps(c, t, n);
  }

  /** `n` steps of a whole wave towards a target that does not move. */
  function StepTimes(wave: Wave, target: Wave, n: nat): (r: Wave)
    requires WellFormed(wave) && WellFormed(target)
    ensures WellFormed(r)
    decreases n
  {
    if n == 0 then wave else StepTimes(Step(wave, target), target, n - 1)
  }

  /** Stepping a wave is stepping each of its components on its own. */
  lemma {:induction false} StepTimesComponents(wave: Wave, target: Wave, n: nat)
    requires WellFormed(wave) && WellFormed(target)
    ensures forall k :: 0 <= k < 4 ==>
      StepTimes(wave, target, n).waveInterval[k] == StepTowardTimes(wave.waveInterval[k], target.waveInterval[k], n)
    ensures forall j :: 0 <= j < 2 ==>
      StepTimes(wave, target, n).waveHeights[j] == StepTowardTimes(wave.waveHeights[j], target.waveHeights[j], n)
    decreases n
  {
    if n > 0 {
      StepTimesComponents(Step(wave, target), target, n - 1);
    }
  }

  function Max(a: nat, b: nat): nat {
    if a < b then b else a
  }

  /** The largest distance between a component of `wave` and that of `target`. */
  function Distance(wave: Wave, target: Wave): nat
    requires WellFormed(wave) && WellFormed(target)
  {
    var iv, tv := wave.waveInterval, target.waveInterval;
    var hs, th := wave.waveHeights, target.waveHeights;
    Max(Max(Max(Abs(iv[0] - tv[0]), Abs(iv[1] - tv[1])), Max(Abs(iv[2] - tv[2]), Abs(iv[3] - tv[3]))),
        Max(Abs(hs[0] - th[0]), Abs(hs[1] - th[1])))
  }

  /** Towards a target that does not move, a wave matches it after exactly `Distance` steps. */
  lemma WaveReachesTarget(wave: Wave, target: Wave, n: nat)
    requires WellFormed(wave) && WellFormed(target)
    ensures StepTimes(wave, target, n) == target <==> n >= Distance(wave, target)
  {
    StepTimesComponents(wave, target, n);
    var r := StepTimes(wave, target, n);
    forall k | 0 <= k < 4
      ensures r.waveInterval[k] == target.waveInterval[k] <==> n >= Abs(wave.waveInterval[k] - target.waveInterval[k])
    {
      ReachesTargetExactly(wave.waveInterval[k], target.waveInterval[k], n);
    }
    forall j | 0 <= j < 2
      ensures r.waveHeights[j] == target.waveHeights[j] <==> n >= Abs(wave.waveHeights[j] - target.waveHeights[j])
    {
      ReachesTargetExactly(wave.waveHeights[j], target.waveHeights[j], n);
    }
    if n >= Distance(wave, target) {
      assert r.waveInterval == target.waveInterval;
      assert r.waveHeights == target.waveHeights;
    }
  }
}

/**
  The animator's state and its in-place operations (public/lines.js:100-226):
  the queue of waves `allPaths`, the shared `targetWave` that `getNextStep`
  refreshes in place, the `d` attribute of every line element in `allWaves`,
  and the scheduling state `running`.

  Timers and animation frames are not modelled; `liveChains` counts the
  self-re-arming chains of ticks that `animate` has started and no `stop` has
  cancelled, which is what decides how fast the lines move.
*/
module Animation {
  import opened Waves
  import opened Stepping
  import opened Queue
  import opened PathText

  class Animator {
    /** `allPaths`: the wave of each line, oldest first. */
    var paths: seq<Wave>
    /** `targetWave`: the goal every step moves towards. */
    var target: Wave
    /** The `d` attribute of each line element, in the order of `allWaves`. */
    var lines: array<string>
    var running: bool
    var liveChains: nat

    /**
      One wave per line element; every wave and the target inside the
      generator ranges; neighbouring lines at most one unit apart.
    */
    ghost predicate Valid()
      reads this
    {
      lines.Length == |paths| == NUMBER_OF_LINES &&
      InRanges(SVG_WIDTH, target) && AllInRanges(SVG_WIDTH, paths) && Adjacent(paths)
    }

    /** Exactly one chain of ticks while running, none while stopped. */
    ghost predicate SingleChain()
      reads this
    {
      liveChains == if running then 1 else 0
    }

    /**
      Loading the script: create the line elements, draw a random current and
      target wave, build the queue by stepping the current wave once per line,
      draw it, start the animation, and stop it again when the page has a
      hover region.
    */
    constructor (hoverRegion: bool)
      ensures Valid() && fresh(lines)
      ensures running == !hoverRegion && SingleChain()
    {
      var elements := new string[NUMBER_OF_LINES](_ => "");
      var wave := RandomWave(SVG_WIDTH);
      var goal := RandomWave(SVG_WIDTH);
      lines, target, paths := elements, goal, [];
      running, liveChains := true, 0;
      new;
      ghost var froms, targets := BuildQueue(wave);
      PrintAllWaves();
      Animate();
      if hoverRegion {
        Stop();
      }
    }

    /**
      The start-up loop: starting from `wave`, the queue receives one step per
      line. Step i reads from `froms[i]`, which is `wave` for the first step
      and the wave appended before it otherwise, compares against the target
      `targets[i]` as that step found it, and leaves the target
      `targets[i + 1]` behind.
    */
    method BuildQueue(wave: Wave) returns (ghost froms: seq<Wave>, ghost targets: seq<Wave>)
      requires InRanges(SVG_WIDTH, wave) && InRanges(SVG_WIDTH, target) && paths == []
      modifies this`paths, this`target
      ensures |paths| == NUMBER_OF_LINES && |froms| == NUMBER_OF_LINES && froms[0] == wave
      ensures forall i {:trigger froms[i]} :: 0 < i < NUMBER_OF_LINES ==> froms[i] == paths[i - 1]
      ensures |targets| == NUMBER_OF_LINES + 1
      ensures targets[0] == old(target) && targets[NUMBER_OF_LINES] == target
      ensures AllInRanges(SVG_WIDTH, froms) && AllInRanges(SVG_WIDTH, targets)
      ensures forall i {:trigger froms[i]} :: 0 <= i < NUMBER_OF_LINES ==>
        paths[i] == Step(froms[i], targets[i]) &&
        TargetRefreshed(SVG_WIDTH, froms[i], targets[i], targets[i + 1])
      ensures AllInRanges(SVG_WIDTH, paths) && Adjacent(paths) && InRanges(SVG_WIDTH, target)
    {
      var current := wave;
      froms, targets := [], [target];
      for i := 0 to NUMBER_OF_LINES
        invariant |paths| == i && |froms| == i && |targets| == i + 1
        invariant InRanges(SVG_WIDTH, current) && InRanges(SVG_WIDTH, target)
        invariant AllInRanges(SVG_WIDTH, paths) && Adjacent(paths)
        invariant StepTrace(SVG_WIDTH, froms, paths, targets)
        invariant targets[0] == old(target) && targets[i] == target
        invariant i == 0 ==> current == wave
        invariant i > 0 ==> current == paths[i - 1] && froms[0] == wave
        invariant forall k {:trigger froms[k]} :: 0 < k < i ==> froms[k] == paths[k - 1]
      {
        ghost var before := target;
        var next := NextStep(current);
        StepKeepsRanges(SVG_WIDTH, current, before);
        RefreshKeepsRanges(SVG_WIDTH, current, before, target);
        AppendKeepsAdjacent(paths, next);
        StepTraceExtend(SVG_WIDTH, froms, paths, targets, current, next, target);
        froms := froms + [current];
        paths := paths + [next];
        targets := targets + [target];
        current := next;
      }
    }

    /**
      `getNextStep(wave, targetWave, _)`: the returned wave is one step from
      `wave` towards the target as it was; every component of the target that
      `wave` had reached is replaced by a fresh random value, the rest stay.
    */
    method NextStep(wave: Wave) returns (next: Wave)
      requires WellFormed(wave) && WellFormed(target)
      modifies this`target
      ensures next == Step(wave, old(target))
      ensures TargetRefreshed(SVG_WIDTH, wave, old(target), target)
    {
      var waveInterval := [0, 0, 0, 0];
      var waveHeights := [0, 0];
      for i := 0 to 4
        invariant |waveInterval| == 4 && WellFormed(target)
        invariant target.waveHeights == old(target).waveHeights
        invariant forall k :: 0 <= k < i ==>
          waveInterval[k] == StepToward(wave.waveInterval[k], old(target).waveInterval[k])
        invariant forall k :: 0 <= k < 4 ==>
          if k < i && wave.waveInterval[k] == old(target).waveInterval[k]
          then IntervalLow(SVG_WIDTH, k) <= target.waveInterval[k] <= IntervalHigh(SVG_WIDTH, k)
          else target.waveInterval[k] == old(target).waveInterval[k]
      {
        if wave.waveInterval[i] > target.waveInterval[i] {
          waveInterval := waveInterval[i := wave.waveInterval[i] - 1];
        } else if wave.waveInterval[i] < target.waveInterval[i] {
          waveInterval := waveInterval[i := wave.waveInterval[i] + 1];
        } else {
          var v := OneWaveInterval(SVG_WIDTH, i);
          target := target.(waveInterval := target.waveInterval[i := v.value]);
          waveInterval := waveInterval[i := wave.waveInterval[i]];
        }
      }
      for j := 0 to 2
        invariant |waveHeights| == 2 && WellFormed(target)
        invariant forall k :: 0 <= k < 4 ==>
          if wave.waveInterval[k] == old(target).waveInterval[k]
          then IntervalLow(SVG_WIDTH, k) <= target.waveInterval[k] <= IntervalHigh(SVG_WIDTH, k)
          else target.waveInterval[k] == old(target).waveInterval[k]
        invariant forall k :: 0 <= k < j ==>
          waveHeights[k] == StepToward(wave.waveHeights[k], old(target).waveHeights[k])
        invariant forall k :: 0 <= k < 2 ==>
          if k < j && wave.waveHeights[k] == old(target).waveHeights[k]
          then HeightLow(SVG_WIDTH) <= target.waveHeights[k] <= HeightHigh(SVG_WIDTH)
          else target.waveHeights[k] == old(target).waveHeights[k]
      {
        if wave.waveHeights[j] > target.waveHeights[j] {
          waveHeights := waveHeights[j := wave.waveHeights[j] - 1];
        } else if wave.waveHeights[j] < target.waveHeights[j] {
          waveHeights := waveHeights[j := wave.waveHeights[j] + 1];
        } else {
          var h := WaveHeight(SVG_WIDTH);
          target := target.(waveHeights := target.waveHeights[j := h]);
          waveHeights := waveHeights[j := wave.waveHeights[j]];
        }
      }
      next := Wave(SPACE_BETWEEN_LINES, waveInterval, waveHeights);
    }

    /**
      `updatePaths`: the queue keeps its length, loses its oldest wave and
      gains one step from its newest; the target is refreshed where that
      newest wave had reached it.
    */
    method UpdatePaths()
      requires Valid()
      modifies this`paths, this`target
      ensures Valid()
      ensures paths == Advance(old(paths), old(target))
      ensures TargetRefreshed(SVG_WIDTH, old(paths)[|old(paths)| - 1], old(target), target)
    {
      var newPaths := paths[1..];
      var lastPath := paths[|paths| - 1];
      var nextPath := NextStep(lastPath);
      paths := newPaths + [nextPath];
      AdvanceKeepsAdjacent(old(paths), old(target));
      AdvanceKeepsRanges(SVG_WIDTH, old(paths), old(target));
      RefreshKeepsRanges(SVG_WIDTH, lastPath, old(target), target);
    }

    /**
      `printAllWaves`, one tick: every line shows the path of its wave, then
      the queue advances.
    */
    method PrintAllWaves()
      requires Valid()
      modifies this`paths, this`target, lines
      ensures Valid()
      ensures forall i :: 0 <= i < lines.Length ==> lines[i] == GeneratePath(old(paths)[i], i)
      ensures paths == Advance(old(paths), old(target))
      ensures TargetRefreshed(SVG_WIDTH, old(paths)[|old(paths)| - 1], old(target), target)
    {
      for i := 0 to lines.Length
        invariant paths == old(paths) && target == old(target)
        invariant forall k :: 0 <= k < i ==> lines[k] == GeneratePath(paths[k], k)
      {
        lines[i] := GeneratePath(paths[i], i);
      }
      UpdatePaths();
    }

    /** `animate`: starts a chain of ticks that re-arms itself. */
    method Animate()
      modifies this`liveChains
      ensures liveChains == old(liveChains) + 1
    {
      liveChains := liveChains + 1;
    }

    /**
      `stop`: cancels the one pending timer and frame request whose handles
      are stored, and clears `running`.
    */
    method Stop()
      modifies this`running, this`liveChains
      ensures !running
      ensures liveChains == if old(liveChains) == 0 then 0 else old(liveChains) - 1
      ensures old(SingleChain()) ==> SingleChain()
    {
      if liveChains > 0 {
        liveChains := liveChains - 1;
      }
      running := false;
    }

    /**
      `start` as written: starts a chain only when not running, and leaves
      `running` as it was.
    */
    method Start()
      modifies this`liveChains
      ensures liveChains == if old(running) then old(liveChains) else old(liveChains) + 1
    {
      if !running {
        Animate();
      }
    }

    /** The guard as written does not hold: after a stop, two starts leave two chains running. */
    method StartTwiceAfterStop()
      requires SingleChain()
      modifies this`running, this`liveChains
      ensures !running && liveChains == 2
    {
      Stop();
      Start();
      Start();
    }

    /** `start` with the guard its comment in lines.js describes: a start while running does nothing. */
    method StartGuarded()
      modifies this`running, this`liveChains
      ensures running
      ensures liveChains == if old(running) then old(liveChains) else old(liveChains) + 1
      ensures old(SingleChain()) ==> SingleChain()
    {
      if !running {
        Animate();
        running := true;
      }
    }

    /** With the guard, however often `start` is repeated, one chain runs. */
    method StartGuardedTwiceAfterStop()
      requires SingleChain()
      modifies this`running, this`liveChains
      ensures running && liveChains == 1 && SingleChain()
    {
      Stop();
      StartGuarded();
      StartGuarded();
    }
  }
}

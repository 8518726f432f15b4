/**
  The rolling queue of waves, one per line (`updatePaths`,
  public/lines.js:161-168), on values: drop the oldest wave, append one step
  from the newest towards the target. The in-place version, which also
  refreshes the target, is `Animation.Animator.UpdatePaths`.
*/
module Queue {
  import opened Waves
  import opened Stepping

  /** Each wave differs from the one before it by at most one unit in every component. */
  predicate Adjacent(paths: seq<Wave>) {
    forall i :: 0 < i < |paths| ==> Near(paths[i - 1], paths[i])
  }

  predicate AllInRanges(w: nat, paths: seq<Wave>) {
    forall i :: 0 <= i < |paths| ==> InRanges(w, paths[i])
  }

  /** The queue `updatePaths(paths)` returns, against the target as it was before the call. */
  function Advance(paths: seq<Wave>, target: Wave): (r: seq<Wave>)
    requires |paths| > 0 && WellFormed(paths[|paths| - 1]) && WellFormed(target)
    ensures |r| == |paths|
    ensures forall i :: 0 <= i < |paths| - 1 ==> r[i] == paths[i + 1]
    ensures r[|r| - 1] == Step(paths[|paths| - 1], target)
    ensures Near(paths[|paths| - 1], r[|r| - 1])
  {
    paths[1..] + [Step(paths[|paths| - 1], target)]
  }

  /**
    The record of a run of steps: step k read from `froms[k]`, compared it
    against the target `targets[k]`, produced `paths[k]`, and left the target
    `targets[k + 1]` behind.
  */
  predicate StepTrace(w: nat, froms: seq<Wave>, paths: seq<Wave>, targets: seq<Wave>) {
    |paths| == |froms| && |targets| == |froms| + 1 &&
    AllInRanges(w, froms) && AllInRanges(w, targets) &&
    forall k {:trigger froms[k]} :: 0 <= k < |froms| ==>
      paths[k] == Step(froms[k], targets[k]) &&
      TargetRefreshed(w, froms[k], targets[k], targets[k + 1])
  }

  /** One more step extends a trace. */
  lemma StepTraceExtend(w: nat, froms: seq<Wave>, paths: seq<Wave>, targets: seq<Wave>,
                        from: Wave, next: Wave, after: Wave)
    requires StepTrace(w, froms, paths, targets)
    requires InRanges(w, from) && InRanges(w, after)
    requires next == Step(from, targets[|froms|])
    requires TargetRefreshed(w, from, targets[|froms|], after)
    ensures StepTrace(w, froms + [from], paths + [next], targets + [after])
  {
  }

  /** Appending a neighbour of the last wave keeps a queue adjacent. */
  lemma AppendKeepsAdjacent(paths: seq<Wave>, next: Wave)
    requires Adjacent(paths)
    requires |paths| > 0 ==> Near(paths[|paths| - 1], next)
    ensures Adjacent(paths + [next])
  {
  }

  /** Advancing keeps neighbouring lines within one unit of each other. */
  lemma AdvanceKeepsAdjacent(paths: seq<Wave>, target: Wave)
    requires |paths| > 0 && Adjacent(paths) && WellFormed(paths[|paths| - 1]) && WellFormed(target)
    ensures Adjacent(Advance(paths, target))
  {
  }

  /** Advancing towards a target inside the generator ranges keeps every line inside them. */
  lemma AdvanceKeepsRanges(w: nat, paths: seq<Wave>, target: Wave)
    requires |paths| > 0 && AllInRanges(w, paths) && InRanges(w, target)
    ensures AllInRanges(w, Advance(paths, target))
  {
  }

  /** Every line of a queue inside the generator ranges has its intervals in order. */
  lemma QueueOrdered(w: nat, paths: seq<Wave>, i: int)
    requires AllInRanges(w, paths) && 0 <= i < |paths|
    ensures paths[i].waveInterval[0] <= paths[i].waveInterval[1] <= paths[i].waveInterval[2] <= paths[i].waveInterval[3]
  {
  }
}

# Wave animator

A model of the animated background of wavy lines in `public/lines.js`. Each
line is drawn from a *wave*: four horizontal control coordinates
(`waveInterval`), two vertical offsets (`waveHeights`) and the line spacing 6.
A queue of 40 waves, one per line, drifts towards a shared *target wave*. On
every tick, each line shows the SVG path of its wave. Then the queue drops its
oldest wave and appends one step from its newest wave towards the target.
When a component reaches the target, that target component is replaced by a
fresh random value, so the animation never settles.

Modules:

- `Waves` (waves.dfy): the wave datatype, the constants, the ranges the random
  generators draw from, and the generators `getOneWaveInterval`,
  `getWaveHeight`, `getWaveIntervals` and `getRandomWave`. Each generator is a
  method whose draw is a nondeterministic choice in its range.
- `Stepping` (stepping.dfy): the step rule of `getNextStep` as functions, the
  target-refresh relation, and how stepping converges towards a fixed target.
- `PathText` (pathtext.dfy): `generatePath`. Integers are written as decimal
  text. A parser for the emitted path shape shows that the text holds exactly
  the intended coordinates. The shape is `M`, `Q`, `T` in absolute coordinates,
  as in section 8.3 of SVG 1.1.
- `Queue` (queue.dfy): `updatePaths` on values, with the invariants it
  preserves.
- `Animation` (animation.dfy): the class `Animator`. It holds `allPaths`,
  `targetWave`, the `d` attribute of each line element, and `running`. Its
  methods update that state in place: start-up, `getNextStep`, `updatePaths`,
  `printAllWaves`, `start` and `stop`.

Two behaviours of the code that are easy to miss:

- The script starts the animation on load (public/lines.js:218). When the
  page has a hover region, it calls `stop()` at once (222-226). So the
  constructor then ends with `running` false.
- The comment at line 212 says repeated starts must not speed the animation
  up. The guard keeps that only until the first `stop`; see Findings.

## Model

| member | source | states |
|---|---|---|
| Waves.JsRound | public/lines.js:63-80 | `Math.round` of a quotient is the integer r with r - 1/2 <= num/den < r + 1/2 |
| Waves.RangesChain | public/lines.js:60-81 | every generator range is non-empty; each interval range ends at or before the next one begins: ranges 0 and 1 meet at 0, ranges 1 and 2 meet at round(w/2), and range 3 starts at 2w, above range 2's end w; the height range contains 0 |
| Waves.DefaultRanges | public/lines.js:36-37 | at width 100 the ranges are [-20,0], [0,50], [50,100], [200,300] and heights [-10,40] |
| Waves.InRangesOrdered | public/lines.js:60-81 | a wave inside the generator ranges has interval0 <= 0 <= interval1 <= interval2 <= interval3 |
| Waves.OneWaveInterval | public/lines.js:60-77 | returns a value exactly when 0 <= k < 4, and that value lies in interval k's range; any other k yields no value |
| Waves.WaveHeight | public/lines.js:79-81 | the height lies in [round(-w/10), round(2w/5)] |
| Waves.WaveIntervals | public/lines.js:85-91 | four intervals, each in its own generator's range |
| Waves.RandomWave | public/lines.js:49-57 | a well-formed wave with spacing 6 and every component in its generator's range |
| Stepping.StepToward | public/lines.js:130-133 | a component equal to its target stays; otherwise it moves by exactly 1 and its distance to the target shrinks by exactly 1 |
| Stepping.Step | public/lines.js:121-152 | the next wave has spacing 6, 4 intervals and 2 heights, and no component moves by more than 1; a component keeps its value exactly when it already equals the target |
| Stepping.StepCloser | public/lines.js:129-149 | every component of a step that has not yet reached the target ends exactly one unit closer to it, in all four intervals and both heights |
| Stepping.StepKeepsRanges | public/lines.js:121-152 | a step between waves inside the generator ranges stays inside them |
| Stepping.RefreshKeepsRanges | public/lines.js:134-148 | a target refreshed by a step, in its intervals (134-136) and its heights (145-148), stays inside the generator ranges |
| Stepping.DistanceAfterSteps | public/lines.js:141-144 | after n steps towards a fixed target, a component's distance to it is max(d - n, 0) |
| Stepping.ReachesTargetExactly | public/lines.js:130-133 | a component equals a fixed target after n steps exactly when n is at least its initial distance |
| Stepping.StepTimesComponents | public/lines.js:129-149 | stepping a wave n times steps each of its six components n times on its own |
| Stepping.WaveReachesTarget | public/lines.js:121-152 | a wave equals a fixed target after n steps exactly when n is at least its largest component distance |
| PathText.IntText | public/lines.js:31-33 | a number interpolated into the path is written as non-empty text that starts with a minus sign exactly when the number is negative, and is otherwise decimal digits (`IntTextShape`); `IntTextParses` proves it reads back as the same integer |
| PathText.IntTextShape | public/lines.js:31-33 | the text of an integer starts with `-` exactly when the integer is negative, and the rest is decimal digits |
| PathText.IntTextParses | public/lines.js:31-33 | an integer written as template-literal text reads back as the same integer |
| PathText.CurveTextParses | public/lines.js:31-33 | the `M x,y Q x,y x,y T x,y` text of a curve parses back to the same four points |
| PathText.CurveTextInjective | public/lines.js:31-33 | different curves give different path texts |
| PathText.GeneratePath | public/lines.js:28-34 | `generatePath(wave, index)`; its contract is `GeneratePathParses`: the text is the curve of start (iv0, s), control (iv1, h0+s), join (iv2, s) and end (iv3, h1+s), with s = 6*index |
| PathText.GeneratePathParses | public/lines.js:28-34 | `generatePath(w, i)` encodes start (iv0, s), control (iv1, h0+s), join (iv2, s), end (iv3, h1+s), with s = 6*i |
| PathText.GeneratePathInjective | public/lines.js:28-34 | on one line, different waves give different paths |
| PathText.SmoothControlOfWave | public/lines.js:31-33 | the implied control point of the `T` segment is (2*iv2 - iv1, s - h0), the first control point mirrored in the join point |
| PathText.GeneratePathExample | public/lines.js:28-34 | interval [-10,40,70,250], heights [5,15], line 1 give `M-10,6 Q40,11 70,6 T250,21` |
| Queue.Advance | public/lines.js:161-168 | the new queue has the old length, holds the old queue minus its oldest wave in order, and ends with a one-step successor of the old newest wave |
| Queue.AppendKeepsAdjacent | public/lines.js:173-177 | appending a one-step successor of the last wave keeps neighbouring waves within one unit |
| Queue.AdvanceKeepsAdjacent | public/lines.js:161-168 | advancing the queue keeps neighbouring waves within one unit in every component |
| Queue.AdvanceKeepsRanges | public/lines.js:161-168 | advancing towards an in-range target keeps every wave inside the generator ranges |
| Queue.QueueOrdered | public/lines.js:161-168 | every line of an in-range queue has its intervals in order, so no drawn line folds back |
| Animation.Animator.constructor | public/lines.js:101-226 | after loading, there is one wave per line element (40 of each), all waves and the target are in range and adjacent, and `running` is true exactly when there is no hover region, with one tick chain when running and none when stopped |
| Animation.Animator.BuildQueue | public/lines.js:170-177 | the start-up loop leaves 40 in-range, adjacent waves: entry 0 is one step from the initial wave and entry i one step from entry i-1, each against the target as that step found it; between steps the target is refreshed as `getNextStep` refreshes it, starting from the initial target and ending at the final one |
| Animation.Animator.NextStep | public/lines.js:121-152 | returns `Step(wave, old target)`; each target component the wave had reached is replaced by a value in that component's range, and every other component is unchanged |
| Animation.Animator.UpdatePaths | public/lines.js:161-168 | the queue becomes `Advance(old queue, old target)`, the target is refreshed where the old newest wave had reached it, and the invariant holds |
| Animation.Animator.PrintAllWaves | public/lines.js:180-185 | line i's `d` is `generatePath(oldPaths[i], i)` for every line, then the queue becomes `Advance(oldPaths, old target)` |
| Animation.Animator.Animate | public/lines.js:194-199 | starts one more chain of ticks |
| Animation.Animator.Stop | public/lines.js:205-209 | `running` is false afterwards, and the chain whose handles are stored is cancelled |
| Animation.Animator.Start | public/lines.js:211-216 | starts a chain exactly when not running, and never changes `running` |
| Animation.Animator.StartTwiceAfterStop | public/lines.js:211-216 | as written: stop, start, start leaves two chains running while `running` is false |
| Animation.Animator.StartGuarded | public/lines.js:211-216 | corrected start: afterwards `running` is true, a start while running adds no chain, and "one chain exactly while running" is preserved |
| Animation.Animator.StartGuardedTwiceAfterStop | public/lines.js:211-216 | corrected: stop, start, start leaves exactly one chain running |

## Findings

| source | as written | input that shows it | evidently intended | confidence | as-written member | corrected member |
|---|---|---|---|---|---|---|
| public/lines.js:211-216 | `start` animates when `running` is false but never sets `running` to true; with a hover region, `stop()` runs at load, so the guard never blocks a start | `stop(); start(); start()`: repeated `start()` calls after a `stop`, for instance from a second caller of `start` besides the `mouseenter` listener, start two tick chains and the lines move at double speed (hovering alone does not, since each `mouseleave` calls `stop`) | the comment at line 212 says the check exists to stop repeated starts from speeding up the animation, so `start` should set `running = true` | medium; not executed | Animation.Animator.StartTwiceAfterStop | Animation.Animator.StartGuardedTwiceAfterStop |

## Left out

- Line elements and the DOM: `createElementNS`, `classList`, `appendChild`, the `fill` and `stroke` attributes, and `getElementsByClassName`. Each line element is modelled only by its `d` text, held in an array that starts empty.
- The diagnostic `console.log` of `getOneWaveInterval` for a `k` outside 0..3 (public/lines.js:75): logging is output only. No call in lines.js passes such a `k`; `OneWaveInterval` returns no value there, as the function returns `undefined`.
- `getRandomColor` and `baseColor`: float hue arithmetic whose result is never used, because the stroke colour is a fixed literal.
- `linesConfig`: configuration that nothing reads.
- `Math.random` and `Math.round`: each draw is a nondeterministic integer in a closed range. The range bounds are `Math.round` of the float range's ends. At the width of 100 that the code uses, every integer in each range can be drawn. At other widths an upper end may be one the float draw cannot reach.
- Timers and animation frames: `setTimeout`, `requestAnimationFrame`, `cancelAnimationFrame`, `clearInterval` and the 35 frames per second. `liveChains` counts the self-re-arming tick chains instead. A tick, the `draw` callback, is `PrintAllWaves`.
- Animation.Animator.Stop: cancels one chain, the one whose handles are stored. With several chains alive, how many a real `stop` cancels depends on where each chain is in its timer/frame cycle.
- Event listeners: `mouseenter` and `mouseleave` are the caller invoking `Start` and `Stop`. Whether the page has a hover region is the constructor's parameter.
- Animation.Animator.constructor: states the invariant and the scheduling state after loading, but not the text each line shows after the first draw. That text is the contract of `PrintAllWaves`, which the constructor calls.
- The `index` argument of `getNextStep`: the function never reads it, so `NextStep` does not take it.
- Object identity: `getNextStep` builds new arrays and the start-up loop copies each wave with `Object.assign`. Waves are values here, so that copying has no effect on the model.
- Number formatting: template literals write integers below 10^21 in plain decimal. Every number here is far below that bound, so larger numbers are not modelled.
- `server.js` is not part of this model. It is the HTTP server that serves the page.

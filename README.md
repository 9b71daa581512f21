# Particle constellation: a verified model

This project models the simulation core of a portfolio site's animated
background. The background is a "constellation": particles drift over a
canvas and bounce off its edges, and the mouse pointer pushes them away. Each
frame, every pair of particles closer than a size-dependent threshold is
joined by a line. The model covers three pieces:

- the geometry helpers: the circle-overlap test and the squared distance;
- one particle's per-frame `update`: bounce, pointer repulsion, translation
  and a single draw;
- the `Particles` field:
  - the style merge;
  - canvas sizing and the pointer radius;
  - `init`, which populates the field;
  - `animate`, which updates every particle once;
  - `connect`, which picks the pairs to join.

Modules:

- `ParticleMath` (`geometry.dfy`): points, circles, `Distance` and `CircleCollision`.
- `Surface` (`surface.dfy`): the canvas (an integer width and height) and the 2D context. The context records every drawing call it receives as a `DrawEvent` in `trace`, so "what a frame draws" can be stated exactly.
- `ParticleEntity` (`particle.dfy`): the pure per-frame transition `Step` on a `ParticleState` value. The class `Particle` updates its fields in place, and its `Update` is proved to perform `Step`.
- `ParticleSystem` (`particles.dfy`): the specification functions and their lemmas:
  - `ParticleCount`, `Spawn`/`SpawnAll`;
  - `Tick`;
  - `RowPairs`/`PairsBefore`/`ConnectedPairs`;
  - `ConnectLines`, `Frame`.
  
  It also holds the class `Particles`, whose methods (`Init`, `Animate`, `UpdateAll`, `Connect`, `ConnectRow`) keep the source's loops. Each method is proved against those functions.
- `Wrappers` (`wrappers.dfy`): `Option`.

Modelling choices:

- **Numbers.** JavaScript numbers are reals. Canvas dimensions and the window's inner size are natural numbers.
- **Randomness.** Each particle consumes five `Math.random()` results in call order. These are passed in as a `Sample` whose values lie in [0, 1).
- **Pointer.** The pointer is an `Option<Point>`. `None` stands for the undefined coordinates the listeners store. With undefined coordinates `circleCollision` computes NaN and so never collides, and the model gives `update` no circle (`PointerCircle`).
- **Pointer particle.** The "pointer particle" is created only when both coordinates are truthy (`PointerShown`), so a coordinate of exactly 0 counts as absent.
- **Square root.** `CircleCollision` compares squared quantities instead of taking a square root. `CollisionBySquareRoot` proves that the result is the same as comparing the true distance.

Points where the code behaves differently from a first reading:

- **Particle count.** The count is the *ceiling* of area / 7000, not the floor, because the loop runs while `i < h*w/7000` over reals.
- **Repulsion margin.** The margin `[10*size, bound - 10*size]` is tested *before* the step of 10, so it is not an invariant of the push: a push can end up beyond it by less than 10 (`RepelCanPassMargin`).
- **Spawn position.** A spawned coordinate is `r * (inner - 2*size)`, with no clamping. It lies in `[0, inner - 2*size]` only when that range is not empty.
- **Pointer presence.** The pointer particle depends on truthiness, not on definedness.

## Model

| member | source | states |
|---|---|---|
| ParticleMath.Distance | src/features/particles/functions/math.ts:24-28 | the squared distance is never negative and is 0 for identical points |
| ParticleMath.DistanceSymmetric | src/features/particles/functions/math.ts:24-28 | the squared distance is the same in both directions |
| ParticleMath.CircleCollision | src/features/particles/functions/math.ts:11-16 | colliding circles have a positive radius sum |
| ParticleMath.CollisionBySquareRoot | src/features/particles/functions/math.ts:11-16 | for any non-negative root of the squared centre distance, the squared test holds exactly when the root is below the radius sum, i.e. the source's `sqrt` comparison |
| ParticleMath.CollisionSymmetric | src/features/particles/functions/math.ts:11-16 | collision does not depend on the order of the circles |
| ParticleMath.TouchingCirclesDoNotCollide | src/features/particles/functions/math.ts:15 | the comparison is strict: centres exactly the radius sum apart do not collide |
| ParticleMath.CollisionBySquares | src/features/particles/functions/math.ts:12-15 | with a non-negative radius sum, collision is `dx²+dy² < (r1+r2)²`; with a non-positive sum, nothing collides |
| ParticleEntity.Bounce | src/features/particles/classes/particle.ts:44-49 | definition: the velocity on one axis is negated when the position is above the bound or below 0, kept otherwise |
| ParticleEntity.Repel | src/features/particles/classes/particle.ts:53-66 | definition: +10 when the pointer is lower and the position below `bound - 10*size`, then -10 when the pointer is higher than the (possibly pushed) position and that position above `10*size` |
| ParticleEntity.Hit | src/features/particles/classes/particle.ts:52 | definition: a pointer is present and its circle collides with the particle's circle (pointer first) |
| ParticleEntity.Step | src/features/particles/classes/particle.ts:42-75 | one update never changes size or colour |
| ParticleEntity.StepReflectsOutsideBounds | src/features/particles/classes/particle.ts:44-49 | the velocity on an axis is negated when the position before the step is outside [0, bound] on that axis, and kept when inside; the axes are independent |
| ParticleEntity.StepWithoutPointerTranslates | src/features/particles/classes/particle.ts:52-71 | with no overlapping pointer, the new position is the old one plus the (post-bounce) velocity; nothing clamps it |
| ParticleEntity.RepelOutcome | src/features/particles/classes/particle.ts:53-58 | the push on an axis is +10, -10 or none; +10 exactly when the pointer is on the low side and the position below the upper margin; -10 exactly when the pointer is on the high side and the position above the lower margin; none when the pointer is level |
| ParticleEntity.RepelMargin | src/features/particles/classes/particle.ts:53-66 | a push ends less than 10 beyond the margin it was checked against |
| ParticleEntity.RepelCanPassMargin | src/features/particles/classes/particle.ts:53-55 | concrete case: size 1 at 89.5 on a 100-wide canvas with the pointer to its left ends at 99.5, past the margin 90 |
| ParticleEntity.StepRepelsEachAxis | src/features/particles/classes/particle.ts:52-71 | with an overlapping pointer, each axis is pushed by its own guarded rule, judged on that axis only, and then translated |
| ParticleEntity.Particle.constructor | src/features/particles/classes/particle.ts:8-17 | a particle holds the given position, velocity, size, colour, canvas and context |
| ParticleEntity.Particle.AsCircle | src/features/particles/classes/particle.ts:19-25 | the `circle` getter is the current position with the size as radius |
| ParticleEntity.Particle.Draw | src/features/particles/classes/particle.ts:30-37 | drawing appends exactly one filled arc at the current position, of the particle's size and colour |
| ParticleEntity.Particle.BounceOffEdges | src/features/particles/classes/particle.ts:44-49 | the velocity on each axis is reflected exactly as `Bounce` says; position, size and colour are unchanged |
| ParticleEntity.Particle.PushAwayFrom | src/features/particles/classes/particle.ts:53-66 | the position on each axis becomes `Repel` of the old one; velocity, size and colour are unchanged |
| ParticleEntity.Particle.Update | src/features/particles/classes/particle.ts:42-75 | the new state is `Step` of the old state for the canvas size at the call, and exactly one arc, at the final position, is drawn |
| ParticleSystem.MergeStyles | src/features/particles/classes/particles.ts:42-45 | the merged keys are the union; every supplied option overrides the default; every other key keeps its default |
| ParticleSystem.MergedStylesComplete | src/features/particles/classes/particles.ts:18-27 | the defaults cover every option, so the merged styles always have a particle colour and a stroke style |
| ParticleSystem.MergeStylesWithoutOptions | src/features/particles/classes/particles.ts:42-45 | with no styles given, the merged styles are the defaults |
| ParticleSystem.HostSize | src/features/particles/classes/particles.ts:53-59 | definition: the window's inner size when the host is the document body, the host's client size otherwise |
| ParticleSystem.PointerRadius | src/features/particles/classes/particles.ts:60 | the pointer radius is width·height / 6400 and is never negative |
| ParticleSystem.ParticleCountIsLoopBound | src/features/particles/classes/particles.ts:115-116 | the loop test `i < h*w/7000` holds exactly when `i < ParticleCount`, so the loop creates ParticleCount particles |
| ParticleSystem.ParticleCountIsCeiling | src/features/particles/classes/particles.ts:115-116 | the count is the ceiling of area / 7000 |
| ParticleSystem.ParticleCountExamples | src/features/particles/classes/particles.ts:115-116 | 700×700 gives 70 particles; 100×100 gives 2, not 1 |
| ParticleSystem.Spawn | src/features/particles/classes/particles.ts:117-122 | definition: size `5r+1`, coordinates `r*(inner - 2s - 2s + 2s)` over the window's inner size, velocities `r*1 - 0.5`, the configured colour, in the source's call order |
| ParticleSystem.SpawnAll | src/features/particles/classes/particles.ts:116-134 | definition: one spawned particle per sample, appended in creation order |
| ParticleSystem.Tick | src/features/particles/classes/particles.ts:158-160 | definition: every persistent particle's state after one `Step` with the same pointer and canvas size, in index order |
| ParticleSystem.MaxDistance | src/features/particles/classes/particles.ts:168 | definition: the threshold `(width/7)*(height/7)`, compared with the squared distance |
| ParticleSystem.ConnectedPairs | src/features/particles/classes/particles.ts:166-169 | definition: the pairs the nested loops visit, row by row, keeping those whose squared distance is below the threshold |
| ParticleSystem.PointerShown | src/features/particles/classes/particles.ts:144 | definition: the pointer is present and both coordinates are non-zero (truthy) |
| ParticleSystem.SpanIsInnerLessTwiceSize | src/features/particles/classes/particles.ts:118-119 | `inner - size*2 - size*2 + size*2` is `inner - 2*size` |
| ParticleSystem.Coordinate | src/features/particles/classes/particles.ts:118-119 | a sampled coordinate lies in [0, span] whenever the span is not negative |
| ParticleSystem.SpawnRanges | src/features/particles/classes/particles.ts:117-122 | for random values in [0,1): size in [1,6); each velocity component in [-0.5,0.5); each coordinate in [0, inner - 2·size] when that range is not empty; the colour is the configured one |
| ParticleSystem.RowPairsMembers | src/features/particles/classes/particles.ts:167-169 | row i up to j holds exactly the pairs (i, k) with i < k < j that are linked |
| ParticleSystem.PairsBeforeMembers | src/features/particles/classes/particles.ts:166-169 | the rows before i hold exactly the linked pairs (a, b) with a < i and a < b < n |
| ParticleSystem.ConnectedPairsExact | src/features/particles/classes/particles.ts:164-180 | `connect` joins exactly the index pairs a < b whose squared distance is below the threshold |
| ParticleSystem.LinkedSymmetric | src/features/particles/classes/particles.ts:169 | whether two points are close enough does not depend on their order |
| ParticleSystem.RowPairsIncreasing | src/features/particles/classes/particles.ts:167 | the inner loop emits its pairs in increasing order |
| ParticleSystem.PairsBeforeIncreasing | src/features/particles/classes/particles.ts:166-167 | the nested loops emit their pairs in increasing order |
| ParticleSystem.ConnectedPairsOrdered | src/features/particles/classes/particles.ts:166-169 | the pairs are drawn in strictly increasing lexicographic (i, j) order, so each pair at most once |
| ParticleSystem.ConnectExamples | src/features/particles/classes/particles.ts:168-169 | on a 70×70 canvas the threshold is 100; points at squared distance 200 are not joined, points at 50 are |
| ParticleSystem.RowLinesStep | src/features/particles/classes/particles.ts:167-177 | one more inner iteration adds a stroke between the two points exactly when their squared distance is below the threshold |
| ParticleSystem.OuterLinesStep | src/features/particles/classes/particles.ts:166-179 | one more outer iteration adds the strokes of that row |
| ParticleSystem.ConnectLinesAreLines | src/features/particles/classes/particles.ts:170-176 | `connect` draws nothing but strokes |
| ParticleSystem.FrameDrawsEachParticleOnce | src/features/particles/classes/particles.ts:140-162 | a frame is one clear, then exactly one arc per persistent particle (the k-th for particle k), then only strokes; the pointer particle draws nothing |
| ParticleSystem.Particles.constructor | src/features/particles/classes/particles.ts:37-50 | merges the styles, sizes the canvas to its host, sets the pointer radius for that size, populates ParticleCount particles from the samples and draws the first frame of their stepped states |
| ParticleSystem.Particles.Start | src/features/particles/classes/particles.ts:48-49 | `init` then `animate`: the stepped spawned states, and one frame of them on the trace |
| ParticleSystem.Particles.SetDimensions | src/features/particles/classes/particles.ts:52-61 | the canvas takes the window's inner size for the body host and the host's client size otherwise; the pointer radius is recomputed; the particles are kept |
| ParticleSystem.Particles.MouseMove | src/features/particles/classes/particles.ts:87-90 | the pointer is at the event's coordinates |
| ParticleSystem.Particles.MouseOut | src/features/particles/classes/particles.ts:104-107 | the pointer is absent |
| ParticleSystem.Particles.Init | src/features/particles/classes/particles.ts:113-135 | the old array is discarded; exactly ParticleCount fresh, distinct particles are created; the k-th is spawned from the k-th sample in the configured colour |
| ParticleSystem.Particles.Animate | src/features/particles/classes/particles.ts:140-162 | the states become `Tick` of the old states with the current pointer; the trace grows by exactly `Frame` of the new states |
| ParticleSystem.Particles.WithPointerParticle | src/features/particles/classes/particles.ts:143-157 | the iterated list is the particle array, followed, when both pointer coordinates are non-zero, by a fresh particle at the pointer with zero velocity, size 3 and the particle colour |
| ParticleSystem.Particles.UpdateAll | src/features/particles/classes/particles.ts:158-160 | each persistent particle is updated once in index order with the same pointer; the states become `Tick` of the old ones; their arcs are drawn in index order |
| ParticleSystem.Particles.Connect | src/features/particles/classes/particles.ts:164-180 | no particle changes; the trace grows by exactly the strokes of `ConnectedPairs` over the persistent particles' positions, in order |
| ParticleSystem.Particles.ConnectRow | src/features/particles/classes/particles.ts:167-178 | the inner loop for particle i appends exactly the strokes of row i |

## Left out

- DOM construction and placement (`build`'s element creation, `prepend`, `applyStyle`): browser plumbing with no logic. Only the fresh canvas's default 300×150 size is kept, because `build` computes the first pointer radius from it.
- Event listeners and the `ResizeObserver`: they are modelled as the setters `MouseMove`, `MouseOut` and `SetDimensions`, called between frames. `SetDimensions` takes the host kind, the window's inner size and the host's client size as parameters.
- `requestAnimationFrame` re-arming: scheduling, not logic. `Animate` models one frame.
- Canvas drawing: each draw becomes one trace event: `arc`+`fill` one `Arc`, `moveTo`+`lineTo`+`stroke` one `Line`, `clearRect` one `ClearRect`. The context's style state (`fillStyle`, `shadowColor`, `shadowBlur`, `strokeStyle`, `lineWidth`) is folded into the event's colour. The blur and line width are constants of the event kind.
- `Math.random`: its results are parameters, five per particle, each in [0, 1).
- `Math.sqrt` and IEEE-754 behaviour (rounding, NaN, infinities): numbers are reals. The only NaN case modelled is the absent pointer, which never collides.
- `src/features/particles/index.ts`: a one-line factory around the constructor. `src/features/particles/interfaces/circle.ts` is the datatype `Circle`.
- ParticleSystem.Particles.constructor: the `container` argument is reduced to whether it is the document body plus its client size.
- ParticleSystem.Particles.Animate: the fresh pointer particle is built but not visible in the contract beyond "nothing is drawn for it". Its own state is stated by `WithPointerParticle`.
- ParticleSystem.MergeStyles: an option present with the value `undefined` is not modelled. In the spread such an option overrides its default with `undefined`; here a style object only holds options that have a string value.
- ParticleSystem.MergedStylesComplete: holds only for options without an explicit `undefined`. With `particleColor: undefined` or `strokeStyle: undefined` the source's merged styles lack that colour, which the model cannot express.

# Naskaus portfolio: seeded particle fields, typewriters and access rules in Dafny

This project models the logic of the Naskaus portfolio site, a Next.js application.
It covers these parts:

- **The Mulberry32 generator** and its helpers (`src/lib/mulberry32.ts`). The canvases and
  the lab cards' flight origins draw from it, so they look the same on every load.
- **The seeded builders.** The arena symbols, the two constellations, the hero ring and the
  finale stars. Each builder computes a width-scaled count, then makes a fixed number of
  draws per element, in a fixed order.
- **The per-frame updates of those fields.** For the drifting fields: force, spring, damping,
  then integration. For the ring: ripple and kick. The constellations' pair pass. The frame
  clocks and the stop-or-reschedule rule.
- **The AtomOrbit emblem.** Its trail is a window of at most 24 points, plus the ring
  progress and depth factor.
- **The three typewriters.** The `TypewriterText` component, `useTypewriter.typeText` and
  `useAutoTypewriter`. Each runs as a state machine. Its random choices (typo roll, typo
  pick, delay roll) are inputs.
- **Digital Shadow access control** over the node table, and the session store.
- **Small mappings.** The home page's active section, the cursor follower's lerp, and the
  lab card's tilt.

One module per source file, plus shared helpers:

- `Wrappers`: Option.
- `JsMath`: `Math.min`, `Math.max`, `Math.round`.
- `JsString`: ASCII `toLowerCase` and `toUpperCase`.
- `FieldScale`: the width multiplier every builder uses.
- `DriftField`: the frame step, pair pass and canvas refs. The arena and both
  constellations share them, with different constants.
- `DotField`: the nine-draw builder both constellations share.
- `TypoMap`: the keyboard-neighbour map. `TypewriterText.tsx` and `useTypewriter.ts` each
  define an identical copy.

How state is modelled:

- State that the source mutates in place is a `class`: the generator, the canvases' refs, the
  emblem, the typewriters, the store, the Shadow section, the lab card and the cursor.
- Each method is proved against a function of the old state.
- Sine, cosine, square root and `atan2` are oracle functions passed in.
- `requestAnimationFrame`, timers, DOM events and network answers are explicit steps or inputs.

## Model

| member | source | states |
|---|---|---|
| Mulberry32.Mix | src/lib/mulberry32.ts:9-11 | the mixing rounds (`Math.imul`, xor, unsigned shifts) give a 32-bit unsigned value |
| Mulberry32.Imul | src/lib/mulberry32.ts:9-10 | `Math.imul` of two 32-bit values is again a 32-bit unsigned value |
| Mulberry32.ToUint32 | src/lib/mulberry32.ts:11 | `>>> 0` of an integral number lands in [0, 2^32) |
| Mulberry32.Output | src/lib/mulberry32.ts:11 | a call's result `u / 4294967296` lies in [0, 1) |
| Mulberry32.Draw | src/lib/mulberry32.ts:6-13 | call number k of a generator seeded s returns the output of seed s + (k+1) * 0x6d2b79f5, in [0, 1) |
| Mulberry32.Rng.constructor | src/lib/mulberry32.ts:6 | the closure captures the seed it is given |
| Mulberry32.Rng.Next | src/lib/mulberry32.ts:7-11 | one call adds 0x6d2b79f5 to the captured seed and returns the output of the new seed |
| Mulberry32.OutputModulo | src/lib/mulberry32.ts:8-11 | the output depends on the seed only modulo 2^32 |
| Mulberry32.DrawShift | src/lib/mulberry32.ts:6-13 | a generator after m calls continues exactly like a fresh one created with the advanced seed |
| Mulberry32.Take | src/lib/mulberry32.ts:2-3 | n calls of a fresh generator yield Draw(seed, 0..n), so two generators with one seed agree |
| Mulberry32.SeededRandom | src/lib/mulberry32.ts:18-20 | the value lies in [min, max) when min < max, in (max, min] when max < min, and is min when they are equal |
| Mulberry32.SeededRandomInt | src/lib/mulberry32.ts:25-27 | for integer min <= max the result is an integer in [min, max], both included |
| Mulberry32.SeededPick | src/lib/mulberry32.ts:32-34 | a draw picks an element of a non-empty array; an empty array yields undefined |
| Mulberry32.PickIndexInBounds | src/lib/mulberry32.ts:33 | the index `floor(r * n)` lies in [0, n) for a non-empty array |
| Mulberry32.Rng.Range | src/lib/mulberry32.ts:18-20 | `seededRandom` consumes exactly one draw |
| Mulberry32.Rng.Int | src/lib/mulberry32.ts:25-27 | `seededRandomInt` consumes exactly one draw |
| Mulberry32.Rng.Pick | src/lib/mulberry32.ts:32-34 | `seededPick` consumes exactly one draw |
| Mulberry32.Rng.Many | src/lib/mulberry32.ts:7-12 | n calls in a row advance the seed by n increments and return the generator's next n values in call order |
| Mulberry32.Drawn | src/lib/mulberry32.ts:6-13 | the first n values of a generator: value k is Draw(seed, k), in [0, 1) |
| FieldScale.Multiplier | src/components/canvas/ArenaParticles.tsx:112 | the width multiplier lies in [0.35, 1] |
| FieldScale.ScaledCount | src/components/canvas/ArenaParticles.tsx:112-113 | the full base count from width 1920 up, floor(base * 0.35) at or below 672 |
| FieldScale.CountBounds | src/components/canvas/ArenaParticles.tsx:112-113 | a scaled count lies between floor(base * 0.35) and base |
| FieldScale.CountMonotone | src/components/canvas/ArenaParticles.tsx:112-113 | a wider viewport never gets fewer elements |
| ArenaParticles.ParticleFrom | src/components/canvas/ArenaParticles.tsx:115-137 | a fresh symbol rests on its base point with zero velocity; position within 40 of the edges (interval reversed below 80 px), alpha in [0.4, 0.9), colour in the palette, shape 0..3, phases and amplitudes in range |
| ArenaParticles.Layout | src/components/canvas/ArenaParticles.tsx:109-141 | the list holds the width-scaled count of symbols, symbol i made from draws 10i..10i+9 |
| ArenaParticles.InitParticles | src/components/canvas/ArenaParticles.tsx:109-141 | the builder's loop returns exactly the layout |
| ArenaParticles.NextParticle | src/components/canvas/ArenaParticles.tsx:116-137 | one loop pass makes exactly ten draws, in source order |
| ArenaParticles.Resize | src/components/canvas/ArenaParticles.tsx:231-244 | with a canvas the list is rebuilt for the new size; nothing else changes |
| ArenaParticles.Mount | src/components/canvas/ArenaParticles.tsx:257-263 | the mount builds the field, parks the pointer, stamps the clock and requests a frame |
| ArenaParticles.ZeroWidthCount | src/components/canvas/ArenaParticles.tsx:112-113 | a zero-width canvas still gets floor(180 * 0.35) = 63 symbols |
| ArenaParticles.SizeIndependent | src/components/canvas/ArenaParticles.tsx:115-137 | symbol i has the same alpha, size, colour, shape, phases and amplitudes at any canvas size |
| ArenaParticles.Repels | src/components/canvas/ArenaParticles.tsx:174-182 | the arena's force points away from the pointer, along the pointer-symbol line |
| ArenaParticles.BreathingAlpha | src/components/canvas/ArenaParticles.tsx:199-200 | alpha stays within [0.4, 1] times the base alpha |
| ArenaParticles.SentinelIsInert | src/components/canvas/ArenaParticles.tsx:253-255 | the parked pointer at (-9999, -9999) pushes no symbol at x >= -9819 |
| DriftField.FrameDelta | src/components/canvas/ArenaParticles.tsx:150 | the frame delta is clamped at 50 from above only |
| DriftField.CursorForce | src/components/canvas/ArenaParticles.tsx:174-182 | no force unless 1 < dist < radius |
| DriftField.Push | src/components/canvas/ArenaParticles.tsx:174-182 | the pointer changes the velocity only when its distance along the force axis is strictly between 1 and the radius (direction: PushDirection) |
| DriftField.ForceDirection | src/components/canvas/LabConstellation.tsx:123-131 | inside the guard the force is collinear with the offset, with the same signs |
| DriftField.ForceMagnitude | src/components/canvas/ConstellationCanvas.tsx:120-128 | inside the guard the force's length is (1 - dist/radius) * strength |
| DriftField.PushDirection | src/components/canvas/ArenaParticles.tsx:174-182 | a repelling scene pushes away from the pointer and an attracting one pulls toward it |
| DriftField.FarPointerNoPush | src/components/canvas/ArenaParticles.tsx:174-182 | a pointer at least the radius away along either axis, on either side, exerts no force |
| DriftField.Step | src/components/canvas/ArenaParticles.tsx:164-201 | a frame writes only x, y, vx, vy, rotation and alpha |
| DriftField.UpdateOrder | src/components/canvas/ArenaParticles.tsx:184-193 | force and spring 0.012 feed the velocity, damping scales it, then the position advances by it |
| DriftField.RestIsFixed | src/components/canvas/ConstellationCanvas.tsx:130-135 | a particle at rest on its drift target, out of the pointer's reach, stays put |
| DriftField.AlphaBounds | src/components/canvas/LabConstellation.tsx:144-146 | with breath in [-1, 1] alpha lies between (base - range) and (base + range) times the base alpha |
| DriftField.LineAlphaBounds | src/components/canvas/LabConstellation.tsx:160-162 | a pair strictly inside the distance gets line alpha in (0, alpha] |
| DriftField.BoostBounds | src/components/canvas/LabConstellation.tsx:166-173 | the cursor boost lies in [0, boost] and is 0 when the midpoint is the radius or farther away |
| DriftField.PairLink | src/components/canvas/LabConstellation.tsx:157-163 | a pair gets a line exactly when distSq < maxDist^2, strictly |
| DriftField.RowsComplete | src/components/canvas/LabConstellation.tsx:153-156 | every close pair of the first n rows is linked |
| DriftField.LinksExact | src/components/canvas/LabConstellation.tsx:153-163 | a pair i < j is linked iff it is close, and no pair is examined twice |
| DriftField.LinkAlphaBounds | src/components/canvas/LabConstellation.tsx:160-179 | every drawn stroke has alpha in (0, alpha + boost] |
| DriftField.UpdateParticles | src/components/canvas/LabConstellation.tsx:113-147 | the update loop steps every particle in place, leaving length and order alone |
| DriftField.Connect | src/components/canvas/LabConstellation.tsx:153-183 | the nested loop yields exactly the frame's links, computed on the updated particles |
| DriftField.ConnectRow | src/components/canvas/LabConstellation.tsx:155-182 | the inner loop yields row i's links |
| DriftField.Field.constructor | src/components/canvas/ArenaParticles.tsx:101-106 | refs start empty, pointer parked, clocks at 0 |
| DriftField.Field.Replace | src/components/canvas/LabConstellation.tsx:211-224 | a resize replaces the particle list wholesale |
| DriftField.Field.Start | src/components/canvas/LabConstellation.tsx:241-243 | the mount stamps the clock and requests the first frame |
| DriftField.Field.Stop | src/components/canvas/LabConstellation.tsx:249-254 | the cleanup cancels the pending frame |
| DriftField.Field.MouseMove | src/components/canvas/LabConstellation.tsx:226-231 | the pointer is stored in canvas coordinates |
| DriftField.Field.MouseLeave | src/components/canvas/LabConstellation.tsx:233-235 | the pointer is parked at the sentinel |
| DriftField.Field.Animate | src/components/canvas/ConstellationCanvas.tsx:91-195 | without canvas or context the loop stops; otherwise clamped clock, every particle stepped, links drawn, globalAlpha reset to 1, next frame requested |
| DotField.ParticleOf | src/components/canvas/LabConstellation.tsx:67-85 | a fresh dot rests on its base, with alpha, size, colour, phases and amplitudes in their intervals |
| DotField.Layout | src/components/canvas/LabConstellation.tsx:61-89 | the list holds the width-scaled count of dots, dot i made from draws 9i..9i+8 |
| DotField.InitParticles | src/components/canvas/ConstellationCanvas.tsx:61-89 | the builder's loop returns exactly the layout |
| DotField.NextParticle | src/components/canvas/ConstellationCanvas.tsx:67-85 | one loop pass makes exactly nine calls of the generator, and the particle is built from their values in source order |
| DotField.Resize | src/components/canvas/ConstellationCanvas.tsx:197-210 | with a canvas the list is rebuilt for the new size |
| DotField.Mount | src/components/canvas/ConstellationCanvas.tsx:223-229 | the mount builds the field, parks the pointer, stamps the clock and requests a frame |
| LabConstellation.Mount | src/components/canvas/LabConstellation.tsx:237-243 | the lab canvas mounts with seed 77701 and its own constants |
| LabConstellation.Counts | src/components/canvas/LabConstellation.tsx:64-65 | 220 dots at width >= 1920, 77 at width 0 |
| LabConstellation.Fresh | src/components/canvas/LabConstellation.tsx:67-85 | a fresh dot is at rest with alpha in [0.5, 1) and size in [2.24, 3.92) |
| LabConstellation.Attracts | src/components/canvas/LabConstellation.tsx:123-131 | the lab pulls dots toward the pointer |
| LabConstellation.AlwaysVisible | src/components/canvas/LabConstellation.tsx:144-146 | breathing alpha is at least 0.2 times the base alpha, so strictly positive |
| LabConstellation.LinkAlpha | src/components/canvas/LabConstellation.tsx:160-179 | every lab link has alpha in (0, 0.65] |
| LabConstellation.StrictThreshold | src/components/canvas/LabConstellation.tsx:157 | a pair at distance 140 or more gets no line |
| LabConstellation.SentinelIsInert | src/components/canvas/LabConstellation.tsx:233-235 | the parked pointer attracts no dot at x >= -9799 |
| ConstellationCanvas.Mount | src/components/canvas/ConstellationCanvas.tsx:223-229 | the home canvas mounts with seed 44444 and its own constants |
| ConstellationCanvas.Counts | src/components/canvas/ConstellationCanvas.tsx:63-65 | exactly 120 dots at width >= 1920, 42 at width 0 |
| ConstellationCanvas.Fresh | src/components/canvas/ConstellationCanvas.tsx:67-85 | a fresh dot is at rest with alpha in [0.4, 0.9) and size in [1.68, 3.12) |
| ConstellationCanvas.Attracts | src/components/canvas/ConstellationCanvas.tsx:120-128 | the constellation pulls dots toward the pointer |
| ConstellationCanvas.BreathingAlpha | src/components/canvas/ConstellationCanvas.tsx:137-138 | alpha stays within [0.25, 1.05] times the base alpha |
| ConstellationCanvas.LinkAlpha | src/components/canvas/ConstellationCanvas.tsx:142-164 | every link has alpha in (0, 0.45] |
| ConstellationCanvas.StrictThreshold | src/components/canvas/ConstellationCanvas.tsx:142-150 | a pair at distance 160 or more gets no line |
| ConstellationCanvas.SentinelIsInert | src/components/canvas/ConstellationCanvas.tsx:219-221 | the parked pointer attracts no dot at x >= -9819 |
| ParticleRing.GeometryOf | src/components/canvas/ParticleRing.tsx:62-78 | per-row base count floor(90m), rows floor(35m), centre and scale from the canvas size |
| ParticleRing.RowCount | src/components/canvas/ParticleRing.tsx:76-78 | a row never holds fewer particles than the per-row base count |
| ParticleRing.ParticleOf | src/components/canvas/ParticleRing.tsx:81-108 | a fresh particle sits on its base point with zero velocity and alpha at its base |
| ParticleRing.Placement | src/components/canvas/ParticleRing.tsx:79-86 | the angle is within 0.05 of 2*pi*i/n and the radius within 5*scale of the row radius |
| ParticleRing.RowParticles | src/components/canvas/ParticleRing.tsx:79-108 | a row holds RowCount particles, particle i from its own five draws |
| ParticleRing.InitParticles | src/components/canvas/ParticleRing.tsx:58-117 | the nested loops return the layout: rows inside out, each in order of angle |
| ParticleRing.InitRow | src/components/canvas/ParticleRing.tsx:79-108 | the inner loop builds one row and leaves the seed where the next row starts |
| ParticleRing.NextParticle | src/components/canvas/ParticleRing.tsx:81-108 | one inner pass makes exactly five draws, in source order |
| ParticleRing.SeedAdvance | src/components/canvas/ParticleRing.tsx:60-108 | the shared generator advances five increments per particle, across row boundaries too |
| ParticleRing.RowCountMonotone | src/components/canvas/ParticleRing.tsx:76-78 | outer rows never hold fewer particles |
| ParticleRing.RingSize | src/components/canvas/ParticleRing.tsx:70-78 | the total is the sum over rows, at least rows times the base count |
| ParticleRing.OnRing | src/components/canvas/ParticleRing.tsx:83-86 | a placed point lies at its radius from the centre |
| ParticleRing.JsRem | src/components/canvas/ParticleRing.tsx:144 | the remainder lies in [0, b) for a non-negative dividend and in (-b, 0] for a negative one: JavaScript `%` keeps the dividend's sign |
| ParticleRing.Progress | src/components/canvas/ParticleRing.tsx:144 | ripple progress lies in [0, 1) for a non-negative clock |
| ParticleRing.Kick | src/components/canvas/ParticleRing.tsx:154-164 | no kick unless the base point is within 150 of the pointer |
| ParticleRing.RingStep | src/components/canvas/ParticleRing.tsx:146-178 | a frame keeps the base, size, colour, angle and radius, and sets the ripple alpha |
| ParticleRing.UpdateOrder | src/components/canvas/ParticleRing.tsx:166-175 | position += velocity, velocity *= 0.92, then 8% of the way back to the base |
| ParticleRing.KickReadsBase | src/components/canvas/ParticleRing.tsx:154-164 | the kick depends on the base point, not the current position |
| ParticleRing.KickAway | src/components/canvas/ParticleRing.tsx:154-164 | the kick points away from the pointer |
| ParticleRing.RippleAlpha | src/components/canvas/ParticleRing.tsx:150-178 | with the sine in [-1, 1] the ripple keeps alpha in [0.5, 1] times the base alpha |
| ParticleRing.SentinelIsInert | src/components/canvas/ParticleRing.tsx:229-231 | the parked pointer at (-1000, -1000) kicks no particle based at non-negative coordinates |
| ParticleRing.RestIsFixed | src/components/canvas/ParticleRing.tsx:166-175 | a particle resting on its base with no kick stays there |
| ParticleRing.UpdateRing | src/components/canvas/ParticleRing.tsx:146-188 | the frame loop steps every particle in place |
| ParticleRing.Ring.constructor | src/components/canvas/ParticleRing.tsx:50-56 | no particles, pointer parked, clocks at 0 |
| ParticleRing.Ring.Resize | src/components/canvas/ParticleRing.tsx:197-215 | with a canvas the ring is rebuilt for the new size |
| ParticleRing.Ring.MouseMove | src/components/canvas/ParticleRing.tsx:217-227 | the pointer is stored in canvas coordinates |
| ParticleRing.Ring.MouseLeave | src/components/canvas/ParticleRing.tsx:229-231 | the pointer is parked at (-1000, -1000) |
| ParticleRing.Ring.Stop | src/components/canvas/ParticleRing.tsx:249-254 | the cleanup cancels the pending frame |
| ParticleRing.Ring.Animate | src/components/canvas/ParticleRing.tsx:119-194 | without canvas or context the loop stops; otherwise the ripple clock takes the raw delta, unclamped, and every particle steps |
| ParticleRing.Mount | src/components/canvas/ParticleRing.tsx:233-242 | the mount builds the ring, parks the pointer, stamps the clock and requests a frame |
| FinaleStars.StarOf | src/components/sections/Section5Finale.tsx:49-58 | a star lies on the canvas, size in [0.5, 2), alpha in [0.3, 1), speed and phase in range |
| FinaleStars.Sky | src/components/sections/Section5Finale.tsx:43-61 | the width-scaled count of stars, star i made from draws 6i..6i+5 |
| FinaleStars.InitStars | src/components/sections/Section5Finale.tsx:43-61 | the builder's loop returns exactly the sky |
| FinaleStars.NextStar | src/components/sections/Section5Finale.tsx:49-58 | one pass makes exactly six draws, in source order |
| FinaleStars.StarsInRange | src/components/sections/Section5Finale.tsx:49-58 | every star of the sky is on the canvas with its values in range |
| FinaleStars.ResizeKeepsStar | src/components/sections/Section5Finale.tsx:44-58 | from the same draws a resized star keeps size, alpha, speed and phase and scales its position |
| FinaleStars.WiderSkyHasMoreStars | src/components/sections/Section5Finale.tsx:45-46 | a wider canvas never has fewer stars |
| FinaleStars.TwinkleAlpha | src/components/sections/Section5Finale.tsx:81-84 | with the sine in [-1, 1] the drawn alpha lies in [0, alpha] |
| FinaleStars.DrawAlphas | src/components/sections/Section5Finale.tsx:74-90 | the star loop draws each star with its twinkle alpha, in order |
| FinaleStars.Finale.constructor | src/components/sections/Section5Finale.tsx:35-38 | no stars, clocks at 0, no frame pending |
| FinaleStars.Finale.Resize | src/components/sections/Section5Finale.tsx:95-108 | with a canvas the star list is replaced wholesale |
| FinaleStars.Finale.Animate | src/components/sections/Section5Finale.tsx:63-93 | without canvas or context the loop ends; otherwise dt = min(delta, 50), elapsed grows by dt, globalAlpha reset, next frame requested |
| FinaleStars.Finale.Stop | src/components/sections/Section5Finale.tsx:176-177 | the cleanup cancels the pending frame |
| FinaleStars.Mount | src/components/sections/Section5Finale.tsx:110-127 | with canvas and section the mount builds the sky, stamps the clock and requests a frame; without them it does nothing |
| FinaleStars.ResizeTwice | src/components/sections/Section5Finale.tsx:44-107 | two resizes to equal dimensions leave the same stars, since the generator is re-seeded |
| LabFlight.Edge | src/components/sections/Section1Lab.tsx:25 | the edge is in {0, 1, 2, 3} |
| LabFlight.OriginOf | src/components/sections/Section1Lab.tsx:25-39 | the per-edge bands for x and y, rotX and rotY in [-60, 60), rotZ in [-30, 30), scale in [0.3, 0.6) |
| LabFlight.StartsOffCard | src/components/sections/Section1Lab.tsx:27-32 | whatever the edge, a card starts outside the 160 x 160 square around its landing place |
| LabFlight.OriginFromOffCard | src/components/sections/Section1Lab.tsx:24-39 | an origin drawn from any seed starts off the landing square |
| LabFlight.FlightOrigins | src/components/sections/Section1Lab.tsx:24-40 | one origin per app, origin i drawn from seed 55555 after 7i draws |
| LabFlight.NextOrigin | src/components/sections/Section1Lab.tsx:24-39 | one callback of `map` makes exactly seven draws from the shared generator |
| LabFlight.BuildOrigins | src/components/sections/Section1Lab.tsx:16-40 | the module's table equals FlightOrigins(number of apps) |
| LabFlight.TableOffCard | src/components/sections/Section1Lab.tsx:24-40 | every card of the table starts off its landing square |
| AtomOrbit.DepthWithinRadius | src/components/ui/AtomOrbit.tsx:36-52 | a projected point's depth lies in [-R, R] |
| AtomOrbit.ProjectKeepsAxisDistance | src/components/ui/AtomOrbit.tsx:36-52 | the horizontal coordinate is r cos(theta), and with exact sine and cosine the tilt and the view turn the point about the horizontal axis, keeping its distance r sin(theta) from it |
| AtomOrbit.DepthFactorBounds | src/components/ui/AtomOrbit.tsx:251-269 | the depth factor lies in [0.6, 1], and is 0.8 when R is 0 |
| AtomOrbit.RingP | src/components/ui/AtomOrbit.tsx:211 | ringP is clamped to [0, 1] |
| AtomOrbit.RingOrder | src/components/ui/AtomOrbit.tsx:211-212 | a ring is skipped iff progress*1.4 <= 0.2*ri; outer rings lag inner ones; progress never shrinks ringP |
| AtomOrbit.FadeInBounds | src/components/ui/AtomOrbit.tsx:249 | past 0.6 the fade-in lies in (0, 1], and is 1 on a full ring |
| AtomOrbit.Pushed | src/components/ui/AtomOrbit.tsx:170-171 | a push appends the newest point and keeps the trail within 24 |
| AtomOrbit.Window | src/components/ui/AtomOrbit.tsx:11 | the kept window never exceeds 24 points |
| AtomOrbit.TrailIsWindow | src/components/ui/AtomOrbit.tsx:11-171 | from empty, the trail holds exactly the latest 24 points pushed, oldest first |
| AtomOrbit.InitialElectrons | src/components/ui/AtomOrbit.tsx:98-104 | one electron per ring at angle 2*pi*i/3, no trail, not orbiting |
| AtomOrbit.RingPaintAt | src/components/ui/AtomOrbit.tsx:211-254 | a ring is painted iff ringP > 0; its static electron iff not orbiting and ringP > 0.6 |
| AtomOrbit.DotBounds | src/components/ui/AtomOrbit.tsx:265-273 | a dot's age t/len lies in [0, 1), its radius is at least 0.3, the oldest dot is transparent |
| AtomOrbit.FrameOf | src/components/ui/AtomOrbit.tsx:189-301 | no context or zero width skips painting, near-zero opacity only clears, otherwise every ring and trail is painted |
| AtomOrbit.StaticElectronRule | src/components/ui/AtomOrbit.tsx:247-254 | a painted static electron has alpha in (0, master alpha], and its ring's trail then paints no orb |
| AtomOrbit.Atom.constructor | src/components/ui/AtomOrbit.tsx:95-104 | initial electrons, proxy at 0, no size yet |
| AtomOrbit.Atom.Play | src/components/ui/AtomOrbit.tsx:107-118 | `play` resets every electron and sets opacity and ring progress to 0 |
| AtomOrbit.Atom.Resize | src/components/ui/AtomOrbit.tsx:128-137 | the size is the parent's and R = min(0.22 w, 0.42 h) |
| AtomOrbit.Atom.StartOrbits | src/components/ui/AtomOrbit.tsx:153-176 | at 1.5 s every electron starts orbiting with the current radius |
| AtomOrbit.Atom.OrbitTick | src/components/ui/AtomOrbit.tsx:166-172 | a tween update moves the electron and pushes its projected point onto the trail |
| AtomOrbit.Atom.StopOrbits | src/components/ui/AtomOrbit.tsx:179-183 | at 8 s the tweens are killed and no electron orbits |
| AtomOrbit.Atom.Draw | src/components/ui/AtomOrbit.tsx:189-301 | `draw` paints the frame and requests the next one in every case |
| AtomOrbit.Atom.Unmount | src/components/ui/AtomOrbit.tsx:306-312 | the cleanup cancels the frame and kills the tweens |
| TypoMap.Neighbours | src/components/ui/TypewriterText.tsx:6-14 | each key has two neighbours or none |
| TypoMap.EntriesAreLetters | src/components/ui/TypewriterText.tsx:6-14 | the map has an entry for exactly the 26 lower-case letters |
| TypoMap.NeighboursDiffer | src/hooks/useTypewriter.ts:29-56 | no neighbour equals its key, even after upper-casing |
| TypoMap.TypoFor | src/components/ui/TypewriterText.tsx:83-86 | a typo exists iff the lower-cased char has an entry; lower case gets the neighbour, other chars its upper case |
| TypoMap.TypoDiffers | src/components/ui/TypewriterText.tsx:84-86 | a typo is never the intended character |
| JsString.CaseRoundTrip | src/components/ui/TypewriterText.tsx:79-86 | upper-casing undoes lower-casing on A-Z, and lower-casing undoes upper-casing on a-z |
| TypoMap.TypoKeepsCase | src/components/ui/TypewriterText.tsx:84-86 | a typo keeps the case of the letter it replaces |
| JsString.LowerCase | src/app/api/auth/me/route.ts:40 | `toLowerCase` maps each character, keeping the length |
| JsString.Lower | src/components/ui/TypewriterText.tsx:79 | `toLowerCase` on a character maps A-Z 32 code points up, onto a-z, and leaves the rest |
| JsString.Upper | src/components/ui/TypewriterText.tsx:86 | `toUpperCase` on a character maps a-z 32 code points down, onto A-Z, and leaves the rest |
| JsMath.Min | src/components/canvas/ArenaParticles.tsx:150 | `Math.min` is one of its arguments and at most both |
| JsMath.Max | src/components/canvas/ArenaParticles.tsx:112 | `Math.max` is one of its arguments and at least both |
| JsMath.Round | src/components/sections/Section3Shadow.tsx:136 | `Math.round` is the integer within half of x, halves going up |
| TypewriterText.Join | src/components/ui/TypewriterText.tsx:62-76 | a single line joins to itself; each further line adds "\n" and the line (see JoinSnoc) |
| TypewriterText.JoinSnoc | src/components/ui/TypewriterText.tsx:62-69 | joining one more line appends "\n" and the line |
| TypewriterText.JoinPrefix | src/components/ui/TypewriterText.tsx:62-76 | joining the first k lines gives a prefix of joining them all |
| TypewriterText.TypedChar | src/components/ui/TypewriterText.tsx:88-113 | typing the character at a position appends it and moves one column on |
| TypewriterText.TypedPrefix | src/components/ui/TypewriterText.tsx:88-113 | the text typed up to any position is a prefix of the whole text |
| TypewriterText.RandomDelay | src/components/ui/TypewriterText.tsx:45-46 | `getRandomDelay` lies in [min, max] |
| TypewriterText.CharDelay | src/components/ui/TypewriterText.tsx:116-123 | 280 after . ! ?, 140 after a comma, half a random delay after a space, a random delay otherwise |
| TypewriterText.DropLast | src/components/ui/TypewriterText.tsx:95 | `slice(0, -1)` drops the last character, and leaves the empty text empty |
| TypewriterText.DefaultDelays | src/components/ui/TypewriterText.tsx:27-123 | with the defaults a space waits 20-60 ms and a plain character 40-120 ms |
| TypewriterText.StartInv | src/components/ui/TypewriterText.tsx:36-44 | the invariant holds when the effect starts |
| TypewriterText.TypedLineEnd | src/components/ui/TypewriterText.tsx:61-75 | a line end appends "\n" when a line follows, and otherwise leaves the whole text |
| TypewriterText.StepInv | src/components/ui/TypewriterText.tsx:48-126 | every callback keeps the invariant: display is the typed text, or the typed text plus one typo |
| TypewriterText.TypeNextChar | src/components/ui/TypewriterText.tsx:48-126 | a timer is set exactly when the run goes on; a cancelled run stops; the text grows by at most one character; the run completes only past the last line, setting no timer |
| TypewriterText.Step | src/components/ui/TypewriterText.tsx:48-126 | a timer is set exactly when the run goes on; the backspace callback drops the last character; every other callback grows the text by at most one character |
| TypewriterText.TypoOnlyWhereAllowed | src/components/ui/TypewriterText.tsx:82 | a typo is made only when charIndex > 0, the roll is below typoChance and the char has a map entry |
| TypewriterText.DisplayPrefix | src/components/ui/TypewriterText.tsx:88-113 | the display is a prefix of the final text, optionally followed by one pending typo |
| TypewriterText.CompleteShowsAll | src/components/ui/TypewriterText.tsx:52-74 | once complete the display is the joined lines, the cursor is hidden and `onComplete` was called once |
| TypewriterText.CancelledStepInert | src/components/ui/TypewriterText.tsx:49-133 | after cancellation a callback changes nothing and sets no timer |
| TypewriterText.StepProgress | src/components/ui/TypewriterText.tsx:48-126 | every live callback does work, so the run completes; `onComplete` is counted once, at completion |
| TypewriterText.CompleteIsFinal | src/components/ui/TypewriterText.tsx:52-57 | a completed run stays as it is, so `onComplete` is never called twice |
| TypewriterText.Typing.constructor | src/components/ui/TypewriterText.tsx:36-129 | the effect starts with fresh closure variables |
| TypewriterText.Typing.Fire | src/components/ui/TypewriterText.tsx:48-126 | a pending callback moves the run by one step and sets the timer the step returns |
| TypewriterText.Typing.Cancel | src/components/ui/TypewriterText.tsx:131-133 | the cleanup sets the cancelled flag and nothing else |
| UseTypewriter.GetTypo | src/hooks/useTypewriter.ts:77-86 | a typo exists iff the char has an entry and the roll is below typoChance, with no first-character guard; it differs from the char |
| UseTypewriter.FirstCharMaySlip | src/hooks/useTypewriter.ts:77-146 | with the defaults the first character can come out as a typo ('a' as 's') |
| UseTypewriter.PausesOnFourChars | src/hooks/useTypewriter.ts:149 | the list's "..." never matches one character, so the pause follows exactly . , ! ? |
| UseTypewriter.TypedLinesJoin | src/hooks/useTypewriter.ts:96-119 | without empty later lines, the first k lines are shown joined with "\n" |
| UseTypewriter.HookTextJoins | src/hooks/useTypewriter.ts:88-170 | without empty later lines, `typeText` shows the lines joined with "\n" |
| UseTypewriter.EmptyLineDropsNewline | src/hooks/useTypewriter.ts:96-119 | an empty later line contributes no newline: ["a", "", "b"] shows "a\nb" |
| UseTypewriter.Hook.constructor | src/hooks/useTypewriter.ts:63-71 | empty display, not typing, not complete, line 0 |
| UseTypewriter.Hook.TypeText | src/hooks/useTypewriter.ts:88-170 | a call while typing returns at once; otherwise the display grows by HookText(lines) and the hook ends complete and not typing |
| UseTypewriter.Hook.TypeLines | src/hooks/useTypewriter.ts:93-162 | the outer loop appends every line's text in order |
| UseTypewriter.ShownAfterAppends | src/hooks/useTypewriter.ts:93-162 | typing the lines one after another onto a display appends exactly what `typeText` types |
| UseTypewriter.Hook.TypeLine | src/hooks/useTypewriter.ts:96-160 | one line appends its prefixed characters, every typo removed again |
| UseTypewriter.Hook.Keystroke | src/hooks/useTypewriter.ts:105-146 | a character, with or without a typo first, appends the prefix and the character |
| UseTypewriter.Hook.Restart | src/hooks/useTypewriter.ts:172-183 | `restart` resets to empty text, not typing, not complete, line 0, guard released |
| UseTypewriter.Hook.Unmount | src/hooks/useTypewriter.ts:185-192 | the cleanup releases the guard and changes no state |
| UseTypewriter.RestartThenType | src/hooks/useTypewriter.ts:88-183 | after a restart `typeText` shows exactly HookText(lines) |
| AutoTypewriter.AutoDelay | src/hooks/useTypewriter.ts:294-301 | the punctuation pause after . ! ? when enabled, 200 after a comma, a random delay otherwise |
| AutoTypewriter.BeginInv | src/hooks/useTypewriter.ts:217-223 | the invariant holds when the start timer fires |
| AutoTypewriter.AutoStepInv | src/hooks/useTypewriter.ts:228-303 | every callback keeps the invariant: the display is a prefix of the text, up to hidden newlines, or one pending typo |
| AutoTypewriter.AutoStep | src/hooks/useTypewriter.ts:229-303 | a timer is set exactly when typing goes on; completing turns typing off past the last line; the text grows by one character or loses its last |
| AutoTypewriter.LineEndInv | src/hooks/useTypewriter.ts:253-266 | a line end keeps the invariant; the "\n" it appends is not shown until the next character |
| AutoTypewriter.LastLineEnd | src/hooks/useTypewriter.ts:253-266 | at the last line's end the display equals the text iff that line is non-empty or the only one |
| AutoTypewriter.AutoFinish | src/hooks/useTypewriter.ts:253-264 | once complete the text is the joined lines and typing is off; the display equals it iff the last line is non-empty or the only one |
| AutoTypewriter.FirstCharExact | src/hooks/useTypewriter.ts:272-276 | the first character of a line is never a typo |
| AutoTypewriter.AutoProgress | src/hooks/useTypewriter.ts:228-303 | every callback of an unfinished run does work, so the run completes |
| AutoTypewriter.EffectAsWritten | src/hooks/useTypewriter.ts:213-217 | the effect as written sets the started flag before its timer fires |
| AutoTypewriter.Cleanup | src/hooks/useTypewriter.ts:308 | the cleanup clears the start timer and nothing else |
| AutoTypewriter.StartLostAsWritten | src/hooks/useTypewriter.ts:213-309 | as written, mount, cleanup and effect leave the flag set and no timer, and every later re-render keeps it so |
| AutoTypewriter.Effect | src/hooks/useTypewriter.ts:213-217 | the corrected effect sets the start timer whenever typing has not begun |
| AutoTypewriter.Fire | src/hooks/useTypewriter.ts:217-223 | the start timer firing sets the flag and begins typing |
| AutoTypewriter.StartKept | src/hooks/useTypewriter.ts:213-308 | corrected: re-renders keep a start timer pending until typing begins, and never start twice |
| AutoTypewriter.StrictModeStarts | src/hooks/useTypewriter.ts:213-308 | corrected: mount, cleanup and mount again leave the start timer set |
| AutoTypewriter.AutoHook.constructor | src/hooks/useTypewriter.ts:203-217 | the mount shows the initial state and runs the effect |
| AutoTypewriter.AutoHook.Rerender | src/hooks/useTypewriter.ts:308-309 | a re-render runs the cleanup then the corrected effect; a timer is pending iff typing has not begun |
| AutoTypewriter.AutoHook.Unmount | src/hooks/useTypewriter.ts:308 | the unmount clears only the start timer |
| AutoTypewriter.AutoHook.Start | src/hooks/useTypewriter.ts:217-223 | the start timer fires: typing is on and the first `type` is pending |
| AutoTypewriter.AutoHook.Step | src/hooks/useTypewriter.ts:228-303 | a pending callback moves the run by one step and sets the timer the step returns |
| AppsData.IdsWithRole | src/data/apps.ts:72-123 | an id is listed exactly when some node with the given role has it, and there are no more ids than nodes |
| AppsData.IdsConcat | src/data/apps.ts:72-123 | the ids come in table order: the ids of two tables laid end to end are the first table's ids followed by the second's |
| AppsData.IdsSingleton | src/data/apps.ts:72-123 | one node gives its id exactly when it has the role, and nothing otherwise |
| AppsData.NodeRoles | src/data/apps.ts:72-123 | three 'user' nodes (agency, tasks, party) and three 'admin' nodes (purchase, workflows, moltbot) |
| AppsData.NodeIdsDistinct | src/data/apps.ts:74-116 | node ids are pairwise distinct and none is 'admin-panel' |
| AppsData.WarningsOnAdminNodes | src/data/apps.ts:112-121 | only admin nodes carry a warning |
| AppsData.LabAppsOpen | src/data/apps.ts:28-70 | four lab apps, all open to guests; only 'pantiesfan' has a badge, '18+' |
| AppsData.AiToolIdsDistinct | src/data/apps.ts:134-184 | seven AI tools with distinct ids |
| ShadowAccess.ViewerOf | src/components/sections/Section3Shadow.tsx:75 | no user is a guest; the admin role is an admin |
| ShadowAccess.VisibleNodes | src/components/sections/Section3Shadow.tsx:77-79 | the table, plus the admin panel iff the viewer is an admin |
| ShadowAccess.UnlockMonotone | src/components/sections/Section3Shadow.tsx:81-85 | a node open to a viewer is open to every viewer of higher rank |
| ShadowAccess.IsNodeUnlocked | src/components/sections/Section3Shadow.tsx:81-85 | a node is open exactly to viewers ranked at least user for 'user' nodes and admin for 'admin' nodes |
| ShadowAccess.AdminOpensAll | src/components/sections/Section3Shadow.tsx:82 | an admin unlocks every node |
| ShadowAccess.UserOpensUserNodes | src/app/shadow/page.tsx:87-91 | a user unlocks exactly the 'user' nodes and a guest none |
| ShadowAccess.AdminOpensAppended | src/app/shadow/page.tsx:83-85 | an admin also unlocks the appended admin panel, last |
| ShadowAccess.TableIds | src/data/apps.ts:72-123 | the node table's ids, in order: agency, tasks, party, purchase, workflows, moltbot |
| ShadowAccess.AdminUnlocksAll | src/components/sections/Section3Shadow.tsx:77-85 | on the page an admin opens the table's six nodes, then the admin panel |
| ShadowAccess.UserAndGuestUnlocks | src/app/shadow/page.tsx:83-91 | a user opens agency, tasks and party; a guest opens nothing |
| ShadowAccess.ClickByRole | src/components/sections/Section3Shadow.tsx:241-244 | an unlocked node opens its URL; a locked one opens the login modal for a guest and does nothing for a user |
| ShadowAccess.ClickAction | src/components/sections/Section3Shadow.tsx:241-244 | a click opens the node's URL iff it is unlocked, and opens the login modal iff the viewer is a guest |
| ShadowAccess.CardFor | src/app/shadow/page.tsx:162-195 | the card rendered for a node carries that node |
| ShadowAccess.Cards | src/components/sections/Section3Shadow.tsx:236-272 | one card per visible node, in order |
| ShadowAccess.VeilsAgree | src/components/sections/Section3Shadow.tsx:259-270 | a card is veiled iff it is locked; every veil has a caption, and it opens the login modal exactly where a click on the node would |
| ShadowAccess.PageView | src/app/shadow/page.tsx:93-100 | the page shows the grid only once mounted |
| ShadowAccess.SignedOutPage | src/app/shadow/page.tsx:76-91 | after logout the page shows the six table nodes, each veiled with "LOGIN TO ACCESS" |
| ShadowAccess.AdminLoginPage | src/app/shadow/page.tsx:83-91 | after an admin login the admin panel is shown last, unlocked |
| ShadowAccess.TitleProgress | src/components/sections/Section3Shadow.tsx:130-138 | the title at c is the first c letters, followed by '_' exactly when c < 14 |
| ShadowAccess.TitleAt | src/components/sections/Section3Shadow.tsx:137 | before the end, the first c letters and a '_' (c + 1 characters); from 14 on, the whole title |
| ShadowAccess.TitleFrame | src/components/sections/Section3Shadow.tsx:135-138 | the rounded counter shows the whole title from 13.5 on, and a cursor before |
| ShadowAccess.FadeBounds | src/components/sections/Section3Shadow.tsx:169-174 | opacity 1 up to 0.8, then falling linearly to 0 at 1; never rising, within [0, 1] |
| ShadowAccess.Fade | src/components/sections/Section3Shadow.tsx:169-174 | opacity 1 up to 0.8, within [0, 1] on [0.8, 1], and at most 0 from 1 on |
| ShadowAccess.Section.constructor | src/components/sections/Section3Shadow.tsx:71-72 | no interval, not played, opacity 1, and the played mark in step with the timeline |
| ShadowAccess.Section.StartDataFlicker | src/components/sections/Section3Shadow.tsx:86-96 | a new interval only when none is running |
| ShadowAccess.Section.StopDataFlicker | src/components/sections/Section3Shadow.tsx:98-100 | the running interval is cleared once and the handle reset to null |
| ShadowAccess.Section.ScrollUpdate | src/components/sections/Section3Shadow.tsx:163-174 | the current timeline is played once, the first time progress is positive and only if not yet marked played; opacity follows the fade |
| ShadowAccess.StartTwiceThenStop | src/components/sections/Section3Shadow.tsx:86-100 | two starts leave the first interval; a stop clears exactly that one |
| ShadowAccess.Section.RerunAsWritten | src/components/sections/Section3Shadow.tsx:103-185 | a re-run of the effect stops the flicker and leaves an unplayed timeline, while the played mark keeps its value |
| ShadowAccess.Section.Rerun | src/components/sections/Section3Shadow.tsx:103-185 | the corrected re-run: the flicker stopped, a fresh unplayed timeline, and the played mark cleared with it |
| ShadowAccess.BlankAfterRerun | src/components/sections/Section3Shadow.tsx:164-167 | after the section played, a re-run as written is never followed by a play, whatever the scroll reports, and the flicker stays off |
| ShadowAccess.ShownAfterRerun | src/components/sections/Section3Shadow.tsx:164-167 | after the corrected re-run the new timeline plays exactly when some later scroll update reports positive progress |
| AuthStore.AdminSpellings | src/app/api/auth/me/route.ts:40 | a role is admin iff it spells "admin" in any mix of cases; a missing role is 'user' |
| AuthStore.NormalizeRole | src/app/api/auth/me/route.ts:40 | a missing role is 'user'; an admin role is five characters long (the full iff is AdminSpellings) |
| AuthStore.NormalizeRoleName | src/app/api/auth/login/route.ts:57 | normalising a normalised role's name gives the role back |
| AuthStore.AfterLogin | src/store/useAuthStore.ts:35-43 | success stores the user and closes the modal; failure leaves user and modal; loading ends either way |
| AuthStore.AfterLogout | src/store/useAuthStore.ts:46-52 | logout clears only the user |
| AuthStore.AfterFetchMe | src/store/useAuthStore.ts:54-61 | the answered user, or none on any failure |
| AuthStore.OpenModal | src/store/useAuthStore.ts:63-65 | the modal opens with the given redirect, or null |
| AuthStore.CloseModal | src/store/useAuthStore.ts:67-69 | the modal closes and the redirect becomes null |
| AuthStore.CloseForgetsRedirect | src/store/useAuthStore.ts:63-69 | closing forgets whatever redirect opening recorded |
| AuthStore.LoginFromModal | src/store/useAuthStore.ts:35-65 | a successful login from the modal closes it and keeps the redirect |
| AuthStore.LogoutStable | src/store/useAuthStore.ts:46-61 | logout is idempotent and a failed `fetchMe` keeps it signed out |
| AuthStore.Store.constructor | src/store/useAuthStore.ts:29-33 | no user, not loading, modal closed, no redirect |
| AuthStore.Store.Login | src/store/useAuthStore.ts:35-44 | the new state is AfterLogin; a failure raises "Invalid credentials" |
| AuthStore.Store.Logout | src/store/useAuthStore.ts:46-52 | the user is cleared even when the request fails, and the failure propagates |
| AuthStore.Store.FetchMe | src/store/useAuthStore.ts:54-61 | the new state is AfterFetchMe; nothing is raised |
| AuthStore.Store.OpenLoginModal | src/store/useAuthStore.ts:63-65 | the new state is OpenModal |
| AuthStore.Store.CloseLoginModal | src/store/useAuthStore.ts:67-69 | the new state is CloseModal |
| HomeScroll.MarksFor | src/app/page.tsx:57-63 | the hero ends at h, the lab at 4.6h with a 3h band, then 5.6h, 6.6h and 7.6h |
| HomeScroll.ActiveSection | src/app/page.tsx:65-77 | the index is in 0..5, and 0 above one screen |
| HomeScroll.ActiveCountsStarts | src/app/page.tsx:57-77 | the index is the number of section starts scrolled past |
| HomeScroll.Passed | src/app/page.tsx:57-77 | between 0 and 5 starts; none above one screen and all five from 7.6 screens on, for a non-negative height |
| HomeScroll.ActiveMonotone | src/app/page.tsx:65-77 | scrolling down never moves the active section up |
| HomeScroll.IconWaveMarksLab | src/app/page.tsx:58-68 | the icon-wave band below the hero activates the lab's dot |
| LabCard.TiltAt | src/components/ui/LabCard.tsx:23-28 | the tilt for a pointer at (x, y) in a card of positive size; its 8-degree bound is TiltBounded and its directions TiltDirections |
| LabCard.TiltBounded | src/components/ui/LabCard.tsx:26-28 | a pointer inside the card tilts it at most 8 degrees about each axis |
| LabCard.TiltDirections | src/components/ui/LabCard.tsx:23-28 | zero tilt at the centre; rotateY > 0 iff right of centre, rotateX > 0 iff above; a corner gives 8 |
| LabCard.AfterMove | src/components/ui/LabCard.tsx:15-35 | a move writes the tilt for the pointer's place and shows the glow under it |
| LabCard.AfterLeave | src/components/ui/LabCard.tsx:37-44 | a leave clears the transform and hides the glow |
| LabCard.LeaveRestores | src/components/ui/LabCard.tsx:37-71 | leaving after a move restores the rendered look; leaving twice is leaving once |
| LabCard.Card.constructor | src/components/ui/LabCard.tsx:12-71 | no transform, glow hidden, refs not attached |
| LabCard.Card.Attach | src/components/ui/LabCard.tsx:12-13 | attaching the refs changes no style |
| LabCard.Card.MouseMove | src/components/ui/LabCard.tsx:15-35 | with refs the look becomes AfterMove; without them nothing is written |
| LabCard.Card.MouseLeave | src/components/ui/LabCard.tsx:37-44 | with refs the look becomes AfterLeave; without them nothing is written |
| CursorFollower.Lerp | src/components/ui/CursorFollower.tsx:62-63 | a lag of 0 leaves the position where it is and a lag of 1 lands on the target (the general step is LerpGap) |
| CursorFollower.LerpGap | src/components/ui/CursorFollower.tsx:62-63 | one step scales the gap to the target by (1 - lag) |
| CursorFollower.LerpContracts | src/components/ui/CursorFollower.tsx:62-63 | for lag in (0, 1] the gap never grows, shrinks strictly when lag < 1, and lag = 1 lands on the target |
| CursorFollower.LerpNGap | src/components/ui/CursorFollower.tsx:56-76 | after n frames the gap is (1 - lag)^n of the first |
| CursorFollower.RingWidth | src/components/ui/CursorFollower.tsx:100-101 | 48 while hovering an interactive element, ringSize otherwise |
| CursorFollower.Place | src/components/ui/CursorFollower.tsx:69-72 | the dot is centred on the target without lag, the ring offset by half its prop size from the eased position |
| CursorFollower.RingCentre | src/components/ui/CursorFollower.tsx:69-101 | the ring is centred on the eased position except while hovering, when the defaults put it 10 px off |
| CursorFollower.Follower.constructor | src/components/ui/CursorFollower.tsx:20-24 | position and target start at (-100, -100), hidden, not hovering |
| CursorFollower.Follower.Mount | src/components/ui/CursorFollower.tsx:26-82 | listeners and the loop are installed only for a fine pointer |
| CursorFollower.Follower.MouseMove | src/components/ui/CursorFollower.tsx:33-53 | a move sets the target, shows the cursor and sets the hover flag |
| CursorFollower.Follower.EnterLeave | src/components/ui/CursorFollower.tsx:38-39 | entering shows the cursor and leaving hides it |
| CursorFollower.Follower.Frame | src/components/ui/CursorFollower.tsx:56-76 | with both elements the position eases one step and both are placed |
| CursorFollower.Follower.Frames | src/components/ui/CursorFollower.tsx:56-76 | n frames close all but (1 - lag)^n of the gap |
| CursorFollower.Follower.Unmount | src/components/ui/CursorFollower.tsx:84-90 | the cleanup removes the listeners and cancels the loop |

## Left out

- Mulberry32.Rng: the seed is an unbounded integer, as the JavaScript number is never reduced. The model is exact only while the seed stays below 2^53, where JavaScript addition is exact. The 32-bit operations are modelled on naturals below 2^32 (xor and or bit by bit, shifts as halvings), which is equivalent to ToUint32 and ToInt32 on integral values.
- IEEE double rounding is not modelled; every quantity is a Dafny `real`. Boundary cases that depend on rounding (a width of exactly 672, a floor at a ceiling) hold over the reals but may differ in doubles.
- `Math.sin`, `Math.cos`, `Math.sqrt` and `Math.atan2` are oracle functions. Their ranges and exactness appear only as lemma preconditions (DriftField.ExactSqrt, AtomOrbit's unit circle).
- Canvas drawing (arcs, gradients, glyph paths, the nucleus pulse and the ring pen passes), DPR surface sizing and CSS transforms are not modelled. AtomOrbit.FrameOf records only what each frame paints and with which alpha.
- `requestAnimationFrame`, `setTimeout`, `setInterval`, promises and React state batching are explicit method calls in the order the browser would run them. Timer handles are positive integers passed in.
- `Math.random` draws (typo roll, typo pick, delay roll, flicker index) are inputs in [0, 1). The typewriters' `Draws` record holds one callback's worth.
- GSAP and ScrollTrigger choreography is not modelled. Only the callbacks the core files hand them are: the orbit tween updates, the 1.5 s and 8 s calls, the title's onUpdate and the pin's onUpdate.
- JsString.Lower: `toLowerCase` and `toUpperCase` are modelled on ASCII letters only. Non-ASCII case mappings (such as the Kelvin sign lower-casing to 'k') are not.
- UseTypewriter.Hook.TypeText: `typeText` runs to completion. A `restart` or unmount during one of its awaits (which would abandon the pending timer) is not modelled, and the waits are not returned.
- TypewriterText, UseTypewriter, AutoTypewriter and ShadowAccess.TitleAt: JavaScript indexes, measures and slices strings by UTF-16 code unit, while the model's strings are sequences of Unicode scalar values. A character outside the Basic Multilingual Plane (an emoji, say) takes two callbacks in the source, and the first shows a lone surrogate; the model types it in one step. The lines the site passes are all within that plane.
- TypewriterText.Typing: a re-run of the effect on prop changes is not modelled. One run is one `Typing` object, and its cleanup is `Cancel`.
- AtomOrbit.Atom: the orbit tweens are not tracked one by one. A flag says whether they run, plus the radius they captured. AtomOrbit.DepthWithinRadius needs the radius unchanged since the tweens started.
- LabCard.TiltAt: requires a card of positive width and height. The source would divide by zero on an empty box, which a rendered card never has. The transform's constant perspective, lift and scale are not modelled.
- CursorFollower.Follower: the effect re-installs its listeners whenever `isVisible` changes; the model installs them once. Whether the hovered element is interactive is an input.
- HomeScroll.ActiveCountsStarts: stated for a non-negative window height. HomeScroll.ActiveMonotone and HomeScroll.IconWaveMarksLab are likewise.
- The auth API routes' proxying, cookies and the HTTP client are not modelled. Only their role normalisation feeds the store's `User` records.
- The presentation components, page shells, GSAP-only sections (arena, AI tools, awakening), MatrixRain's shader and the layout are not part of this model.

## Findings

| source | as written | input that shows it | evidently intended | confidence | as-written member | corrected member |
|---|---|---|---|---|---|---|
| src/hooks/useTypewriter.ts:213-217, 308-309 | `useAutoTypewriter`'s effect sets `hasStartedRef` before its start timer fires. Its dependencies include `opts`, a new object on every render, so each re-render runs the cleanup, which clears the timer, and then returns early on the flag. | Mount, then re-render before `startDelay` elapses (React's development strict mode does this on every mount): the flag is set, no timer is pending, and typing never begins | typing starts once per mount, whatever the re-renders | not executed; medium | AutoTypewriter.StartLostAsWritten | AutoTypewriter.StartKept |
| src/components/sections/Section3Shadow.tsx:119-122, 164-167, 185 | The effect depends on `visibleNodes.length`. A re-run hides every node and builds a new paused timeline, but `hasPlayedRef` stays true, so the pin's update never plays it. | A guest scrolls into the section, opens a locked node's login modal and signs in as an admin: six nodes become seven, and the section stays blank with no flicker | the rebuilt timeline plays once the scroll reports progress again | not executed; medium | ShadowAccess.BlankAfterRerun | ShadowAccess.ShownAfterRerun |

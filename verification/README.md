# Cloudy-sky background: a verified model of its simulation state

The light theme of the portfolio draws an animated sky on a full-window canvas
(`components/CloudySkyBackground.tsx`). Three pieces of state sit behind the drawing.

- **Cloud pool.** The pool is filled on initialisation, layer by layer. Each layer gets
  `max(2, floor(count * width / 1920))` clouds. On every frame each cloud drifts right by its own
  speed. Once it is entirely past the right edge, it is moved back to two sizes left of the canvas
  at a new random height.
- **Grassland.** This is three layers of hill control points, created once per initialisation.
- **Aeroplane.** There is a single plane, either parked or flying. A spawn is attempted with
  probability 0.001 per frame and does nothing while a plane is flying. A flying plane moves 3 units
  per frame and pushes its position onto a trail. When the trail exceeds 150 points, the oldest
  point is dropped. The plane lands once it is further right than `width + 150`.

This project models that state and proves its properties in Dafny. It has these modules:

- `SkyConfig` (`sky_config.dfy`): the layer tables and constants, and the random-draw stream.
- `Clouds` (`clouds.dfy`): cloud and puff creation, one frame of drift, and the pass over the pool.
- `Population` (`population.dfy`): how many clouds each layer gets, which pool slots belong to
  which layer, and the two loops over the pool: its creation and the cloud pass.
- `Grassland` (`grassland.dfy`): hill generation.
- `Aeroplane` (`aeroplane.dfy`): spawn, one frame of flight, and the bounded trail buffer.
- `Sky` (`sky.dfy`): class `CloudySky`. It holds what the component keeps in its refs, plus the
  canvas size. Its methods model `init`, `spawnAeroplane` and the state-changing part of `animate`.
  Each method is proved against the pure functions of the modules above.

`Math.random()` is modelled as a stream `rand: nat -> real`, where `rand(k)` is the k-th value
returned. `Uniform(rand)` says that every value lies in [0, 1). Each operation takes the index of
its first draw and returns the index of the next unused one. Draws are used in the source's
evaluation order:

- a new cloud takes size, x, y and speed, then dx, dy and r for each puff;
- each hill point takes one draw;
- in a frame, each wrapping cloud takes one draw, then the spawn roll takes one, then the new
  plane's height takes one, but only if a plane is actually spawned.

The canvas width and height are natural numbers, because the canvas takes the element's integer
client size. Positions are reals.

Two details of the code worth noting; the model follows the code:

- The cloud count per layer is `max(2, floor(count * width / 1920))`. It depends on the width
  only, not on the height, and it rounds down. At width 1920 the counts are 12/8/5; at 960 they
  are 6/4/2 (`Population.ReferenceCounts`).
- Re-initialisation does not discard the aeroplane's state. `init` only clears the `active` flag.
  The plane's position and trail remain until the next spawn replaces them
  (`Sky.CloudySky.Init`, `plane == old(plane).(active := false)`).

## Model

| member | source | states |
|---|---|---|
| `Clouds.PuffCount` | components/CloudySkyBackground.tsx:63 | a cloud has at least 6 puffs, and the count is the n with (n-6)*30 <= size < (n-5)*30, i.e. floor(size/30) + 6 |
| `Clouds.DrawPuff` | components/CloudySkyBackground.tsx:65-69 | a puff drawn for a cloud of this size has dx in [-0.45 size, 0.45 size), dy in [-0.175 size, 0.175 size), and radius in [size/6, size/4 + size/6) |
| `Clouds.CreateCloudPuffs` | components/CloudySkyBackground.tsx:61-72 | returns exactly floor(size/30) + 6 puffs; puff i is built from draws k+3i .. k+3i+2; every puff fits the cloud; 3 draws are used per puff |
| `Clouds.CloudFrom` | components/CloudySkyBackground.tsx:74-82 | a cloud with a size drawn for its layer, x from (width + 2·size)·r1 - size, y from 0.55·height·r2 and speed from (0.75 + 0.5·r3) × layer speed keeps that size and those puffs, belongs to the layer and is placed as a new cloud |
| `Clouds.CreateCloud` | components/CloudySkyBackground.tsx:74-83 | the new cloud has size in [0.75, 1.25) × baseSize, speed in [0.75, 1.25) × layer speed, x in [-size, width + size), y in [0, 0.55 height), and floor(size/30) + 6 puffs that fit it; 4 + 3·puffs draws are used |
| `Clouds.StepCloud` | components/CloudySkyBackground.tsx:224-228 | one frame never changes size, speed or puffs; a cloud whose moved x is more than its size past the right edge goes to x = -2·size; any other cloud only moves right by its speed, with y untouched |
| `Clouds.StepCloudStaysInSky` | components/CloudySkyBackground.tsx:223-228 | a cloud in its band (-2·size <= x <= width + size, y in [0, 0.55 height)) stays in it, whatever draw a wrap uses |
| `Clouds.WrapCount` | components/CloudySkyBackground.tsx:225-227 | the number of clouds that wrap in a frame is at most the pool size |
| `Clouds.StepPool` | components/CloudySkyBackground.tsx:223-230 | the cloud pass keeps the pool size and uses exactly one draw per wrapping cloud |
| `Clouds.StepPoolAt` | components/CloudySkyBackground.tsx:223-230 | cloud i after the pass is cloud i stepped with the draw that follows those used by the wrapping clouds before it, so clouds are updated in pool order |
| `Clouds.StepPoolPush` | components/CloudySkyBackground.tsx:223-230 | the pass over the first i+1 clouds is the pass over the first i, followed by cloud i stepped with the next unused draw, which it uses only if it wraps |
| `Clouds.CreationDrawsAppend` | components/CloudySkyBackground.tsx:197-205 | the draws taken to create a pool are those of its first part followed by those of the rest, 4 + 3·puffs per cloud |
| `Clouds.CreateLayerClouds` | components/CloudySkyBackground.tsx:202-204 | returns exactly `count` clouds, each created from `layer` and placed as a new cloud, using exactly the draws their creation takes |
| `Clouds.StepPoolKeepsClouds` | components/CloudySkyBackground.tsx:223-230 | the pass keeps every cloud's size, speed and puffs, and keeps every cloud in its band |
| `Clouds.StepPoolKeepsLayers` | components/CloudySkyBackground.tsx:223-230 | the pass keeps every cloud a member of the layer it was created from (size, speed and puffs within that layer's ranges) |
| `Population.LayerCount` | components/CloudySkyBackground.tsx:198-201 | a layer gets at least 2 clouds, at least floor(count·width/1920), and exactly one of those two values |
| `Population.LayerCountMonotone` | components/CloudySkyBackground.tsx:198-201 | a wider canvas never gets fewer clouds in a layer |
| `Population.TotalCount` | components/CloudySkyBackground.tsx:197-205 | the pool holds at least 2 clouds per layer |
| `Population.Layout` | components/CloudySkyBackground.tsx:196-205 | the pool has one slot per cloud, and every slot belongs to a configured layer |
| `Population.LayoutSegment` | components/CloudySkyBackground.tsx:197-205 | the clouds of layer i fill the LayerCount(layer i) slots right after those of layers 0..i-1 (layer order) |
| `Population.ReferenceCounts` | components/CloudySkyBackground.tsx:198-201 | at width 1920 the layers get 12, 8 and 5 clouds (25 in all); at width 960 they get 6, 4 and 2 (12 in all) |
| `Population.PoolIsSumOfLayers` | components/CloudySkyBackground.tsx:196-205 | the pool size is the sum of the three layer counts |
| `Population.PoolAtLeastSix` | components/CloudySkyBackground.tsx:197-205 | however narrow the canvas, the pool holds at least 6 clouds |
| `Population.DriftPool` | components/CloudySkyBackground.tsx:223-230 | the in-place loop over the pool computes exactly the cloud pass `StepPool`: the same clouds and the same next draw; a pool laid out by layer stays laid out |
| `Population.CreatePool` | components/CloudySkyBackground.tsx:196-205 | the new pool has one cloud per slot of `Layout`, each created from its slot's layer and placed as a new cloud, using exactly the draws of their creation |
| `Grassland.CreateHills` | components/CloudySkyBackground.tsx:87-96 | a layer gets exactly `points` hill points; x runs from -0.1·width to 1.1·width in equal steps of 1.2·width/(points-1); each y is in (height·layer.y - amplitude, height·layer.y]; one draw is used per point |
| `Grassland.EvenlySpaced` | components/CloudySkyBackground.tsx:87-92 | points at x = j·segmentWidth - 0.1·width, with (points-1)·segmentWidth = 1.2·width, start at -0.1·width, end at 1.1·width and are one segment apart |
| `Grassland.CreateGrassland` | components/CloudySkyBackground.tsx:85-98 | one layer per configuration entry, in order, each with its colour and hills as above; the 5 + 7 + 10 hill points use exactly 22 draws |
| `Aeroplane.Spawn` | components/CloudySkyBackground.tsx:100-108 | does nothing to a flying plane; otherwise gives a flying plane at x = -25 with an empty trail and y in [0.05 height, 0.25 height) |
| `Aeroplane.PushTrail` | components/CloudySkyBackground.tsx:239-242 | the trail grows by one up to 150 points and then keeps its length; the new point is last; the surviving points are the newest of the old trail, in their order (the oldest is dropped on overflow) |
| `Aeroplane.Advance` | components/CloudySkyBackground.tsx:236-247 | a flying plane moves right by exactly 3 with y unchanged, and pushes its new position onto the trail; it is still flying exactly when the new x <= width + 150; a parked plane does not change |
| `Aeroplane.AdvanceKeepsTrail` | components/CloudySkyBackground.tsx:238-242 | the trail stays at most 150 long and holds the plane's latest positions, oldest first, 3 apart, at the plane's height; after a move its newest point is the plane's position |
| `Aeroplane.SpawnKeepsInFlight` | components/CloudySkyBackground.tsx:100-108 | a spawn attempt keeps the trail invariant, and a new plane starts in its height band at x = -25 with no trail |
| `Aeroplane.AdvanceKeepsInFlight` | components/CloudySkyBackground.tsx:236-247 | a frame of flight keeps the trail invariant; a flying plane stays in its height band, between -25 and width + 150, and its trail holds no point from before its spawn |
| `Aeroplane.FlightSteps` | components/CloudySkyBackground.tsx:244-246 | the number of frames a plane flies is the first n with -25 + 3n > width + 150 |
| `Aeroplane.SpawnedFlight` | components/CloudySkyBackground.tsx:236-246 | n frames after a spawn the plane is at x = -25 + 3n at its spawn height, with min(n, 150) trail points; it is flying exactly while n < FlightSteps(width) |
| `Sky.CloudySky.constructor` | components/CloudySkyBackground.tsx:48-50 | the refs start with empty pools and a parked plane at (0, 0) with no trail |
| `Sky.CloudySky.Init` | components/CloudySkyBackground.tsx:193-208 | sets the size; refills the pool in layer order with LayerCount clouds of each layer, each placed as a new cloud; rebuilds the grassland; only grounds the plane; keeps the object invariant; uses exactly the draws of the clouds' creation followed by the 22 of the grassland |
| `Sky.CloudySky.StepClouds` | components/CloudySkyBackground.tsx:223-230 | updates the pool in place, cloud by cloud, to exactly the result of the cloud pass `StepPool`, using a draw only for a wrap; changes nothing but the pool; keeps the object invariant and the per-layer population |
| `Sky.CloudySky.SpawnAeroplane` | components/CloudySkyBackground.tsx:100-108 | the plane becomes `Spawn(old plane)`; a draw is used only when no plane was flying; changes nothing but the plane; keeps the object invariant |
| `Sky.CloudySky.MoveAeroplane` | components/CloudySkyBackground.tsx:236-247 | move, push, shift on overflow, then land; the plane becomes exactly `Advance(old plane, width)`; changes nothing but the plane; keeps the object invariant |
| `Sky.CloudySky.PlaneFrame` | components/CloudySkyBackground.tsx:232-247 | the plane's part of a frame: a roll, a spawn only if the roll is below 0.001, then the move; the plane becomes the spawn-then-advance result, one draw more is used only when a plane is really spawned; changes nothing but the plane; keeps the object invariant |
| `Sky.CloudySky.Frame` | components/CloudySkyBackground.tsx:210-248 | one frame is the cloud pass, then the plane's part with the roll right after the wrap draws; the clouds become the pass's result, the plane the spawn-then-advance result, and the draws are one per wrap, the roll, and one more only for a real spawn; changes only the pool and the plane; keeps the object invariant and the per-layer population |

## Left out

- All drawing is left out: the sky gradient, `drawGrassland`, `drawCloud` and `drawAeroplane`
  (lines 110-191, 214-221). These are canvas calls and hold no state.
- Scheduling is left out: `requestAnimationFrame`, the `resize` listener and teardown (lines
  211, 250-259). One frame is the method `Frame`, and a resize is a call of `Init`.
- The missing-canvas and missing-context early returns (lines 53-56, and the repeated context
  check at line 212) are left out. In that case the component does nothing at all.
- The random generator itself is left out. Its values are the parameter `rand`, assumed in [0, 1).
- Floating-point rounding is left out. Positions are exact reals; the code only adds, scales and
  compares them.
- Aliasing is not modelled. Clouds and the plane are values in the model, reassigned in place.
  The source's cloud records and plane record are reachable only through the component's refs, so
  no other code can observe an update.
- The rest of the repository is not part of this model: the contact form (network and timers),
  the generative-AI service wrapper, the cosmos background (the dark-theme variant, a separate component),
  and the static sections, navigation and configuration.

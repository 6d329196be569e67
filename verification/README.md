# wand: the particle pool and the position tracker

This project models the two computational parts of the wand program.

- **The pixie-dust particle system.** A fixed pool of 750 particles has a write cursor that wraps around, so the oldest slot is silently overwritten.
  - Every frame, each live particle is advanced by a linear kinematic step, its time to live is decreased and its opacity follows.
  - New particles are spawned at random points on the segment between the previous and the current tracked state, with bounded jitter.
  - Live particles are alpha-blended onto the image as two-pixel dots, with bounds checks.
- **The Kalman wrapper.** It sets up a 6-state, 2-measurement constant-acceleration filter: the transition and measurement matrices, the noise covariances, the first error covariance and the initial state. It also runs the library's predict and correct steps, copies the prediction over the correction when no measurement arrives, and reads position, velocity and acceleration out of the predicted and corrected states.

Files and modules:

- `linear.dfy` (`Linear`): vectors and matrices over `real`, with the matrix-vector product.
- `cv_types.dfy` (`CvTypes`): the image-library value types the code uses.
  - points, pixels and `Rect::contains`;
  - the C++ float-to-int conversion, which truncates toward zero;
  - the uniform draws of the random generator, given the fraction in [0, 1) the generator produced;
  - the alpha blend.
- `particle.dfy` (`Particles`): `particle.h` and `particle.cpp`.
  - `Particle` is a class whose four fields are assigned in place.
  - The static members (the pool, the cursor, the generator, the transition matrix and the cached previous state of `generate_particles`) are the fields of a `ParticlePool` object.
  - The pool's methods update these fields in loops, as the source does. Each method is proved against value-level functions (`Spawned`, `Advance`, `SpawnedWindow`, `PixelAfter`), and the properties are proved about those functions.
- `turnover.dfy` (`PoolTurnover`): how fast the pool turns over when spawns arrive a frame at a time.
- `kalman.dfy` (`KalmanWrapper`): `kalman.h` and `kalman.cpp`.
  - The library filter is a record of its matrices.
  - `Kalman` is a class holding that record and the `initialized` flag.
  - The library's `predict` and `correct` are function parameters of the constructor. Only what the wrapper relies on from them is stated (`PredictContract`, `CorrectContract`).

The random generator is an oracle `unit: nat -> real` that yields a fraction in [0, 1) on each draw. A draw counter in the pool says which fraction comes next, so each spawned particle is determined by the draws it consumed.

The spawn count of `generate_particles` and the pixel position in `draw_particles` are float-to-int conversions, which truncate toward zero rather than round (`Trunc`, `SpawnCount`, `Covers`).

## Model

| member | source | states |
|---|---|---|
| CvTypes.Trunc | kalman.cpp:98-100 | The float-to-int conversion drops the fraction: for v ≥ 0, n ≤ v < n + 1, and for v < 0, n − 1 < v ≤ n. |
| CvTypes.UniformRealInRange | particle.cpp:38-41 | `uniform(a, b)` on floats with a < b lies in [a, b) for every generator fraction in [0, 1). |
| CvTypes.UniformIntInRange | particle.cpp:51 | `uniform(a, b)` on ints with a < b lies in [a, b) for every generator fraction in [0, 1). |
| CvTypes.BlendIsConvex | particle.cpp:101-102 | For an alpha in [0, 1], each blended channel lies between the pixel's and the colour's. Alpha 0 keeps the pixel and alpha 1 gives the colour. |
| Particles.CapacityIsRateTimesLifetime | particle.h:31-33 | The pool capacity (750) equals the spawn rate times the maximum lifetime. |
| Particles.LiveIffTimeLeft | particle.cpp:76-80 | Under the fade invariant (ttl in [0, TTL_MAX], alpha = ttl / TTL_MAX), a particle is live (alpha > 0) exactly when ttl > 0, and alpha lies in [0, 1]. |
| Particles.DrawsFromInRange | particle.cpp:38-51 | With a generator yielding fractions in [0, 1), every jitter and colour draw of `create` lies in its half-open range: [-5,5), [-5,5), [-10,10), [-5,5), [200,255), [20,255), [20,255). |
| Particles.Spawned | particle.cpp:35-51 | A created particle keeps the fade invariant and is live. Its alpha is 1, its ttl is PARTICLE_TTL_MAX, its y acceleration is gravity (30), and its x acceleration is the seed's. |
| Particles.SpawnedWithinJitter | particle.cpp:38-51 | With draws in range, the new position is within [-5, 5) of the seed on each axis. The x velocity is within [-10, 10) and the y velocity within [-5, 5) of the seed's. The colour is blue in [200, 255) and green and red in [20, 255). |
| Particles.TransitionKinematics | particle.cpp:61-69 | The transition matrix times a state gives x + dt·xv + ½dt²·xa (and likewise for y), 0.75·xv + dt·xa, yv + dt·ya, 0 and ya. |
| Particles.AgedTtl | particle.cpp:79 | The aged time to live is never negative, is never below ttl − dt, and is either 0 or ttl − dt. |
| Particles.Advance | particle.cpp:73-81 | A particle that is not live is returned unchanged. A live one keeps its colour, its ttl becomes max(0, ttl − dt), and its alpha becomes ttl / TTL_MAX. |
| Particles.AdvanceMovesLiveParticle | particle.cpp:76-78 | A live particle's new state is the equations of motion applied to its old state alone, component by component. |
| Particles.AdvanceKeepsFadeInvariant | particle.cpp:79-80 | With dt ≥ 0 the fade invariant is preserved, ttl never grows, and alpha stays in [0, 1]. |
| Particles.ExpiredStaysExpired | particle.cpp:76 | A particle with no time left is never changed again and stays transparent. |
| Particles.SpawnCount | particle.cpp:116 | The number of spawns is the float count truncated: for dt ≥ 0, n ≤ 750·dt < n + 1; a negative dt whose count truncates to zero spawns nothing. |
| Particles.InterpolateOnSegment | particle.cpp:117-122 | For r in [0, 1], every component of prev + r·(state − prev) lies between the two endpoints' components, and r = 0 gives prev. |
| Particles.SpawnedNearSegment | particle.cpp:117-123 | A particle spawned at a fraction in [0, 1) of the segment lies, in x and y, between the endpoints' min − 5 and max + 5. |
| Particles.SlotOfNext | particle.cpp:54 | Advancing the cursor modulo capacity after k claims gives the slot of claim k + 1. |
| Particles.SlotsApartDiffer | particle.cpp:33 | Two claims less than a full lap apart never hit the same slot. |
| Particles.OffsetOfSlot | particle.cpp:33 | Within one lap, claim k lands exactly k slots ahead of the starting cursor. |
| Particles.SpawnedWindowStep | particle.cpp:118-124 | One more spawn written at the cursor extends the window: the last lap of spawns sits in its claimed slots, and every slot not yet reached keeps its old particle. |
| Particles.UntouchedStaysBefore | particle.cpp:33 | A slot the spawns have not reached is not the one the next spawn claims, so it still holds its old particle. |
| Particles.EmptyWindow | particle.cpp:118 | With no spawns yet, the window is the pool as it was. |
| Particles.CoveredPixelIsInImage | particle.cpp:88-102 | Both pixels a particle writes, (y, x) and (y + 1, x), are inside the image. |
| Particles.UncoveredPixelUnchanged | particle.cpp:95-102 | A pixel that no particle covers keeps its old value after drawing the whole pool. |
| Particles.DeadParticlesInvisible | particle.cpp:95 | Taking a particle that is not live out of the pool, at any position, changes no pixel of the drawn image. |
| Particles.DrawParticle | particle.cpp:92-104 | Drawing one particle blends its colour at its alpha into exactly the pixels it covers. Every other pixel is unchanged. |
| Particles.Particle.constructor | particle.h:51-55 | The default particle has alpha 0, ttl 0, black colour and a 6-slot state. It keeps the fade invariant and is not live. |
| Particles.Particle.Copy | particle.h:57-62 | The copy has the original's state, alpha, ttl and colour. |
| Particles.Particle.Assign | particle.h:64-75 | After assignment the target holds the source's old values (on itself, a no-op), and the target is returned. |
| Particles.AccessorsFollowStateLayout | particle.h:99-104 | `x()`..`y_accel()` read the state slots in `States` order and together give the whole state. |
| Particles.CopyIsIndependent | particle.h:57-62 | Changing a fresh copy's state leaves the original's values unchanged. |
| Particles.ParticlePool.constructor | particle.cpp:25-28 | The pool holds 750 distinct, freshly allocated default particles, none of them live, and all keep the fade invariant. The cursor and the draw count are 0, and no previous state is cached. |
| Particles.ParticlePool.Create | particle.cpp:30-57 | `create` returns the slot under the cursor and fills it with `Spawned` from the seed and the next seven draws. The cursor becomes (next + 1) mod 750, and every other slot is unchanged. |
| Particles.ParticlePool.DrawJitterAndColour | particle.cpp:38-51 | The seven draws of `create` are the generator's next seven fractions mapped to their ranges, in source order (`DrawsFrom`), and the draw count grows by seven. |
| Particles.ParticlePool.TimeUpdate | particle.cpp:59-83 | The transition matrix is rebuilt for dt and every slot becomes `Advance` of its old value. With dt ≥ 0 the fade invariant of the whole pool is preserved. |
| Particles.ParticlePool.DrawParticles | particle.cpp:85-106 | Each pixel ends as the blends, in slot order, of the particles covering it over its old value (`PixelAfter`). The pool is not changed. |
| Particles.ParticlePool.SpawnOne | particle.cpp:119-123 | One loop pass draws a fraction and creates at that point of the segment. Only the slot under the cursor changes, and it becomes `SpawnAt`. |
| Particles.ParticlePool.SpawnStep | particle.cpp:118-124 | One loop pass moves the cursor one slot, consumes eight draws, and extends the spawned window by one. |
| Particles.ParticlePool.GenerateParticles | particle.cpp:108-128 | On the first call nothing is spawned. Afterwards trunc(750·dt) particles are created, the last lap of them in the slots they claimed, and every slot not reached is unchanged. The state is cached in both cases, and the fade invariant is preserved. |
| Particles.ParticlePool.SpawnAlong | particle.cpp:116-124 | n spawns along the segment move the cursor n slots and consume 8n draws. The last lap of them is in the slots they claimed, every slot not reached is unchanged, and the fade invariant is preserved. |
| PoolTurnover.CoarseFramesReclaimLiveSlot | particle.cpp:116-123 | With steady 0.3 s frames each frame spawns 225 particles. When the third frame after it begins, the first particle of a frame has only 674 spawns after it, fewer than the 750 that bring the cursor back to its slot. So the slot is claimed again during that frame, while the particle, after three time steps, is still live with ttl 0.1. Capacity equal to rate times lifetime does not keep live particles from being overwritten. |
| KalmanWrapper.LibraryInit | kalman.cpp:47-50 | The library's init(6, 2, 0) gives every state, matrix and covariance the size of a 6-state, 2-measurement filter. |
| KalmanWrapper.DynamicModelKinematics | kalman.cpp:52-58 | The transition matrix times a state is constant-acceleration kinematics: x + dt·xv + ½dt²·xa (and likewise for y), xv + dt·xa, yv + dt·ya, and the accelerations kept. |
| KalmanWrapper.RestIsFixedPoint | kalman.h:30-37 | A state with no velocity and no acceleration is a fixed point of the dynamic model. |
| KalmanWrapper.MeasurementSelectsPosition | kalman.cpp:60-62 | The measurement matrix picks out exactly the (x, y) slots of a state. |
| KalmanWrapper.InitialFilter | kalman.cpp:40-91 | The filter `init` leaves is well formed for 6 states and 2 measurements. |
| KalmanWrapper.FirstPredictionIsInitialPoint | kalman.cpp:80-87 | Predicting from the initial state, which is at rest, reports the initial point again. |
| KalmanWrapper.PredictedPositionExtrapolates | kalman.cpp:28-29 | With dt = 1 and dt2 = ½, the predicted position is the corrected position plus the velocity plus half the acceleration. |
| KalmanWrapper.ObservationAtPredictionKeepsIt | kalman.cpp:105-111 | An observation exactly at the predicted position leaves the prediction as the corrected state, whatever the gain. |
| KalmanWrapper.AccessorsFollowPosStates | kalman.h:82-115 | The predicted accessors read the `PosStates` slots of the predicted state in order, and the corrected ones those of the corrected state. |
| KalmanWrapper.Kalman.Initialized | kalman.h:93-94 | When `initialized()` reports true, the filter is well formed and holds the transition and measurement matrices `init` installed. |
| KalmanWrapper.Kalman.constructor | kalman.cpp:31-34 | A new wrapper holds an empty filter and is not initialized. |
| KalmanWrapper.Kalman.Init | kalman.cpp:40-91 | `init` leaves exactly `InitialFilter`, whatever came before, so calling it twice with the same arguments is the same as calling it once. That filter has transition `DynamicModel(1)`, measurement matrix (x, y), process noise q·I with 100·q on the accelerations, measurement noise r·I, error covariance 0.1·I, and a state at the given point at rest. The wrapper is initialized, and the corrected position is the point with velocity and acceleration 0. |
| KalmanWrapper.Kalman.Predict | kalman.cpp:93-103 | The filter becomes the library prediction. The returned point is the predicted position truncated, which is the model's extrapolation of the old corrected state. |
| KalmanWrapper.Kalman.Correct | kalman.cpp:105-118 | The library correction is given the measurement (observed.x, observed.y). The returned point is the corrected position truncated. The corrected state is the prediction plus gain times innovation, and it equals the prediction when the observation is at the predicted position. |
| KalmanWrapper.Kalman.Propagate | kalman.cpp:120-123 | statePost becomes statePre and nothing else changes, so the corrected accessors then equal the predicted ones. |

## Left out

- `main.cpp` is not part of this model. It is camera capture, display, recording and timing, and `track_nearest_point` depends on image-library internals.
- `predicted_velocity_angle` (kalman.h:108-109) is not modelled. It is a floating-point `atan2`, and its arguments are in (x, y) rather than (y, x) order.
- Float arithmetic is modelled with exact reals. Rounding is not modelled, and neither is the saturating conversion back to 8-bit channels in the blend of `draw_particles`. The model states which pixels change and the exact-real blend they get.
- The generator's algorithm is not modelled. It is an oracle yielding a fraction in [0, 1) per draw, and `UniformReal`/`UniformInt` map that fraction to the requested range.
- The library's `predict` and `correct` are function parameters. Their covariance propagation, gain computation and matrix inverse are not modelled; only the contracts the wrapper relies on are stated.
- KalmanWrapper.Kalman.Predict, KalmanWrapper.Kalman.Correct and the six accessors (`PredictedPosition`, `CorrectedPosition`, `PredictedVelocity`, `CorrectedVelocity`, `PredictedAcceleration`, `CorrectedAcceleration`) require an initialized wrapper. Before `init` the library filter has empty matrices. Reading a slot of an empty state, or what the library does with empty matrices, is not part of this model.
- `corrected_state()` returns a reference into the filter. It is modelled as a value (`CorrectedState`). The sharing of matrix buffers that `propagate` causes through shallow assignment is not modelled: both states are values.
- Particles.ParticlePool.GenerateParticles requires, once a previous state is cached, that 750·dt > −1. Converting a float count of −1 or less to `uint` is undefined behaviour in C++. A first call, which never converts, accepts any dt.
- The cursor and the loop counters are unbounded naturals. They cannot wrap at 2^32, but the cursor is always below 750 anyway.
- The `Vec3b(...)` colour arguments are drawn left to right. C++ leaves their order of evaluation unspecified.
- Particles.Particle.constructor promises only the length of the state. The default particle's 6x1 state is allocated but not initialised.
- Particles.ParticlePool.Create writes the new particle's fields from `Spawned` in one step. It does not copy the seed and then adjust five slots one by one; the resulting values are the same.

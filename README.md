# Boid schools — a Dafny model of the two flocking controllers

The repository is a Unity scene of fish ("boids") swimming inside the
bounds of a sprite. A roster (`BoidCollection.boids`, a list of
`BoidData`) names each fish type: how many fish it has, whether they
school or swim alone, their speed, and where they spawn. Two components
drive the same behaviour.

* `BoidJobsController` keeps one flat buffer per attribute, one slot per
  fish, with the types laid out one after another in roster order. Every
  frame it copies the velocities into a second buffer and runs three
  parallel jobs over it:
  * one schooling job per schooling type: cohesion, alignment and
    separation inside the school, and avoidance of other schooling types;
  * the solo job: avoidance of every other fish, plus a random wander;
  * the movement job: the boundary push, a speed cap and a speed floor,
    integration, clamping into the arena, and a bounce at the walls.

  Then it copies the new velocities back. The randomness is one
  `Unity.Mathematics.Random` (a 32-bit xorshift) per fish.
* `BoidController` keeps one record per fish (`BoidInfo`). It keeps the
  schooling and solo fish in two lists, and the schooling fish once more
  grouped by type in `schoolsByType`. Every frame it updates each group in
  place, fish after fish, then each solo fish, then moves every fish. The
  randomness is the engine's global `Random.insideUnitCircle` stream.

The model keeps each component's own form.
* The jobs controller is a class over `array` buffers:
  * each job's `Execute` is a method on those arrays, proved against a
    function of the old contents;
  * `Update` is proved to leave exactly the agents that the pure frame
    function `JobsController.Tick` computes.
* The sequential controller is a class whose lists are `seq` fields:
  * every update is a method with a loop, proved equal to a function of
    module `ControllerRules`;
  * the properties promised by the behaviour (fish stay inside the bounds,
    one random draw per solo fish, far fish do not interact, ...) are
    lemmas about those functions.

Modules:
* `Vectors`: 2D vectors over the reals; the square root and
  `normalize` of the math library are an oracle `Libm`.
* `Flocking`: the shared parameters, the quadratic falloff `clamp(1 - d/r, 0, 1)^2`,
  and the 0.001 normalization guard.
* `UnityRandom`: the xorshift generator and `NextFloat`.
* `Roster`: cluster counts, school ids, and the type-after-type slot layout.
* `SchoolingJob`, `SoloJob`, `MovementJob`, `JobsController`: the jobs
  controller.
* `ControllerRules`, `Controller`: the sequential controller.
* `Findings`: a defect of the schooling job.

Some behaviour of the code that a reader may not expect, which the model
follows:
* A summed force whose squared length is at most 0.001 is kept as it is,
  not zeroed (BoidJobsController.cs:478-480, BoidController.cs:331-333).
* In the sequential controller, the push between two schools is halved
  when the other fish has the same school id, even in another type's group
  (BoidController.cs:395).
* Cohesion and alignment divide by the neighbour count, not by the sum of
  the 1.5/1.0 weights (BoidJobsController.cs:475-476,
  BoidController.cs:327-328).
* The jobs speed floor draws each component from [-0.1, 0.1), not a vector
  of length 0.1 (BoidJobsController.cs:640-643).

## Model

| member | source | states |
|---|---|---|
| Roster.ClusterCount | Assets/Scripts/BoidSim/BoidJobsController.cs:150 | a schooling type spawns in one cluster below 30 fish, two from 30 to 44 and three from 45 on, never fewer than one nor more than three |
| Roster.SchoolIdOf | Assets/Scripts/BoidSim/BoidJobsController.cs:193-195 | the school id of fish `i` is a valid cluster index, the first fish go one to each cluster, and a single cluster gives school 0 |
| Roster.Run | Assets/Scripts/BoidSim/BoidJobsController.cs:184-249 | the slots a type's fish receive are `boidCount` consecutive indices starting after every earlier type, all below the next type's start |
| Roster.Runs | Assets/Scripts/BoidSim/BoidJobsController.cs:141-144 | the per-type index lists hold, for each roster entry, exactly that entry's run of slots |
| Roster.OffsetMonotone | Assets/Scripts/BoidSim/BoidJobsController.cs:135-249 | a later type never starts before an earlier one |
| Roster.TypeOf | Assets/Scripts/BoidSim/BoidJobsController.cs:180-249 | every slot below the total belongs to a roster entry whose run contains it |
| Roster.TypeOfUnique | Assets/Scripts/BoidSim/BoidJobsController.cs:180-249 | a slot belongs to one type only: any type whose run contains it is the one `TypeOf` names |
| Roster.RunsPartition | Assets/Scripts/BoidSim/BoidJobsController.cs:112-116 | the runs, one after another, are exactly `0 .. total-1`, so the buffers of length `boidCount` have every slot filled once |
| Roster.FilteredMembers | Assets/Scripts/BoidSim/BoidController.cs:245-255 | a fish is in the schooling list if and only if its type schools, and in the solo list if and only if it does not |
| Roster.FilteredSizes | Assets/Scripts/BoidSim/BoidController.cs:245-255 | the schooling and solo lists together have as many entries as the list of all fish |
| Roster.FilteredAscending | Assets/Scripts/BoidSim/BoidController.cs:245-255 | each list is strictly ascending, so no fish is listed twice |
| Vectors.Clamp | Assets/Scripts/BoidSim/BoidJobsController.cs:651-654 | the clamped value lies in the range, is unchanged inside it, and becomes the nearer end outside it |
| Vectors.Sign | Assets/Scripts/BoidSim/BoidJobsController.cs:657 | the sign is 1, 0 or -1 exactly for positive, zero and negative numbers |
| Vectors.NormalizeAtMostUnit | Assets/Scripts/BoidSim/BoidController.cs:318 | with a sound library both normalizations give a vector no longer than one; `Normalize` gives a unit vector from any non-zero vector, `Normalized` (`Vector2.normalized`) only above squared length 1e-10 |
| Flocking.Falloff | Assets/Scripts/BoidSim/BoidJobsController.cs:442-443 | the strength of a push lies in [0, 1], is full at distance zero and nothing at the radius or beyond |
| Flocking.FalloffStrictlyDecreasing | Assets/Scripts/BoidSim/BoidController.cs:316-317 | inside the radius, a nearer fish pushes strictly harder |
| Flocking.GuardedAtMostUnit | Assets/Scripts/BoidSim/BoidJobsController.cs:478-480 | a guarded force is at most unit length per component and overall, and exactly unit length above the 0.001 threshold |
| UnityRandom.NextFloat | Assets/Scripts/BoidSim/BoidJobsController.cs:553-556 | a draw in [lo, hi) lies in that range, and the generator state moves on from any non-zero state |
| UnityRandom.NextFloat2 | Assets/Scripts/BoidSim/BoidJobsController.cs:622-626 | the two components drawn for a random direction both lie in [lo, hi) |
| UnityRandom.XorshiftMovesNonZero | Assets/Scripts/BoidSim/BoidJobsController.cs:551-556 | a non-zero generator state never repeats itself after one step |
| UnityRandom.SeedFor | Assets/Scripts/BoidSim/BoidJobsController.cs:132 | `seed + (uint)i` is an unsigned 32-bit value |
| UnityRandom.SeedsDistinct | Assets/Scripts/BoidSim/BoidJobsController.cs:129-133 | with the base seed in [1, int.MaxValue) no per-fish seed is zero, which the generator would reject, and no two fish share a seed |
| SchoolingJob.Neighbour | Assets/Scripts/BoidSim/BoidJobsController.cs:427-446 | another fish is counted (adds exactly one to the neighbour count) if and only if it is inside the schooling radius; a farther fish leaves every sum as it was; beyond the separation radius it adds no push |
| SchoolingJob.SameTypeCountStep | Assets/Scripts/BoidSim/BoidJobsController.cs:431-437 | scanning one more index adds one to the count exactly when that index is another fish within the schooling radius |
| SchoolingJob.SameTypeCountZero | Assets/Scripts/BoidSim/BoidJobsController.cs:423-447 | the neighbour count is zero if and only if no other fish of the type is within the schooling radius |
| SchoolingJob.SameTypeScan | Assets/Scripts/BoidSim/BoidJobsController.cs:423-447 | the scan of the own type counts at most every other listed fish as a neighbour |
| SchoolingJob.InterSchoolScan | Assets/Scripts/BoidSim/BoidJobsController.cs:450-471 | the scan of the other schooling types counts at most one avoidance per fish scanned |
| SchoolingJob.SameTypeScanAlone | Assets/Scripts/BoidSim/BoidJobsController.cs:431 | with no other fish of the type inside the schooling radius, the scan finds no neighbour and no force |
| SchoolingJob.InterSchoolScanAlone | Assets/Scripts/BoidSim/BoidJobsController.cs:452-463 | with no foreign schooling fish inside the avoidance radius there is nothing to avoid |
| SchoolingJob.Isolated | Assets/Scripts/BoidSim/BoidJobsController.cs:473-499 | a fish with no neighbour and no foreign schooling fish nearby keeps its velocity unchanged |
| SchoolingJob.SchoolingPassWritten | Assets/Scripts/BoidSim/BoidJobsController.cs:297 | after a schooling job over distinct indices, each listed slot holds that fish's schooling velocity |
| SchoolingJob.SchoolingPassKept | Assets/Scripts/BoidSim/BoidJobsController.cs:297 | after a schooling job, slots not among its indices are untouched |
| SchoolingJob.SchoolingPassAt | Assets/Scripts/BoidSim/BoidJobsController.cs:297 | the two facts together, for every slot: the job's result does not depend on the order in which the scheduler runs its indices |
| SchoolingJob.Execute | Assets/Scripts/BoidSim/BoidJobsController.cs:408-500 | the job writes exactly one slot, its fish's, with the velocity the rules give from the snapshot of positions and velocities |
| SchoolingJob.Run | Assets/Scripts/BoidSim/BoidJobsController.cs:297 | running the job over all its indices leaves the buffer that the schooling pass specifies |
| SoloJob.Wander | Assets/Scripts/BoidSim/BoidJobsController.cs:551-556 | both components of the wander direction lie in [-1, 1) |
| SoloJob.SoloAvoidanceAlone | Assets/Scripts/BoidSim/BoidJobsController.cs:527-542 | with nobody inside the avoidance radius the avoidance sum is zero |
| SoloJob.AloneOnlyWanders | Assets/Scripts/BoidSim/BoidJobsController.cs:544-559 | a solo fish with nobody near is not steered, and without a wander factor its velocity is unchanged |
| SoloJob.SchoolingPushesHarder | Assets/Scripts/BoidSim/BoidJobsController.cs:539-540 | a schooling neighbour pushes with 1.5 times the push of a solo neighbour at the same place |
| SoloJob.Execute | Assets/Scripts/BoidSim/BoidJobsController.cs:519-560 | a schooling slot returns with both buffers untouched; a solo slot gets its steered and wandered velocity and its advanced generator, and no other slot changes |
| SoloJob.SoloPass | Assets/Scripts/BoidSim/BoidJobsController.cs:316 | after the solo job every schooling slot keeps its velocity and its generator |
| SoloJob.Run | Assets/Scripts/BoidSim/BoidJobsController.cs:316 | running the job over every slot leaves the velocities and generators of the solo pass |
| MovementJob.WallPush | Assets/Scripts/BoidSim/BoidJobsController.cs:589-600 | near the far wall the push points back inward, near the near wall it points forward, in the middle it is zero, it is never stronger than the boundary force, and at or past a wall it is the full force |
| MovementJob.WallStage | Assets/Scripts/BoidSim/BoidJobsController.cs:616-628 | the boundary stage never moves the fish, and at or below the 0.01 jitter threshold it only adds the boundary push over `dt`, drawing nothing |
| MovementJob.SpeedCap | Assets/Scripts/BoidSim/BoidJobsController.cs:631-634 | a velocity within the speed is kept; with a sound library no capped velocity is faster than the fish's speed, and a faster one leaves at exactly `moveSpeed` |
| MovementJob.SpeedFloor | Assets/Scripts/BoidSim/BoidJobsController.cs:637-645 | a fast enough velocity is kept with the generator untouched; a too slow one is replaced by one with both components in [-0.1, 0.1) |
| MovementJob.Confine | Assets/Scripts/BoidSim/BoidJobsController.cs:651-654 | the clamped offset from the centre lies inside the half extents, and a fish already inside keeps its offset |
| MovementJob.BounceX | Assets/Scripts/BoidSim/BoidJobsController.cs:657-663 | without an outward velocity at the wall nothing changes; with one, the x component is reversed and damped to 0.8 and both components are jittered by less than 0.5 |
| MovementJob.BounceY | Assets/Scripts/BoidSim/BoidJobsController.cs:665-671 | the same for the y component and the top and bottom walls |
| MovementJob.BounceOnlyAtWall | Assets/Scripts/BoidSim/BoidJobsController.cs:657-671 | on either axis, a bounce changes anything only for a fish on that wall whose velocity component has the same sign as its offset from the centre |
| MovementJob.Move | Assets/Scripts/BoidSim/BoidJobsController.cs:578-675 | after the movement step the fish is inside the arena |
| MovementJob.Execute | Assets/Scripts/BoidSim/BoidJobsController.cs:578-675 | the job updates its own slot of positions, velocities and generators to the movement step's result and leaves every other slot untouched |
| MovementJob.MovementPass | Assets/Scripts/BoidSim/BoidJobsController.cs:332 | after the movement job every fish is inside the arena |
| MovementJob.Run | Assets/Scripts/BoidSim/BoidJobsController.cs:332 | running the job over every slot leaves the agents of the movement pass |
| JobsController.SlotOf | Assets/Scripts/BoidSim/BoidJobsController.cs:236-249 | the slot of any fish carries the type whose run contains it, that type's schooling flag and speed, and a school id below the type's cluster count |
| JobsController.SlotsAreSlotOf | Assets/Scripts/BoidSim/BoidJobsController.cs:180-251 | the creation loop gives every slot the attributes `SlotOf` describes |
| JobsController.EverySchoolPopulated | Assets/Scripts/BoidSim/BoidJobsController.cs:193-195 | every cluster of a schooling type with at least one fish per cluster gets a fish, the type's first fish in that cluster |
| JobsController.SoloInSchoolZero | Assets/Scripts/BoidSim/BoidJobsController.cs:188 | every solo fish is in school 0 |
| JobsController.Generators | Assets/Scripts/BoidSim/BoidJobsController.cs:129-133 | every fish gets a generator created from a non-zero seed `seed + i` |
| JobsController.StageWritten | Assets/Scripts/BoidSim/BoidJobsController.cs:268-300 | the job of schooling type `u` writes the velocity its rules give into every slot of type `u` |
| JobsController.StageKept | Assets/Scripts/BoidSim/BoidJobsController.cs:268-300 | the job of one type leaves every other type's slots alone |
| JobsController.SchoolingStagesWritten | Assets/Scripts/BoidSim/BoidJobsController.cs:268-300 | after all schooling jobs each schooling fish holds its type's velocity, whatever the order of the other jobs |
| JobsController.SchoolingStagesKept | Assets/Scripts/BoidSim/BoidJobsController.cs:268-300 | after all schooling jobs each solo fish keeps the velocity copied in at the start of the frame |
| JobsController.Tick | Assets/Scripts/BoidSim/BoidJobsController.cs:256-338 | a frame leaves every fish inside the arena |
| JobsController.TickAt | Assets/Scripts/BoidSim/BoidJobsController.cs:256-338 | a fish's new position, velocity and generator are its movement step applied after its schooling velocity (schooling fish) or its solo velocity (solo fish) |
| JobsController.Live | Assets/Scripts/BoidSim/BoidJobsController.cs:361-368 | the buffers disposed are exactly those in the list that are still allocated |
| JobsController.LiveOnce | Assets/Scripts/BoidSim/BoidJobsController.cs:361-368 | no buffer is disposed twice |
| JobsController.CopyFrom | Assets/Scripts/BoidSim/BoidJobsController.cs:262 | the destination holds the source's contents |
| JobsController.BoidJobsController.SpawnBoids | Assets/Scripts/BoidSim/BoidJobsController.cs:109-254 | the eight buffers are fresh and `total` long, every slot holds its fish's spawn position, launch velocity and type attributes, the index lists are the runs of each type, and each fish has its own seeded generator |
| JobsController.BoidJobsController.SpawnAll | Assets/Scripts/BoidSim/BoidJobsController.cs:180-251 | the creation loop fills every slot and builds one index list per type |
| JobsController.BoidJobsController.SeedGenerators | Assets/Scripts/BoidSim/BoidJobsController.cs:129-133 | the generator buffer holds one generator per slot, seeded `seed + i` |
| JobsController.BoidJobsController.Update | Assets/Scripts/BoidSim/BoidJobsController.cs:256-356 | a frame with no fish changes nothing; otherwise the buffers become the frame's agents, the two velocity buffers agree, and every fish is inside the arena |
| JobsController.BoidJobsController.RunSchooling | Assets/Scripts/BoidSim/BoidJobsController.cs:268-300 | the schooling jobs, one per type, leave the velocities of all schooling stages |
| JobsController.BoidJobsController.OnDestroy | Assets/Scripts/BoidSim/BoidJobsController.cs:358-369 | afterwards no buffer is allocated, and exactly the allocated ones were disposed, once each, in the order `OnDestroy` disposes them |
| ControllerRules.InPlaceKept | Assets/Scripts/BoidSim/BoidController.cs:280 | an in-place pass over a list changes no fish outside the list |
| ControllerRules.InPlaceStable | Assets/Scripts/BoidSim/BoidController.cs:280 | once a fish has been updated, the rest of the pass leaves its velocity alone |
| ControllerRules.FlockCountZero | Assets/Scripts/BoidSim/BoidController.cs:288-321 | a fish has no neighbour if and only if no other member of its group is inside the schooling radius |
| ControllerRules.FlockCountStep | Assets/Scripts/BoidSim/BoidController.cs:298-309 | the neighbour count grows by one exactly for another fish inside the schooling radius |
| ControllerRules.CohereTermsBounded | Assets/Scripts/BoidSim/BoidController.cs:327-338 | after the guard the cohesion, alignment and separation terms are at most unit length |
| ControllerRules.AvoidSoloFar | Assets/Scripts/BoidSim/BoidController.cs:350-363 | a schooling fish with no solo fish within 1.5 separation radii is not pushed by solo fish |
| ControllerRules.SameSchoolHalved | Assets/Scripts/BoidSim/BoidController.cs:395-397 | the push from a fish of the same school id is half the push from another school |
| ControllerRules.InterScanGroup | Assets/Scripts/BoidSim/BoidController.cs:382-400 | scanning one group adds at most one avoidance per fish in it |
| ControllerRules.InterScanFar | Assets/Scripts/BoidSim/BoidController.cs:376-401 | with no fish of another group nearby there is nothing to avoid |
| ControllerRules.InterSchoolFar | Assets/Scripts/BoidSim/BoidController.cs:370-413 | with no fish of another group nearby the velocity is unchanged |
| ControllerRules.InterScanIgnoresOwnGroup | Assets/Scripts/BoidSim/BoidController.cs:379 | the fish's own group plays no part in the avoidance: replacing its members changes nothing |
| ControllerRules.SchoolingUpdate | Assets/Scripts/BoidSim/BoidController.cs:280-366 | updating a schooling fish uses at most one draw of the unit-circle stream |
| ControllerRules.SchoolingDraws | Assets/Scripts/BoidSim/BoidController.cs:324-347 | a schooling fish draws from the stream if and only if it has no neighbour |
| ControllerRules.LonelySchoolingWanders | Assets/Scripts/BoidSim/BoidController.cs:343-347 | a schooling fish alone in every respect only wanders: its velocity gains the drawn direction times 0.8 of the wander factor |
| ControllerRules.GroupPassDraws | Assets/Scripts/BoidSim/BoidController.cs:280-367 | a group update uses at most one draw per fish |
| ControllerRules.GroupPassWritten | Assets/Scripts/BoidSim/BoidController.cs:280-367 | in a group update each fish gets the velocity its rules give from the velocities as its turn finds them, and keeps it to the end of the pass |
| ControllerRules.GroupPassKept | Assets/Scripts/BoidSim/BoidController.cs:280-367 | a group update changes no fish outside the group |
| ControllerRules.SchoolingPhase | Assets/Scripts/BoidSim/BoidController.cs:265-268 | updating all groups keeps one velocity per fish and never rewinds the stream |
| ControllerRules.SoloScanAlone | Assets/Scripts/BoidSim/BoidController.cs:423-445 | with nobody inside the avoidance radius the avoidance sum is zero |
| ControllerRules.SoloUpdate | Assets/Scripts/BoidSim/BoidController.cs:418-457 | updating a solo fish uses exactly one draw |
| ControllerRules.SoloAloneOnlyWanders | Assets/Scripts/BoidSim/BoidController.cs:448-456 | a solo fish with nobody near gains only the drawn direction times the wander factor |
| ControllerRules.SoloPhaseDraws | Assets/Scripts/BoidSim/BoidController.cs:415-458 | the solo update uses exactly one draw per solo fish |
| ControllerRules.SoloPhaseWritten | Assets/Scripts/BoidSim/BoidController.cs:415-458 | each solo fish gets its own update, made with the draw of its turn |
| ControllerRules.SoloPhaseKept | Assets/Scripts/BoidSim/BoidController.cs:415-458 | the solo update changes no schooling fish |
| ControllerRules.WallPush | Assets/Scripts/BoidSim/BoidController.cs:537-548 | near the upper bound the push points back inward, near the lower bound it points forward, in the middle it is zero, and it is never stronger than the boundary force |
| ControllerRules.BoundaryStage | Assets/Scripts/BoidSim/BoidController.cs:527-571 | without boundaries nothing happens; with them, the stream is drawn from if and only if the push's squared length exceeds 0.01, and a velocity changes only then |
| ControllerRules.CapSpeed | Assets/Scripts/BoidSim/BoidController.cs:468-471 | a velocity within the speed is kept; with a sound library no capped velocity is faster than `moveSpeed`, and a faster one that can be normalized leaves at exactly `moveSpeed` |
| ControllerRules.SpeedFloor | Assets/Scripts/BoidSim/BoidController.cs:474-477 | a fast enough velocity is kept without a draw; a slower one costs exactly one draw and, with a sound library, leaves at speed exactly 0.1, or zero when the draw is too short to normalize |
| ControllerRules.BouncesOnlyAtWall | Assets/Scripts/BoidSim/BoidController.cs:493-494 | after clamping, a bounce happens if and only if the fish is on a bound and heading out through it; the 0.01 proximity test never decides |
| ControllerRules.BounceX | Assets/Scripts/BoidSim/BoidController.cs:493-498 | without a bounce the velocity is kept and nothing is drawn; a bounce costs one draw and, for a draw inside the unit disc, lands within 0.5 of the velocity with x reversed and damped to 0.8 |
| ControllerRules.BounceY | Assets/Scripts/BoidSim/BoidController.cs:499-504 | without a bounce the velocity is kept and nothing is drawn; a bounce costs one draw and, for a draw inside the unit disc, lands within 0.5 of the velocity with y reversed and damped to 0.8 |
| ControllerRules.Glide | Assets/Scripts/BoidSim/BoidController.cs:480-508 | with boundaries the fish ends inside them, using at most three draws |
| ControllerRules.MoveBoid | Assets/Scripts/BoidSim/BoidController.cs:462-508 | moving a fish leaves it inside the bounds when there are bounds, using at most four draws |
| ControllerRules.MovementPhaseInside | Assets/Scripts/BoidSim/BoidController.cs:460-525 | after the movement pass every fish moved so far is inside the bounds |
| ControllerRules.FrameInside | Assets/Scripts/BoidSim/BoidController.cs:262-275 | after a frame with boundaries every fish is inside them, and at least one draw was used per solo fish |
| Controller.SpawnPoints | Assets/Scripts/BoidSim/BoidController.cs:112-131 | a schooling type has one to three spawn points, exactly one when its spawn point is fixed |
| Controller.BoidOf | Assets/Scripts/BoidSim/BoidController.cs:158-166 | each record carries its type's data and flag; a schooling fish's school is below its number of spawn points, and a solo fish or a fixed spawn gives school 0 |
| Controller.SpawnedRecord | Assets/Scripts/BoidSim/BoidController.cs:148-257 | every fish of `allBoid` has the record of the type whose run holds it |
| Controller.SchoolingTypesMembers | Assets/Scripts/BoidSim/BoidController.cs:105-139 | `schoolsByType` has exactly one key per schooling type, in roster order |
| Controller.SchoolGroupsAt | Assets/Scripts/BoidSim/BoidController.cs:247-251 | the list of a schooling type holds exactly that type's fish |
| Controller.SchoolGroupsConcat | Assets/Scripts/BoidSim/BoidController.cs:247-251 | the type lists, one after another, are exactly the schooling list |
| Controller.SpawnedWorld | Assets/Scripts/BoidSim/BoidController.cs:148-257 | the spawn builds a consistent world: one record per position, and every list names existing fish |
| Controller.BoidController.SpawnBoids | Assets/Scripts/BoidSim/BoidController.cs:92-260 | without boundaries nothing is spawned; otherwise every fish gets its record, spawn position and launch velocity, the solo and schooling lists and one list per schooling type are filled, and the result is consistent |
| Controller.BoidController.SpawnType | Assets/Scripts/BoidSim/BoidController.cs:153-256 | a type's creation loop yields its records, spawn positions, launch velocities (the heading at the type's speed) and its run of fish |
| Controller.BoidController.Update | Assets/Scripts/BoidSim/BoidController.cs:262-275 | a frame updates positions, velocities and stream position exactly as `Frame` describes and keeps the lists consistent |
| Controller.BoidController.UpdateSchools | Assets/Scripts/BoidSim/BoidController.cs:265-268 | updating every group leaves the velocities and stream position of the schooling phase |
| Controller.BoidController.UpdateSchoolingBoidGroup | Assets/Scripts/BoidSim/BoidController.cs:277-368 | the in-place loop over a group leaves the velocities and stream position of the group pass |
| Controller.BoidController.UpdateSchoolingBoid | Assets/Scripts/BoidSim/BoidController.cs:280-366 | one fish's turn writes its own velocity only |
| Controller.BoidController.ScanSchool | Assets/Scripts/BoidSim/BoidController.cs:288-321 | the neighbour scan computes the flock sums of its group |
| Controller.BoidController.AvoidSoloBoids | Assets/Scripts/BoidSim/BoidController.cs:350-363 | the loop over the solo fish applies every solo push in list order |
| Controller.BoidController.ApplyInterSchoolAvoidance | Assets/Scripts/BoidSim/BoidController.cs:370-413 | only the fish's own velocity changes, to its inter-school avoidance |
| Controller.BoidController.ScanOtherSchools | Assets/Scripts/BoidSim/BoidController.cs:376-401 | the loop over the other groups computes the avoidance sums of the scan |
| Controller.BoidController.UpdateSoloBoid | Assets/Scripts/BoidSim/BoidController.cs:415-458 | the loop over the solo fish leaves the velocities and stream position of the solo phase |
| Controller.BoidController.ScanAll | Assets/Scripts/BoidSim/BoidController.cs:423-445 | the scan over all fish computes the solo avoidance sum |
| Controller.BoidController.ApplyMovement | Assets/Scripts/BoidSim/BoidController.cs:460-525 | the loop over all fish leaves the positions, velocities and stream position of the movement pass |
| Controller.BoidController.ApplyBoundaryForce | Assets/Scripts/BoidSim/BoidController.cs:527-571 | one fish's boundary step is the boundary stage |
| Findings.SeparationAsWritten | Assets/Scripts/BoidSim/BoidJobsController.cs:439-445 | the same-type separation sum with the library's normalization, where a NaN push poisons the sum |
| Findings.AsWrittenAgreesApart | Assets/Scripts/BoidSim/BoidJobsController.cs:439-445 | with no other fish of the type at distance zero, the code as written and the corrected scan agree |
| Findings.CoincidentPoisons | Assets/Scripts/BoidSim/BoidJobsController.cs:439-445 | once a fish of the same type at distance zero has been scanned, the separation as written is NaN |
| Findings.CorrectedCoincidentPushIsZero | Assets/Scripts/BoidSim/BoidJobsController.cs:439-445 | in the corrected scan a fish at the same place is a neighbour that pushes with zero force |
| Findings.CoincidentPairExample | Assets/Scripts/BoidSim/BoidJobsController.cs:444 | two fish of one type at (1, 1): NaN as written, zero separation corrected |

## Left out

- Floating point: all arithmetic is over the reals. Single-precision rounding, overflow to infinity and NaN are not modelled, except for the separation NaN under "Findings".
- The square root and `normalize` of the math library are an oracle. The unit length of a normalized non-zero vector is assumed where a proof needs it, and the assumption is stated as `Vectors.Sound`.
- Rotation: the heading of each scene object, `atan2`, `LerpAngle` and `rotationSpeed`, and the z coordinate of the transforms, are presentation only.
- `InitializeBoundaries` (both files): reading the sprite's bounds. `hasBoundaries`, the bounds, the centre and the half size are given as state.
- Spawn geometry: the spawn points, the offsets around them and the launch angles all come from `UnityEngine.Random.Range`. They are inputs, one spawn position and one unit heading per fish. What the model proves is where each value goes.
- `Random.insideUnitCircle` during a frame is a stream `circle: nat -> Vec2` with a cursor `drawn`. Its distribution is not modelled, and the stream is not constrained to the unit disc: any vector may be drawn. The bounce jitter bounds of `ControllerRules.BounceX` and `ControllerRules.BounceY` are stated for draws inside the unit disc; the wander and the speed floor are stated exactly in terms of the drawn vector.
- The same `math.normalize` of a zero vector as in the finding also occurs in the inter-school push of the schooling job (BoidJobsController.cs:468, `SchoolingJob.InterSchoolScan`) and in the push of the solo job (BoidJobsController.cs:540, `SoloJob.Push`), for a fish of another school or type at exactly the same position. Both are modelled as the corrected zero push; the NaN there is not modelled.
- `Time.deltaTime` is a parameter `dt`.
- Job scheduling, batch size and parallelism: each job is a sequential pass over its indices. That the result does not depend on the order of the indices is proved instead.
- The `Debug.Log` calls, `OnDrawGizmos`, the `Stats` and `Rules` folders, and instantiating prefabs.
- `schoolsByType` and the spawn dictionaries are keyed by `BoidData` references. They are modelled by roster index in insertion order. A roster that lists the same `BoidData` object twice is not modelled.
- `int` counters (`boidCount`, indices) are unbounded. A roster of more than `int.MaxValue` fish is not modelled.
- `BoidData.boidCount` is a `nat`, so a negative count is not modelled. In the jobs controller a negative total makes the `NativeArray` allocation throw (BoidJobsController.cs:112-126), and a negative entry with a non-negative total makes later slots run past the arrays. In the sequential controller that type's spawn loop does not run (BoidController.cs:153).
- `Flocking.Params.Valid`: every radius and the boundary buffer are assumed positive. A zero divisor would give an IEEE infinity or NaN.
- JobsController.BoidJobsController.SpawnBoids: the schooling-job index arrays (`indicesArray`) and their disposal are not separate buffers in the model.
- MovementJob.SpeedCap: the speed bound is proved only under `Vectors.Sound`, the unit law assumed of the library's `normalize`.
- ControllerRules.CapSpeed: the speed bound is proved only under `Vectors.Sound`, for the same reason.
- MovementJob.SpeedFloor and ControllerRules.SpeedFloor: no claim about the distribution of the replacement velocity.
- ControllerRules.SchoolingPhase: only bounds on the stream are stated about the whole phase. The per-fish contents follow from `GroupPassWritten` and `GroupPassKept`, group by group.

## Findings

| source | as written | input that shows it | evidently intended | confidence | as-written member | corrected member |
|---|---|---|---|---|---|---|
| Assets/Scripts/BoidSim/BoidJobsController.cs:444 | the separation push normalizes the move-away vector with `math.normalize`, which is NaN for the zero vector; the NaN makes the separation sum NaN, the `> 0.001` guard is false for NaN, and the NaN reaches the velocity | two fish of the same schooling type at exactly the same position, e.g. both clamped into the same corner of the arena; `Findings.CoincidentPairExample` uses (1, 1) | a fish at the same place pushes with zero force, as `Vector2.normalized` in the sequential controller and `math.normalizesafe` give | not executed | Findings.SeparationAsWritten, Findings.CoincidentPoisons, Findings.CoincidentPairExample | SchoolingJob.SameTypeScan, with Findings.CorrectedCoincidentPushIsZero and Findings.AsWrittenAgreesApart |

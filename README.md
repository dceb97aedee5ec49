# Dice physics and conveyor schedules

This project models two parts of the repository in Dafny and proves properties of the models.

**The die** (class `Dice`, `Dices/dice_d20.py`).
- A tetrahedron or a cube is built once: its vertices, faces, face normals, mass and diagonal inertia tensor with a guarded inverse.
- `start_roll` throws it.
- Each `update(dt, plane_y)` does the following:
  - integrates gravity, position and rotation (wrapped to [0, 360));
  - finds the lowest vertex;
  - when that vertex touches the floor, applies the restitution impulse, the friction torque through the inverse inertia tensor, and the lift out of the floor;
  - runs the grounded timer;
  - falls asleep once the die has been on the floor for more than 0.1, lies on a face and has almost stopped.
- `determine_result` then reports a face. The tetrahedron reports the face most nearly pointing down; the cube reports the face most nearly pointing up.

The die is a Dafny `class`. Its shape tables are `const` fields and its motion state is `var` fields. Every method is proved against a pure function over a `Motion` value: `Update` against `Step`, `Bounce` against `Respond`, `FindContact` against `Lowest`, the result scans against `ScanBest`. The properties are lemmas about those functions.

**The conveyor line** (`CalculationConveyorProduction/visualization.py`).
- `adjust_time_with_workers` shares a base time among workers.
- `calculate_times` sorts the conveyors by number in place and divides every time by its worker count. It then totals:
  - T_posl from the sum;
  - T_par from the maximum, the minimum and `sorted(times)[1]`;
  - T_opt from the sum and the maximum.
- Three builders each sort the list, overwrite every conveyor's time with its adjusted time, and lay out a schedule:
  - sequential: each conveyor takes the whole batch in turn;
  - parallel: items go through the line one after the other;
  - optimized continuous: an item enters a conveyor once the conveyor is free and the item has left the previous stage.
- The module script runs the totals, then each builder on `conveyors.copy()`.

A conveyor is a class with a mutable time `t`, and a list of conveyors is an `array` of references. This way the model shows the sharing that `list.copy()` leaves in place. Each builder loop is a method proved against a recursive definition of its start times. The lemmas then show the following:
- The sequential plan is contiguous.
- The parallel plan runs one item at a time.
- The optimized plan has no conflicts.
- T_posl is where the sequential and the parallel plans end.
- T_opt is where the optimized plan ends.
- T_par is where the parallel plan ends when there are exactly three conveyors.

Notes on the code as written:
- The tetrahedron's face i leaves out vertex 3 - i.
- The die's kind is the integer the code branches on, not a closed enumeration. Any number other than 4 or 6 gives no geometry, mass 1.0 and the identity tensor, and such a die never falls asleep.
- The cube's faces are wound so that faces 1 and 2 get the same normal, and so do faces 5 and 6. The first of each pair always wins the scan, so a cube never reports 2 or 6 (`DicePhysics.Dice.CubeNeverShowsTwoOrSix`).
- `calculate_times` raises `ZeroDivisionError` for a conveyor without workers. It raises `ValueError` for an empty list and `IndexError` for a single conveyor, whatever the number of goods, because the T_par text evaluates `max` and `sorted(...)[1]` unconditionally.

Files:
- `vectors.dfy`: three-vectors.
- `dice_geometry.dfy`: the die's tables.
- `selection.dfy`: the first-maximum scan.
- `dice.dfy`: the die.
- `wrappers.dfy`: Option and Result.
- `sequences.dfy`: `sum`, `max`, `min` and the stable sort.
- `schedules.dfy`: the builder loops.
- `conveyors.dfy`: conveyors, the in-place sort and adjustment, the builders and `calculate_times`.
- `plans.dfy`: what a builder's schedule is and what the script leaves behind.
- `script.dfy`: the module script, as written and corrected.

## Model

| member | source | states |
|---|---|---|
| DicePhysics.WrapDegrees | Dices/dice_d20.py:223 | `r % 360` lies in [0, 360) and leaves an angle already in that range unchanged |
| DicePhysics.WrapDegreesPeriodic | Dices/dice_d20.py:223 | adding or removing a whole turn does not change the wrapped angle |
| DicePhysics.AdvanceEach | Dices/dice_d20.py:217-222 | the per-component loop `p[i] += v[i] * dt` gives p advanced along v for dt |
| DicePhysics.Integrate | Dices/dice_d20.py:213-223 | after gravity and the position and rotation loops every rotation angle lies in [0, 360) |
| DicePhysics.RowSumFull | Dices/dice_d20.py:270-273 | the inner loop's running sum over j = 0, 1, 2 is the dot product of the tensor row and the torque |
| DicePhysics.ApplyInverseInertia | Dices/dice_d20.py:270-273 | the nested i/j loop adds the inverse inertia tensor times the torque difference to the spin |
| DicePhysics.Dice.constructor | Dices/dice_d20.py:41-68 | the tables are built from the kind and the size (1.0 unless given), the die is at rest at the origin, idle, not asleep, with result 0, and in a consistent state |
| DicePhysics.Dice.Roll | Dices/dice_d20.py:198-204 | a throw sets the speeds, wakes the die, clears result and timer, and keeps position and rotation |
| DicePhysics.Dice.StartRoll | Dices/dice_d20.py:198-204 | the new state is the throw of the old one |
| DicePhysics.Dice.RollConsistent | Dices/dice_d20.py:198-204 | a thrown die is always in a consistent state (awake, result 0) |
| DicePhysics.Dice.Lowest | Dices/dice_d20.py:226-236 | none exactly when there is no vertex; otherwise the earliest vertex of least height, with its height and rotated offset |
| DicePhysics.Dice.FindContact | Dices/dice_d20.py:226-236 | the scan over the vertices returns Lowest of all vertices |
| DicePhysics.Dice.LowestTouches | Dices/dice_d20.py:226-238 | the lowest vertex is within 0.01 of the floor exactly when some vertex is |
| DicePhysics.Dice.Impulse | Dices/dice_d20.py:245-249 | the impulse is at most 10 and positive when the contact point approaches the floor |
| DicePhysics.Dice.Respond | Dices/dice_d20.py:238-278 | the contact response never changes the rotation |
| DicePhysics.Dice.ImpulseLiftsOnly | Dices/dice_d20.py:245-253 | the horizontal speeds are unchanged; an approaching contact raises the vertical speed by more than 0 and at most 10 / mass; a leaving contact changes nothing |
| DicePhysics.Dice.NoTangentStopsSpin | Dices/dice_d20.py:256-275 | with tangential speed at most 1e-6 the spin is set to zero |
| DicePhysics.Dice.RespondRestsOnFloor | Dices/dice_d20.py:277-278 | after the lift the contact vertex is exactly on the floor and no vertex is below it |
| DicePhysics.Dice.FaceUpFrom | Dices/dice_d20.py:302-309 | the early-return loop of is_stable holds exactly when some face's rotated normal has an upward component of at least 0.98 |
| DicePhysics.Dice.ResultFace | Dices/dice_d20.py:329-354 | a tetrahedron or cube reports a face between 1 and its face count; any other kind keeps its current result |
| DicePhysics.Dice.TetraResult | Dices/dice_d20.py:330-341 | the loop's face is the scan's first face with the smallest `1 - dot(n, down)` below 2 |
| DicePhysics.Dice.CubeResult | Dices/dice_d20.py:343-354 | the loop's face is the scan's first face with the largest upward dot product above -2 |
| DicePhysics.Dice.DetermineResult | Dices/dice_d20.py:329-354 | the new result is ResultFace of the rotation and the old result |
| DicePhysics.Dice.CubeNeverShowsTwoOrSix | Dices/dice_d20.py:108-115 | with the faces wound as written a cube never reports face 2 or face 6 |
| DicePhysics.Dice.Settle | Dices/dice_d20.py:295-300 | falling asleep never changes the rotation |
| DicePhysics.Dice.Touch | Dices/dice_d20.py:238-293 | the floor test and the response never change the rotation |
| DicePhysics.Dice.Step | Dices/dice_d20.py:206-300 | a sleeping or idle die is left as it is; a die that falls asleep is no longer rolling, was grounded for more than 0.1, lies on a face, is nearly still and reports ResultFace; a rolling die's angles stay in [0, 360) |
| DicePhysics.Dice.GroundedTimer | Dices/dice_d20.py:238-293 | the grounded timer grows by dt when some moved vertex is within 0.01 of the floor, and restarts from 0 otherwise |
| DicePhysics.Dice.OtherKindsNeverSettle | Dices/dice_d20.py:87-119 | a die of any kind other than 4 or 6 has no vertex to touch the floor and never falls asleep |
| DicePhysics.Dice.StepConsistent | Dices/dice_d20.py:206-300 | a step keeps the die consistent: asleep with a face between 1 and the face count, or awake with result 0 |
| DicePhysics.Dice.Move | Dices/dice_d20.py:213-223 | the new state is Integrate of the old one |
| DicePhysics.Dice.Lift | Dices/dice_d20.py:252-253 | the velocity loop adds k times the floor normal to the velocity and changes nothing else |
| DicePhysics.Dice.Bounce | Dices/dice_d20.py:239-278 | the new state is Respond of the old one at the contact |
| DicePhysics.Dice.Slide | Dices/dice_d20.py:256-275 | the spin after friction when the tangential speed exceeds 1e-6, zero otherwise |
| DicePhysics.Dice.Twist | Dices/dice_d20.py:259-273 | the friction branch gives Spin: the impulse torque less the friction torque (0.8 of the impulse, at most the tangential speed) through the inverse tensor |
| DicePhysics.Dice.TouchFloor | Dices/dice_d20.py:226-293 | the new state is Touch of the old one |
| DicePhysics.Dice.MaybeSettle | Dices/dice_d20.py:295-300 | when ready to sleep the die stops rolling, sleeps and reports ResultFace; otherwise those fields are unchanged |
| DicePhysics.Dice.Update | Dices/dice_d20.py:206-300 | the new state is Step of the old one |
| DiceGeometry.Mass | Dices/dice_d20.py:60-65 | the mass is positive, and 0.8 exactly for the tetrahedron |
| DiceGeometry.Vertices | Dices/dice_d20.py:87-107 | four vertices for the tetrahedron, eight for the cube, none otherwise |
| DiceGeometry.Faces | Dices/dice_d20.py:93-111 | four triangles or six quadrilaterals over distinct in-range vertex indices, none otherwise |
| DiceGeometry.CalculateNormal | Dices/dice_d20.py:121-131 | the zero vector exactly when the cross product of the two edges from the first vertex has length zero, otherwise that cross product divided by its length; either way orthogonal to both edges |
| DiceGeometry.FaceNormals | Dices/dice_d20.py:96-99 | one normal per face, and normal i is the normal of face i's first three vertices: orthogonal to its two edges and their cross product over its length, or zero for a zero length |
| DiceGeometry.TetrahedronFaceOmitsOneVertex | Dices/dice_d20.py:93-95 | tetrahedron face i holds every vertex except vertex 3 - i |
| DiceGeometry.CubeFacesAxisAligned | Dices/dice_d20.py:104-111 | every cube face lies in one axis-aligned plane at +size/2 or -size/2 |
| DiceGeometry.CubeNormalsRepeat | Dices/dice_d20.py:108-115 | faces 1 and 2 of the cube get the same normal, and so do faces 5 and 6 |
| DiceGeometry.InertiaTensor | Dices/dice_d20.py:70-77 | a diagonal tensor with mass*size^2/6 (cube), mass*size^2/4 (tetrahedron) or 1 on the diagonal |
| DiceGeometry.CalculateInverseInertiaTensor | Dices/dice_d20.py:79-85 | the guarded inverse: 1/t[i][i] where that entry is non-zero, 0 elsewhere, so each non-zero entry times its inverse is 1 |
| Vectors.CrossOrthogonal | Dices/dice_d20.py:124-128 | the cross product is orthogonal to both its arguments |
| Selection.ScanBest | Dices/dice_d20.py:329-354 | the index is in range and its score is the maximum; when a score beats the floor it is the first maximal one, otherwise the scan keeps face 1 |
| Selection.ScanBestSnoc | Dices/dice_d20.py:335-341 | one more loop step: the scan of a longer prefix replaces its pick only on a strictly larger score |
| Selection.ScanBestIsFirstMaximum | Dices/dice_d20.py:348-354 | any position beating the floor that is maximal and strictly above every earlier score is the scan's pick |
| Selection.TieGoesToEarlier | Dices/dice_d20.py:348-354 | of two equal scores the later position is never picked |
| Sequences.MaxOf | CalculationConveyorProduction/visualization.py:20 | `max(s)` is an element of s and at least every element |
| Sequences.MinOf | CalculationConveyorProduction/visualization.py:20 | `min(s)` is an element of s and at most every element |
| Sequences.Drop | CalculationConveyorProduction/visualization.py:20 | removing one occurrence of x takes exactly one copy of x off the multiset, and a missing x leaves the list as it is |
| Sequences.Repeat | CalculationConveyorProduction/visualization.py:20 | `[v for _ in range(n)]` has max(n, 0) elements, all v |
| Sequences.SumPermutation | CalculationConveyorProduction/visualization.py:17 | rearranging the times does not change their sum |
| Sequences.SortBySortsAndPermutes | CalculationConveyorProduction/visualization.py:13 | the sort by key orders by key and is a rearrangement of its input |
| Sequences.SortByStable | CalculationConveyorProduction/visualization.py:13 | the sort is stable: for every key, the elements with that key leave in the order they came in |
| Sequences.SortBySortedIsIdentity | CalculationConveyorProduction/visualization.py:67 | sorting a list already sorted by key leaves it as it is, as the builders' second sort does |
| Sequences.SortByDistinct | CalculationConveyorProduction/visualization.py:13 | sorting a list without repeats does not create any |
| Sequences.InsertByAt | CalculationConveyorProduction/visualization.py:13 | a stable insertion puts x after every element with a key at most x's |
| Schedules.SequentialSchedule | CalculationConveyorProduction/visualization.py:71-77 | one row per conveyor number; when no number repeats, conveyor j's row is one interval of length `t * goods` starting where the earlier conveyors' batches end |
| Schedules.SequentialRowsStep | CalculationConveyorProduction/visualization.py:76 | writing conveyor j's row keeps the rows of the conveyors before it |
| Schedules.SequentialContiguous | CalculationConveyorProduction/visualization.py:71-77 | the sequential plan starts at 0 and each conveyor starts when the previous one ends |
| Schedules.SequentialMakespan | CalculationConveyorProduction/visualization.py:71-77 | the sequential plan ends after `sum(ts) * goods` |
| Schedules.ParallelSchedule | CalculationConveyorProduction/visualization.py:96-110 | one row per conveyor number; when no number repeats, conveyor j's row has one interval per item, starting at ParStart |
| Schedules.ParallelItem | CalculationConveyorProduction/visualization.py:100-110 | one pass appends item i's interval to every row and returns `finish_times[i]` |
| Schedules.ParallelOneItemAtATime | CalculationConveyorProduction/visualization.py:103-108 | each item starts no earlier than the previous item's finish, and each stage no earlier than the previous stage's end |
| Schedules.ParStartClosed | CalculationConveyorProduction/visualization.py:99-110 | with non-negative times item i starts on conveyor j at `i * sum(ts) + sum(ts[..j])` |
| Schedules.ParFinishClosed | CalculationConveyorProduction/visualization.py:99-110 | with non-negative times item i leaves the line at `(i + 1) * sum(ts)` |
| Schedules.OptimizedSchedule | CalculationConveyorProduction/visualization.py:122-137 | one row per conveyor number; when no number repeats, conveyor j's row has one interval per item, starting at OptStart |
| Schedules.OptimizedItem | CalculationConveyorProduction/visualization.py:127-137 | one pass appends item i's interval to every row and records when each conveyor releases item i |
| Schedules.OptimizedNoConflicts | CalculationConveyorProduction/visualization.py:129-132 | a conveyor takes item i only after it has finished item i - 1, and an item enters a conveyor only after leaving the previous stage |
| Schedules.OptFinishClosed | CalculationConveyorProduction/visualization.py:126-137 | with non-negative times item i leaves conveyor j at `sum(ts[..j+1]) + i * max(ts[..j+1])` |
| Conveyors.AdjustTimeWithWorkers | CalculationConveyorProduction/visualization.py:3-9 | infinite exactly when there are no workers; otherwise a time that, times the workers, is the base time |
| Conveyors.SortByPriority | CalculationConveyorProduction/visualization.py:13 | the in-place insertion sort leaves the stable sort by conveyor number and does not touch any conveyor's time |
| Conveyors.InsertIntoPrefix | CalculationConveyorProduction/visualization.py:13 | one insertion step inserts a[i] into the sorted prefix and leaves the rest |
| Conveyors.SortedRearranges | CalculationConveyorProduction/visualization.py:13 | the sorted list is ordered, holds exactly the list's conveyors and repeats none the list does not |
| Conveyors.AdjustTimes | CalculationConveyorProduction/visualization.py:68-69 | every conveyor of the list has its time divided by its worker count, and the list is unchanged |
| Conveyors.PrepareConveyors | CalculationConveyorProduction/visualization.py:67-69 | the list is sorted by number and every one of its conveyors has its time divided once by its worker count |
| Conveyors.SequentialOrganizationSchedule | CalculationConveyorProduction/visualization.py:63-79 | sorts and adjusts the list, then builds the sequential rows from the adjusted times |
| Conveyors.ParallelOrganizationSchedule | CalculationConveyorProduction/visualization.py:81-112 | sorts and adjusts the list, then builds the parallel rows from the adjusted times |
| Conveyors.OptimizedContinuousSchedule | CalculationConveyorProduction/visualization.py:114-139 | sorts and adjusts the list, then builds the optimized rows from the adjusted times |
| Conveyors.TimesTotals | CalculationConveyorProduction/visualization.py:17-27 | ValueError exactly for no times, IndexError exactly for one, the three totals exactly for two or more |
| Conveyors.CalculateTimes | CalculationConveyorProduction/visualization.py:11-27 | sorts the list in place without touching any time; ZeroDivisionError when a worker count is zero, otherwise the totals of `t / c` |
| Conveyors.TotalsOfSorted | CalculationConveyorProduction/visualization.py:14-27 | the `t / c` loop stops with ZeroDivisionError at a conveyor without workers, otherwise gives the totals of `t / c` |
| Conveyors.ParTotalClosed | CalculationConveyorProduction/visualization.py:20 | T_par is `goods * (max + min + second smallest)`, and 0 for no goods |
| Conveyors.SortedEnds | CalculationConveyorProduction/visualization.py:20 | `sorted(times)` starts with the minimum and ends with the maximum |
| Conveyors.SortedSecondIsSecondSmallest | CalculationConveyorProduction/visualization.py:20 | `sorted(times)[1]` is the smallest time once one copy of the minimum is set aside |
| Conveyors.SecondSmallestBetween | CalculationConveyorProduction/visualization.py:20 | the second smallest time is one of the times, between the minimum and the maximum |
| Conveyors.PoslIsSequentialMakespan | CalculationConveyorProduction/visualization.py:17 | T_posl is where the sequential plan built from the same times ends |
| Conveyors.OptIsOptimizedMakespan | CalculationConveyorProduction/visualization.py:24 | with non-negative times and at least one item, T_opt is where the optimized plan ends |
| Conveyors.OptIsTimes | CalculationConveyorProduction/visualization.py:24 | T_opt is the sum of the times plus the slowest time once per item after the first |
| Conveyors.ParallelMakespanIsSequential | CalculationConveyorProduction/visualization.py:99-110 | with non-negative times the parallel plan ends where the sequential plan ends |
| Conveyors.ParIsParallelMakespanForThree | CalculationConveyorProduction/visualization.py:20 | for exactly three conveyors T_par is where the parallel plan ends |
| Conveyors.ThreeTimesSum | CalculationConveyorProduction/visualization.py:20 | three times add up to their maximum, minimum and second smallest |
| ConveyorPlans.DividedByAgain | CalculationConveyorProduction/visualization.py:150-152 | dividing once more after n divisions is n + 1 divisions |
| ConveyorScript.RatesAreDividedOnce | CalculationConveyorProduction/visualization.py:14 | `t / c` for every conveyor is its time divided once by its worker count |
| ConveyorScript.TimesDividedOnce | CalculationConveyorProduction/visualization.py:69 | times that are the old times over the worker counts are the old times divided once |
| ConveyorScript.Build | CalculationConveyorProduction/visualization.py:150-152 | the chosen builder sorts the list, divides every conveyor's time once and builds that plan from the new times |
| ConveyorScript.BuildSorted | CalculationConveyorProduction/visualization.py:67-77 | on a list already sorted the order stays, the times are divided once and the plan is built from them |
| ConveyorScript.ShallowCopy | CalculationConveyorProduction/visualization.py:150 | `list.copy()` is a new list holding the same conveyors |
| ConveyorScript.BuildOnShallowCopy | CalculationConveyorProduction/visualization.py:150-152 | a builder on a shallow copy divides the shared conveyors' times once more and builds from ts divided n + 1 times |
| ConveyorScript.PlansOnShallowCopies | CalculationConveyorProduction/visualization.py:150-152 | the three builders on shallow copies build from the times divided once, twice and three times, and leave them divided three times |
| ConveyorScript.TotalsStage | CalculationConveyorProduction/visualization.py:149 | calculate_times leaves the list sorted with unchanged times and returns the totals of the times divided once, or ZeroDivisionError |
| ConveyorScript.ScriptAsWritten | CalculationConveyorProduction/visualization.py:149-152 | the script as written: a failure leaves the times, a success gives totals from T/c but parallel and optimized plans from T/c/c and T/c/c/c |
| ConveyorScript.EightsHalved | CalculationConveyorProduction/visualization.py:150-151 | times 8 shared by 2 workers become 4 after one builder and 2 after two |
| ConveyorScript.TotalsOfFours | CalculationConveyorProduction/visualization.py:17 | with times 4 and 4 and one item T_posl is 8 |
| ConveyorScript.ParallelOfTwos | CalculationConveyorProduction/visualization.py:151 | with times 2 and 2 and one item the parallel plan gives conveyor 1 one interval of length 2 |
| ConveyorScript.ShallowCopyCounterexample | CalculationConveyorProduction/visualization.py:149-152 | on two conveyors with time 8 and 2 workers each T_posl is 8 while the parallel plan's first interval is 2, not 4 |
| ConveyorScript.DeepCopy | CalculationConveyorProduction/visualization.py:150 | a new list of new conveyors with the same numbers, times and worker counts |
| ConveyorScript.BuildOnDeepCopy | CalculationConveyorProduction/visualization.py:150-152 | a builder on a deep copy builds from the times divided once and leaves the original alone |
| ConveyorScript.PlansOnDeepCopies | CalculationConveyorProduction/visualization.py:150-152 | all three plans are built from the times divided once |
| ConveyorScript.ScriptCorrected | CalculationConveyorProduction/visualization.py:149-152 | the corrected script: the list is sorted, the times are kept, and the totals and all three plans come from T/c |
| ConveyorScript.PlansIfTotalled | CalculationConveyorProduction/visualization.py:150-152 | the builders run on copies of their own only when calculate_times succeeded, all from T/c |
| ConveyorScript.TotalledPoslIsSequentialMakespan | CalculationConveyorProduction/visualization.py:17 | when calculate_times succeeds T_posl is where the sequential plan built from the same times ends |

## Left out

- Rendering, the number glyphs, colours, the skybox, textures, the window, the main loop, input handling, the bounce sound, the energy printout of `update` and the result printout (Dices/dice_d20.py lines 133-197, 279-288, 356 and 361-585) are presentation or I/O and are left out.
- Dices/dices.py, 4D_Projection/Hypercube.py and fibCubeViz/fibbVisualisation.py are not part of this model.
- `plot_conveyor_schedule` and the formatted T_posl/T_par/T_opt strings are left out because they are plotting and text. The strings are kept only for the errors they raise: `max` and `sorted(...)[1]` of the T_par text.
- `rotate_point` (sines and cosines of the Euler angles) and `math.sqrt` are not modelled. The die is given them as functions when it is constructed, and the properties hold for any such functions.
- Floating point is modelled as exact real arithmetic. Rounding, NaN and the infinity of the unbounded `min_distance` start are not modelled. The last of these is why `Lowest` returns `None` for a die without vertices.
- `DicePhysics.Dice.StartRoll` stores the given vectors as values. In the source, `self.velocity = initial_velocity` aliases the caller's list; the aliasing is not modelled.
- `Conveyors.Conveyor`: a conveyor dictionary is a class whose number and worker count are `const`. The source never writes them.
- The schedule builders require every worker count to be non-zero. With a zero count, `adjust_time_with_workers` returns infinity and the loops would do infinite-float arithmetic, which is not modelled. `AdjustTimeWithWorkers` itself models the infinity as `Unbounded`.
- The builders require the list to hold distinct conveyor objects, as any list the script builds does.
- `Schedules.SequentialSchedule`, `Schedules.ParallelSchedule`, `Schedules.OptimizedSchedule`: rows are stated only when no conveyor number repeats. With repeated numbers the source overwrites or merges rows under one key; the model states only which keys exist in that case.
- `Conveyors.OptIsOptimizedMakespan`, `Conveyors.ParallelMakespanIsSequential`, `Schedules.ParFinishClosed`, `Schedules.OptFinishClosed`: each assumes at least one item and non-negative times. Without these assumptions the closed forms do not hold.
- `Conveyors.ParIsParallelMakespanForThree`: this holds only for exactly three conveyors, like the script's data. For other list lengths T_par is not the parallel plan's end.
- The data of lines 142-147 (goods 4, three conveyors with one worker each) is not fixed in the model. The script methods take any list, and the ghost parameter `T` names the list's times in sorted order.

## Findings

| source | as written | input that shows it | evidently intended | confidence | as-written member | corrected member |
|---|---|---|---|---|---|---|
| CalculationConveyorProduction/visualization.py:150-152 | each builder is handed `conveyors.copy()`, a new list holding the same dictionaries, and overwrites their `t` with `t / c`; so the parallel plan is built from `t / c / c` and the optimized plan from `t / c / c / c` | goods 1, two conveyors with `t` 8 and `c` 2: T_posl is 8, but the parallel plan's first interval has length 2 instead of 4 (with the script's own data every `c` is 1, so nothing shows) | every builder works on conveyors of its own, so all three plans use the times `t / c` that calculate_times totals | not executed | ConveyorScript.ScriptAsWritten, ConveyorScript.ShallowCopyCounterexample | ConveyorScript.ScriptCorrected |

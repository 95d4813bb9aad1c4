# add_markers: zone-transition state machine and marker publisher

This project models the `add_markers` node of a home-service robot.
The node watches the robot's odometry and tracks a delivery task through four phases: moving to the pickup zone, at the pickup zone, moving to the dropoff zone, and at the dropoff zone.
Once per tick it publishes a cube marker that reflects the phase.

- `zone_tracker.dfy`, module `ZoneTracker`. It holds the phases (`eRoboState`), the two fixed zones (pickup (1, 0, w=1.0) and dropoff (-10, 0, w=1.2)), the 0.5 arrival threshold, the squared planar distance, and the transition table `Next`.
  It also holds the callback's if/else chain as written (`SourceChain`), the phase after a sequence of samples (`Run`), and the lemmas about them.
- `marker_publisher.dfy`, module `MarkerPublisher`. It holds the marker record, the one tick of the main loop's `switch` (`Emit`), and the publishing table (`Command`).
  It also holds `Consistent`, the invariant that ties the persistent record to the phase, and the lemmas about them.
- `add_markers_node.dfy`, module `AddMarkersNode`. The class `MarkerNode` holds the two pieces of state the source keeps: the global `robotState` (`phase`) and the `marker` record that `main` declares and mutates in place across ticks.
  `OnSample` is the odometry callback. `Tick` is one pass of the loop's `switch`.

The arrival test compares squared distances with 0.25 instead of taking `sqrt` and comparing with 0.5.
`ArrivalBySquare` proves that this is the same test for every non-negative distance.
`NextMatchesChain` proves that the table on squared distances gives the same phase as the source's chain on distances, for every phase.
The sample's orientation `w` is carried but never consulted. The source computes the orientation deltas `dPickupW` and `dDropOfW` and never uses them.

One consequence of the model is worth knowing. Suppose the robot enters and leaves the pickup zone between two ticks. Then no tick ever runs in `AtPickup`, so the DELETE is never published. The record is still the shown pickup cube, and the tick in `MovingToDropoff` publishes nothing. `HideMissed` states this for any two such samples.

## Model

| member | source | states |
|---|---|---|
| ZoneTracker.DistSq | add_markers/src/add_markers.cpp:27-34 | the squared planar distance to a zone is never negative and is zero when the sample is at the zone |
| ZoneTracker.Next | add_markers/src/add_markers.cpp:37-52 | one sample never moves the phase backwards, moves it at most one step, and AtDropoff is absorbing |
| ZoneTracker.ArrivalBySquare | add_markers/src/add_markers.cpp:29-48 | for a non-negative distance d, `d < 0.5` holds exactly when `d*d < 0.25` holds, so comparing squares decides arrival as the source does |
| ZoneTracker.SourceChain | add_markers/src/add_markers.cpp:37-52 | the callback's if/else chain as written, on real distances: it is the reference that `NextMatchesChain` compares the table against. On real distances it never moves the phase backwards or more than one step, and AtDropoff stays put |
| ZoneTracker.Step | add_markers/src/add_markers.cpp:22-53 | one callback's effect on the phase: a sample exactly at the pickup moves MovingToPickup to AtPickup, one exactly at the dropoff moves MovingToDropoff to AtDropoff, and AtDropoff stays put |
| ZoneTracker.NextMatchesChain | add_markers/src/add_markers.cpp:27-52 | for every phase and all non-negative real distances, the table on squared distances gives the phase that the callback's if/else chain gives on distances |
| ZoneTracker.TransitionRows | add_markers/src/add_markers.cpp:37-49 | each row of the table in both directions: MovingToPickup becomes AtPickup iff d < 0.5 and stays iff d >= 0.5; AtPickup stays iff d < 0.5 and becomes MovingToDropoff iff d >= 0.5; MovingToDropoff becomes AtDropoff iff the dropoff distance is < 0.5 and stays iff it is >= 0.5 |
| ZoneTracker.PickupBoundary | add_markers/src/add_markers.cpp:37-40 | a sample exactly 0.5 from the pickup has not arrived; one 0.499 away has |
| ZoneTracker.DropoffAbsorbs | add_markers/src/add_markers.cpp:50-51 | in AtDropoff, every sample leaves the phase at AtDropoff, wherever it is |
| ZoneTracker.NextUsesOneDistance | add_markers/src/add_markers.cpp:37-52 | in the two pickup phases only the pickup distance matters; in the two dropoff phases only the dropoff distance matters |
| ZoneTracker.SampleScenarios | add_markers/src/add_markers.cpp:5-52 | concrete samples: exactly at the pickup gives AtPickup; (100, 100) stays MovingToPickup; (5, 5) leaves the pickup; exactly at the dropoff gives AtDropoff; a later sample at the pickup leaves AtDropoff unchanged |
| ZoneTracker.Run | add_markers/src/add_markers.cpp:19-53 | successive callbacks on the global `robotState`: the phase after a sequence of samples is never behind the phase the sequence started from |
| ZoneTracker.RunMonotone | add_markers/src/add_markers.cpp:37-52 | over any sequence of samples the phase ordinal never decreases and rises by at most the number of samples |
| ZoneTracker.RunStepwise | add_markers/src/add_markers.cpp:37-52 | each sample of a sequence moves the phase by zero or one step |
| ZoneTracker.RunAppend | add_markers/src/add_markers.cpp:22-53 | running two sample sequences one after the other is the same as running their concatenation |
| ZoneTracker.RunAbsorbs | add_markers/src/add_markers.cpp:50-51 | once in AtDropoff, no sequence of samples moves the phase |
| ZoneTracker.NoReturnToPickup | add_markers/src/add_markers.cpp:37-52 | once a run has reached MovingToDropoff or AtDropoff, no later samples bring it back to MovingToPickup or AtPickup |
| ZoneTracker.DropoffNeedsThreeSamples | add_markers/src/add_markers.cpp:19-52 | starting from MovingToPickup, AtDropoff cannot be reached with fewer than three samples |
| ZoneTracker.StepIgnoresOrientation | add_markers/src/add_markers.cpp:25-52 | two samples with the same position give the same next phase, whatever their orientations |
| ZoneTracker.RunIgnoresOrientation | add_markers/src/add_markers.cpp:25-52 | two sample sequences with the same positions give the same phase, whatever their orientations |
| MarkerPublisher.Emit | add_markers/src/add_markers.cpp:115-157 | a tick publishes the record as it stands after the tick; it publishes nothing exactly in MovingToDropoff, and then the record is unchanged |
| MarkerPublisher.InitialConsistent | add_markers/src/add_markers.cpp:67-103 | the initial record (green 0.25 cube, ADD, at the pickup pose) is consistent with the initial phase |
| MarkerPublisher.SampleKeepsConsistent | add_markers/src/add_markers.cpp:37-52 | a sample keeps the record consistent with the phase, because the phase only moves forward |
| MarkerPublisher.TickFollowsTable | add_markers/src/add_markers.cpp:115-157 | on a consistent record a tick publishes the table's command: ADD at the pickup, DELETE, nothing, or ADD at the dropoff. Every marker sent is the same green cube with ns "basic_shapes" and id 0, and the record stays consistent |
| MarkerPublisher.CommandShapes | add_markers/src/add_markers.cpp:74-149 | the table's commands field by field: ADD at pose (1, 0, 0) with w 1.0, DELETE, none, ADD at pose (-10, 0, 0) with w 1.2. Each has ns "basic_shapes", id 0, cube shape, scale 0.25 and green colour |
| MarkerPublisher.TickIdempotent | add_markers/src/add_markers.cpp:115-157 | for any record, a second tick in the same phase publishes the same command and leaves the same record as the first |
| AddMarkersNode.MarkerNode.constructor | add_markers/src/add_markers.cpp:67-103 | the node starts in MovingToPickup with the green cube at the pickup pose |
| AddMarkersNode.MarkerNode.OnSample | add_markers/src/add_markers.cpp:22-53 | the callback sets the phase to `Step` of the old phase and the sample, leaves the marker record alone, and keeps the invariant |
| AddMarkersNode.MarkerNode.Tick | add_markers/src/add_markers.cpp:115-158 | a tick keeps the phase, updates the record in place as `Emit` says, and returns the table's command for the phase |
| AddMarkersNode.HideMissed | add_markers/src/add_markers.cpp:37-157 | for any sample that reaches the pickup and any later sample that leaves it, with no tick between them, the node is in MovingToDropoff, its record is still the pickup cube with action ADD, and the next tick publishes nothing |
| AddMarkersNode.TickTwice | add_markers/src/add_markers.cpp:113-161 | two ticks with no sample between them return the same command, the one the table gives for the phase |

## Left out

- ROS start-up, advertising the `visualization_marker` topic, subscribing to `/odom`, `ros::spinOnce` and `ros::spin`. These are I/O plumbing around a framework that is not part of this model.
- The wait-for-subscriber loop with `sleep(1)` and its warning, and the one-second sleep per tick. These are timing and I/O.
- The outer `while(ros::ok)` loop. It tests the function's address rather than calling it, so it never ends. The model gives one tick (`Tick`), and `TickTwice` shows two in a row.
- The marker header: the `"map"` frame id and the time stamp from `ros::Time::now()`. The `ROS_INFO` logging is left out too. These are an external clock and logging.
- The orientation deltas `dPickupW` and `dDropOfW`. The source computes them and never reads them, so they have no effect on the phase.
- Floating point: the source keeps zones and distances in 32-bit `float` and calls `fabs` and `sqrt`. The model uses exact reals and compares squared distances, so rounding at the 0.5 boundary and the `float` value of 1.2 are not modelled.
- Non-finite samples: a NaN coordinate makes both distances NaN, so every `>=` and `<` test of the chain is false and the catch-all `else` sends any phase straight to AtDropoff (MovingToPickup with the sample (NaN, 0) jumps to AtDropoff). Samples here are real numbers, so this path is not modelled. The "at most one step" claims of `Next`, `SourceChain`, `RunMonotone` and `RunStepwise`, and `DropoffNeedsThreeSamples`, hold only for finite samples.
- ZoneTracker.DistSq: states that the squared distance is non-negative and zero at the zone, but not that it is zero only at the zone. That fact needs non-linear real arithmetic that the solver does not prove reliably.
- Message queueing: the callback runs only inside `ros::spinOnce()` on the main thread, after each pass of the `switch`, so the source has no concurrency and `OnSample` and `Tick` are sequential calls on one object, as in the source. The model allows any order of those calls, which includes the source's order (one tick, then the queued samples). It does not model the subscriber queue of 10 samples or the samples dropped when more than 10 arrive between two ticks.

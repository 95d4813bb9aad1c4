/** The add_markers node: the task phase written by the odometry callback and the
    persistent marker record that the main loop mutates and publishes once per tick. */
module AddMarkersNode {
  import opened ZoneTracker
  import opened MarkerPublisher

  class MarkerNode {
    /** The global robotState. */
    var phase: Phase
    /** The marker record declared in main and reused by every tick. */
    var marker: Marker

    ghost predicate Valid()
      reads this
    {
      Consistent(phase, marker)
    }

    /** The state before the first sample: MovingToPickup, and the green cube at the
        pickup zone. */
    constructor ()
      ensures Valid()
      ensures phase == MovingToPickup && marker == InitialMarker
    {
      phase := MovingToPickup;
      marker := InitialMarker;
    }

    /** The odometry callback: compare the distances to both zones with the
        threshold and rewrite the phase through the if/else chain. The marker record
        is not touched. */
    method OnSample(s: Sample)
      requires Valid()
      modifies this
      ensures Valid()
      ensures phase == Step(old(phase), s)
      ensures marker == old(marker)
    {
      // The source's chain, as SourceChain states it, on squared distances.
      var dPickupSq := DistSq(s, Pickup);
      var dDropoffSq := DistSq(s, Dropoff);
      var limit := ThresholdSq;
      if phase == MovingToPickup && dPickupSq >= limit {
        phase := MovingToPickup;
      } else if phase == MovingToPickup && dPickupSq < limit {
        phase := AtPickup;
      } else if phase == AtPickup && dPickupSq < limit {
        phase := AtPickup;
      } else if phase == AtPickup && dPickupSq >= limit {
        phase := MovingToDropoff;
      } else if phase == MovingToDropoff && dDropoffSq >= limit {
        phase := MovingToDropoff;
      } else if phase == MovingToDropoff && dDropoffSq < limit {
        phase := AtDropoff;
      } else {
        phase := AtDropoff;
      }
      SampleKeepsConsistent(old(phase), marker, s);
    }

    /** One pass of the main loop's switch: update the record in place as the phase
        demands and return what is published, if anything. */
    method Tick() returns (cmd: Option<Marker>)
      requires Valid()
      modifies this
      ensures Valid()
      ensures phase == old(phase)
      ensures TickResult(cmd, marker) == Emit(old(phase), old(marker))
      ensures cmd == Command(phase)
    {
      // The switch of the main loop, as Emit states it, updating the record in place.
      match phase {
        case MovingToPickup =>
          cmd := Some(marker);
        case AtPickup =>
          marker := marker.(action := Delete);
          cmd := Some(marker);
        case AtDropoff =>
          marker := marker.(ns := Namespace, id := MarkerId, shape := Cube, action := Add);
          marker := marker.(pose := ZonePose(Dropoff));
          cmd := Some(marker);
        case MovingToDropoff =>
          cmd := None;
      }
      TickFollowsTable(old(phase), old(marker));
    }
  }

  /** Two ticks with no sample between them publish the same command twice, so the
      sink may apply the second one redundantly. */
  method TickTwice(node: MarkerNode) returns (first: Option<Marker>, second: Option<Marker>)
    requires node.Valid()
    modifies node
    ensures node.Valid() && node.phase == old(node.phase)
    ensures first == second == Command(node.phase)
  {
    first := node.Tick();
    second := node.Tick();
  }

  /** If the robot enters the pickup zone and leaves it again before the first tick
      after leaving, no tick ever runs in AtPickup: the record is still the shown
      pickup cube and the tick in MovingToDropoff publishes nothing, so no DELETE is
      ever sent for it. */
  method HideMissed(s1: Sample, s2: Sample) returns (node: MarkerNode, cmd: Option<Marker>)
    requires Step(MovingToPickup, s1) == AtPickup
    requires Step(AtPickup, s2) == MovingToDropoff
    ensures node.Valid() && node.phase == MovingToDropoff
    ensures node.marker == InitialMarker && node.marker.action == Add
    ensures cmd == None
  {
    node := new MarkerNode();
    node.OnSample(s1);
    node.OnSample(s2);
    cmd := node.Tick();
  }
}

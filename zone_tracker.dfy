/** The zone tracker of the add_markers node: the task phase of the robot and how
    each odometry sample moves it forward (marker_odom_callback). */
module ZoneTracker {

  /** The four task phases, in the order the robot is meant to go through them
      (eRoboState). */
  datatype Phase = MovingToPickup | AtPickup | MovingToDropoff | AtDropoff

  /** Position of a phase in the task order: 0 for MovingToPickup up to 3 for AtDropoff. */
  function Ordinal(p: Phase): nat {
    match p
    case MovingToPickup => 0
    case AtPickup => 1
    case MovingToDropoff => 2
    case AtDropoff => 3
  }

  /** A fixed waypoint: target position and target orientation (quaternion w). */
  datatype Zone = Zone(x: real, y: real, w: real)

  const Pickup: Zone := Zone(1.0, 0.0, 1.0)
  const Dropoff: Zone := Zone(-10.0, 0.0, 1.2)

  /** Arrival threshold on the planar distance to a zone. */
  const Threshold: real := 0.5

  /** The threshold squared, against which squared distances are compared. */
  const ThresholdSq: real := 0.25

  /** The part of an odometry message the callback reads: planar position and the
      w component of the orientation quaternion. */
  datatype Sample = Sample(x: real, y: real, w: real)

  function Abs(v: real): real {
    if v < 0.0 then -v else v
  }

  /** The product of two non-negative reals is non-negative. */
  lemma NonNegProduct(u: real, v: real)
    requires u >= 0.0 && v >= 0.0
    ensures u * v >= 0.0
  {
  }

  /** Squared planar distance from a sample to a zone, from the absolute per-axis
      differences as the callback computes them. It is never negative and is zero
      at the zone itself. */
  function DistSq(s: Sample, z: Zone): (r: real)
    ensures r >= 0.0
    ensures s.x == z.x && s.y == z.y ==> r == 0.0
  {
    var dx := Abs(s.x - z.x);
    var dy := Abs(s.y - z.y);
    NonNegProduct(dx, dx);
    NonNegProduct(dy, dy);
    dx * dx + dy * dy
  }

  /** A squared distance means "arrived" when the distance is strictly below the
      threshold; a distance of exactly Threshold has not arrived. */
  predicate Arrived(distSq: real) {
    distSq < ThresholdSq
  }

  /** The transition table on squared distances. The phase never goes back, moves at
      most one step, and AtDropoff is absorbing. */
  function Next(p: Phase, pickupSq: real, dropoffSq: real): (q: Phase)
    ensures Ordinal(p) <= Ordinal(q) <= Ordinal(p) + 1
    ensures p == AtDropoff ==> q == AtDropoff
  {
    match p
    case MovingToPickup => if Arrived(pickupSq) then AtPickup else MovingToPickup
    case AtPickup => if Arrived(pickupSq) then AtPickup else MovingToDropoff
    case MovingToDropoff => if Arrived(dropoffSq) then AtDropoff else MovingToDropoff
    case AtDropoff => AtDropoff
  }

  /** The phase after one odometry sample. A sample exactly at the zone the phase is
      heading for arrives there, and AtDropoff stays put. */
  function Step(p: Phase, s: Sample): (q: Phase)
    ensures p == MovingToPickup && s.x == Pickup.x && s.y == Pickup.y ==> q == AtPickup
    ensures p == MovingToDropoff && s.x == Dropoff.x && s.y == Dropoff.y ==> q == AtDropoff
    ensures p == AtDropoff ==> q == AtDropoff
  {
    Next(p, DistSq(s, Pickup), DistSq(s, Dropoff))
  }

  /** The callback's if/else chain, on (non-squared) distances, in its own order,
      with `>=` on the "still moving" side and `<` on the "arrived" side and the
      catch-all else that selects AtDropoff. On real distances the chain never
      moves the phase backwards or more than one step, and the catch-all is reached
      only in AtDropoff. */
  function SourceChain(p: Phase, dPickup: real, dDropoff: real): (q: Phase)
    ensures Ordinal(p) <= Ordinal(q) <= Ordinal(p) + 1
    ensures p == AtDropoff ==> q == AtDropoff
  {
    if p == MovingToPickup && dPickup >= Threshold then MovingToPickup
    else if p == MovingToPickup && dPickup < Threshold then AtPickup
    else if p == AtPickup && dPickup < Threshold then AtPickup
    else if p == AtPickup && dPickup >= Threshold then MovingToDropoff
    else if p == MovingToDropoff && dDropoff >= Threshold then MovingToDropoff
    else if p == MovingToDropoff && dDropoff < Threshold then AtDropoff
    else AtDropoff
  }

  /** For a non-negative distance, comparing it with the threshold is the same as
      comparing its square with the squared threshold. */
  lemma ArrivalBySquare(d: real)
    requires d >= 0.0
    ensures d < Threshold <==> Arrived(d * d)
  {
    if d < 0.5 {
      NonNegProduct(d, 0.5 - d);
      assert d * (0.5 - d) == 0.5 * d - d * d;
    } else {
      NonNegProduct(d, d - 0.5);
      assert d * (d - 0.5) == d * d - 0.5 * d;
    }
  }

  /** The table on squared distances agrees with the callback's chain on distances,
      for every phase and every pair of non-negative distances. */
  lemma NextMatchesChain(p: Phase, dPickup: real, dDropoff: real)
    requires dPickup >= 0.0 && dDropoff >= 0.0
    ensures Next(p, dPickup * dPickup, dDropoff * dDropoff) == SourceChain(p, dPickup, dDropoff)
  {
    ArrivalBySquare(dPickup);
    ArrivalBySquare(dDropoff);
  }

  /** Each row of the transition table, stated on the distance d >= 0 to the zone
      that matters in that phase. */
  lemma TransitionRows(d: real, other: real)
    requires d >= 0.0
    ensures Next(MovingToPickup, d * d, other) == AtPickup <==> d < Threshold
    ensures Next(MovingToPickup, d * d, other) == MovingToPickup <==> d >= Threshold
    ensures Next(AtPickup, d * d, other) == AtPickup <==> d < Threshold
    ensures Next(AtPickup, d * d, other) == MovingToDropoff <==> d >= Threshold
    ensures Next(MovingToDropoff, other, d * d) == AtDropoff <==> d < Threshold
    ensures Next(MovingToDropoff, other, d * d) == MovingToDropoff <==> d >= Threshold
  {
    ArrivalBySquare(d);
  }

  /** A sample exactly at the threshold distance from the pickup has not arrived. */
  lemma PickupBoundary(w: real)
    ensures DistSq(Sample(Pickup.x + Threshold, Pickup.y, w), Pickup) == ThresholdSq
    ensures Step(MovingToPickup, Sample(Pickup.x + Threshold, Pickup.y, w)) == MovingToPickup
    ensures Step(MovingToPickup, Sample(Pickup.x + Threshold - 0.001, Pickup.y, w)) == AtPickup
  {
  }

  /** AtDropoff absorbs every sample, however far it is from both zones. */
  lemma DropoffAbsorbs(s: Sample)
    ensures Step(AtDropoff, s) == AtDropoff
  {
  }

  /** Only one distance decides the next phase: the pickup distance in the first two
      phases, the dropoff distance in the last two. */
  lemma NextUsesOneDistance(p: Phase, pickupSq: real, dropoffSq: real, pickupSq': real, dropoffSq': real)
    ensures Ordinal(p) <= 1 ==> Next(p, pickupSq, dropoffSq) == Next(p, pickupSq, dropoffSq')
    ensures Ordinal(p) >= 2 ==> Next(p, pickupSq, dropoffSq) == Next(p, pickupSq', dropoffSq)
  {
  }

  /** The phase after a whole sequence of samples, one callback per sample. It is
      never behind the phase the run started from. */
  function Run(p: Phase, samples: seq<Sample>): (q: Phase)
    ensures Ordinal(p) <= Ordinal(q)
    decreases |samples|
  {
    if samples == [] then p
    else Step(Run(p, samples[..|samples| - 1]), samples[|samples| - 1])
  }

  /** Over any sample sequence the phase never decreases and rises by at most the
      number of samples. */
  lemma {:induction false} RunMonotone(p: Phase, samples: seq<Sample>)
    ensures Ordinal(p) <= Ordinal(Run(p, samples)) <= Ordinal(p) + |samples|
    decreases |samples|
  {
    if samples != [] {
      RunMonotone(p, samples[..|samples| - 1]);
    }
  }

  /** Each single sample of a run raises the phase by zero or one step. */
  lemma RunStepwise(p: Phase, samples: seq<Sample>, i: nat)
    requires i < |samples|
    ensures Run(p, samples[..i + 1]) == Step(Run(p, samples[..i]), samples[i])
    ensures Ordinal(Run(p, samples[..i])) <= Ordinal(Run(p, samples[..i + 1])) <= Ordinal(Run(p, samples[..i])) + 1
  {
    assert samples[..i + 1][..i] == samples[..i];
  }

  /** Running two sample sequences one after the other is running their concatenation. */
  lemma {:induction false} RunAppend(p: Phase, first: seq<Sample>, second: seq<Sample>)
    ensures Run(p, first + second) == Run(Run(p, first), second)
    decreases |second|
  {
    if second == [] {
      assert first + second == first;
    } else {
      var n := |second| - 1;
      assert (first + second)[..|first + second| - 1] == first + second[..n];
      RunAppend(p, first, second[..n]);
    }
  }

  /** Once a run has reached AtDropoff, no further samples move it. */
  lemma {:induction false} RunAbsorbs(samples: seq<Sample>)
    ensures Run(AtDropoff, samples) == AtDropoff
    decreases |samples|
  {
    if samples != [] {
      RunAbsorbs(samples[..|samples| - 1]);
    }
  }

  /** Once a run has left the pickup phases, no continuation brings it back to them. */
  lemma NoReturnToPickup(p: Phase, first: seq<Sample>, rest: seq<Sample>)
    requires Ordinal(Run(p, first)) >= 2
    ensures Run(p, first + rest) != MovingToPickup && Run(p, first + rest) != AtPickup
  {
    RunAppend(p, first, rest);
    RunMonotone(Run(p, first), rest);
  }

  /** From the initial phase, AtDropoff needs at least three samples. */
  lemma DropoffNeedsThreeSamples(samples: seq<Sample>)
    requires Run(MovingToPickup, samples) == AtDropoff
    ensures |samples| >= 3
  {
    RunMonotone(MovingToPickup, samples);
  }

  /** The orientation of one sample never influences the next phase. */
  lemma StepIgnoresOrientation(p: Phase, s: Sample, t: Sample)
    requires s.x == t.x && s.y == t.y
    ensures Step(p, s) == Step(p, t)
  {
    assert DistSq(s, Pickup) == DistSq(t, Pickup) && DistSq(s, Dropoff) == DistSq(t, Dropoff);
  }

  /** The orientation of the samples never influences the phase: two sample
      sequences with the same positions give the same phase. */
  lemma {:induction false} RunIgnoresOrientation(p: Phase, a: seq<Sample>, b: seq<Sample>)
    requires |a| == |b|
    requires forall i :: 0 <= i < |a| ==> a[i].x == b[i].x && a[i].y == b[i].y
    ensures Run(p, a) == Run(p, b)
    decreases |a|
  {
    if a != [] {
      var n := |a| - 1;
      RunIgnoresOrientation(p, a[..n], b[..n]);
      StepIgnoresOrientation(Run(p, a[..n]), a[n], b[n]);
    }
  }

  /** Single samples of a delivery run: exactly at the pickup, far from both zones,
      exactly at the dropoff. */
  lemma SampleScenarios(w: real)
    ensures Step(MovingToPickup, Sample(1.0, 0.0, w)) == AtPickup
    ensures Step(MovingToPickup, Sample(100.0, 100.0, w)) == MovingToPickup
    ensures Step(AtPickup, Sample(5.0, 5.0, w)) == MovingToDropoff
    ensures Step(MovingToDropoff, Sample(-10.0, 0.0, w)) == AtDropoff
    ensures Step(AtDropoff, Sample(1.0, 0.0, w)) == AtDropoff
  {
    assert DistSq(Sample(100.0, 100.0, w), Pickup) == 99.0 * 99.0 + 100.0 * 100.0;
    assert DistSq(Sample(5.0, 5.0, w), Pickup) == 4.0 * 4.0 + 5.0 * 5.0;
  }
}

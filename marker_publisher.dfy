/** The marker publisher of the add_markers node: the one persistent marker record
    and what each publish tick does with it, depending on the task phase. */
module MarkerPublisher {
  import opened ZoneTracker

  datatype Option<T> = None | Some(value: T)

  /** Marker actions the node uses (ROS ADD and DELETE). */
  datatype Action = Add | Delete

  /** Marker shapes; the node only ever uses Cube. */
  datatype Shape = Arrow | Cube | Sphere | Cylinder

  datatype Vector3 = Vector3(x: real, y: real, z: real)
  datatype Quaternion = Quaternion(x: real, y: real, z: real, w: real)
  datatype Pose = Pose(position: Vector3, orientation: Quaternion)
  datatype Color = Color(r: real, g: real, b: real, a: real)

  /** The marker fields the node sets. The header (frame and time stamp) is not
      part of the model. A lifetime of 0 means "until replaced". */
  datatype Marker = Marker(
    ns: string,
    id: int,
    shape: Shape,
    action: Action,
    pose: Pose,
    scale: Vector3,
    color: Color,
    lifetime: real)

  const Namespace: string := "basic_shapes"
  const MarkerId: int := 0

  /** The pose of a marker drawn at a zone: on the ground, orientation w from the zone. */
  function ZonePose(z: Zone): Pose {
    Pose(Vector3(z.x, z.y, 0.0), Quaternion(0.0, 0.0, 0.0, z.w))
  }

  /** The record as main fills it in before the loop: a green 0.25 cube shown at
      the pickup zone. */
  const InitialMarker: Marker :=
    Marker(Namespace, MarkerId, Cube, Add, ZonePose(Pickup),
           Vector3(0.25, 0.25, 0.25), Color(0.0, 1.0, 0.0, 1.0), 0.0)

  /** The record once a tick in AtPickup has hidden the pickup cube. */
  const HiddenMarker: Marker := InitialMarker.(action := Delete)

  /** The record once a tick in AtDropoff has shown the cube at the dropoff zone. */
  const DropoffMarker: Marker := InitialMarker.(pose := ZonePose(Dropoff))

  /** Identity, shape, size and colour shared by every marker the node sends. */
  predicate SameCube(m: Marker) {
    m.ns == Namespace && m.id == MarkerId && m.shape == Cube &&
    m.scale == Vector3(0.25, 0.25, 0.25) && m.color == Color(0.0, 1.0, 0.0, 1.0) &&
    m.lifetime == 0.0
  }

  /** What one tick publishes, and the persistent record afterwards. */
  datatype TickResult = TickResult(cmd: Option<Marker>, marker: Marker)

  /** One pass of the switch in main's loop, on the persistent record m. Whatever is
      published is the record as it stands after the tick, and only MovingToDropoff
      publishes nothing. */
  function Emit(p: Phase, m: Marker): (r: TickResult)
    ensures r.cmd.Some? ==> r.cmd.value == r.marker
    ensures r.cmd.None? <==> p == MovingToDropoff
    ensures r.cmd.None? ==> r.marker == m
  {
    match p
    case MovingToPickup => TickResult(Some(m), m)
    case AtPickup =>
      var m' := m.(action := Delete);
      TickResult(Some(m'), m')
    case AtDropoff =>
      var m' := m.(ns := Namespace, id := MarkerId, shape := Cube, action := Add, pose := ZonePose(Dropoff));
      TickResult(Some(m'), m')
    case MovingToDropoff => TickResult(None, m)
  }

  /** The publishing table: show at pickup, hide, nothing, show at dropoff. */
  function Command(p: Phase): Option<Marker> {
    match p
    case MovingToPickup => Some(InitialMarker)
    case AtPickup => Some(HiddenMarker)
    case MovingToDropoff => None
    case AtDropoff => Some(DropoffMarker)
  }

  /** The records that can stand beside each phase, given that the phase only moves
      forward and the record starts as InitialMarker. Until a tick runs in AtPickup
      the record is still InitialMarker; a tick there hides it; a tick in AtDropoff
      moves it to the dropoff zone. */
  predicate Consistent(p: Phase, m: Marker) {
    match p
    case MovingToPickup => m == InitialMarker
    case AtPickup => m == InitialMarker || m == HiddenMarker
    case MovingToDropoff => m == InitialMarker || m == HiddenMarker
    case AtDropoff => m == InitialMarker || m == HiddenMarker || m == DropoffMarker
  }

  /** The node starts consistent. */
  lemma InitialConsistent()
    ensures Consistent(MovingToPickup, InitialMarker)
  {
  }

  /** A sample keeps phase and record consistent, because phases only move forward. */
  lemma SampleKeepsConsistent(p: Phase, m: Marker, s: Sample)
    requires Consistent(p, m)
    ensures Consistent(Step(p, s), m)
  {
  }

  /** On a consistent record, a tick sends exactly what the publishing table says,
      every marker sent is the same green cube with the same identity, and the
      record stays consistent. */
  lemma TickFollowsTable(p: Phase, m: Marker)
    requires Consistent(p, m)
    ensures Emit(p, m).cmd == Command(p)
    ensures Emit(p, m).cmd.Some? ==> SameCube(Emit(p, m).cmd.value)
    ensures Consistent(p, Emit(p, m).marker)
  {
  }

  /** The table spelled out field by field: ADD at the pickup pose, DELETE, nothing,
      ADD at the dropoff pose, each the same green cube. */
  lemma CommandShapes(p: Phase)
    ensures p == MovingToPickup ==>
      (Command(p).Some? && Command(p).value.action == Add &&
       Command(p).value.pose == Pose(Vector3(1.0, 0.0, 0.0), Quaternion(0.0, 0.0, 0.0, 1.0)))
    ensures p == AtPickup ==> Command(p).Some? && Command(p).value.action == Delete
    ensures p == MovingToDropoff ==> Command(p) == None
    ensures p == AtDropoff ==>
      (Command(p).Some? && Command(p).value.action == Add &&
       Command(p).value.pose == Pose(Vector3(-10.0, 0.0, 0.0), Quaternion(0.0, 0.0, 0.0, 1.2)))
    ensures Command(p).Some? ==>
      (Command(p).value.ns == "basic_shapes" && Command(p).value.id == 0 &&
       Command(p).value.shape == Cube && Command(p).value.scale == Vector3(0.25, 0.25, 0.25) &&
       Command(p).value.color == Color(0.0, 1.0, 0.0, 1.0))
  {
  }

  /** Ticking twice in an unchanged phase sends the same command twice and leaves the
      record where the first tick left it, for any record. */
  lemma TickIdempotent(p: Phase, m: Marker)
    ensures Emit(p, Emit(p, m).marker) == Emit(p, m)
  {
  }
}

/** The status that the robot publishes, and the rules a snapshot must satisfy. */
module Protocol {
  import opened Geometry
  import opened Stand
  import opened Options
  import MP = MovePlanner
  import CubeScan

  const MAX_SOLUTION_MOVES := 32

  datatype AxisMotion = Unknown | Stable | Moving

  datatype RailStatus = RailStatus(motion: AxisMotion, current: Option<RailPosition>, target: Option<RailPosition>)

  datatype GripperStatus =
    GripperStatus(motion: AxisMotion, current: Option<GripperOrientation>, target: Option<GripperOrientation>)

  datatype PoseKind = UnknownPose | Open | CanonicalPose | ScanPose | MovePose | Transitional

  datatype StandPose = StandPose(kind: PoseKind, cameraFace: Option<LogicalFace>)

  datatype StandState =
    StandState(pose: StandPose, rails: Four<RailStatus>, grippers: Four<GripperStatus>, outputsEnabled: bool)

  datatype ControllerState = Booting | Ready | Busy | Aborted | Faulted

  datatype OperationKind = Grip | Scan | Solve | Execute | ScanSolveExecute | OpenStand | RecoverToOpen | ExecuteMoves

  datatype ScanStateKind = NoScan | InProgress | Valid | Invalid

  datatype ScanValidationError = WrongDetectionCount | InvalidFacelet | InferenceFailure

  /** Nine recognised stickers; a sticker the camera could not name is absent. */
  type Recognized = s: seq<Option<CubeScan.StickerColor>> | |s| == 9 witness seq(9, _ => None)

  datatype ScanStatus = ScanStatus(
    state: ScanStateKind,
    revision: Option<nat>,
    currentFace: Option<LogicalFace>,
    scannedFaces: set<LogicalFace>,
    faces: map<LogicalFace, Recognized>,
    validationError: Option<ScanValidationError>)

  datatype SolutionStateKind = NoSolution | Solving | Prepared | Executing

  datatype SolutionStatus = SolutionStatus(
    state: SolutionStateKind,
    id: Option<nat>,
    sourceScanRevision: Option<nat>,
    moves: seq<MP.CubeMove>,
    completedMoves: nat)

  datatype OperationStatus = OperationStatus(id: nat, kind: OperationKind, currentAction: nat, actionCount: nat)

  datatype StatusSnapshot = StatusSnapshot(
    controller: ControllerState,
    stand: StandState,
    session: Option<nat>,
    scan: ScanStatus,
    solution: SolutionStatus,
    operation: Option<OperationStatus>,
    faulted: bool)

  /** The schema rules that receivers check after decoding. */
  predicate ValidSnapshot(s: StatusSnapshot) {
    && |s.solution.moves| <= MAX_SOLUTION_MOVES
    && s.solution.completedMoves <= |s.solution.moves|
    && (s.operation.Some? ==> s.operation.value.currentAction <= s.operation.value.actionCount)
  }

  const UNKNOWN_RAIL := RailStatus(Unknown, None, None)
  const UNKNOWN_GRIPPER := GripperStatus(Unknown, None, None)
  const UNKNOWN_STAND := StandState(StandPose(UnknownPose, None), AllSides(UNKNOWN_RAIL), AllSides(UNKNOWN_GRIPPER), false)
  const EMPTY_SCAN := ScanStatus(NoScan, None, None, {}, map[], None)
  const EMPTY_SOLUTION := SolutionStatus(NoSolution, None, None, [], 0)
  const UNKNOWN_STATUS := StatusSnapshot(Ready, UNKNOWN_STAND, None, EMPTY_SCAN, EMPTY_SOLUTION, None, false)

  const TRANSITIONAL := StandPose(Transitional, None)
  const CANONICAL := StandPose(CanonicalPose, Some(Front))

  function StableRail(position: RailPosition): RailStatus {
    RailStatus(Stable, Some(position), None)
  }

  function StableGripper(orientation: GripperOrientation): GripperStatus {
    GripperStatus(Stable, Some(orientation), None)
  }

  function StartRail(rail: RailStatus, position: RailPosition): RailStatus {
    rail.(motion := Moving, target := Some(position))
  }

  function StartGripper(gripper: GripperStatus, orientation: GripperOrientation): GripperStatus {
    gripper.(motion := Moving, target := Some(orientation))
  }

  function StartRails(rails: Four<RailStatus>, target: MP.RailTarget, position: RailPosition): Four<RailStatus> {
    match target
    case Single(side) => rails.Set(side, StartRail(rails.Get(side), position))
    case Pair(LeftRight) => rails.(left := StartRail(rails.left, position), right := StartRail(rails.right, position))
    case Pair(TopBottom) => rails.(top := StartRail(rails.top, position), bottom := StartRail(rails.bottom, position))
  }

  function StopRails(rails: Four<RailStatus>, target: MP.RailTarget, position: RailPosition): Four<RailStatus> {
    match target
    case Single(side) => rails.Set(side, StableRail(position))
    case Pair(group) => rails.SetGroup(group, StableRail(position))
  }

  function StartGrippers(grippers: Four<GripperStatus>, poses: seq<MP.Pose>): Four<GripperStatus>
    decreases |poses|
  {
    if poses == [] then grippers
    else StartGrippers(grippers.Set(poses[0].side, StartGripper(grippers.Get(poses[0].side), poses[0].orientation)), poses[1..])
  }

  function StopGrippers(grippers: Four<GripperStatus>, poses: seq<MP.Pose>): Four<GripperStatus>
    decreases |poses|
  {
    if poses == [] then grippers
    else StopGrippers(grippers.Set(poses[0].side, StableGripper(poses[0].orientation)), poses[1..])
  }

  /** All four grippers perpendicular, as recovery and gripping pose them. */
  const ALL_PERPENDICULAR: seq<MP.Pose> :=
    [MP.Pose(Side.Left, FramePerpendicular), MP.Pose(Side.Right, FramePerpendicular),
     MP.Pose(Top, FramePerpendicular), MP.Pose(Bottom, FramePerpendicular)]
}

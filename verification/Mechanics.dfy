/** The physical rule of the stand, which gives every plan its meaning.

    Grippers on closed rails turn what they hold. One such gripper turns its layer; two
    opposing grippers turning against each other while the crossing rails are away turn
    the complete cube. Any other combination of turning grippers has no defined effect. */
module Mechanics {
  import opened Geometry
  import opened Stand
  import opened MovePlanner
  import opened Options

  datatype Machine = Machine(closed: Four<bool>, grippers: Four<GripperOrientation>, cube: Cube)

  /** All rails at the cube, all grippers perpendicular. */
  function CanonicalGrip(cube: Cube): Machine {
    Machine(AllSides(true), AllSides(X), cube)
  }

  function SetClosed(closed: Four<bool>, target: RailTarget, position: RailPosition): Four<bool> {
    match target
    case Pair(group) => closed.SetGroup(group, position == NearGrip)
    case Single(side) => closed.Set(side, position == NearGrip)
  }

  function SetPoses(grippers: Four<GripperOrientation>, poses: seq<Pose>): Four<GripperOrientation>
    decreases |poses|
  {
    if poses == [] then grippers
    else SetPoses(grippers.Set(poses[0].side, poses[0].orientation), poses[1..])
  }

  /** Clockwise quarter turns, seen from outside, that each gripper imposes on the cube. */
  function Drive(m: Machine, after: Four<GripperOrientation>): Four<int> {
    Four(if m.closed.left then after.left.Index() - m.grippers.left.Index() else 0,
         if m.closed.right then after.right.Index() - m.grippers.right.Index() else 0,
         if m.closed.top then after.top.Index() - m.grippers.top.Index() else 0,
         if m.closed.bottom then after.bottom.Index() - m.grippers.bottom.Index() else 0)
  }

  function SideFace(side: Side): LogicalFace {
    match side
    case Left => LogicalFace.Left
    case Right => LogicalFace.Right
    case Top => Up
    case Bottom => Down
  }

  /** The cube after the grippers have imposed `drive` on it, if that is defined. */
  function Turned(closed: Four<bool>, drive: Four<int>, cube: Cube): Option<Cube> {
    if drive == AllSides(0) then
      Some(cube)
    else if drive.left == drive.right == 0 && drive.top == -drive.bottom && !closed.left && !closed.right then
      Some(RotateCube(cube, Up, -drive.top))
    else if drive.top == drive.bottom == 0 && drive.left == -drive.right && !closed.top && !closed.bottom then
      Some(RotateCube(cube, LogicalFace.Left, -drive.left))
    else if drive.right == drive.top == drive.bottom == 0 && closed.top && closed.bottom then
      Some(SpinLayer(cube, LogicalFace.Left, -drive.left))
    else if drive.left == drive.top == drive.bottom == 0 && closed.top && closed.bottom then
      Some(SpinLayer(cube, LogicalFace.Right, -drive.right))
    else if drive.left == drive.right == drive.bottom == 0 && closed.left && closed.right then
      Some(SpinLayer(cube, Up, -drive.top))
    else if drive.left == drive.right == drive.top == 0 && closed.left && closed.right then
      Some(SpinLayer(cube, Down, -drive.bottom))
    else
      None
  }

  function Exec(m: Machine, step: Step): Option<Machine> {
    match step
    case SetRails(target, position) => Some(m.(closed := SetClosed(m.closed, target, position)))
    case SetGrippers(poses) =>
      var after := SetPoses(m.grippers, poses);
      var cube := Turned(m.closed, Drive(m, after), m.cube);
      if cube.None? then None else Some(Machine(m.closed, after, cube.value))
    case MoveCompleted => Some(m)
    case AllOff => Some(m)
  }

  function Run(m: Machine, steps: seq<Step>): Option<Machine> {
    if steps == [] then Some(m)
    else
      var before := Run(m, steps[..|steps| - 1]);
      if before.None? then None else Exec(before.value, steps[|steps| - 1])
  }

  function Parallel(grippers: Four<GripperOrientation>): Four<bool> {
    Four(grippers.left.IsFrameParallel(), grippers.right.IsFrameParallel(),
         grippers.top.IsFrameParallel(), grippers.bottom.IsFrameParallel())
  }

  /** Rails that a step sets in motion. */
  function MovingRails(step: Step): Four<bool> {
    if step.SetRails? then SetClosed(AllSides(false), step.target, NearGrip) else AllSides(false)
  }

  function PosedSides(poses: seq<Pose>): Four<bool> {
    if poses == [] then AllSides(false) else PosedSides(poses[1..]).Set(poses[0].side, true)
  }

  /** Grippers that a step sets in motion. */
  function MovingGrippers(step: Step): Four<bool> {
    if step.SetGrippers? then PosedSides(step.poses) else AllSides(false)
  }

  function And(a: Four<bool>, b: Four<bool>): Four<bool> {
    Four(a.left && b.left, a.right && b.right, a.top && b.top, a.bottom && b.bottom)
  }

  function Or(a: Four<bool>, b: Four<bool>): Four<bool> {
    Four(a.left || b.left, a.right || b.right, a.top || b.top, a.bottom || b.bottom)
  }

  function Not(a: Four<bool>): Four<bool> {
    Four(!a.left, !a.right, !a.top, !a.bottom)
  }

  /** Custody while a step is in motion: a moving rail does not hold. */
  predicate HeldDuring(m: Machine, step: Step) {
    Held(And(m.closed, Not(MovingRails(step))))
  }

  /** Clearance while a step is in motion: a moving rail still counts as near and a
      moving gripper as parallel. */
  predicate ClearDuring(m: Machine, step: Step) {
    CollisionFree(Or(m.closed, MovingRails(step)), Or(Parallel(m.grippers), MovingGrippers(step)))
  }

  predicate ClearAt(m: Machine) {
    CollisionFree(m.closed, Parallel(m.grippers))
  }

  /** Custody and clearance at rest and during the next step. */
  predicate SafeStep(m: Machine, step: Step) {
    Held(m.closed) && ClearAt(m) && HeldDuring(m, step) && ClearDuring(m, step) && step != AllOff
  }
}

/** The four arms of the stand. Every arm has a rail, which brings its gripper to the
    cube or away from it, and a gripper with three calibrated orientations. */
module Stand {

  datatype Side = Left | Right | Top | Bottom

  datatype AxisGroup = LeftRight | TopBottom

  datatype GripperOrientation = FrameParallel | FramePerpendicular | FrameParallelReversed {
    predicate IsFrameParallel() {
      FrameParallel? || FrameParallelReversed?
    }

    /** Position on the gripper's half circle, in quarter turns. */
    function Index(): int {
      match this
      case FrameParallel => 0
      case FramePerpendicular => 1
      case FrameParallelReversed => 2
    }
  }

  datatype RailPosition = FarOpen | NearGrip

  /** One value per arm, in the protocol's axis order. */
  datatype Four<T> = Four(left: T, right: T, top: T, bottom: T) {
    function Get(side: Side): T {
      match side
      case Left => left
      case Right => right
      case Top => top
      case Bottom => bottom
    }

    function Set(side: Side, value: T): (r: Four<T>)
      ensures r.Get(side) == value
      ensures forall other: Side :: other != side ==> r.Get(other) == Get(other)
    {
      match side
      case Left => this.(left := value)
      case Right => this.(right := value)
      case Top => this.(top := value)
      case Bottom => this.(bottom := value)
    }

    function SetGroup(group: AxisGroup, value: T): Four<T> {
      match group
      case LeftRight => Four(value, value, top, bottom)
      case TopBottom => Four(left, right, value, value)
    }
  }

  function AllSides<T>(value: T): Four<T> {
    Four(value, value, value, value)
  }

  function GroupOf(side: Side): AxisGroup {
    if side in {Left, Right} then LeftRight else TopBottom
  }

  function Other(group: AxisGroup): AxisGroup {
    if group == LeftRight then TopBottom else LeftRight
  }

  /** The adjacency rule of the stand: two neighbouring grippers that are both near the
      cube must not both be frame-parallel. */
  predicate CollisionFree(near: Four<bool>, parallel: Four<bool>) {
    && !(near.left && near.top && parallel.left && parallel.top)
    && !(near.top && near.right && parallel.top && parallel.right)
    && !(near.right && near.bottom && parallel.right && parallel.bottom)
    && !(near.bottom && near.left && parallel.bottom && parallel.left)
  }

  /** The cube is held when both rails of an opposing pair are closed. */
  predicate Held(closed: Four<bool>) {
    (closed.left && closed.right) || (closed.top && closed.bottom)
  }

  /** Times for the three kinds of motion, in milliseconds. */
  datatype Calibration = Calibration(railsOpen: nat, railsGrip: nat, gripperPose: nat) {
    function RailDuration(position: RailPosition): nat {
      match position
      case FarOpen => railsOpen
      case NearGrip => railsGrip
    }
  }
}

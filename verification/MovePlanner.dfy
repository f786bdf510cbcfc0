/** Mechanical plans for logical Singmaster move sequences.

    The functions say what the planner appends to a plan; the class `Planner` at the end
    is the planner itself, which appends to a step queue and flips dirty flags in place. */
module MovePlanner {
  import opened Geometry
  import opened Stand

  datatype MoveTurn = Clockwise | CounterClockwise | Half

  datatype CubeMove = CubeMove(face: LogicalFace, turn: MoveTurn)

  datatype RailTarget = Pair(group: AxisGroup) | Single(side: Side)

  datatype Pose = Pose(side: Side, orientation: GripperOrientation)

  datatype Step =
    | SetRails(target: RailTarget, position: RailPosition)
    | SetGrippers(poses: seq<Pose>)
    | MoveCompleted
    | AllOff

  datatype Frame = Canonical | RotatedFb

  datatype Finish = CanonicalHeld | Release

  /** A plan under construction: steps so far, grippers left in a parallel endpoint, and
      whether the cube stands in the rotated front/back frame. */
  datatype Plan = Plan(steps: seq<Step>, dirty: Four<bool>, frame: Frame)

  const EMPTY_PLAN := Plan([], AllSides(false), Canonical)

  const P := FrameParallel
  const X := FramePerpendicular
  const R := FrameParallelReversed

  function GroupSides(group: AxisGroup): seq<Side> {
    if group == LeftRight then [Side.Left, Side.Right] else [Top, Bottom]
  }

  function DirtyGrippers(dirty: Four<bool>, group: AxisGroup): (r: seq<Side>)
    ensures |r| <= 2
    ensures forall side: Side :: side in r <==> GroupOf(side) == group && dirty.Get(side)
  {
    var sides := GroupSides(group);
    (if dirty.Get(sides[0]) then [sides[0]] else []) + (if dirty.Get(sides[1]) then [sides[1]] else [])
  }

  function Perpendicular(grippers: seq<Side>): (r: seq<Pose>)
    ensures |r| == |grippers|
  {
    seq(|grippers|, i requires 0 <= i < |grippers| => Pose(grippers[i], X))
  }

  function Cleaned(dirty: Four<bool>, grippers: seq<Side>): Four<bool>
    decreases |grippers|
  {
    if grippers == [] then dirty else Cleaned(dirty.Set(grippers[0], false), grippers[1..])
  }

  lemma {:induction false} CleanedSingle(dirty: Four<bool>, side: Side)
    ensures Cleaned(dirty, [side]) == dirty.Set(side, false)
    ensures Perpendicular([side]) == [Pose(side, X)]
  {
    assert [side][1..] == [];
  }

  lemma {:induction false} CleanedDouble(dirty: Four<bool>, a: Side, b: Side)
    ensures Cleaned(dirty, [a, b]) == dirty.Set(a, false).Set(b, false)
    ensures Perpendicular([a, b]) == [Pose(a, X), Pose(b, X)]
  {
    assert [a, b][1..] == [b];
    CleanedSingle(dirty.Set(a, false), b);
  }

  function Append(plan: Plan, steps: seq<Step>): Plan {
    plan.(steps := plan.steps + steps)
  }

  /** Regrips the given grippers: rails away, grippers perpendicular, rails back. */
  function FlushGrippers(plan: Plan, grippers: seq<Side>): Plan
    requires |grippers| > 0
  {
    var target := if |grippers| == 2 then Pair(GroupOf(grippers[0])) else Single(grippers[0]);
    Append(plan, [SetRails(target, FarOpen), SetGrippers(Perpendicular(grippers)), SetRails(target, NearGrip)])
      .(dirty := Cleaned(plan.dirty, grippers))
  }

  function FlushGroup(plan: Plan, group: AxisGroup): Plan {
    var grippers := DirtyGrippers(plan.dirty, group);
    if grippers == [] then plan else FlushGrippers(plan, grippers)
  }

  function TurnSteps(side: Side, turn: MoveTurn): seq<Step> {
    match turn
    case Clockwise => [SetGrippers([Pose(side, R)])]
    case CounterClockwise => [SetGrippers([Pose(side, P)])]
    case Half => [SetRails(Single(side), FarOpen), SetGrippers([Pose(side, P)]),
                  SetRails(Single(side), NearGrip), SetGrippers([Pose(side, R)])]
  }

  function LazyDirectTurn(plan: Plan, side: Side, turn: MoveTurn): Plan {
    var clean := if plan.dirty.Get(side) then FlushGrippers(plan, [side]) else plan;
    Append(clean, TurnSteps(side, turn)).(dirty := clean.dirty.Set(side, true))
  }

  /** Brings the cube into the rotated frame or back, with clean left/right grippers. */
  function ReorientSteps(top: GripperOrientation, bottom: GripperOrientation): seq<Step> {
    [SetRails(Pair(LeftRight), FarOpen),
     SetGrippers([Pose(Top, top), Pose(Bottom, bottom)]),
     SetRails(Pair(LeftRight), NearGrip),
     SetRails(Pair(TopBottom), FarOpen),
     SetGrippers([Pose(Top, X), Pose(Bottom, X)]),
     SetRails(Pair(TopBottom), NearGrip)]
  }

  /** The same with a flush of dirty left/right grippers fused in. */
  function FusedSteps(grippers: seq<Side>, top: GripperOrientation, bottom: GripperOrientation): seq<Step> {
    [SetRails(Pair(LeftRight), FarOpen),
     SetGrippers(Perpendicular(grippers)),
     SetGrippers([Pose(Top, top), Pose(Bottom, bottom)]),
     SetRails(Pair(LeftRight), NearGrip),
     SetRails(Pair(TopBottom), FarOpen),
     SetGrippers([Pose(Top, X), Pose(Bottom, X)]),
     SetRails(Pair(TopBottom), NearGrip)]
  }

  function Reorient(plan: Plan, frame: Frame): Plan {
    var top := if frame == RotatedFb then P else R;
    var bottom := if frame == RotatedFb then R else P;
    var grippers := DirtyGrippers(plan.dirty, LeftRight);
    if grippers == [] then
      Append(plan, ReorientSteps(top, bottom)).(frame := frame)
    else
      Append(plan, FusedSteps(grippers, top, bottom))
        .(dirty := Cleaned(plan.dirty, grippers), frame := frame)
  }

  /** The frame change a move forces: front and back need the rotated frame, left and
      right the canonical one, up and down work in both. */
  function NeededFrame(frame: Frame, face: LogicalFace): Frame {
    if face in {Front, Back} then RotatedFb
    else if face in {LogicalFace.Left, LogicalFace.Right} then Canonical
    else frame
  }

  function DirectSide(face: LogicalFace): Side {
    match face
    case Left => Side.Left
    case Right => Side.Right
    case Up => Top
    case Down => Bottom
    case Front => Side.Right
    case Back => Side.Left
  }

  function EnterFrame(plan: Plan, face: LogicalFace): Plan {
    var needed := NeededFrame(plan.frame, face);
    if needed == plan.frame then plan else Reorient(FlushGroup(plan, TopBottom), needed)
  }

  function PlanMove(plan: Plan, move: CubeMove): Plan {
    var side := DirectSide(move.face);
    var entered := EnterFrame(plan, move.face);
    var ready := FlushGroup(entered, Other(GroupOf(side)));
    Append(LazyDirectTurn(ready, side, move.turn), [MoveCompleted])
  }

  function PlanMoves(plan: Plan, moves: seq<CubeMove>): Plan {
    if moves == [] then plan
    else PlanMove(PlanMoves(plan, moves[..|moves| - 1]), moves[|moves| - 1])
  }

  function FinishHeld(plan: Plan): Plan {
    var restored := if plan.frame == RotatedFb then Reorient(FlushGroup(plan, TopBottom), Canonical) else plan;
    FlushGroup(FlushGroup(restored, LeftRight), TopBottom)
  }

  function OptimizedPlan(moves: seq<CubeMove>, finish: Finish): Plan {
    var plan := PlanMoves(EMPTY_PLAN, moves);
    if finish == CanonicalHeld then FinishHeld(plan) else plan
  }

  function OptimizedHeldSteps(moves: seq<CubeMove>): seq<Step> {
    OptimizedPlan(moves, CanonicalHeld).steps
  }

  const OPEN_STEPS := [SetRails(Pair(LeftRight), FarOpen), SetRails(Pair(TopBottom), FarOpen), AllOff]

  /** The service's execute plan: moves, then the orderly release. */
  function ExecuteSteps(moves: seq<CubeMove>): seq<Step> {
    OptimizedPlan(moves, Release).steps + OPEN_STEPS
  }

  function BaselineTurn(plan: Plan, side: Side, turn: MoveTurn): Plan {
    FlushGrippers(Append(plan, TurnSteps(side, turn)), [side])
  }

  function BaselineMove(plan: Plan, move: CubeMove): Plan {
    var turned :=
      if move.face in {Front, Back} then
        Append(BaselineTurn(Append(plan, ReorientSteps(P, R)), DirectSide(move.face), move.turn), ReorientSteps(R, P))
      else
        BaselineTurn(plan, DirectSide(move.face), move.turn);
    Append(turned, [MoveCompleted])
  }

  function BaselinePlan(moves: seq<CubeMove>): Plan {
    if moves == [] then EMPTY_PLAN
    else BaselineMove(BaselinePlan(moves[..|moves| - 1]), moves[|moves| - 1])
  }

  function BaselineHeldSteps(moves: seq<CubeMove>): seq<Step> {
    BaselinePlan(moves).steps
  }
}

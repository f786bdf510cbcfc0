/** The simulator's reconstruction of logical moves from nothing but published statuses. */
module Replay {
  import opened Geometry
  import opened Stand
  import opened Options
  import opened Protocol
  import MP = MovePlanner
  import PM = PlanMeaning

  datatype VisualMove = VisualMove(face: LogicalFace, turns: int)

  datatype ActiveTurn = ActiveTurn(operationId: nat, moveIndex: nat, axis: Side, move: VisualMove)

  datatype Violation = WrongFace(expected: LogicalFace, owner: LogicalFace) | NotAHalfTurn(delta: int)

  datatype View = View(
    frame: MP.Frame,
    previous: Four<Option<AxisMotion>>,
    expected: seq<VisualMove>,
    index: nat,
    active: Option<ActiveTurn>,
    violation: Option<Violation>,
    operation: Option<nat>,
    solutionAtStart: Option<nat>)

  const SIDES := [Side.Left, Side.Right, Top, Bottom]

  function Visual(move: MP.CubeMove): VisualMove {
    VisualMove(move.face, PM.Turns(move.turn))
  }

  function Visuals(moves: seq<MP.CubeMove>): (r: seq<VisualMove>)
    ensures |r| == |moves|
  {
    seq(|moves|, i requires 0 <= i < |moves| => Visual(moves[i]))
  }

  /** The logical face that a gripper turns, by the frame the cube stands in. */
  function PhysicalFace(frame: MP.Frame, axis: Side): LogicalFace {
    match axis
    case Left => if frame == MP.Canonical then LogicalFace.Left else Back
    case Right => if frame == MP.Canonical then LogicalFace.Right else Front
    case Top => Up
    case Bottom => Down
  }

  function Motions(grippers: Four<GripperStatus>): Four<Option<AxisMotion>> {
    Four(Some(grippers.left.motion), Some(grippers.right.motion), Some(grippers.top.motion), Some(grippers.bottom.motion))
  }

  predicate CanonicalSeen(stand: StandState) {
    stand.pose == CANONICAL
    && !stand.grippers.left.motion.Moving? && !stand.grippers.right.motion.Moving?
    && !stand.grippers.top.motion.Moving? && !stand.grippers.bottom.motion.Moving?
  }

  predicate ParallelAtRest(g: GripperStatus) {
    !g.motion.Moving? && g.current.Some? && g.current.value.IsFrameParallel()
  }

  /** A whole-cube reorientation shows as open left/right rails with parallel vertical
      grippers. */
  function FrameSeen(frame: MP.Frame, stand: StandState): MP.Frame {
    var top, bottom := stand.grippers.top, stand.grippers.bottom;
    if stand.rails.left.current == Some(FarOpen) && stand.rails.right.current == Some(FarOpen)
       && ParallelAtRest(top) && ParallelAtRest(bottom) then
      if top.current == Some(FrameParallel) && bottom.current == Some(FrameParallelReversed) then MP.RotatedFb
      else if top.current == Some(FrameParallelReversed) && bottom.current == Some(FrameParallel) then MP.Canonical
      else frame
    else frame
  }

  function WithExpected(v: View, expected: seq<VisualMove>): View {
    v.(expected := expected, index := 0, active := None, violation := None, previous := AllSides(None))
  }

  /** A new operation; an automatic cycle must not replay the solution of the last one. */
  function Begun(v: View, op: OperationStatus, solution: SolutionStatus): View {
    if v.operation == Some(op.id) then v
    else if op.kind == ScanSolveExecute then
      v.(operation := Some(op.id), expected := [], index := 0, active := None,
         solutionAtStart := if solution.moves != [] then solution.id else None)
    else v.(operation := Some(op.id), solutionAtStart := None)
  }

  function Expecting(v: View, op: OperationStatus, solution: SolutionStatus): View {
    if (v.expected == [] || v.index >= |v.expected|) && (op.kind == Execute || op.kind == ScanSolveExecute)
       && solution.moves != [] && v.solutionAtStart != solution.id then
      WithExpected(v, Visuals(solution.moves))
    else v
  }

  /** The axes that have just begun to move. */
  function StartedFrom(previous: Four<Option<AxisMotion>>, grippers: Four<GripperStatus>, sides: seq<Side>): seq<Side> {
    if sides == [] then []
    else
      var before, last := StartedFrom(previous, grippers, sides[..|sides| - 1]), sides[|sides| - 1];
      if grippers.Get(last).motion.Moving? && previous.Get(last) != Some(Moving) then before + [last] else before
  }

  predicate IsTurnTarget(g: GripperStatus) {
    g.target.Some? && g.target.value.IsFrameParallel()
  }

  datatype Start = NotStarting | Misfit(violation: Option<Violation>) | Starting(move: VisualMove)

  predicate IsHalf(turns: int) {
    turns == 2 || turns == -2
  }

  /** What a single starting gripper means. */
  function TurnStart(v: View, stand: StandState, started: seq<Side>, axis: Side): Start {
    var g := stand.grippers.Get(axis);
    if started == [axis] && v.active.None? && IsTurnTarget(g) && v.index < |v.expected|
       && stand.rails.Get(axis).current == Some(NearGrip) then
      var e := v.expected[v.index];
      if PhysicalFace(v.frame, axis) != e.face then Misfit(Some(WrongFace(e.face, PhysicalFace(v.frame, axis))))
      else if !IsHalf(e.turns) then Starting(e)
      else if g.current.None? then Misfit(None)
      else
        var delta := g.current.value.Index() - g.target.value.Index();
        if IsHalf(delta) then Starting(VisualMove(e.face, delta)) else Misfit(Some(NotAHalfTurn(delta)))
    else NotStarting
  }

  /** One axis of one status. */
  function AxisSeen(v: View, stand: StandState, id: nat, started: seq<Side>, axis: Side): (View, Option<VisualMove>) {
    var start := TurnStart(v, stand, started, axis);
    if start.Misfit? then (if start.violation.Some? then v.(violation := start.violation) else v, None)
    else
      var begun := if start.Starting? then v.(active := Some(ActiveTurn(id, v.index, axis, start.move))) else v;
      var g := stand.grippers.Get(axis);
      var noted := begun.(previous := begun.previous.Set(axis, Some(g.motion)));
      if begun.active.Some? && begun.active.value.axis == axis && begun.previous.Get(axis) == Some(Moving) && !g.motion.Moving? then
        (noted.(index := begun.index + 1, active := None), Some(begun.active.value.move))
      else (noted, None)
  }

  function Later(first: Option<VisualMove>, second: Option<VisualMove>): Option<VisualMove> {
    if second.Some? then second else first
  }

  function AxesSeen(v: View, stand: StandState, id: nat, started: seq<Side>, sides: seq<Side>): (View, Option<VisualMove>) {
    if sides == [] then (v, None)
    else
      var (before, done) := AxesSeen(v, stand, id, started, sides[..|sides| - 1]);
      var (after, more) := AxisSeen(before, stand, id, started, sides[|sides| - 1]);
      (after, Later(done, more))
  }

  /** A status seen: the new view, and the logical move that it completes, if any. */
  function Seen(v: View, status: StatusSnapshot): (View, Option<VisualMove>) {
    var settled := if CanonicalSeen(status.stand) then v.(frame := MP.Canonical) else v;
    if status.operation.None? then
      (settled.(previous := Motions(status.stand.grippers), active := None, operation := None, solutionAtStart := None), None)
    else
      var op := status.operation.value;
      var ready := Expecting(Begun(settled, op, status.solution), op, status.solution);
      var framed := ready.(frame := FrameSeen(ready.frame, status.stand));
      if op.kind == Execute || op.kind == ExecuteMoves || op.kind == ScanSolveExecute then
        AxesSeen(framed, status.stand, op.id, StartedFrom(framed.previous, status.stand.grippers, SIDES), SIDES)
      else (framed.(previous := Motions(status.stand.grippers)), None)
  }

  // ---- the class ------------------------------------------------------------------

  class VisualReplay {
    var frame: MP.Frame
    var previous: Four<Option<AxisMotion>>
    var expected: seq<VisualMove>
    var index: nat
    var active: Option<ActiveTurn>
    var violation: Option<Violation>
    var operation: Option<nat>
    var solutionAtStart: Option<nat>

    ghost function Value(): View
      reads this
    {
      View(frame, previous, expected, index, active, violation, operation, solutionAtStart)
    }

    constructor ()
      ensures Value() == View(MP.Canonical, AllSides(None), [], 0, None, None, None, None)
    {
      frame, previous, expected, index := MP.Canonical, AllSides(None), [], 0;
      active, violation, operation, solutionAtStart := None, None, None, None;
    }

    method SetExpected(moves: seq<MP.CubeMove>)
      modifies this
      ensures Value() == WithExpected(old(Value()), Visuals(moves))
    {
      expected := Visuals(moves);
      index := 0;
      active := None;
      violation := None;
      previous := AllSides(None);
    }

    method StartedAxes(grippers: Four<GripperStatus>) returns (started: seq<Side>)
      ensures started == StartedFrom(previous, grippers, SIDES)
    {
      started := [];
      for i := 0 to 4
        invariant started == StartedFrom(previous, grippers, SIDES[..i])
      {
        assert SIDES[..i + 1][..i] == SIDES[..i];
        if grippers.Get(SIDES[i]).motion.Moving? && previous.Get(SIDES[i]) != Some(Moving) {
          started := started + [SIDES[i]];
        }
      }
      assert SIDES[..4] == SIDES;
    }

    method SeeAxis(stand: StandState, id: nat, started: seq<Side>, axis: Side) returns (done: Option<VisualMove>)
      modifies this
      ensures (Value(), done) == AxisSeen(old(Value()), stand, id, started, axis)
    {
      var g := stand.grippers.Get(axis);
      if started == [axis] && active.None? && IsTurnTarget(g) && index < |expected|
         && stand.rails.Get(axis).current == Some(NearGrip) {
        var e := expected[index];
        var owner := PhysicalFace(frame, axis);
        if owner != e.face {
          violation := Some(WrongFace(e.face, owner));
          return None;
        }
        var rendered := e;
        if IsHalf(e.turns) {
          if g.current.None? {
            return None;
          }
          var delta := g.current.value.Index() - g.target.value.Index();
          if !IsHalf(delta) {
            violation := Some(NotAHalfTurn(delta));
            return None;
          }
          rendered := VisualMove(e.face, delta);
        }
        active := Some(ActiveTurn(id, index, axis, rendered));
      }
      done := None;
      if active.Some? && active.value.axis == axis && previous.Get(axis) == Some(Moving) && !g.motion.Moving? {
        done := Some(active.value.move);
        index := index + 1;
        active := None;
      }
      previous := previous.Set(axis, Some(g.motion));
    }

    method ApplyStatus(status: StatusSnapshot) returns (done: Option<VisualMove>)
      modifies this
      ensures (Value(), done) == Seen(old(Value()), status)
    {
      if CanonicalSeen(status.stand) {
        frame := MP.Canonical;
      }
      if status.operation.None? {
        previous := Motions(status.stand.grippers);
        active := None;
        operation := None;
        solutionAtStart := None;
        return None;
      }
      var op := status.operation.value;
      if operation != Some(op.id) {
        operation := Some(op.id);
        if op.kind == ScanSolveExecute {
          expected := [];
          index := 0;
          active := None;
          solutionAtStart := if status.solution.moves != [] then status.solution.id else None;
        } else {
          solutionAtStart := None;
        }
      }
      if (expected == [] || index >= |expected|) && (op.kind == Execute || op.kind == ScanSolveExecute)
         && status.solution.moves != [] && solutionAtStart != status.solution.id {
        SetExpected(status.solution.moves);
      }
      frame := FrameSeen(frame, status.stand);
      if op.kind == Execute || op.kind == ExecuteMoves || op.kind == ScanSolveExecute {
        done := SeeAxes(status.stand, op.id);
      } else {
        previous := Motions(status.stand.grippers);
        done := None;
      }
    }

    method SeeAxes(stand: StandState, id: nat) returns (done: Option<VisualMove>)
      modifies this
      ensures (Value(), done) == AxesSeen(old(Value()), stand, id, StartedFrom(old(previous), stand.grippers, SIDES), SIDES)
    {
      hide AxisSeen;
      var started := StartedAxes(stand.grippers);
      done := None;
      for i := 0 to 4
        invariant (Value(), done) == AxesSeen(old(Value()), stand, id, started, SIDES[..i])
      {
        assert SIDES[..i + 1][..i] == SIDES[..i];
        var more := SeeAxis(stand, id, started, SIDES[i]);
        done := Later(done, more);
      }
      assert SIDES[..4] == SIDES;
    }
  }
}

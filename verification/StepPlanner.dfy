/** The planner as it runs: one object that appends to a step queue, flips the dirty
    flags of the four grippers and remembers the frame. Every method is proved against
    the plan functions of `MovePlanner`. */
module StepPlanner {
  import opened Geometry
  import opened Stand
  import MP = MovePlanner
  import opened PlanMeaning
  import opened Mechanics
  import opened Options

  class Planner {
    var steps: seq<MP.Step>
    var leftDirty: bool
    var rightDirty: bool
    var topDirty: bool
    var bottomDirty: bool
    var frame: MP.Frame

    function Dirty(): Four<bool>
      reads this
    {
      Four(leftDirty, rightDirty, topDirty, bottomDirty)
    }

    function Value(): MP.Plan
      reads this
    {
      MP.Plan(steps, Dirty(), frame)
    }

    constructor ()
      ensures Value() == MP.EMPTY_PLAN
    {
      steps, frame := [], MP.Canonical;
      leftDirty, rightDirty, topDirty, bottomDirty := false, false, false, false;
    }

    method Push(more: seq<MP.Step>)
      modifies this
      ensures Value() == MP.Append(old(Value()), more)
    {
      steps := steps + more;
    }

    method SetDirty(gripper: Side, value: bool)
      modifies this
      ensures Value() == old(Value()).(dirty := old(Dirty()).Set(gripper, value))
    {
      match gripper {
        case Left => leftDirty := value;
        case Right => rightDirty := value;
        case Top => topDirty := value;
        case Bottom => bottomDirty := value;
      }
    }

    method FlushGrippers(grippers: seq<Side>)
      requires |grippers| > 0
      modifies this
      ensures Value() == MP.FlushGrippers(old(Value()), grippers)
    {
      var target := if |grippers| == 2 then MP.Pair(GroupOf(grippers[0])) else MP.Single(grippers[0]);
      Push([MP.SetRails(target, FarOpen)]);
      Push([MP.SetGrippers(MP.Perpendicular(grippers))]);
      Push([MP.SetRails(target, NearGrip)]);
      ghost var before := Value();
      for i := 0 to |grippers|
        invariant Value() == before.(dirty := Dirty())
        invariant MP.Cleaned(Dirty(), grippers[i..]) == MP.Cleaned(before.dirty, grippers)
      {
        assert grippers[i..][1..] == grippers[i + 1..];
        SetDirty(grippers[i], false);
      }
      assert steps == old(steps) + [MP.SetRails(target, FarOpen), MP.SetGrippers(MP.Perpendicular(grippers)),
                                    MP.SetRails(target, NearGrip)];
    }

    method FlushGroup(group: AxisGroup)
      modifies this
      ensures Value() == MP.FlushGroup(old(Value()), group)
    {
      var dirty := MP.DirtyGrippers(Dirty(), group);
      if dirty != [] {
        FlushGrippers(dirty);
      }
    }

    method LazyDirectTurn(gripper: Side, turn: MP.MoveTurn)
      modifies this
      ensures Value() == MP.LazyDirectTurn(old(Value()), gripper, turn)
    {
      if Dirty().Get(gripper) {
        FlushGrippers([gripper]);
      }
      ghost var clean := Value();
      match turn {
        case Clockwise => Push([MP.SetGrippers([MP.Pose(gripper, FrameParallelReversed)])]);
        case CounterClockwise => Push([MP.SetGrippers([MP.Pose(gripper, FrameParallel)])]);
        case Half =>
          Push([MP.SetRails(MP.Single(gripper), FarOpen)]);
          Push([MP.SetGrippers([MP.Pose(gripper, FrameParallel)])]);
          Push([MP.SetRails(MP.Single(gripper), NearGrip)]);
          Push([MP.SetGrippers([MP.Pose(gripper, FrameParallelReversed)])]);
      }
      assert steps == clean.steps + MP.TurnSteps(gripper, turn);
      SetDirty(gripper, true);
    }

    /** `position_front_back_fused` and `restore_front_fused`, by the frame they enter. */
    method Reorient(target: MP.Frame)
      modifies this
      ensures Value() == MP.Reorient(old(Value()), target)
    {
      var top := if target == MP.RotatedFb then FrameParallel else FrameParallelReversed;
      var bottom := if target == MP.RotatedFb then FrameParallelReversed else FrameParallel;
      var dirty := MP.DirtyGrippers(Dirty(), LeftRight);
      if dirty == [] {
        Push(MP.ReorientSteps(top, bottom));
      } else {
        Push(MP.FusedSteps(dirty, top, bottom));
        ghost var before := Value();
        for i := 0 to |dirty|
          invariant Value() == before.(dirty := Dirty())
          invariant MP.Cleaned(Dirty(), dirty[i..]) == MP.Cleaned(before.dirty, dirty)
        {
          assert dirty[i..][1..] == dirty[i + 1..];
          SetDirty(dirty[i], false);
        }
      }
      frame := target;
    }
  }

  /** One move of the optimising planner. */
  method PlanMove(state: Planner, move: MP.CubeMove)
    modifies state
    ensures state.Value() == MP.PlanMove(old(state.Value()), move)
  {
    hide MP.FlushGroup, MP.Reorient, MP.LazyDirectTurn;
    if state.frame == MP.Canonical && move.face in {Front, Back} {
      state.FlushGroup(TopBottom);
      state.Reorient(MP.RotatedFb);
    } else if state.frame == MP.RotatedFb && move.face in {LogicalFace.Left, LogicalFace.Right} {
      state.FlushGroup(TopBottom);
      state.Reorient(MP.Canonical);
    }
    assert state.Value() == MP.EnterFrame(old(state.Value()), move.face);
    var gripper := MP.DirectSide(move.face);
    state.FlushGroup(Other(GroupOf(gripper)));
    state.LazyDirectTurn(gripper, move.turn);
    state.Push([MP.MoveCompleted]);
  }

  /** The optimising planner, for both ways of finishing. */
  method OptimizedSteps(moves: seq<MP.CubeMove>, finish: MP.Finish) returns (steps: seq<MP.Step>)
    ensures steps == MP.OptimizedPlan(moves, finish).steps
    ensures finish == MP.CanonicalHeld ==>
              forall cube: Cube :: Run(CanonicalGrip(cube), steps) == Some(CanonicalGrip(ApplyMoves(cube, moves)))
  {
    hide MP.PlanMove, MP.FlushGroup, MP.Reorient;
    var state := new Planner();
    for i := 0 to |moves|
      invariant fresh(state)
      invariant state.Value() == MP.PlanMoves(MP.EMPTY_PLAN, moves[..i])
    {
      assert moves[..i + 1][..i] == moves[..i];
      PlanMove(state, moves[i]);
    }
    assert moves[..|moves|] == moves;
    if finish == MP.CanonicalHeld {
      if state.frame == MP.RotatedFb {
        state.FlushGroup(TopBottom);
        state.Reorient(MP.Canonical);
      }
      state.FlushGroup(LeftRight);
      state.FlushGroup(TopBottom);
      forall cube: Cube
        ensures Run(CanonicalGrip(cube), state.steps) == Some(CanonicalGrip(ApplyMoves(cube, moves)))
      {
        OptimizedHeldMeaning(moves, cube);
      }
    }
    steps := state.steps;
  }

  method BaselineTurn(state: Planner, gripper: Side, turn: MP.MoveTurn)
    modifies state
    requires state.Dirty() == AllSides(false)
    ensures state.Value() == MP.BaselineTurn(old(state.Value()), gripper, turn)
    ensures state.Dirty() == AllSides(false)
  {
    ghost var before := state.Value();
    state.LazyDirectTurn(gripper, turn);
    state.FlushGrippers([gripper]);
    MP.CleanedSingle(before.dirty.Set(gripper, true), gripper);
    MP.CleanedSingle(before.dirty, gripper);
  }

  /** The baseline planner: canonical grip again after every move. */
  method BaselineSteps(moves: seq<MP.CubeMove>) returns (steps: seq<MP.Step>)
    ensures steps == MP.BaselineHeldSteps(moves)
    ensures forall cube: Cube :: Run(CanonicalGrip(cube), steps) == Some(CanonicalGrip(ApplyMoves(cube, moves)))
  {
    var state := new Planner();
    for i := 0 to |moves|
      invariant fresh(state)
      invariant state.Value() == MP.BaselinePlan(moves[..i]) && state.Dirty() == AllSides(false)
    {
      var move := moves[i];
      assert moves[..i + 1][..i] == moves[..i];
      if move.face in {Front, Back} {
        state.Push(MP.ReorientSteps(FrameParallel, FrameParallelReversed));
        BaselineTurn(state, MP.DirectSide(move.face), move.turn);
        state.Push(MP.ReorientSteps(FrameParallelReversed, FrameParallel));
      } else {
        BaselineTurn(state, MP.DirectSide(move.face), move.turn);
      }
      state.Push([MP.MoveCompleted]);
    }
    assert moves[..|moves|] == moves;
    steps := state.steps;
    forall cube: Cube
      ensures Run(CanonicalGrip(cube), steps) == Some(CanonicalGrip(ApplyMoves(cube, moves)))
    {
      OptimizedEquivalentToBaseline(moves, cube);
    }
  }
}

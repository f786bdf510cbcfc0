/** The optimised plan is never slower and never commands more servo targets than the
    baseline, and reorients the complete cube as rarely as its two frames allow. */
module PlanCost {
  import opened Geometry
  import opened Stand
  import opened MovePlanner

  function Sum(steps: seq<Step>, price: Step -> nat): nat {
    if steps == [] then 0 else Sum(steps[..|steps| - 1], price) + price(steps[|steps| - 1])
  }

  lemma {:induction false} SumAdds(a: seq<Step>, b: seq<Step>, price: Step -> nat)
    ensures Sum(a + b, price) == Sum(a, price) + Sum(b, price)
    decreases |b|
  {
    if b == [] {
      assert a + b == a;
    } else {
      assert (a + b)[..|a + b| - 1] == a + b[..|b| - 1];
      SumAdds(a, b[..|b| - 1], price);
    }
  }

  lemma {:induction false} SumLast(steps: seq<Step>, step: Step, price: Step -> nat)
    ensures Sum(steps + [step], price) == Sum(steps, price) + price(step)
  {
    assert (steps + [step])[..|steps + [step]| - 1] == steps;
  }

  lemma {:induction false} Sum3(a: Step, b: Step, c: Step, price: Step -> nat)
    ensures Sum([a], price) == price(a)
    ensures Sum([a, b, c], price) == price(a) + price(b) + price(c)
  {
    SumLast([], a, price);
    SumLast([a], b, price);
    SumLast([a, b], c, price);
    assert [] + [a] == [a] && [a] + [b] == [a, b] && [a, b] + [c] == [a, b, c];
  }

  function EstimatedDuration(steps: seq<Step>, calibration: Calibration): nat {
    if steps == [] then 0
    else
      EstimatedDuration(steps[..|steps| - 1], calibration) +
      match steps[|steps| - 1]
      case SetRails(_, position) => calibration.RailDuration(position)
      case SetGrippers(_) => calibration.gripperPose
      case MoveCompleted => 0
      case AllOff => 0
  }

  function ServoTargets(step: Step): nat {
    match step
    case SetRails(Pair(_), _) => 2
    case SetRails(Single(_), _) => 1
    case SetGrippers(poses) => |poses|
    case MoveCompleted => 0
    case AllOff => 0
  }

  function ServoTargetCount(steps: seq<Step>): nat {
    if steps == [] then 0
    else ServoTargetCount(steps[..|steps| - 1]) + ServoTargets(steps[|steps| - 1])
  }

  /** Both measures are instances of one price list: a time for each kind of motion, and
      a price for each servo target commanded. */
  datatype Prices = Prices(times: Calibration, perTarget: bool) {
    function Time(step: Step): nat {
      match step
      case SetRails(_, position) => times.RailDuration(position)
      case SetGrippers(_) => times.gripperPose
      case MoveCompleted => 0
      case AllOff => 0
    }

    function Of(step: Step): nat {
      Time(step) + if perTarget then ServoTargets(step) else 0
    }

    function Targets(n: nat): nat {
      if perTarget then n else 0
    }

    /** Regripping one gripper. */
    function Flush(): nat {
      times.railsOpen + times.gripperPose + times.railsGrip + Targets(3)
    }

    /** Reorienting the complete cube with clean left/right grippers. */
    function Reorientation(): nat {
      2 * times.railsOpen + 2 * times.gripperPose + 2 * times.railsGrip + Targets(12)
    }

    function Turn(turn: MoveTurn): nat {
      if turn == Half then times.railsOpen + 2 * times.gripperPose + times.railsGrip + Targets(4)
      else times.gripperPose + Targets(1)
    }

    /** What the baseline spends on one move. */
    function Move(move: CubeMove): nat {
      Turn(move.turn) + Flush() + if move.face in {Front, Back} then 2 * Reorientation() else 0
    }

    /** What the planner still owes: one regrip per dirty gripper and the way back. */
    function Debt(plan: Plan): nat {
      (if plan.dirty.left then Flush() else 0) + (if plan.dirty.right then Flush() else 0)
      + (if plan.dirty.top then Flush() else 0) + (if plan.dirty.bottom then Flush() else 0)
      + (if plan.frame == RotatedFb then Reorientation() else 0)
    }
  }

  function Price(prices: Prices): Step -> nat {
    s => prices.Of(s)
  }

  function Spent(plan: Plan, prices: Prices): nat {
    Sum(plan.steps, Price(prices))
  }

  function Owing(plan: Plan, prices: Prices): nat {
    Spent(plan, prices) + prices.Debt(plan)
  }

  lemma {:induction false} PriceFlush(plan: Plan, grippers: seq<Side>, prices: Prices)
    requires |grippers| in {1, 2}
    ensures Spent(FlushGrippers(plan, grippers), prices)
         == Spent(plan, prices) + prices.Flush() + if |grippers| == 2 then prices.Targets(3) else 0
  {
    var target := if |grippers| == 2 then Pair(GroupOf(grippers[0])) else Single(grippers[0]);
    var price := Price(prices);
    var s1, s2, s3 := SetRails(target, FarOpen), SetGrippers(Perpendicular(grippers)), SetRails(target, NearGrip);
    SumAdds(plan.steps, [s1, s2, s3], price);
    Sum3(s1, s2, s3, price);
  }

  /** What fusing the flush of `n` grippers adds to a reorientation. */
  function Fused(n: nat, prices: Prices): nat {
    if n == 0 then 0 else prices.times.gripperPose + prices.Targets(n)
  }

  /** Half a reorientation: one pair away, both grippers of a pair posed, the pair back. */
  lemma {:induction false} PriceHalf(group: AxisGroup, top: GripperOrientation, bottom: GripperOrientation, prices: Prices)
    ensures Sum([SetRails(Pair(group), FarOpen), SetGrippers([Pose(Top, top), Pose(Bottom, bottom)]),
                 SetRails(Pair(group), NearGrip)], Price(prices))
         == prices.times.railsOpen + prices.times.gripperPose + prices.times.railsGrip + prices.Targets(6)
  {
    Sum3(SetRails(Pair(group), FarOpen), SetGrippers([Pose(Top, top), Pose(Bottom, bottom)]),
         SetRails(Pair(group), NearGrip), Price(prices));
  }

  lemma {:induction false} PriceReorientSteps(top: GripperOrientation, bottom: GripperOrientation, prices: Prices)
    ensures Sum(ReorientSteps(top, bottom), Price(prices)) == prices.Reorientation()
  {
    var first := [SetRails(Pair(LeftRight), FarOpen), SetGrippers([Pose(Top, top), Pose(Bottom, bottom)]),
                  SetRails(Pair(LeftRight), NearGrip)];
    var second := [SetRails(Pair(TopBottom), FarOpen), SetGrippers([Pose(Top, X), Pose(Bottom, X)]),
                   SetRails(Pair(TopBottom), NearGrip)];
    PriceHalf(LeftRight, top, bottom, prices);
    PriceHalf(TopBottom, X, X, prices);
    SumAdds(first, second, Price(prices));
    assert ReorientSteps(top, bottom) == first + second;
  }

  /** Fusing inserts one gripper step after the first step of a reorientation. */
  lemma {:induction false} PriceFusedSteps(grippers: seq<Side>, top: GripperOrientation, bottom: GripperOrientation, prices: Prices)
    ensures Sum(FusedSteps(grippers, top, bottom), Price(prices))
         == prices.Reorientation() + prices.times.gripperPose + prices.Targets(|grippers|)
  {
    var extra := SetGrippers(Perpendicular(grippers));
    var steps := ReorientSteps(top, bottom);
    PriceReorientSteps(top, bottom, prices);
    SumAdds(steps[..1], steps[1..], Price(prices));
    SumAdds(steps[..1] + [extra], steps[1..], Price(prices));
    SumLast(steps[..1], extra, Price(prices));
    assert steps == steps[..1] + steps[1..];
    assert FusedSteps(grippers, top, bottom) == steps[..1] + [extra] + steps[1..];
  }

  lemma {:induction false} PriceReorient(plan: Plan, frame: Frame, prices: Prices)
    ensures Spent(Reorient(plan, frame), prices)
         == Spent(plan, prices) + prices.Reorientation() + Fused(|DirtyGrippers(plan.dirty, LeftRight)|, prices)
  {
    var top := if frame == RotatedFb then P else R;
    var bottom := if frame == RotatedFb then R else P;
    var grippers := DirtyGrippers(plan.dirty, LeftRight);
    PriceReorientSteps(top, bottom, prices);
    PriceFusedSteps(grippers, top, bottom, prices);
    SumAdds(plan.steps, ReorientSteps(top, bottom), Price(prices));
    SumAdds(plan.steps, FusedSteps(grippers, top, bottom), Price(prices));
  }

  lemma {:induction false} PriceTurn(steps: seq<Step>, side: Side, turn: MoveTurn, prices: Prices)
    ensures Sum(steps + TurnSteps(side, turn), Price(prices))
         == Sum(steps, Price(prices)) + prices.Turn(turn)
  {
    var price := Price(prices);
    SumAdds(steps, TurnSteps(side, turn), price);
    var last := SetGrippers([Pose(side, if turn == CounterClockwise then P else R)]);
    Sum3(last, last, last, price);
    if turn == Half {
      var s1, s2, s3 := SetRails(Single(side), FarOpen), SetGrippers([Pose(side, P)]), SetRails(Single(side), NearGrip);
      Sum3(s1, s2, s3, price);
      SumAdds([s1, s2, s3], [last], price);
      assert TurnSteps(side, turn) == [s1, s2, s3] + [last];
    }
  }

  lemma {:induction false} OweOneFlush(plan: Plan, side: Side, prices: Prices)
    requires plan.dirty.Get(side)
    ensures Owing(FlushGrippers(plan, [side]), prices) == Owing(plan, prices)
    ensures FlushGrippers(plan, [side]).dirty == plan.dirty.Set(side, false)
  {
    PriceFlush(plan, [side], prices);
    CleanedSingle(plan.dirty, side);
  }

  lemma {:induction false} OweFlushGroup(plan: Plan, group: AxisGroup, prices: Prices)
    ensures Owing(FlushGroup(plan, group), prices) <= Owing(plan, prices)
    ensures FlushGroup(plan, group).dirty == plan.dirty.SetGroup(group, false)
    ensures FlushGroup(plan, group).frame == plan.frame
  {
    var sides := GroupSides(group);
    var grippers := DirtyGrippers(plan.dirty, group);
    if |grippers| == 1 {
      assert grippers == [grippers[0]];
      OweOneFlush(plan, grippers[0], prices);
    } else if |grippers| == 2 {
      assert grippers == sides == [sides[0], sides[1]];
      PriceFlush(plan, sides, prices);
      CleanedDouble(plan.dirty, sides[0], sides[1]);
    }
  }

  lemma {:induction false} OweReorient(plan: Plan, frame: Frame, prices: Prices)
    requires plan.frame != frame
    ensures Owing(Reorient(plan, frame), prices)
         <= Owing(plan, prices) + if frame == RotatedFb then 2 * prices.Reorientation() else 0
  {
    var grippers := DirtyGrippers(plan.dirty, LeftRight);
    PriceReorient(plan, frame, prices);
    if |grippers| == 1 {
      assert grippers == [grippers[0]];
      CleanedSingle(plan.dirty, grippers[0]);
    } else if |grippers| == 2 {
      assert grippers == [Side.Left, Side.Right];
      CleanedDouble(plan.dirty, Side.Left, Side.Right);
    }
  }

  lemma {:induction false} OweLazyTurn(plan: Plan, side: Side, turn: MoveTurn, prices: Prices)
    ensures Owing(LazyDirectTurn(plan, side, turn), prices) == Owing(plan, prices) + prices.Turn(turn) + prices.Flush()
  {
    hide Sum, Price, TurnSteps, FlushGrippers;
    var clean := plan;
    if plan.dirty.Get(side) {
      clean := FlushGrippers(plan, [side]);
      OweOneFlush(plan, side, prices);
    }
    PriceTurn(clean.steps, side, turn, prices);
  }

  lemma {:induction false} OweEnterFrame(plan: Plan, face: LogicalFace, prices: Prices)
    ensures Owing(EnterFrame(plan, face), prices)
         <= Owing(plan, prices) + if face in {Front, Back} then 2 * prices.Reorientation() else 0
  {
    var needed := NeededFrame(plan.frame, face);
    if needed != plan.frame {
      OweFlushGroup(plan, TopBottom, prices);
      OweReorient(FlushGroup(plan, TopBottom), needed, prices);
    }
  }

  lemma {:induction false} OweMark(plan: Plan, prices: Prices)
    ensures Owing(Append(plan, [MoveCompleted]), prices) == Owing(plan, prices)
  {
    SumLast(plan.steps, MoveCompleted, Price(prices));
  }

  /** One move adds at most the baseline's price to what is spent and owed. */
  lemma {:induction false} OwePlanMove(plan: Plan, move: CubeMove, prices: Prices)
    ensures Owing(PlanMove(plan, move), prices) <= Owing(plan, prices) + prices.Move(move)
  {
    var side := DirectSide(move.face);
    var entered := EnterFrame(plan, move.face);
    var ready := FlushGroup(entered, Other(GroupOf(side)));
    OweEnterFrame(plan, move.face, prices);
    OweFlushGroup(entered, Other(GroupOf(side)), prices);
    OweLazyTurn(ready, side, move.turn, prices);
    OweMark(LazyDirectTurn(ready, side, move.turn), prices);
  }

  function BaselinePrice(moves: seq<CubeMove>, prices: Prices): nat {
    if moves == [] then 0
    else BaselinePrice(moves[..|moves| - 1], prices) + prices.Move(moves[|moves| - 1])
  }

  lemma {:induction false} OwePlanMoves(moves: seq<CubeMove>, prices: Prices)
    ensures Owing(PlanMoves(EMPTY_PLAN, moves), prices) <= BaselinePrice(moves, prices)
  {
    if moves != [] {
      var k := |moves| - 1;
      OwePlanMoves(moves[..k], prices);
      OwePlanMove(PlanMoves(EMPTY_PLAN, moves[..k]), moves[k], prices);
    }
  }

  lemma {:induction false} BaselineTurnPrice(plan: Plan, side: Side, turn: MoveTurn, prices: Prices)
    ensures Spent(BaselineTurn(plan, side, turn), prices) == Spent(plan, prices) + prices.Turn(turn) + prices.Flush()
  {
    PriceTurn(plan.steps, side, turn, prices);
    PriceFlush(Append(plan, TurnSteps(side, turn)), [side], prices);
  }

  lemma {:induction false} BaselineMovePrice(plan: Plan, move: CubeMove, prices: Prices)
    ensures Spent(BaselineMove(plan, move), prices) == Spent(plan, prices) + prices.Move(move)
  {
    hide Sum, BaselineTurn, ReorientSteps, TurnSteps, FlushGrippers;
    var price := Price(prices);
    var clean := plan.(dirty := AllSides(false));
    if move.face in {Front, Back} {
      PriceReorient(clean, RotatedFb, prices);
      var entered := Append(plan, ReorientSteps(P, R));
      BaselineTurnPrice(entered, DirectSide(move.face), move.turn, prices);
      var turned := BaselineTurn(entered, DirectSide(move.face), move.turn);
      PriceReorient(turned.(dirty := AllSides(false)), Canonical, prices);
      SumLast(turned.steps + ReorientSteps(R, P), MoveCompleted, price);
    } else {
      BaselineTurnPrice(plan, DirectSide(move.face), move.turn, prices);
      SumLast(BaselineTurn(plan, DirectSide(move.face), move.turn).steps, MoveCompleted, price);
    }
  }

  lemma {:induction false} BaselineSpends(moves: seq<CubeMove>, prices: Prices)
    ensures Spent(BaselinePlan(moves), prices) == BaselinePrice(moves, prices)
  {
    if moves != [] {
      var k := |moves| - 1;
      BaselineSpends(moves[..k], prices);
      BaselineMovePrice(BaselinePlan(moves[..k]), moves[k], prices);
    }
  }

  lemma {:induction false} OweFinish(plan: Plan, prices: Prices)
    ensures Spent(FinishHeld(plan), prices) <= Owing(plan, prices)
  {
    var restored := plan;
    if plan.frame == RotatedFb {
      OweFlushGroup(plan, TopBottom, prices);
      OweReorient(FlushGroup(plan, TopBottom), Canonical, prices);
      restored := Reorient(FlushGroup(plan, TopBottom), Canonical);
    }
    OweFlushGroup(restored, LeftRight, prices);
    OweFlushGroup(FlushGroup(restored, LeftRight), TopBottom, prices);
  }

  /** For any price list the held plan costs at most the baseline. */
  lemma {:induction false} HeldNeverDearer(moves: seq<CubeMove>, prices: Prices)
    ensures Sum(OptimizedHeldSteps(moves), Price(prices)) <= Sum(BaselineHeldSteps(moves), Price(prices))
  {
    OwePlanMoves(moves, prices);
    OweFinish(PlanMoves(EMPTY_PLAN, moves), prices);
    BaselineSpends(moves, prices);
  }

  lemma {:induction false} DurationIsSum(steps: seq<Step>, calibration: Calibration)
    ensures EstimatedDuration(steps, calibration) == Sum(steps, Price(Prices(calibration, false)))
  {
    if steps != [] {
      DurationIsSum(steps[..|steps| - 1], calibration);
    }
  }

  lemma {:induction false} TargetCountIsSum(steps: seq<Step>)
    ensures ServoTargetCount(steps) == Sum(steps, Price(Prices(Calibration(0, 0, 0), true)))
  {
    if steps != [] {
      TargetCountIsSum(steps[..|steps| - 1]);
    }
  }

  /** Never slower, whatever the calibration. */
  lemma {:induction false} OptimizedNeverSlower(moves: seq<CubeMove>, calibration: Calibration)
    ensures EstimatedDuration(OptimizedHeldSteps(moves), calibration)
         <= EstimatedDuration(BaselineHeldSteps(moves), calibration)
  {
    HeldNeverDearer(moves, Prices(calibration, false));
    DurationIsSum(OptimizedHeldSteps(moves), calibration);
    DurationIsSum(BaselineHeldSteps(moves), calibration);
  }

  /** Never more servo targets. */
  lemma {:induction false} OptimizedNeverMoreTargets(moves: seq<CubeMove>)
    ensures ServoTargetCount(OptimizedHeldSteps(moves)) <= ServoTargetCount(BaselineHeldSteps(moves))
  {
    HeldNeverDearer(moves, Prices(Calibration(0, 0, 0), true));
    TargetCountIsSum(OptimizedHeldSteps(moves));
    TargetCountIsSum(BaselineHeldSteps(moves));
  }

  // ---- frames ---------------------------------------------------------------------

  /** A step that turns the complete cube: both vertical grippers to parallel endpoints. */
  predicate IsWholeCubeTurn(step: Step) {
    step.SetGrippers? && |step.poses| == 2
    && forall i :: 0 <= i < 2 ==> step.poses[i].side in {Top, Bottom} && step.poses[i].orientation.IsFrameParallel()
  }

  function WholeCube(step: Step): nat {
    if IsWholeCubeTurn(step) then 1 else 0
  }

  function WholeCubeTurns(steps: seq<Step>): nat {
    Sum(steps, WholeCube)
  }

  /** A frame for every move. */
  type Schedule = seq<Frame>

  /** Front and back are done rotated, left and right canonical; up and down in either. */
  predicate Admissible(schedule: Schedule, moves: seq<CubeMove>) {
    |schedule| == |moves|
    && forall i :: 0 <= i < |moves| ==> schedule[i] == NeededFrame(schedule[i], moves[i].face)
  }

  function Last(schedule: Schedule): Frame {
    if schedule == [] then Canonical else schedule[|schedule| - 1]
  }

  /** Frame changes of a schedule that starts in the canonical frame. */
  function Changes(schedule: Schedule): nat {
    if schedule == [] then 0
    else
      var before := schedule[..|schedule| - 1];
      Changes(before) + if Last(before) == Last(schedule) then 0 else 1
  }

  /** The same for one that also ends there. */
  function RoundTripChanges(schedule: Schedule): nat {
    Changes(schedule) + if Last(schedule) == Canonical then 0 else 1
  }

  lemma {:induction false} QuietSteps(steps: seq<Step>, quiet: seq<Step>)
    requires forall i :: 0 <= i < |quiet| ==> !IsWholeCubeTurn(quiet[i])
    ensures WholeCubeTurns(steps + quiet) == WholeCubeTurns(steps)
    decreases |quiet|
  {
    if quiet == [] {
      assert steps + quiet == steps;
    } else {
      var k := |quiet| - 1;
      QuietSteps(steps, quiet[..k]);
      SumLast(steps + quiet[..k], quiet[k], WholeCube);
      assert steps + quiet == steps + quiet[..k] + [quiet[k]];
    }
  }

  lemma {:induction false} PerpendicularIsQuiet(grippers: seq<Side>)
    ensures !IsWholeCubeTurn(SetGrippers(Perpendicular(grippers)))
    ensures !IsWholeCubeTurn(SetGrippers([Pose(Top, X), Pose(Bottom, X)]))
  {
    if |grippers| == 2 {
      assert Perpendicular(grippers)[0].orientation == X;
    }
    assert [Pose(Top, X), Pose(Bottom, X)][0].orientation == X;
  }

  lemma {:induction false} FlushIsQuiet(plan: Plan, group: AxisGroup)
    ensures WholeCubeTurns(FlushGroup(plan, group).steps) == WholeCubeTurns(plan.steps)
    ensures FlushGroup(plan, group).frame == plan.frame
  {
    var grippers := DirtyGrippers(plan.dirty, group);
    if grippers != [] {
      FlushGrippersIsQuiet(plan, grippers);
    }
  }

  lemma {:induction false} FlushGrippersIsQuiet(plan: Plan, grippers: seq<Side>)
    requires grippers != []
    ensures WholeCubeTurns(FlushGrippers(plan, grippers).steps) == WholeCubeTurns(plan.steps)
  {
    PerpendicularIsQuiet(grippers);
    var target := if |grippers| == 2 then Pair(GroupOf(grippers[0])) else Single(grippers[0]);
    QuietSteps(plan.steps,
      [SetRails(target, FarOpen), SetGrippers(Perpendicular(grippers)), SetRails(target, NearGrip)]);
  }

  lemma {:induction false} LazyTurnIsQuiet(plan: Plan, side: Side, turn: MoveTurn)
    ensures WholeCubeTurns(LazyDirectTurn(plan, side, turn).steps) == WholeCubeTurns(plan.steps)
    ensures LazyDirectTurn(plan, side, turn).frame == plan.frame
  {
    FlushGrippersIsQuiet(plan, [side]);
    var clean := if plan.dirty.Get(side) then FlushGrippers(plan, [side]) else plan;
    QuietSteps(clean.steps, TurnSteps(side, turn));
  }

  lemma {:induction false} ReorientShape(plan: Plan, frame: Frame, grippers: seq<Side>, added: seq<Step>)
    requires grippers == DirtyGrippers(plan.dirty, LeftRight)
    requires var top, bottom := if frame == RotatedFb then P else R, if frame == RotatedFb then R else P;
             added == (if grippers == [] then [SetRails(Pair(LeftRight), FarOpen)]
                       else [SetRails(Pair(LeftRight), FarOpen), SetGrippers(Perpendicular(grippers))])
                      + [SetGrippers([Pose(Top, top), Pose(Bottom, bottom)])]
                      + [SetRails(Pair(LeftRight), NearGrip), SetRails(Pair(TopBottom), FarOpen),
                         SetGrippers([Pose(Top, X), Pose(Bottom, X)]), SetRails(Pair(TopBottom), NearGrip)]
    ensures Reorient(plan, frame).steps == plan.steps + added && Reorient(plan, frame).frame == frame
  {
    hide DirtyGrippers, Cleaned, Perpendicular;
  }

  /** Of the steps of a reorientation, one turns the cube. */
  lemma {:induction false} ReorientKinds(grippers: seq<Side>, lead: seq<Step>, turn: Step, tail: seq<Step>, frame: Frame)
    requires lead == if grippers == [] then [SetRails(Pair(LeftRight), FarOpen)]
                     else [SetRails(Pair(LeftRight), FarOpen), SetGrippers(Perpendicular(grippers))]
    requires turn == SetGrippers([Pose(Top, if frame == RotatedFb then P else R), Pose(Bottom, if frame == RotatedFb then R else P)])
    requires tail == [SetRails(Pair(LeftRight), NearGrip), SetRails(Pair(TopBottom), FarOpen),
                      SetGrippers([Pose(Top, X), Pose(Bottom, X)]), SetRails(Pair(TopBottom), NearGrip)]
    ensures IsWholeCubeTurn(turn)
    ensures forall i :: 0 <= i < |lead| ==> !IsWholeCubeTurn(lead[i])
    ensures forall i :: 0 <= i < |tail| ==> !IsWholeCubeTurn(tail[i])
  {
    PerpendicularIsQuiet(grippers);
  }

  lemma {:induction false} ReorientTurnsOnce(plan: Plan, frame: Frame)
    ensures WholeCubeTurns(Reorient(plan, frame).steps) == WholeCubeTurns(plan.steps) + 1
    ensures Reorient(plan, frame).frame == frame
  {
    hide DirtyGrippers, Reorient, Perpendicular, IsWholeCubeTurn, Sum;
    var grippers := DirtyGrippers(plan.dirty, LeftRight);
    var turn := SetGrippers([Pose(Top, if frame == RotatedFb then P else R), Pose(Bottom, if frame == RotatedFb then R else P)]);
    var open := SetRails(Pair(LeftRight), FarOpen);
    var lead := if grippers == [] then [open] else [open, SetGrippers(Perpendicular(grippers))];
    var tail := [SetRails(Pair(LeftRight), NearGrip), SetRails(Pair(TopBottom), FarOpen),
                 SetGrippers([Pose(Top, X), Pose(Bottom, X)]), SetRails(Pair(TopBottom), NearGrip)];
    ReorientKinds(grippers, lead, turn, tail, frame);
    QuietSteps(plan.steps, lead);
    SumLast(plan.steps + lead, turn, WholeCube);
    QuietSteps(plan.steps + lead + [turn], tail);
    ReorientShape(plan, frame, grippers, lead + [turn] + tail);
    assert plan.steps + lead + [turn] + tail == plan.steps + (lead + [turn] + tail);
  }

  lemma {:induction false} EnterFrameTurns(plan: Plan, face: LogicalFace)
    ensures var needed := NeededFrame(plan.frame, face);
            && EnterFrame(plan, face).frame == needed
            && WholeCubeTurns(EnterFrame(plan, face).steps)
               == WholeCubeTurns(plan.steps) + (if needed == plan.frame then 0 else 1)
  {
    FlushIsQuiet(plan, TopBottom);
    ReorientTurnsOnce(FlushGroup(plan, TopBottom), NeededFrame(plan.frame, face));
  }

  lemma {:induction false} PlanMoveTurns(plan: Plan, move: CubeMove)
    ensures var needed := NeededFrame(plan.frame, move.face);
            && PlanMove(plan, move).frame == needed
            && WholeCubeTurns(PlanMove(plan, move).steps)
               == WholeCubeTurns(plan.steps) + (if needed == plan.frame then 0 else 1)
  {
    var side := DirectSide(move.face);
    var entered := EnterFrame(plan, move.face);
    EnterFrameTurns(plan, move.face);
    FlushIsQuiet(entered, Other(GroupOf(side)));
    var ready := FlushGroup(entered, Other(GroupOf(side)));
    LazyTurnIsQuiet(ready, side, move.turn);
    QuietSteps(LazyDirectTurn(ready, side, move.turn).steps, [MoveCompleted]);
  }

  /** The planner's own schedule. */
  function LazySchedule(moves: seq<CubeMove>): (r: Schedule)
    ensures |r| == |moves|
  {
    if moves == [] then []
    else
      var before := LazySchedule(moves[..|moves| - 1]);
      before + [NeededFrame(Last(before), moves[|moves| - 1].face)]
  }

  lemma {:induction false} LazyIsAdmissible(moves: seq<CubeMove>)
    ensures Admissible(LazySchedule(moves), moves)
  {
    if moves != [] {
      var k := |moves| - 1;
      var lazy := LazySchedule(moves);
      LazyIsAdmissible(moves[..k]);
      forall i | 0 <= i < |moves|
        ensures lazy[i] == NeededFrame(lazy[i], moves[i].face)
      {
        if i < k {
          assert LazySchedule(moves[..k])[i] == NeededFrame(LazySchedule(moves[..k])[i], moves[..k][i].face);
        }
      }
    }
  }

  lemma {:induction false} PlanFollowsSchedule(moves: seq<CubeMove>)
    ensures PlanMoves(EMPTY_PLAN, moves).frame == Last(LazySchedule(moves))
    ensures WholeCubeTurns(PlanMoves(EMPTY_PLAN, moves).steps) == Changes(LazySchedule(moves))
  {
    if moves != [] {
      var k := |moves| - 1;
      PlanFollowsSchedule(moves[..k]);
      PlanMoveTurns(PlanMoves(EMPTY_PLAN, moves[..k]), moves[k]);
      assert LazySchedule(moves)[..k] == LazySchedule(moves[..k]);
    }
  }

  /** Changing frames only when forced is never behind any other schedule by more than
      the change that would bring it to the other's frame. */
  lemma {:induction false} LazyIsNeverBehind(moves: seq<CubeMove>, schedule: Schedule)
    requires Admissible(schedule, moves)
    ensures var lazy := LazySchedule(moves);
            Changes(lazy) + (if Last(lazy) == Last(schedule) then 0 else 1) <= Changes(schedule)
  {
    if moves != [] {
      var k := |moves| - 1;
      assert Admissible(schedule[..k], moves[..k]) by {
        forall i | 0 <= i < k
          ensures schedule[..k][i] == NeededFrame(schedule[..k][i], moves[..k][i].face)
        {
          assert schedule[i] == NeededFrame(schedule[i], moves[i].face);
        }
      }
      LazyIsNeverBehind(moves[..k], schedule[..k]);
      assert LazySchedule(moves)[..k] == LazySchedule(moves[..k]);
      assert schedule[k] == NeededFrame(schedule[k], moves[k].face);
    }
  }

  lemma {:induction false} FinishTurns(plan: Plan)
    ensures WholeCubeTurns(FinishHeld(plan).steps)
         == WholeCubeTurns(plan.steps) + if plan.frame == Canonical then 0 else 1
  {
    var restored := plan;
    if plan.frame == RotatedFb {
      FlushIsQuiet(plan, TopBottom);
      ReorientTurnsOnce(FlushGroup(plan, TopBottom), Canonical);
      restored := Reorient(FlushGroup(plan, TopBottom), Canonical);
    }
    FlushIsQuiet(restored, LeftRight);
    FlushIsQuiet(FlushGroup(restored, LeftRight), TopBottom);
  }

  /** The held plan's number of whole-cube turns is attained by an admissible schedule and
      no admissible schedule, starting and ending canonical, has fewer. */
  lemma {:induction false} ReorientationsMinimal(moves: seq<CubeMove>, schedule: Schedule)
    requires Admissible(schedule, moves)
    ensures Admissible(LazySchedule(moves), moves)
    ensures WholeCubeTurns(OptimizedHeldSteps(moves)) == RoundTripChanges(LazySchedule(moves))
    ensures WholeCubeTurns(OptimizedHeldSteps(moves)) <= RoundTripChanges(schedule)
  {
    LazyIsAdmissible(moves);
    PlanFollowsSchedule(moves);
    LazyIsNeverBehind(moves, schedule);
    FinishTurns(PlanMoves(EMPTY_PLAN, moves));
  }
}

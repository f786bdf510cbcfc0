/** Every plan does to the cube what the moves say, and keeps the stand safe throughout. */
module PlanMeaning {
  import opened Geometry
  import opened Stand
  import opened MovePlanner
  import opened Mechanics
  import opened Options

  /** Quarter turns, counter-clockwise from outside, of a Singmaster turn. */
  function Turns(turn: MoveTurn): int {
    match turn
    case Clockwise => -1
    case CounterClockwise => 1
    case Half => 2
  }

  function ApplyMove(cube: Cube, move: CubeMove): Cube {
    SpinLayer(cube, move.face, Turns(move.turn))
  }

  function ApplyMoves(cube: Cube, moves: seq<CubeMove>): Cube {
    if moves == [] then cube
    else ApplyMove(ApplyMoves(cube, moves[..|moves| - 1]), moves[|moves| - 1])
  }

  /** How a cube whose logical state is `cube` stands in the machine. */
  function InFrame(frame: Frame, cube: Cube): Cube {
    if frame == Canonical then cube else RotateCube(cube, Up, 1)
  }

  predicate SafeRun(m: Machine, steps: seq<Step>) {
    steps == []
    || (var before := Run(m, steps[..|steps| - 1]);
        SafeRun(m, steps[..|steps| - 1]) && before.Some? && SafeStep(before.value, steps[|steps| - 1]))
  }

  ghost predicate Reaches(start: Machine, steps: seq<Step>, m: Machine) {
    SafeRun(start, steps) && Run(start, steps) == Some(m)
  }

  lemma {:induction false} Extend(start: Machine, steps: seq<Step>, m: Machine, step: Step)
    requires Reaches(start, steps, m)
    requires SafeStep(m, step) && Exec(m, step).Some?
    ensures Reaches(start, steps + [step], Exec(m, step).value)
  {
    assert (steps + [step])[..|steps + [step]| - 1] == steps;
  }

  /** Between moves: rails closed, dirty grippers parallel and the others perpendicular,
      dirty grippers on one axis only, and the cube standing in the plan's frame. */
  ghost predicate Settled(m: Machine, dirty: Four<bool>, frame: Frame, cube: Cube) {
    && m.closed == AllSides(true)
    && Parallel(m.grippers) == dirty
    && !((dirty.left || dirty.right) && (dirty.top || dirty.bottom))
    && m.cube == InFrame(frame, cube)
  }

  ghost predicate Good(start: Machine, plan: Plan, m: Machine, cube: Cube) {
    Reaches(start, plan.steps, m) && Settled(m, plan.dirty, plan.frame, cube)
  }

  lemma {:induction false} OnePose(g: Four<GripperOrientation>, pose: Pose)
    ensures SetPoses(g, [pose]) == g.Set(pose.side, pose.orientation)
    ensures PosedSides([pose]) == AllSides(false).Set(pose.side, true)
  {
    assert [pose][1..] == [];
  }

  lemma {:induction false} TwoPoses(g: Four<GripperOrientation>, a: Pose, b: Pose)
    ensures SetPoses(g, [a, b]) == g.Set(a.side, a.orientation).Set(b.side, b.orientation)
    ensures PosedSides([a, b]) == AllSides(false).Set(b.side, true).Set(a.side, true)
  {
    assert [a, b][1..] == [b];
    OnePose(g.Set(a.side, a.orientation), b);
  }

  lemma {:induction false} Extend3(start: Machine, steps: seq<Step>, m: Machine, s1: Step, s2: Step, s3: Step,
                m1: Machine, m2: Machine, m3: Machine)
    requires Reaches(start, steps, m)
    requires SafeStep(m, s1) && Exec(m, s1) == Some(m1)
    requires SafeStep(m1, s2) && Exec(m1, s2) == Some(m2)
    requires SafeStep(m2, s3) && Exec(m2, s3) == Some(m3)
    ensures Reaches(start, steps + [s1, s2, s3], m3)
  {
    Extend(start, steps, m, s1);
    Extend(start, steps + [s1], m1, s2);
    Extend(start, steps + [s1] + [s2], m2, s3);
    assert steps + [s1, s2, s3] == steps + [s1] + [s2] + [s3];
  }

  lemma {:induction false} FlushSingle(m: Machine, side: Side) returns (m1: Machine, m2: Machine, m3: Machine)
    requires m.closed == AllSides(true) && ClearAt(m)
    requires forall other: Side :: GroupOf(other) != GroupOf(side) ==> !Parallel(m.grippers).Get(other)
    ensures m3 == m.(grippers := m.grippers.Set(side, X))
    ensures SafeStep(m, SetRails(Single(side), FarOpen)) && Exec(m, SetRails(Single(side), FarOpen)) == Some(m1)
    ensures SafeStep(m1, SetGrippers([Pose(side, X)])) && Exec(m1, SetGrippers([Pose(side, X)])) == Some(m2)
    ensures SafeStep(m2, SetRails(Single(side), NearGrip)) && Exec(m2, SetRails(Single(side), NearGrip)) == Some(m3)
  {
    OnePose(m.grippers, Pose(side, X));
    m1 := m.(closed := m.closed.Set(side, false));
    m2 := m1.(grippers := m.grippers.Set(side, X));
    m3 := m2.(closed := m.closed);
    assert Parallel(m.grippers).Get(Side.Left) == m.grippers.left.IsFrameParallel();
    assert Parallel(m.grippers).Get(Side.Right) == m.grippers.right.IsFrameParallel();
    assert Parallel(m.grippers).Get(Top) == m.grippers.top.IsFrameParallel();
    assert Parallel(m.grippers).Get(Bottom) == m.grippers.bottom.IsFrameParallel();
  }

  lemma {:induction false} FlushDouble(m: Machine, group: AxisGroup, poses: seq<Pose>) returns (m1: Machine, m2: Machine, m3: Machine)
    requires m.closed == AllSides(true) && ClearAt(m)
    requires forall other: Side :: GroupOf(other) != group ==> !Parallel(m.grippers).Get(other)
    requires poses == [Pose(GroupSides(group)[0], X), Pose(GroupSides(group)[1], X)]
    ensures m3 == m.(grippers := m.grippers.SetGroup(group, X))
    ensures SafeStep(m, SetRails(Pair(group), FarOpen)) && Exec(m, SetRails(Pair(group), FarOpen)) == Some(m1)
    ensures SafeStep(m1, SetGrippers(poses)) && Exec(m1, SetGrippers(poses)) == Some(m2)
    ensures SafeStep(m2, SetRails(Pair(group), NearGrip)) && Exec(m2, SetRails(Pair(group), NearGrip)) == Some(m3)
  {
    TwoPoses(m.grippers, poses[0], poses[1]);
    m1 := m.(closed := m.closed.SetGroup(group, false));
    m2 := m1.(grippers := m.grippers.SetGroup(group, X));
    m3 := m2.(closed := m.closed);
    assert Parallel(m.grippers).Get(Side.Left) == m.grippers.left.IsFrameParallel();
    assert Parallel(m.grippers).Get(Side.Right) == m.grippers.right.IsFrameParallel();
    assert Parallel(m.grippers).Get(Top) == m.grippers.top.IsFrameParallel();
    assert Parallel(m.grippers).Get(Bottom) == m.grippers.bottom.IsFrameParallel();
  }

  /** Dirty grippers all on one axis cannot collide. */
  lemma {:induction false} SettledIsClear(m: Machine, dirty: Four<bool>, frame: Frame, cube: Cube)
    requires Settled(m, dirty, frame, cube)
    ensures ClearAt(m)
    ensures forall side: Side :: Parallel(m.grippers).Get(side) == dirty.Get(side)
    ensures forall a: Side, b: Side :: GroupOf(a) != GroupOf(b) && dirty.Get(a) ==> !dirty.Get(b)
  {
  }

  lemma {:induction false} FlushOneReaches(start: Machine, plan: Plan, m: Machine, cube: Cube, side: Side) returns (r: Machine)
    requires Good(start, plan, m, cube) && plan.dirty.Get(side)
    ensures Good(start, FlushGrippers(plan, [side]), r, cube)
    ensures FlushGrippers(plan, [side]).dirty == plan.dirty.Set(side, false)
    ensures FlushGrippers(plan, [side]).frame == plan.frame
  {
    SettledIsClear(m, plan.dirty, plan.frame, cube);
    CleanedSingle(plan.dirty, side);
    var m1, m2, m3 := FlushSingle(m, side);
    Extend3(start, plan.steps, m, SetRails(Single(side), FarOpen), SetGrippers([Pose(side, X)]),
            SetRails(Single(side), NearGrip), m1, m2, m3);
    r := m3;
  }

  lemma {:induction false} FlushGroupReaches(start: Machine, plan: Plan, m: Machine, cube: Cube, group: AxisGroup) returns (r: Machine)
    requires Good(start, plan, m, cube)
    ensures Good(start, FlushGroup(plan, group), r, cube)
    ensures FlushGroup(plan, group).dirty == plan.dirty.SetGroup(group, false)
    ensures FlushGroup(plan, group).frame == plan.frame
  {
    var sides := GroupSides(group);
    var dirty := DirtyGrippers(plan.dirty, group);
    if dirty == [] {
      r := m;
    } else if |dirty| == 2 {
      assert dirty == [sides[0], sides[1]];
      SettledIsClear(m, plan.dirty, plan.frame, cube);
      CleanedDouble(plan.dirty, sides[0], sides[1]);
      var poses := [Pose(sides[0], X), Pose(sides[1], X)];
      var m1, m2, m3 := FlushDouble(m, group, poses);
      Extend3(start, plan.steps, m, SetRails(Pair(group), FarOpen), SetGrippers(poses),
              SetRails(Pair(group), NearGrip), m1, m2, m3);
      r := m3;
    } else {
      assert dirty == [dirty[0]];
      r := FlushOneReaches(start, plan, m, cube, dirty[0]);
    }
  }

  /** One gripper on a settled machine turns exactly its own layer. */
  lemma {:induction false} TurnExec(m: Machine, side: Side, orientation: GripperOrientation) returns (r: Machine)
    requires m.closed == AllSides(true) && ClearAt(m)
    requires forall other: Side :: GroupOf(other) != GroupOf(side) ==> !Parallel(m.grippers).Get(other)
    ensures SafeStep(m, SetGrippers([Pose(side, orientation)]))
    ensures r == Machine(m.closed, m.grippers.Set(side, orientation),
                         SpinLayer(m.cube, SideFace(side), m.grippers.Get(side).Index() - orientation.Index()))
    ensures Exec(m, SetGrippers([Pose(side, orientation)])) == Some(r)
  {
    OnePose(m.grippers, Pose(side, orientation));
    SpinLayerZero(m.cube, SideFace(side));
    r := Machine(m.closed, m.grippers.Set(side, orientation),
                 SpinLayer(m.cube, SideFace(side), m.grippers.Get(side).Index() - orientation.Index()));
    assert Parallel(m.grippers).Get(Side.Left) == m.grippers.left.IsFrameParallel();
    assert Parallel(m.grippers).Get(Side.Right) == m.grippers.right.IsFrameParallel();
    assert Parallel(m.grippers).Get(Top) == m.grippers.top.IsFrameParallel();
    assert Parallel(m.grippers).Get(Bottom) == m.grippers.bottom.IsFrameParallel();
  }

  lemma {:induction false} SpinLayerZero(cube: Cube, face: LogicalFace)
    ensures SpinLayer(cube, face, 0) == cube
  {
  }

  /** A gripper away from the cube repositions without touching it. */
  lemma {:induction false} RegripParallel(m: Machine, side: Side) returns (m1: Machine, m2: Machine, m3: Machine)
    requires m.closed == AllSides(true) && ClearAt(m)
    requires forall other: Side :: GroupOf(other) != GroupOf(side) ==> !Parallel(m.grippers).Get(other)
    ensures m3 == m.(grippers := m.grippers.Set(side, P))
    ensures SafeStep(m, SetRails(Single(side), FarOpen)) && Exec(m, SetRails(Single(side), FarOpen)) == Some(m1)
    ensures SafeStep(m1, SetGrippers([Pose(side, P)])) && Exec(m1, SetGrippers([Pose(side, P)])) == Some(m2)
    ensures SafeStep(m2, SetRails(Single(side), NearGrip)) && Exec(m2, SetRails(Single(side), NearGrip)) == Some(m3)
    ensures ClearAt(m3)
  {
    OnePose(m.grippers, Pose(side, P));
    m1 := m.(closed := m.closed.Set(side, false));
    m2 := m1.(grippers := m.grippers.Set(side, P));
    m3 := m2.(closed := m.closed);
    assert Parallel(m.grippers).Get(Side.Left) == m.grippers.left.IsFrameParallel();
    assert Parallel(m.grippers).Get(Side.Right) == m.grippers.right.IsFrameParallel();
    assert Parallel(m.grippers).Get(Top) == m.grippers.top.IsFrameParallel();
    assert Parallel(m.grippers).Get(Bottom) == m.grippers.bottom.IsFrameParallel();
  }

  /** A move's layer, seen in the plan's frame, is the one its gripper holds. */
  lemma {:induction false} SpinInFrame(frame: Frame, cube: Cube, move: CubeMove)
    requires frame == NeededFrame(frame, move.face)
    ensures SpinLayer(InFrame(frame, cube), SideFace(DirectSide(move.face)), Turns(move.turn))
         == InFrame(frame, ApplyMove(cube, move))
  {
    if frame == RotatedFb {
      SpinThroughYaw(cube, move.face, Turns(move.turn));
    }
  }

  lemma {:induction false} SettledAfterTurn(m: Machine, dirty: Four<bool>, frame: Frame, cube: Cube, side: Side,
                         orientation: GripperOrientation, after: Cube, turned: Cube)
    requires Settled(m, dirty, frame, cube)
    requires forall other: Side :: GroupOf(other) != GroupOf(side) ==> !dirty.Get(other)
    requires orientation.IsFrameParallel() && turned == InFrame(frame, after)
    ensures Settled(Machine(m.closed, m.grippers.Set(side, orientation), turned), dirty.Set(side, true), frame, after)
  {
    assert !dirty.Get(Side.Left) || GroupOf(side) == LeftRight;
    assert !dirty.Get(Side.Right) || GroupOf(side) == LeftRight;
    assert !dirty.Get(Top) || GroupOf(side) == TopBottom;
    assert !dirty.Get(Bottom) || GroupOf(side) == TopBottom;
  }

  lemma {:induction false} CleanIsPerpendicular(m: Machine, dirty: Four<bool>, frame: Frame, cube: Cube, side: Side)
    requires Settled(m, dirty, frame, cube) && !dirty.Get(side)
    ensures m.grippers.Get(side) == X
  {
  }

  /** The steps of one turn, on a machine where nothing is in the way. */
  lemma {:induction false} TurnStepsReach(start: Machine, steps: seq<Step>, m: Machine, side: Side, turn: MoveTurn) returns (r: Machine)
    requires Reaches(start, steps, m)
    requires m.closed == AllSides(true) && ClearAt(m) && m.grippers.Get(side) == X
    requires forall other: Side :: GroupOf(other) != GroupOf(side) ==> !Parallel(m.grippers).Get(other)
    ensures r == Machine(m.closed, m.grippers.Set(side, if turn == CounterClockwise then P else R),
                         SpinLayer(m.cube, SideFace(side), Turns(turn)))
    ensures Reaches(start, steps + TurnSteps(side, turn), r)
  {
    hide Exec, SafeStep, Reaches, Parallel, SpinLayer;
    var orientation := if turn == CounterClockwise then P else R;
    var last := SetGrippers([Pose(side, orientation)]);
    if turn == Half {
      var m1, m2, m3 := RegripParallel(m, side);
      var s1, s2, s3 := SetRails(Single(side), FarOpen), SetGrippers([Pose(side, P)]), SetRails(Single(side), NearGrip);
      Extend3(start, steps, m, s1, s2, s3, m1, m2, m3);
      OtherSidesKept(m, m3, side);
      r := TurnExec(m3, side, R);
      SpinLayerMod(m.cube, SideFace(side), -2, 2);
      SetTwice(m.grippers, side, P, R);
      Extend(start, steps + [s1, s2, s3], m3, last);
      assert steps + TurnSteps(side, turn) == steps + [s1, s2, s3] + [last];
    } else {
      r := TurnExec(m, side, orientation);
      Extend(start, steps, m, last);
    }
  }

  lemma {:induction false} OtherSidesKept(m: Machine, m': Machine, side: Side)
    requires m'.grippers == m.grippers.Set(side, P)
    requires forall other: Side :: GroupOf(other) != GroupOf(side) ==> !Parallel(m.grippers).Get(other)
    ensures forall other: Side :: GroupOf(other) != GroupOf(side) ==> !Parallel(m'.grippers).Get(other)
    ensures m'.grippers.Get(side) == P
  {
  }

  lemma {:induction false} TurnReaches(start: Machine, plan: Plan, m: Machine, cube: Cube, move: CubeMove, side: Side) returns (r: Machine)
    requires Good(start, plan, m, cube)
    requires plan.frame == NeededFrame(plan.frame, move.face) && side == DirectSide(move.face)
    requires forall other: Side :: GroupOf(other) != GroupOf(side) ==> !plan.dirty.Get(other)
    requires !plan.dirty.Get(side)
    ensures Good(start, Append(plan, TurnSteps(side, move.turn)).(dirty := plan.dirty.Set(side, true)), r,
                 ApplyMove(cube, move))
  {
    SettledIsClear(m, plan.dirty, plan.frame, cube);
    CleanIsPerpendicular(m, plan.dirty, plan.frame, cube, side);
    SpinInFrame(plan.frame, cube, move);
    r := TurnStepsReach(start, plan.steps, m, side, move.turn);
    SettledAfterTurn(m, plan.dirty, plan.frame, cube, side, if move.turn == CounterClockwise then P else R,
                     ApplyMove(cube, move), r.cube);
  }

  lemma {:induction false} SetTwice(g: Four<GripperOrientation>, side: Side, a: GripperOrientation, b: GripperOrientation)
    ensures g.Set(side, a).Set(side, b) == g.Set(side, b)
  {
  }

  lemma {:induction false} LazyTurnReaches(start: Machine, plan: Plan, m: Machine, cube: Cube, move: CubeMove) returns (r: Machine)
    requires Good(start, plan, m, cube)
    requires plan.frame == NeededFrame(plan.frame, move.face)
    requires forall other: Side :: GroupOf(other) != GroupOf(DirectSide(move.face)) ==> !plan.dirty.Get(other)
    ensures Good(start, LazyDirectTurn(plan, DirectSide(move.face), move.turn), r, ApplyMove(cube, move))
  {
    var side := DirectSide(move.face);
    var clean, mc := plan, m;
    if plan.dirty.Get(side) {
      clean := FlushGrippers(plan, [side]);
      mc := FlushOneReaches(start, plan, m, cube, side);
    }
    r := TurnReaches(start, clean, mc, cube, move, side);
  }

  function YawOf(frame: Frame): int {
    if frame == RotatedFb then 1 else -1
  }

  function TopPose(frame: Frame): GripperOrientation {
    if frame == RotatedFb then P else R
  }

  function BottomPose(frame: Frame): GripperOrientation {
    if frame == RotatedFb then R else P
  }

  /** With the left/right rails away, the top and bottom grippers turn the whole cube. */
  lemma {:induction false} YawTurn(m: Machine, frame: Frame) returns (r: Machine)
    requires m.closed == AllSides(true).SetGroup(LeftRight, false) && m.grippers == AllSides(X)
    ensures r == Machine(m.closed, Four(X, X, TopPose(frame), BottomPose(frame)), RotateCube(m.cube, Up, YawOf(frame)))
    ensures var step := SetGrippers([Pose(Top, TopPose(frame)), Pose(Bottom, BottomPose(frame))]);
            SafeStep(m, step) && Exec(m, step) == Some(r)
  {
    TwoPoses(m.grippers, Pose(Top, TopPose(frame)), Pose(Bottom, BottomPose(frame)));
    r := Machine(m.closed, Four(X, X, TopPose(frame), BottomPose(frame)), RotateCube(m.cube, Up, YawOf(frame)));
  }

  /** The second half of a reorientation regrips the top and bottom grippers. */
  lemma {:induction false} RegripReaches(start: Machine, steps: seq<Step>, m: Machine, frame: Frame) returns (r: Machine)
    requires Reaches(start, steps, m)
    requires m.closed == AllSides(true) && m.grippers == Four(X, X, TopPose(frame), BottomPose(frame))
    ensures r == CanonicalGrip(m.cube)
    ensures Reaches(start, steps + [SetRails(Pair(TopBottom), FarOpen), SetGrippers([Pose(Top, X), Pose(Bottom, X)]),
                                    SetRails(Pair(TopBottom), NearGrip)], r)
  {
    var poses := [Pose(Top, X), Pose(Bottom, X)];
    var m1, m2, m3 := FlushDouble(m, TopBottom, poses);
    Extend3(start, steps, m, SetRails(Pair(TopBottom), FarOpen), SetGrippers(poses),
            SetRails(Pair(TopBottom), NearGrip), m1, m2, m3);
    r := m3;
  }

  lemma {:induction false} ReorientCleanReaches(start: Machine, steps: seq<Step>, cube: Cube, frame: Frame) returns (r: Machine)
    requires Reaches(start, steps, CanonicalGrip(cube))
    ensures r == CanonicalGrip(RotateCube(cube, Up, YawOf(frame)))
    ensures Reaches(start, steps + ReorientSteps(TopPose(frame), BottomPose(frame)), r)
  {
    var m := CanonicalGrip(cube);
    var s1, s3 := SetRails(Pair(LeftRight), FarOpen), SetRails(Pair(LeftRight), NearGrip);
    var s2 := SetGrippers([Pose(Top, TopPose(frame)), Pose(Bottom, BottomPose(frame))]);
    var m1 := m.(closed := AllSides(true).SetGroup(LeftRight, false));
    var m2 := YawTurn(m1, frame);
    var m3 := m2.(closed := AllSides(true));
    Extend3(start, steps, m, s1, s2, s3, m1, m2, m3);
    r := RegripReaches(start, steps + [s1, s2, s3], m3, frame);
    assert ReorientSteps(TopPose(frame), BottomPose(frame)) ==
           [s1, s2, s3] + [SetRails(Pair(TopBottom), FarOpen), SetGrippers([Pose(Top, X), Pose(Bottom, X)]),
                           SetRails(Pair(TopBottom), NearGrip)];
    assert steps + ReorientSteps(TopPose(frame), BottomPose(frame)) ==
           steps + [s1, s2, s3] + [SetRails(Pair(TopBottom), FarOpen), SetGrippers([Pose(Top, X), Pose(Bottom, X)]),
                                   SetRails(Pair(TopBottom), NearGrip)];
  }

  /** Dirty left/right grippers straighten while their rails are away. */
  lemma {:induction false} StraightenLeftRight(m: Machine, dirty: Four<bool>, grippers: seq<Side>) returns (r: Machine)
    requires m.closed == AllSides(true).SetGroup(LeftRight, false) && Parallel(m.grippers) == dirty
    requires !dirty.top && !dirty.bottom && grippers == DirtyGrippers(dirty, LeftRight) && grippers != []
    ensures r == m.(grippers := AllSides(X))
    ensures SafeStep(m, SetGrippers(Perpendicular(grippers))) && Exec(m, SetGrippers(Perpendicular(grippers))) == Some(r)
    ensures Cleaned(dirty, grippers) == AllSides(false)
  {
    r := m.(grippers := AllSides(X));
    if |grippers| == 1 {
      assert grippers == [grippers[0]];
      CleanedSingle(dirty, grippers[0]);
      OnePose(m.grippers, Pose(grippers[0], X));
    } else {
      assert grippers == [Side.Left, Side.Right];
      CleanedDouble(dirty, Side.Left, Side.Right);
      TwoPoses(m.grippers, Pose(Side.Left, X), Pose(Side.Right, X));
    }
  }

  lemma {:induction false} ReorientFusedReaches(start: Machine, steps: seq<Step>, m: Machine, dirty: Four<bool>, grippers: seq<Side>,
                             frame: Frame) returns (r: Machine)
    requires Reaches(start, steps, m)
    requires m.closed == AllSides(true) && Parallel(m.grippers) == dirty && !dirty.top && !dirty.bottom
    requires grippers == DirtyGrippers(dirty, LeftRight) && grippers != []
    ensures r == CanonicalGrip(RotateCube(m.cube, Up, YawOf(frame)))
    ensures Reaches(start, steps + FusedSteps(grippers, TopPose(frame), BottomPose(frame)), r)
    ensures Cleaned(dirty, grippers) == AllSides(false)
  {
    hide Run, SafeRun, Reaches, RotateCube;
    var s0, s1 := SetRails(Pair(LeftRight), FarOpen), SetGrippers(Perpendicular(grippers));
    var s2 := SetGrippers([Pose(Top, TopPose(frame)), Pose(Bottom, BottomPose(frame))]);
    var s3 := SetRails(Pair(LeftRight), NearGrip);
    var m0 := m.(closed := AllSides(true).SetGroup(LeftRight, false));
    var m1 := StraightenLeftRight(m0, dirty, grippers);
    var m2 := YawTurn(m1, frame);
    var m3 := m2.(closed := AllSides(true));
    Extend(start, steps, m, s0);
    Extend3(start, steps + [s0], m0, s1, s2, s3, m1, m2, m3);
    r := RegripReaches(start, steps + [s0] + [s1, s2, s3], m3, frame);
    assert steps + FusedSteps(grippers, TopPose(frame), BottomPose(frame)) ==
           steps + [s0] + [s1, s2, s3]
           + [SetRails(Pair(TopBottom), FarOpen), SetGrippers([Pose(Top, X), Pose(Bottom, X)]),
              SetRails(Pair(TopBottom), NearGrip)];
  }

  lemma {:induction false} ReorientReaches(start: Machine, plan: Plan, m: Machine, cube: Cube, frame: Frame) returns (r: Machine)
    requires Good(start, plan, m, cube) && plan.frame != frame && !plan.dirty.top && !plan.dirty.bottom
    ensures Good(start, Reorient(plan, frame), r, cube)
    ensures Reorient(plan, frame).dirty == AllSides(false) && Reorient(plan, frame).frame == frame
  {
    var grippers := DirtyGrippers(plan.dirty, LeftRight);
    if frame == Canonical {
      RotateCubeAdds(cube, Up, 1, -1);
      RotateCubeZero(cube, Up);
    }
    if grippers == [] {
      assert Side.Left !in grippers && Side.Right !in grippers;
      assert m == CanonicalGrip(m.cube);
      r := ReorientCleanReaches(start, plan.steps, m.cube, frame);
    } else {
      r := ReorientFusedReaches(start, plan.steps, m, plan.dirty, grippers, frame);
    }
  }

  lemma {:induction false} EnterFrameReaches(start: Machine, plan: Plan, m: Machine, cube: Cube, face: LogicalFace) returns (r: Machine)
    requires Good(start, plan, m, cube)
    ensures Good(start, EnterFrame(plan, face), r, cube)
    ensures EnterFrame(plan, face).frame == NeededFrame(plan.frame, face)
  {
    var needed := NeededFrame(plan.frame, face);
    if needed == plan.frame {
      r := m;
    } else {
      var flushed := FlushGroupReaches(start, plan, m, cube, TopBottom);
      r := ReorientReaches(start, FlushGroup(plan, TopBottom), flushed, cube, needed);
    }
  }

  lemma {:induction false} PlanMoveReaches(start: Machine, plan: Plan, m: Machine, cube: Cube, move: CubeMove) returns (r: Machine)
    requires Good(start, plan, m, cube)
    ensures Good(start, PlanMove(plan, move), r, ApplyMove(cube, move))
  {
    var side := DirectSide(move.face);
    var entered := EnterFrame(plan, move.face);
    var m1 := EnterFrameReaches(start, plan, m, cube, move.face);
    var ready := FlushGroup(entered, Other(GroupOf(side)));
    var m2 := FlushGroupReaches(start, entered, m1, cube, Other(GroupOf(side)));
    CrossingIsClean(entered.dirty, side);
    r := LazyTurnReaches(start, ready, m2, cube, move);
    MarkReaches(start, LazyDirectTurn(ready, side, move.turn), r, ApplyMove(cube, move));
  }

  lemma {:induction false} CrossingIsClean(dirty: Four<bool>, side: Side)
    ensures forall other: Side :: GroupOf(other) != GroupOf(side) ==>
              !dirty.SetGroup(Other(GroupOf(side)), false).Get(other)
  {
  }

  lemma {:induction false} MarkReaches(start: Machine, plan: Plan, m: Machine, cube: Cube)
    requires Good(start, plan, m, cube)
    ensures Good(start, Append(plan, [MoveCompleted]), m, cube)
  {
    SettledIsClear(m, plan.dirty, plan.frame, cube);
    Extend(start, plan.steps, m, MoveCompleted);
  }

  lemma {:induction false} PlanMovesReach(start: Machine, moves: seq<CubeMove>, cube: Cube) returns (r: Machine)
    requires start == CanonicalGrip(cube)
    ensures Good(start, PlanMoves(EMPTY_PLAN, moves), r, ApplyMoves(cube, moves))
  {
    if moves == [] {
      r := start;
    } else {
      var k := |moves| - 1;
      var before := PlanMovesReach(start, moves[..k], cube);
      r := PlanMoveReaches(start, PlanMoves(EMPTY_PLAN, moves[..k]), before, ApplyMoves(cube, moves[..k]), moves[k]);
    }
  }

  /** The optimised held plan, for every move list: safe at every step, ends in canonical
      grip with no net rotation, and leaves the cube exactly as the moves in order do. */
  lemma {:induction false} OptimizedHeldMeaning(moves: seq<CubeMove>, cube: Cube)
    ensures SafeRun(CanonicalGrip(cube), OptimizedHeldSteps(moves))
    ensures Run(CanonicalGrip(cube), OptimizedHeldSteps(moves)) == Some(CanonicalGrip(ApplyMoves(cube, moves)))
  {
    var start, after := CanonicalGrip(cube), ApplyMoves(cube, moves);
    var plan := PlanMoves(EMPTY_PLAN, moves);
    var m := PlanMovesReach(start, moves, cube);
    if plan.frame == RotatedFb {
      m := FlushGroupReaches(start, plan, m, after, TopBottom);
      m := ReorientReaches(start, FlushGroup(plan, TopBottom), m, after, Canonical);
      plan := Reorient(FlushGroup(plan, TopBottom), Canonical);
    }
    m := FlushGroupReaches(start, plan, m, after, LeftRight);
    m := FlushGroupReaches(start, FlushGroup(plan, LeftRight), m, after, TopBottom);
    assert m == CanonicalGrip(after);
  }

  lemma {:induction false} BaselineTurnReaches(start: Machine, plan: Plan, m: Machine, cube: Cube, move: CubeMove) returns (r: Machine)
    requires Reaches(start, plan.steps, m) && plan.dirty == AllSides(false)
    requires m == CanonicalGrip(InFrame(plan.frame, cube)) && plan.frame == NeededFrame(plan.frame, move.face)
    ensures r == CanonicalGrip(InFrame(plan.frame, ApplyMove(cube, move)))
    ensures Reaches(start, BaselineTurn(plan, DirectSide(move.face), move.turn).steps, r)
    ensures BaselineTurn(plan, DirectSide(move.face), move.turn).dirty == AllSides(false)
  {
    var side := DirectSide(move.face);
    var turned := Append(plan, TurnSteps(side, move.turn));
    var dirtied := turned.(dirty := AllSides(false).Set(side, true));
    var m1 := TurnReaches(start, plan, m, cube, move, side);
    r := FlushOneReaches(start, dirtied, m1, ApplyMove(cube, move), side);
    CleanedSingle(turned.dirty, side);
    assert BaselineTurn(plan, side, move.turn).steps == FlushGrippers(dirtied, [side]).steps;
  }

  lemma {:induction false} BaselineMoveReaches(start: Machine, plan: Plan, m: Machine, cube: Cube, move: CubeMove) returns (r: Machine)
    requires Reaches(start, plan.steps, m) && plan.dirty == AllSides(false) && plan.frame == Canonical
    requires m == CanonicalGrip(cube)
    ensures r == CanonicalGrip(ApplyMove(cube, move))
    ensures Reaches(start, BaselineMove(plan, move).steps, r)
    ensures BaselineMove(plan, move).dirty == AllSides(false) && BaselineMove(plan, move).frame == Canonical
  {
    hide Run, SafeRun, Reaches, RotateCube, SpinLayer, TurnSteps, ReorientSteps;
    var turned: Plan;
    if move.face in {Front, Back} {
      var entered := Append(plan, ReorientSteps(P, R));
      var m1 := ReorientCleanReaches(start, plan.steps, cube, RotatedFb);
      var m2 := BaselineTurnReaches(start, entered.(frame := RotatedFb), m1, cube, move);
      var mid := BaselineTurn(entered, DirectSide(move.face), move.turn);
      assert mid.steps == BaselineTurn(entered.(frame := RotatedFb), DirectSide(move.face), move.turn).steps;
      r := ReorientCleanReaches(start, mid.steps, m2.cube, Canonical);
      RotateCubeAdds(ApplyMove(cube, move), Up, 1, -1);
      RotateCubeZero(ApplyMove(cube, move), Up);
      turned := Append(mid, ReorientSteps(R, P));
    } else {
      r := BaselineTurnReaches(start, plan, m, cube, move);
      turned := BaselineTurn(plan, DirectSide(move.face), move.turn);
    }
    Extend(start, turned.steps, r, MoveCompleted);
  }

  lemma {:induction false} BaselineReaches(start: Machine, moves: seq<CubeMove>, cube: Cube)
    requires start == CanonicalGrip(cube)
    ensures Reaches(start, BaselineHeldSteps(moves), CanonicalGrip(ApplyMoves(cube, moves)))
    ensures BaselinePlan(moves).dirty == AllSides(false) && BaselinePlan(moves).frame == Canonical
  {
    if moves != [] {
      var k := |moves| - 1;
      BaselineReaches(start, moves[..k], cube);
      var r := BaselineMoveReaches(start, BaselinePlan(moves[..k]), CanonicalGrip(ApplyMoves(cube, moves[..k])),
                                   ApplyMoves(cube, moves[..k]), moves[k]);
    }
  }

  /** Optimising preserves meaning: both plans are safe and end in the same machine. */
  lemma {:induction false} OptimizedEquivalentToBaseline(moves: seq<CubeMove>, cube: Cube)
    ensures Run(CanonicalGrip(cube), OptimizedHeldSteps(moves)) == Run(CanonicalGrip(cube), BaselineHeldSteps(moves))
    ensures Run(CanonicalGrip(cube), BaselineHeldSteps(moves)) == Some(CanonicalGrip(ApplyMoves(cube, moves)))
    ensures SafeRun(CanonicalGrip(cube), BaselineHeldSteps(moves))
  {
    OptimizedHeldMeaning(moves, cube);
    BaselineReaches(CanonicalGrip(cube), moves, cube);
  }
}

/** Custody and clearance at every prefix of a plan, the orderly release, and what a
    completed-move marker guarantees about the cube. */
module PlanSafety {
  import opened Geometry
  import opened Stand
  import opened Mechanics
  import opened Options
  import opened MovePlanner
  import opened PlanMeaning

  lemma {:induction false} SafeRunPrefix(m: Machine, steps: seq<Step>, k: nat)
    requires SafeRun(m, steps) && k <= |steps|
    ensures SafeRun(m, steps[..k])
    ensures k < |steps| ==> Run(m, steps[..k]).Some? && SafeStep(Run(m, steps[..k]).value, steps[k])
    decreases |steps|
  {
    if k < |steps| {
      var n := |steps| - 1;
      if k == n {
        return;
      }
      SafeRunPrefix(m, steps[..n], k);
      assert steps[..n][..k] == steps[..k];
    } else {
      assert steps[..k] == steps;
    }
  }

  /** After `k` steps, and while the next one is in motion, the cube is held and no grippers
      collide; and the next step does not switch everything off. */
  ghost predicate SafeAt(start: Machine, steps: seq<Step>, k: nat)
    requires k <= |steps|
  {
    var m := Run(start, steps[..k]);
    && m.Some? && Held(m.value.closed) && ClearAt(m.value)
    && (k < |steps| ==> HeldDuring(m.value, steps[k]) && ClearDuring(m.value, steps[k]) && steps[k] != AllOff)
  }

  /** Every held plan is safe at every prefix, for every move list. */
  lemma {:induction false} HeldPlanSafeAtEveryPrefix(moves: seq<CubeMove>, cube: Cube, k: nat)
    requires k <= |OptimizedHeldSteps(moves)|
    ensures SafeAt(CanonicalGrip(cube), OptimizedHeldSteps(moves), k)
  {
    hide OptimizedPlan;
    var steps := OptimizedHeldSteps(moves);
    OptimizedHeldMeaning(moves, cube);
    SafeRunPrefix(CanonicalGrip(cube), steps, k);
    if k == |steps| {
      assert steps[..k] == steps;
    }
  }

  /** The machine with only the left/right rails away, and with every rail away. */
  function LeftRightOpen(m: Machine): Machine {
    m.(closed := AllSides(true).SetGroup(LeftRight, false))
  }

  function AllOpen(m: Machine): Machine {
    m.(closed := AllSides(false))
  }

  /** Opening both pairs from any settled machine: the cube is held until the second
      pair starts to open, and nothing collides on the way. */
  lemma {:induction false} OpenSteps(m: Machine, dirty: Four<bool>, frame: Frame, cube: Cube)
    requires Settled(m, dirty, frame, cube)
    ensures SafeStep(m, OPEN_STEPS[0]) && Exec(m, OPEN_STEPS[0]) == Some(LeftRightOpen(m))
    ensures Held(LeftRightOpen(m).closed) && ClearAt(LeftRightOpen(m)) && ClearDuring(LeftRightOpen(m), OPEN_STEPS[1])
    ensures Exec(LeftRightOpen(m), OPEN_STEPS[1]) == Some(AllOpen(m))
    ensures ClearAt(AllOpen(m)) && ClearDuring(AllOpen(m), OPEN_STEPS[2])
    ensures Exec(AllOpen(m), OPEN_STEPS[2]) == Some(AllOpen(m))
  {
  }

  lemma {:induction false} ReleasedStates(m: Machine, dirty: Four<bool>, frame: Frame, cube: Cube)
    requires Settled(m, dirty, frame, cube)
    ensures Held(m.closed) && ClearAt(m) && HeldDuring(m, OPEN_STEPS[0]) && ClearDuring(m, OPEN_STEPS[0])
    ensures Held(LeftRightOpen(m).closed) && ClearAt(LeftRightOpen(m)) && ClearDuring(LeftRightOpen(m), OPEN_STEPS[1])
    ensures ClearAt(AllOpen(m)) && ClearDuring(AllOpen(m), OPEN_STEPS[2])
  {
    OpenSteps(m, dirty, frame, cube);
  }

  /** The machine after each of the release steps. */
  lemma {:induction false} ReleaseRuns(start: Machine, steps: seq<Step>, held: Machine, dirty: Four<bool>, frame: Frame, cube: Cube)
    requires Run(start, steps) == Some(held) && Settled(held, dirty, frame, cube)
    ensures Run(start, steps + OPEN_STEPS[..1]) == Some(LeftRightOpen(held))
    ensures Run(start, steps + OPEN_STEPS[..2]) == Some(AllOpen(held))
    ensures Run(start, steps + OPEN_STEPS) == Some(AllOpen(held))
  {
    OpenSteps(held, dirty, frame, cube);
    RunLast(start, steps, OPEN_STEPS[0]);
    RunLast(start, steps + OPEN_STEPS[..1], OPEN_STEPS[1]);
    RunLast(start, steps + OPEN_STEPS[..2], OPEN_STEPS[2]);
    assert steps + [OPEN_STEPS[0]] == steps + OPEN_STEPS[..1];
    assert steps + OPEN_STEPS[..1] + [OPEN_STEPS[1]] == steps + OPEN_STEPS[..2];
    assert steps + OPEN_STEPS[..2] + [OPEN_STEPS[2]] == steps + OPEN_STEPS;
  }

  lemma {:induction false} RunLast(m: Machine, steps: seq<Step>, step: Step)
    ensures Run(m, steps + [step]) == if Run(m, steps).None? then None else Exec(Run(m, steps).value, step)
  {
    assert (steps + [step])[..|steps + [step]| - 1] == steps;
  }

  /** The release from any settled machine, step by step. */
  lemma {:induction false} ReleaseAt(start: Machine, steps: seq<Step>, held: Machine, dirty: Four<bool>, frame: Frame,
                                     after: Cube, j: nat)
    requires Run(start, steps) == Some(held) && Settled(held, dirty, frame, after) && j <= 3
    ensures var m := Run(start, steps + OPEN_STEPS[..j]);
            && m.Some? && ClearAt(m.value) && (j < 3 ==> ClearDuring(m.value, OPEN_STEPS[j]))
            && (j < 2 ==> Held(m.value.closed)) && (j == 0 ==> HeldDuring(m.value, OPEN_STEPS[0]))
            && (j == 3 ==> m.value.closed == AllSides(false) && m.value.cube == InFrame(frame, after))
  {
    hide Run, Exec, SafeStep, ClearDuring, HeldDuring, ClearAt, Held;
    ReleasedStates(held, dirty, frame, after);
    ReleaseRuns(start, steps, held, dirty, frame, after);
    assert OPEN_STEPS[..3] == OPEN_STEPS && steps + OPEN_STEPS[..0] == steps;
  }

  /** A run that has come to the release: held, then left/right open, then all open. */
  lemma {:induction false} ReleasePrefix(moves: seq<CubeMove>, cube: Cube, k: nat)
    requires |OptimizedPlan(moves, Release).steps| <= k <= |ExecuteSteps(moves)|
    ensures var n := |ExecuteSteps(moves)| - 3;
            var m := Run(CanonicalGrip(cube), ExecuteSteps(moves)[..k]);
            && m.Some? && ClearAt(m.value) && (k < n + 3 ==> ClearDuring(m.value, OPEN_STEPS[k - n]))
            && (k < n + 2 ==> Held(m.value.closed))
            && (k == n ==> HeldDuring(m.value, OPEN_STEPS[0]))
            && (k == n + 3 ==> m.value.closed == AllSides(false)
                               && m.value.cube == InFrame(OptimizedPlan(moves, Release).frame, ApplyMoves(cube, moves)))
  {
    var start, plan := CanonicalGrip(cube), OptimizedPlan(moves, Release);
    var n := |plan.steps|;
    var held := PlanMovesReach(start, moves, cube);
    ReleaseAt(start, plan.steps, held, plan.dirty, plan.frame, ApplyMoves(cube, moves), k - n);
    assert ExecuteSteps(moves)[..k] == plan.steps + OPEN_STEPS[..k - n];
  }

  /** The plan the service executes: custody until the final release, no collision at any
      prefix or during any step, and at the end all rails open with the cube as the moves
      left it, up to the rotation of the frame the last move was done in. */
  lemma {:induction false} ExecutePlanSafe(moves: seq<CubeMove>, cube: Cube, k: nat)
    requires k <= |ExecuteSteps(moves)|
    ensures var steps := ExecuteSteps(moves);
            var m := Run(CanonicalGrip(cube), steps[..k]);
            && m.Some? && ClearAt(m.value)
            && (k < |steps| ==> ClearDuring(m.value, steps[k]))
            && (k < |steps| - 1 ==> Held(m.value.closed))
            && (k < |steps| - 2 ==> HeldDuring(m.value, steps[k]) && steps[k] != AllOff)
            && (k == |steps| ==> m.value.closed == AllSides(false)
                                 && m.value.cube == InFrame(OptimizedPlan(moves, Release).frame, ApplyMoves(cube, moves)))
  {
    var start, plan, steps := CanonicalGrip(cube), OptimizedPlan(moves, Release), ExecuteSteps(moves);
    var n := |plan.steps|;
    if k < n {
      var held := PlanMovesReach(start, moves, cube);
      assert steps[..k] == plan.steps[..k] && steps[k] == plan.steps[k];
      SafeRunPrefix(start, plan.steps, k);
    } else {
      ReleasePrefix(moves, cube, k);
    }
  }

  lemma {:induction false} LastMoveDirties(plan: Plan, move: CubeMove)
    ensures PlanMove(plan, move).dirty.Get(DirectSide(move.face))
  {
    hide EnterFrame, FlushGroup, FlushGrippers, TurnSteps;
  }

  /** The published pose `Open` does not promise perpendicular grippers: the release skips the
      last flush, so an executed plan leaves them perpendicular exactly when it made no
      move. */
  lemma {:induction false} ReleasedGrippers(moves: seq<CubeMove>, cube: Cube)
    ensures var m := Run(CanonicalGrip(cube), ExecuteSteps(moves));
            m.Some? && (m.value.grippers == AllSides(X) <==> moves == [])
  {
    hide PlanMove, Run, SafeRun;
    var start, plan := CanonicalGrip(cube), OptimizedPlan(moves, Release);
    var held := PlanMovesReach(start, moves, cube);
    ReleaseRuns(start, plan.steps, held, plan.dirty, plan.frame, ApplyMoves(cube, moves));
    if moves == [] {
      assert plan == EMPTY_PLAN;
      PerpendicularWhenClean(held.grippers);
    } else {
      var n := |moves| - 1;
      LastMoveDirties(PlanMoves(EMPTY_PLAN, moves[..n]), moves[n]);
      assert Parallel(held.grippers).Get(DirectSide(moves[n].face));
      assert held.grippers != AllSides(X);
    }
  }

  lemma {:induction false} PerpendicularWhenClean(g: Four<GripperOrientation>)
    requires Parallel(g) == AllSides(false)
    ensures g == AllSides(X)
  {
  }

  function Markers(steps: seq<Step>): nat {
    if steps == [] then 0
    else Markers(steps[..|steps| - 1]) + if steps[|steps| - 1] == MoveCompleted then 1 else 0
  }

  lemma {:induction false} MarkersAdd(a: seq<Step>, b: seq<Step>)
    ensures Markers(a + b) == Markers(a) + Markers(b)
    decreases |b|
  {
    if b == [] {
      assert a + b == a;
    } else {
      assert (a + b)[..|a + b| - 1] == a + b[..|b| - 1];
      MarkersAdd(a, b[..|b| - 1]);
    }
  }

  predicate Unmarked(steps: seq<Step>) {
    forall i :: 0 <= i < |steps| ==> steps[i] != MoveCompleted
  }

  lemma {:induction false} UnmarkedHasNoMarkers(steps: seq<Step>)
    requires Unmarked(steps)
    ensures Markers(steps) == 0
  {
    if steps != [] {
      UnmarkedHasNoMarkers(steps[..|steps| - 1]);
    }
  }

  /** `later` extends `earlier` by mechanical steps only. */
  ghost predicate Grown(earlier: Plan, later: Plan) {
    earlier.steps <= later.steps && Unmarked(later.steps[|earlier.steps|..])
  }

  lemma {:induction false} GrownByAppending(earlier: Plan, later: Plan, steps: seq<Step>)
    requires later.steps == earlier.steps + steps && Unmarked(steps)
    ensures Grown(earlier, later)
  {
  }

  lemma {:induction false} GrownTransitive(a: Plan, b: Plan, c: Plan)
    requires Grown(a, b) && Grown(b, c)
    ensures Grown(a, c)
  {
    assert c.steps[|a.steps|..] == b.steps[|a.steps|..] + c.steps[|b.steps|..];
  }

  lemma {:induction false} FlushGrows(plan: Plan, group: AxisGroup)
    ensures Grown(plan, FlushGroup(plan, group))
  {
  }

  lemma {:induction false} ReorientGrows(plan: Plan, frame: Frame)
    ensures Grown(plan, Reorient(plan, frame))
  {
  }

  lemma {:induction false} EnterFrameGrows(plan: Plan, face: LogicalFace)
    ensures Grown(plan, EnterFrame(plan, face))
  {
    var flushed := FlushGroup(plan, TopBottom);
    FlushGrows(plan, TopBottom);
    ReorientGrows(flushed, NeededFrame(plan.frame, face));
    GrownTransitive(plan, flushed, Reorient(flushed, NeededFrame(plan.frame, face)));
  }

  lemma {:induction false} LazyTurnGrows(plan: Plan, side: Side, turn: MoveTurn)
    ensures Grown(plan, LazyDirectTurn(plan, side, turn))
  {
    var clean := if plan.dirty.Get(side) then FlushGrippers(plan, [side]) else plan;
    GrownByAppending(clean, LazyDirectTurn(plan, side, turn), TurnSteps(side, turn));
    GrownTransitive(plan, clean, LazyDirectTurn(plan, side, turn));
  }

  /** What the planner appends for one move: mechanical steps, then one marker. */
  lemma {:induction false} PlanMoveGrows(plan: Plan, move: CubeMove) returns (body: seq<Step>)
    ensures Unmarked(body)
    ensures PlanMove(plan, move).steps == plan.steps + body + [MoveCompleted]
  {
    hide EnterFrame, FlushGroup, LazyDirectTurn;
    var side := DirectSide(move.face);
    var entered := EnterFrame(plan, move.face);
    var ready := FlushGroup(entered, Other(GroupOf(side)));
    var turned := LazyDirectTurn(ready, side, move.turn);
    EnterFrameGrows(plan, move.face);
    FlushGrows(entered, Other(GroupOf(side)));
    LazyTurnGrows(ready, side, move.turn);
    GrownTransitive(plan, entered, ready);
    GrownTransitive(plan, ready, turned);
    body := turned.steps[|plan.steps|..];
  }

  lemma {:induction false} FinishGrows(plan: Plan)
    ensures Grown(plan, FinishHeld(plan))
  {
    var restored := plan;
    if plan.frame == RotatedFb {
      var flushed := FlushGroup(plan, TopBottom);
      FlushGrows(plan, TopBottom);
      ReorientGrows(flushed, Canonical);
      restored := Reorient(flushed, Canonical);
      GrownTransitive(plan, flushed, restored);
    }
    FlushGrows(restored, LeftRight);
    FlushGrows(FlushGroup(restored, LeftRight), TopBottom);
    GrownTransitive(plan, restored, FlushGroup(restored, LeftRight));
    GrownTransitive(plan, FlushGroup(restored, LeftRight), FinishHeld(plan));
  }

  lemma {:induction false} PlanMoveMarks(plan: Plan, move: CubeMove)
    ensures plan.steps < PlanMove(plan, move).steps
    ensures PlanMove(plan, move).steps[|PlanMove(plan, move).steps| - 1] == MoveCompleted
    ensures Markers(PlanMove(plan, move).steps) == Markers(plan.steps) + 1
  {
    var body := PlanMoveGrows(plan, move);
    UnmarkedHasNoMarkers(body);
    MarkersAdd(plan.steps, body);
    var steps := plan.steps + body + [MoveCompleted];
    assert steps[..|steps| - 1] == plan.steps + body;
  }

  lemma {:induction false} PlanMovesMark(moves: seq<CubeMove>)
    ensures Markers(PlanMoves(EMPTY_PLAN, moves).steps) == |moves|
    ensures moves != [] ==> var steps := PlanMoves(EMPTY_PLAN, moves).steps;
              steps != [] && steps[|steps| - 1] == MoveCompleted
  {
    if moves != [] {
      var n := |moves| - 1;
      PlanMovesMark(moves[..n]);
      PlanMoveMarks(PlanMoves(EMPTY_PLAN, moves[..n]), moves[n]);
    }
  }

  /** The plan for a prefix of the moves is a prefix of the plan. */
  lemma {:induction false} PlanMovesPrefix(moves: seq<CubeMove>, i: nat)
    requires i <= |moves|
    ensures PlanMoves(EMPTY_PLAN, moves[..i]).steps <= PlanMoves(EMPTY_PLAN, moves).steps
    decreases |moves|
  {
    if i == |moves| {
      assert moves[..i] == moves;
    } else {
      var n := |moves| - 1;
      PlanMovesPrefix(moves[..n], i);
      assert moves[..n][..i] == moves[..i];
      PlanMoveMarks(PlanMoves(EMPTY_PLAN, moves[..n]), moves[n]);
    }
  }

  lemma {:induction false} UnmarkedTail(steps: seq<Step>, tail: seq<Step>)
    requires Unmarked(tail)
    ensures Markers(steps + tail) == Markers(steps)
  {
    UnmarkedHasNoMarkers(tail);
    MarkersAdd(steps, tail);
  }

  /** Held plans and execute plans carry one marker per move. */
  lemma {:induction false} MarkersCountMoves(moves: seq<CubeMove>)
    ensures Markers(OptimizedHeldSteps(moves)) == |moves|
    ensures Markers(ExecuteSteps(moves)) == |moves|
    ensures PlanMoves(EMPTY_PLAN, moves).steps <= OptimizedHeldSteps(moves)
    ensures PlanMoves(EMPTY_PLAN, moves).steps <= ExecuteSteps(moves)
  {
    var whole := PlanMoves(EMPTY_PLAN, moves);
    PlanMovesMark(moves);
    FinishGrows(whole);
    GrownKeepsMarkers(whole, FinishHeld(whole));
    OpenStepsUnmarked();
    UnmarkedTail(whole.steps, OPEN_STEPS);
  }

  lemma {:induction false} OpenStepsUnmarked()
    ensures Unmarked(OPEN_STEPS)
  {
  }

  lemma {:induction false} GrownKeepsMarkers(earlier: Plan, later: Plan)
    requires Grown(earlier, later)
    ensures Markers(later.steps) == Markers(earlier.steps)
  {
    var tail := later.steps[|earlier.steps|..];
    UnmarkedTail(earlier.steps, tail);
    assert later.steps == earlier.steps + tail;
  }

  /** Progress markers tell the truth: when a run has passed its `i`-th marker, in a held
      plan or an execute plan, the cube is as the first `i` moves leave it. */
  lemma {:induction false} MarkerMeaning(moves: seq<CubeMove>, cube: Cube, i: nat) returns (passed: seq<Step>, frame: Frame)
    requires 0 < i <= |moves|
    ensures passed <= OptimizedHeldSteps(moves) && passed <= ExecuteSteps(moves)
    ensures Markers(passed) == i && passed != [] && passed[|passed| - 1] == MoveCompleted
    ensures var m := Run(CanonicalGrip(cube), passed);
            m.Some? && m.value.closed == AllSides(true) && m.value.cube == InFrame(frame, ApplyMoves(cube, moves[..i]))
  {
    hide Run, SafeRun, PlanMoves, OptimizedHeldSteps, OptimizedPlan, Markers;
    var part := PlanMoves(EMPTY_PLAN, moves[..i]);
    passed, frame := part.steps, part.frame;
    var m := PlanMovesReach(CanonicalGrip(cube), moves[..i], cube);
    PlanMovesPrefix(moves, i);
    PlanMovesMark(moves[..i]);
    MarkersCountMoves(moves);
  }

  /** One more step of a run. */
  lemma {:induction false} RunAdvances(m: Machine, steps: seq<Step>, k: nat)
    requires k < |steps| && Run(m, steps[..k]).Some?
    ensures Run(m, steps[..k + 1]) == Exec(Run(m, steps[..k]).value, steps[k])
  {
    assert steps[..k + 1] == steps[..k] + [steps[k]];
    RunLast(m, steps[..k], steps[k]);
  }

  /** Releasing a canonically held cube, step by step. */
  lemma {:induction false} OpenPlanSafe(cube: Cube, k: nat)
    requires k <= 3
    ensures var m := Run(CanonicalGrip(cube), OPEN_STEPS[..k]);
            && m.Some? && ClearAt(m.value) && (k < 3 ==> ClearDuring(m.value, OPEN_STEPS[k]))
            && (k < 2 ==> Held(m.value.closed)) && (k == 0 ==> HeldDuring(m.value, OPEN_STEPS[0]))
            && (k == 3 ==> m.value.closed == AllSides(false) && m.value.cube == cube)
  {
    ReleaseAt(CanonicalGrip(cube), [], CanonicalGrip(cube), AllSides(false), Canonical, cube, k);
    assert [] + OPEN_STEPS[..k] == OPEN_STEPS[..k];
  }

  /** The plan of a solution begins with rails, or with the turn of its first move. */
  lemma {:induction false} FirstStepMoves(moves: seq<CubeMove>)
    ensures ExecuteSteps(moves) != []
    ensures var step := ExecuteSteps(moves)[0];
            || step.SetRails?
            || (&& moves != [] && moves[0].turn != Half && NeededFrame(Canonical, moves[0].face) == Canonical
                && step == SetGrippers([Pose(DirectSide(moves[0].face), if moves[0].turn == CounterClockwise then P else R)]))
  {
    if moves == [] {
      assert PlanMoves(EMPTY_PLAN, []) == EMPTY_PLAN;
    } else {
      var one := moves[..1];
      assert one[..0] == [] && one[0] == moves[0];
      assert PlanMoves(EMPTY_PLAN, one) == PlanMove(EMPTY_PLAN, moves[0]);
      PlanMovesPrefix(moves, 1);
      FirstMove(moves[0]);
      hide PlanMoves, PlanMove;
      assert ExecuteSteps(moves)[0] == PlanMove(EMPTY_PLAN, moves[0]).steps[0];
    }
  }

  lemma {:induction false} FirstMove(move: CubeMove)
    ensures var steps := PlanMove(EMPTY_PLAN, move).steps;
            steps != []
            && (|| steps[0].SetRails?
                || (&& move.turn != Half && NeededFrame(Canonical, move.face) == Canonical
                    && steps[0] == SetGrippers([Pose(DirectSide(move.face), if move.turn == CounterClockwise then P else R)])))
  {
  }

  // ---- length ---------------------------------------------------------------------

  lemma {:induction false} FlushAddsThree(plan: Plan, group: AxisGroup)
    ensures |FlushGroup(plan, group).steps| <= |plan.steps| + 3
  {
  }

  lemma {:induction false} ReorientAddsSeven(plan: Plan, frame: Frame)
    ensures |Reorient(plan, frame).steps| <= |plan.steps| + 7
  {
  }

  lemma {:induction false} LazyTurnAddsSeven(plan: Plan, side: Side, turn: MoveTurn)
    ensures |LazyDirectTurn(plan, side, turn).steps| <= |plan.steps| + 7
  {
  }

  lemma {:induction false} EnterFrameAddsTen(plan: Plan, face: LogicalFace)
    ensures |EnterFrame(plan, face).steps| <= |plan.steps| + 10
  {
    FlushAddsThree(plan, TopBottom);
    ReorientAddsSeven(FlushGroup(plan, TopBottom), NeededFrame(plan.frame, face));
  }

  lemma {:induction false} PlanMoveAdds(plan: Plan, move: CubeMove)
    ensures |PlanMove(plan, move).steps| <= |plan.steps| + 21
  {
    var side := DirectSide(move.face);
    var entered := EnterFrame(plan, move.face);
    EnterFrameAddsTen(plan, move.face);
    FlushAddsThree(entered, Other(GroupOf(side)));
    LazyTurnAddsSeven(FlushGroup(entered, Other(GroupOf(side))), side, move.turn);
  }

  lemma {:induction false} PlanMovesLength(moves: seq<CubeMove>)
    ensures |PlanMoves(EMPTY_PLAN, moves).steps| <= 21 * |moves|
  {
    if moves != [] {
      var k := |moves| - 1;
      PlanMovesLength(moves[..k]);
      PlanMoveAdds(PlanMoves(EMPTY_PLAN, moves[..k]), moves[k]);
    }
  }

  lemma {:induction false} FinishAdds(plan: Plan)
    ensures |FinishHeld(plan).steps| <= |plan.steps| + 16
  {
    var restored := plan;
    if plan.frame == RotatedFb {
      FlushAddsThree(plan, TopBottom);
      ReorientAddsSeven(FlushGroup(plan, TopBottom), Canonical);
      restored := Reorient(FlushGroup(plan, TopBottom), Canonical);
    }
    FlushAddsThree(restored, LeftRight);
    FlushAddsThree(FlushGroup(restored, LeftRight), TopBottom);
  }

  /** At most 21 steps a move, and a short tail. */
  lemma {:induction false} PlansFit(moves: seq<CubeMove>)
    ensures |OptimizedHeldSteps(moves)| <= 21 * |moves| + 16
    ensures |ExecuteSteps(moves)| <= 21 * |moves| + 3
  {
    PlanMovesLength(moves);
    FinishAdds(PlanMoves(EMPTY_PLAN, moves));
  }
}

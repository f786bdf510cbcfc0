/** What the invariants of whole runs mean for the stand, the cube and the client. */
module ServiceSafety {
  import opened Geometry
  import opened Stand
  import opened Mechanics
  import opened Options
  import opened Protocol
  import opened RobotService
  import opened ServiceInvariants
  import opened ServiceWorld
  import opened ServiceCube
  import opened Facelets
  import Simulator
  import MP = MovePlanner
  import SP = ScanPlan
  import CS = CubeScan
  import PM = PlanMeaning
  import PS = PlanSafety
  import SE = ServiceEvents

  // ---- custody --------------------------------------------------------------------

  predicate GripStable(rail: RailStatus) {
    rail == StableRail(NearGrip)
  }

  /** An opposing pair of rails is published as closed and at rest. */
  predicate PublishedCustody(rails: Four<RailStatus>) {
    (GripStable(rails.left) && GripStable(rails.right)) || (GripStable(rails.top) && GripStable(rails.bottom))
  }

  /** The last two steps of a plan that gives the cube away. */
  predicate LettingGo(s: State) {
    s.execute.Some? && s.execute.value.kind != ExecuteMoves && |Rest(s.execute.value)| <= 2
  }

  lemma {:induction false} ShownCustody(m: Machine, pending: Option<MP.Step>)
    requires if pending.Some? then HeldDuring(m, pending.value) else Held(m.closed)
    ensures PublishedCustody(ShownRails(m, pending))
  {
  }

  /** A photograph is always followed by a motion. */
  lemma {:induction false} CaptureIsNotLast(k: nat)
    requires k < |SP.SCAN_STEPS| && SP.SCAN_STEPS[k].Capture?
    ensures k + 1 < |SP.SCAN_STEPS| && SP.SCAN_STEPS[k + 1].Motion?
  {
  }

  lemma {:induction false} ScanHolds(rest: seq<SP.MotionStep>, w: World)
    requires ScanFollows(rest, w)
    ensures Held(w.machine.closed)
    ensures rest != [] && rest[0].Motion? ==> SafeStep(w.machine, rest[0].step)
  {
    hide StartRails, StopRails, StartGrippers, StopGrippers, Run, Exec;
    var k := |SP.SCAN_STEPS| - |rest|;
    if rest == [] {
      ScanFollowsEnds(w);
    } else {
      ScanFollowsAdvances(rest, w);
      if rest[0].Capture? {
        CaptureIsNotLast(k);
        assert rest[1..][0] == SP.SCAN_STEPS[k + 1];
        ScanFollowsAdvances(rest[1..], w);
      }
    }
  }

  lemma {:induction false} ExecutionHolds(rest: seq<SP.MotionStep>, kind: OperationKind, solution: seq<MP.CubeMove>, w: World)
    requires Follows(rest, FullPlan(kind, solution, w.moves), w)
    ensures ClearAt(w.machine) && (rest != [] ==> rest[0].Motion? && ClearDuring(w.machine, rest[0].step))
    ensures |rest| > 1 || kind == ExecuteMoves ==> Held(w.machine.closed)
    ensures |rest| > 2 || (kind == ExecuteMoves && rest != []) ==>
              HeldDuring(w.machine, rest[0].step) && rest[0].step != MP.AllOff
  {
    hide MP.OptimizedHeldSteps, MP.ExecuteSteps, Run, Exec;
    var full := FullPlan(kind, solution, w.moves);
    var k := |full| - |rest|;
    if rest != [] {
      FollowsHead(rest, full, w);
    }
    match kind {
      case ExecuteMoves => PS.HeldPlanSafeAtEveryPrefix(w.moves, w.cube, k);
      case OpenStand => PS.OpenPlanSafe(w.cube, k); OpeningHolds(w.cube, k);
      case _ => PS.ExecutePlanSafe(solution, w.cube, k);
    }
  }

  lemma {:induction false} OpeningHolds(cube: Cube, k: nat)
    requires k <= 3
    ensures k == 0 ==> MP.OPEN_STEPS[0] != MP.AllOff
  {
  }

  // ---- the cube -------------------------------------------------------------------

  /** An execution of a solution that comes to its end leaves the stand open and the cube
      solved, up to a rotation of the whole cube. */
  lemma {:induction false} EndedExecutionSolved(s: State, w: World, paint: Paint) returns (solved: Cube, frame: MP.Frame)
    requires Inv(s) && Mechanical(s, w) && Faithful(s, w, paint) && s.motion.None? && s.execute.Some?
    requires s.execute.value.kind == Execute || s.execute.value.kind == ScanSolveExecute
    requires s.execute.value.pending.None? && s.execute.value.steps == []
    ensures w.machine.closed == AllSides(false) && w.machine.cube == PM.InFrame(frame, solved)
    ensures ViewOf(solved) == ViewOf(Simulator.SolvedCube())
  {
    hide Counted, Ids, PendingMoves, PhaseFits, Follows, ScanFollows, FullPlan;
    var moves := s.status.solution.moves;
    solved, frame := PM.ApplyMoves(w.cube, moves), MP.OptimizedPlan(moves, MP.Release).frame;
    FollowsEnds(s.execute.value.kind, moves, w);
    MovesPermuteView(w.cube, moves);
  }

  // ---- over every run from start-up -----------------------------------------------

  /** In every reachable state: no rail moves while a gripper moves, and nothing moves unless
      the robot is busy. */
  lemma {:induction false} OneKindMovesAtATime(times: Calibration, script: seq<bool>, w: World, xs: seq<Experience>)
    ensures var stand := RunBoth(Initial(times, script), w, xs).0.status.stand;
            RailsStill(stand.rails) || GrippersStill(stand.grippers)
    ensures var status := RunBoth(Initial(times, script), w, xs).0.status;
            status.controller != Busy ==> RailsStill(status.stand.rails) && GrippersStill(status.stand.grippers)
  {
    hide RunBoth, Counted, Ids, PendingMoves, PhaseFits, Follows, ScanFollows, FullPlan;
    RunsAreMechanical(times, script, w, xs);
  }

  /** In every reachable state, ready with a session is ready in canonical grip, with every
      rail at the cube and every gripper perpendicular; ready and open is ready without a
      session and with every rail away. */
  lemma {:induction false} ReadyMeansAtRest(times: Calibration, script: seq<bool>, w: World, xs: seq<Experience>)
    requires RunBoth(Initial(times, script), w, xs).0.status.controller == Ready
    ensures var (s, world) := RunBoth(Initial(times, script), w, xs);
            && (s.status.session.Some? <==> s.status.stand.pose.kind == CanonicalPose)
            && (s.status.session.Some? ==>
                  s.status.stand.rails == GRIP_RAILS && s.status.stand.grippers == PERPENDICULAR_GRIPPERS
                  && world.machine == CanonicalGrip(world.cube))
            && (s.status.stand.pose.kind == Open ==> s.status.session.None? && s.status.stand.rails == OPEN_RAILS)
  {
    hide RunBoth, Follows, ScanFollows, FullPlan;
    RunsAreMechanical(times, script, w, xs);
  }

  /** In every reachable state with a session: an opposing pair of rails is published as
      closed and at rest, except in the last two steps of a release. */
  lemma {:induction false} CustodyIsPublished(times: Calibration, script: seq<bool>, w: World, xs: seq<Experience>)
    requires var s := RunBoth(Initial(times, script), w, xs).0;
             s.status.session.Some? && !LettingGo(s)
    ensures PublishedCustody(RunBoth(Initial(times, script), w, xs).0.status.stand.rails)
  {
    hide RunBoth, StartRails, StopRails, StartGrippers, StopGrippers, MP.OptimizedHeldSteps, MP.ExecuteSteps,
         OneOwner, Follows, ScanFollows, FullPlan;
    var (s, world) := RunBoth(Initial(times, script), w, xs);
    RunsAreMechanical(times, script, w, xs);
    if s.motion.None? {
      if s.scan.Some? {
        ScanHolds(Rest(s.scan.value.plan), world);
      } else if s.execute.Some? {
        ExecutionHolds(Rest(s.execute.value), s.execute.value.kind, s.status.solution.moves, world);
      }
      ShownCustody(world.machine, PendingStep(s));
    }
  }

  /** In every reachable state with a step in motion during a session: no grippers can
      collide, and unless the cube is being given away it is held throughout the step. */
  lemma {:induction false} StepInMotionIsSafe(times: Calibration, script: seq<bool>, w: World, xs: seq<Experience>)
    requires var s := RunBoth(Initial(times, script), w, xs).0;
             s.status.session.Some? && PendingStep(s).Some?
    ensures var (s, world) := RunBoth(Initial(times, script), w, xs);
            && ClearAt(world.machine) && ClearDuring(world.machine, PendingStep(s).value)
            && (!LettingGo(s) ==> SafeStep(world.machine, PendingStep(s).value))
  {
    hide RunBoth, MP.OptimizedHeldSteps, MP.ExecuteSteps, Counted, Ids, PendingMoves, PhaseFits, Shows, PhaseStand,
         Released, Follows, ScanFollows, FullPlan;
    var (s, world) := RunBoth(Initial(times, script), w, xs);
    RunsAreMechanical(times, script, w, xs);
    if s.scan.Some? {
      ScanHolds(Rest(s.scan.value.plan), world);
    } else {
      ExecutionHolds(Rest(s.execute.value), s.execute.value.kind, s.status.solution.moves, world);
    }
  }

  /** In every state of a fair run, a valid scan published by a ready robot is the cube that
      it holds, face by face. */
  lemma {:induction false} ValidScanIsHeldCube(times: Calibration, script: seq<bool>, w: World, xs: seq<Experience>, paint: Paint,
                                               face: LogicalFace)
    requires CS.Injective(paint) && FairRun(Initial(times, script), w, xs, paint)
    requires var s := RunBoth(Initial(times, script), w, xs).0;
             s.status.controller == Ready && s.status.scan.state == Valid
    ensures var (s, world) := RunBoth(Initial(times, script), w, xs);
            && world.machine == CanonicalGrip(world.cube) && Balanced(ViewOf(world.cube))
            && face in s.status.scan.faces
            && Named(s.status.scan.faces[face]) == Some(CS.Photo(ViewOf(world.machine.cube), face, paint))
  {
    hide RunBoth, FairRun, AdvanceScan, AdvanceSolve, AdvanceMotion, Follows, ScanFollows, FullPlan;
    var (s, world) := RunBoth(Initial(times, script), w, xs);
    RunsAreMechanical(times, script, w, xs);
    FairRunsAreFaithful(times, script, w, xs, paint);
    assert FACES[FaceOrder(face)] == face;
  }

  // ---- what a completion event promises -------------------------------------------

  predicate SolutionDone(e: Event) {
    e.OperationCompleted? && (e.kind == Execute || e.kind == ScanSolveExecute)
  }

  /** Nothing published from one state to the next reports a solution as executed. */
  ghost predicate NotYetDone(s: State, after: State) {
    s.events <= after.events && forall i :: |s.events| <= i < |after.events| ==> !SolutionDone(after.events[i])
  }

  lemma {:induction false} NotYetDoneTwice(a: State, b: State, c: State)
    requires NotYetDone(a, b) && NotYetDone(b, c)
    ensures NotYetDone(a, c)
  {
  }

  lemma {:induction false} FaultNotDone(s: State, f: State, id: nat)
    requires f.events == s.events
    ensures NotYetDone(s, EnterFault(f, id))
  {
  }

  lemma {:induction false} RecoverEndNotDone(s: State)
    requires s.motion.Some? && s.motion.value.kind == RecoverToOpen
    ensures NotYetDone(s, RecoverGrippersStep(s))
  {
    hide EnterFault, FinishGrippers;
    if Outcome(s.out) {
      SE.RecoverEvents(s);
      hide RecoverGrippersStep;
    } else {
      FaultNotDone(s, Attempt(s, AllOff), s.motion.value.id);
    }
  }

  lemma {:induction false} GripEndNotDone(s: State)
    requires s.motion.Some? && s.motion.value.kind == Grip
    ensures NotYetDone(s, GripRailsStep(s))
  {
    hide EnterFault, Outcome, Commanded, StepDuration;
    if Outcome(s.out) {
      SE.GripEvents(s);
      hide GripRailsStep;
    } else {
      FaultNotDone(s, Attempt(s, DisableAllRails), s.motion.value.id);
    }
  }

  lemma {:induction false} MotionEndNotDone(s: State, now: nat)
    requires PhaseFits(s) && s.motion.Some? && Due(s.motion.value.deadline, now)
    requires s.motion.value.phase == RecoverFinishGrippers || s.motion.value.phase == GripFinishRails
    requires s.motion.value.kind == RecoverToOpen || s.motion.value.kind == Grip
    ensures NotYetDone(s, AdvanceMotion(s, now))
  {
    hide RecoverGrippersStep, GripRailsStep, NotYetDone, StartRails, StopRails, StartGrippers, StopGrippers;
    if s.motion.value.phase == RecoverFinishGrippers {
      RecoverEndNotDone(s);
    } else {
      GripEndNotDone(s);
    }
  }

  lemma {:induction false} MotionNotDone(s: State, now: nat)
    requires Inv(s)
    ensures NotYetDone(s, AdvanceMotion(s, now))
  {
    hide Counted, Ids, PendingMoves, PhaseFits, DataBelongs;
    if s.motion.Some? && Due(s.motion.value.deadline, now) {
      if s.motion.value.phase == RecoverFinishGrippers || s.motion.value.phase == GripFinishRails {
        MotionEndNotDone(s, now);
      } else if AdvanceMotion(s, now).motion.None? {
        var f := SE.FaultedFrom(s, now);
        FaultNotDone(s, f, s.motion.value.id);
      } else {
        SE.PhaseGoesOn(s, now);
      }
    }
  }

  lemma {:induction false} CaptureNotDone(s: State, scan: ActiveScan, face: LogicalFace, env: Env)
    ensures NotYetDone(s, CaptureStep(s, scan, face, env))
  {
    hide StartRails, StopRails, StartGrippers, StopGrippers, SolverString, Named, Record, RebuiltString;
  }

  lemma {:induction false} ScanEndNotDone(s: State, scan: ActiveScan)
    requires scan.plan.kind == Scan || scan.plan.kind == ScanSolveExecute
    ensures NotYetDone(s, FinishScan(s.(scan := None), scan))
  {
    hide StartRails, StopRails, StartGrippers, StopGrippers, SolverString, Named, Record, RebuiltString;
  }

  lemma {:induction false} ScanNotDone(s: State, now: nat, env: Env)
    requires Inv(s)
    ensures NotYetDone(s, AdvanceScan(s, now, env))
  {
    hide Counted, Ids, PendingMoves, PhaseFits, EnterFault, Outcome, Commanded, StepDuration, SolverString, Named,
         Record, RebuiltString;
    if s.scan.Some? && Due(s.scan.value.plan.deadline, now) {
      var scan := s.scan.value;
      if scan.plan.pending.Some? {
        FaultNotDone(s, FinishPending(s, scan.plan.pending.value), scan.plan.id);
      } else if scan.plan.steps == [] {
        ScanEndNotDone(s, scan);
      } else if scan.plan.steps[0].Motion? {
        FaultNotDone(s, s, scan.plan.id);
        FaultNotDone(s, CommandStep(SetPose(s, TRANSITIONAL), scan.plan.steps[0].step), scan.plan.id);
      } else {
        CaptureNotDone(s, scan.(plan := scan.plan.(steps := scan.plan.steps[1..])), scan.plan.steps[0].face, env);
      }
    }
  }

  lemma {:induction false} SolveNotDone(s: State, env: Env)
    requires Inv(s)
    ensures NotYetDone(s, AdvanceSolve(s, env))
  {
    hide StartRails, StopRails, StartGrippers, StopGrippers, MP.OptimizedHeldSteps, MP.ExecuteSteps, Counted, Ids,
         PendingMoves, PhaseFits, DataBelongs;
  }

  /** The last tick of an execution. */
  predicate Ending(s: State, now: nat) {
    s.execute.Some? && Due(s.execute.value.deadline, now) && s.execute.value.pending.None? && s.execute.value.steps == []
  }

  lemma {:induction false} ExecuteNotDone(s: State, now: nat)
    requires !Ending(s, now) || s.execute.value.kind == ExecuteMoves || s.execute.value.kind == OpenStand
    ensures NotYetDone(s, AdvanceExecute(s, now))
  {
    hide StartRails, StopRails, StartGrippers, StopGrippers, EnterFault;
    if s.execute.Some? && Due(s.execute.value.deadline, now) && !Ending(s, now) {
      var plan := s.execute.value;
      if plan.pending.Some? {
        FaultNotDone(s, FinishPending(s, plan.pending.value), plan.id);
      } else if plan.steps[0].Capture? {
        FaultNotDone(s, s, plan.id);
      } else if plan.steps[0].step.MoveCompleted? {
        MarkerNotDone(s.(execute := Some(plan.(steps := plan.steps[1..]))), plan.kind);
      } else if plan.steps[0].step.AllOff? {
        FaultNotDone(s, Attempt(s, AllOff), plan.id);
      } else {
        var pose := if plan.kind == OpenStand then TRANSITIONAL else StandPose(MovePose, Some(Front));
        FaultNotDone(s, CommandStep(SetPose(s, pose), plan.steps[0].step), plan.id);
      }
    }
  }

  lemma {:induction false} MarkerNotDone(s: State, kind: OperationKind)
    ensures NotYetDone(s, MarkerStep(s, kind))
  {
  }

  /** In every fair run: when a tick reports that an execution of a solution, on its own or
      in the automatic cycle, has completed, the stand is open and the cube is solved up to
      a rotation of the whole cube. */
  lemma {:induction false} CompletionMeansSolved(times: Calibration, script: seq<bool>, w: World, xs: seq<Experience>, paint: Paint,
                                                 now: nat, env: Env, inserted: Cube, i: nat)
    returns (solved: Cube, frame: MP.Frame)
    requires CS.Injective(paint)
    requires FairRun(Initial(times, script), w, xs, paint)
    requires var (s, world) := RunBoth(Initial(times, script), w, xs);
             && Fair(s, world, Experience(TimePasses(now, env), inserted), paint)
             && i < |Tick(s, now, env).1| && SolutionDone(Tick(s, now, env).1[i])
    ensures var (s, world) := RunBoth(Initial(times, script), w, xs);
            var after := WorldAfterTick(s, world, now, env, inserted);
            && after.machine.closed == AllSides(false) && after.machine.cube == PM.InFrame(frame, solved)
            && ViewOf(solved) == ViewOf(Simulator.SolvedCube())
  {
    hide MP.OptimizedHeldSteps, MP.ExecuteSteps, AdvanceScan, AdvanceSolve, AdvanceMotion;
    var (s, world) := RunBoth(Initial(times, script), w, xs);
    RunsAreMechanical(times, script, w, xs);
    FairRunsAreFaithful(times, script, w, xs, paint);
    solved, frame := DoneMeansSolved(s, world, paint, now, env, inserted, i);
  }

  lemma {:induction false} DoneMeansSolved(s: State, w: World, paint: Paint, now: nat, env: Env, inserted: Cube, i: nat)
    returns (solved: Cube, frame: MP.Frame)
    requires Resting(s) && Mechanical(s, w) && Faithful(s, w, paint) && CS.Injective(paint)
    requires Fair(s, w, Experience(TimePasses(now, env), inserted), paint)
    requires i < |Tick(s, now, env).1| && SolutionDone(Tick(s, now, env).1[i])
    ensures var after := WorldAfterTick(s, w, now, env, inserted);
            && after.machine.closed == AllSides(false) && after.machine.cube == PM.InFrame(frame, solved)
            && ViewOf(solved) == ViewOf(Simulator.SolvedCube())
  {
    hide StartRails, StopRails, StartGrippers, StopGrippers;
    var solving, w2 := BeforeExecution(s, w, now, env, inserted, paint);
    var moved := AdvanceMotion(s, now);
    MotionKeeps(s, now);
    ScanKeeps(moved, now, env);
    SolvingNotDone(s, moved, AdvanceScan(moved, now, env), now, env);
    solved, frame := ExecutionDone(s, solving, w2, now, paint, i);
  }

  lemma {:induction false} SolvingNotDone(s: State, moved: State, scanned: State, now: nat, env: Env)
    requires Inv(s) && moved == AdvanceMotion(s, now) && Inv(moved) && scanned == AdvanceScan(moved, now, env) && Inv(scanned)
    ensures NotYetDone(s, AdvanceSolve(scanned, env))
  {
    hide MP.OptimizedHeldSteps, MP.ExecuteSteps, Counted, Ids, PendingMoves, PhaseFits, Inv, SolverString, Named,
         Record, RebuiltString, AdvanceScan, AdvanceSolve, AdvanceMotion;
    MotionNotDone(s, now);
    ScanNotDone(moved, now, env);
    SolveNotDone(scanned, env);
    NotYetDoneTwice(s, moved, scanned);
    NotYetDoneTwice(s, scanned, AdvanceSolve(scanned, env));
  }

  lemma {:induction false} ExecutionDone(s: State, solving: State, w: World, now: nat, paint: Paint, i: nat)
    returns (solved: Cube, frame: MP.Frame)
    requires s.events == [] && NotYetDone(s, solving)
    requires Inv(solving) && Mechanical(solving, w) && Faithful(solving, w, paint)
    requires i < |AdvanceExecute(solving, now).events| && SolutionDone(AdvanceExecute(solving, now).events[i])
    ensures var after := WorldAfterExecute(solving, w, now);
            && after.machine.closed == AllSides(false) && after.machine.cube == PM.InFrame(frame, solved)
            && ViewOf(solved) == ViewOf(Simulator.SolvedCube())
  {
    hide DataBelongs, AdvanceExecute, Mechanical, Faithful, Run, Exec;
    if !Ending(solving, now) || solving.execute.value.kind == ExecuteMoves || solving.execute.value.kind == OpenStand {
      ExecuteNotDone(solving, now);
      NotYetDoneTwice(s, solving, AdvanceExecute(solving, now));
      assert false;
    }
    assert solving.motion.None?;
    solved, frame := EndedExecutionSolved(solving, w, paint);
  }
}

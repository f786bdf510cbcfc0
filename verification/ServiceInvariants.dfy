/** What holds in every state the service can reach, whatever is requested, whatever the
    scanner and the solver answer, and whichever servo commands fail. */
module ServiceInvariants {
  import opened Geometry
  import opened Stand
  import opened Options
  import opened Protocol
  import opened RobotService
  import MP = MovePlanner
  import PS = PlanSafety
  import SP = ScanPlan

  function Filled(s: State): nat {
    (if s.motion.Some? then 1 else 0) + (if s.scan.Some? then 1 else 0)
    + (if s.solve.Some? then 1 else 0) + (if s.execute.Some? then 1 else 0)
  }

  /** The identifier and kind held by the one filled activity slot. */
  function Owner(s: State): (nat, OperationKind)
    requires Filled(s) > 0
  {
    if s.motion.Some? then (s.motion.value.id, s.motion.value.kind)
    else if s.scan.Some? then (s.scan.value.plan.id, s.scan.value.plan.kind)
    else if s.solve.Some? then (s.solve.value.id, s.solve.value.kind)
    else (s.execute.value.id, s.execute.value.kind)
  }

  /** Busy exactly while an operation is published, exactly while one slot is filled, with
      the published identifier and kind, and only with kinds that belong in that slot. */
  predicate OneOwner(s: State) {
    && (s.status.controller == Busy <==> s.status.operation.Some?)
    && (s.status.operation.Some? <==> Filled(s) == 1)
    && Filled(s) <= 1
    && (s.status.operation.Some? ==> Owner(s) == (s.status.operation.value.id, s.status.operation.value.kind))
    && (s.motion.Some? ==> s.motion.value.kind in {RecoverToOpen, Grip})
    && (s.scan.Some? ==> s.scan.value.plan.kind in {Scan, ScanSolveExecute})
    && (s.solve.Some? ==> s.solve.value.kind in {Solve, ScanSolveExecute})
    && (s.execute.Some? ==> s.execute.value.kind in {Execute, ExecuteMoves, OpenStand, ScanSolveExecute})
  }

  /** Scan and solution data live inside a session, and a solution belongs to the scan
      that is published with it. */
  predicate DataBelongs(s: State) {
    && (s.status.scan.state != NoScan ==> s.status.session.Some? && s.status.scan.revision.Some?)
    && (s.status.scan.state == InProgress <==> s.scan.Some?)
    && (s.status.solution.state != NoSolution ==>
          s.status.session.Some? && s.status.scan.state == Valid && s.status.solution.sourceScanRevision == s.status.scan.revision)
    && (s.status.solution.state == Solving <==> s.solve.Some?)
    && (s.solve.Some? ==> s.status.scan.revision == Some(s.solve.value.revision))
    && (s.status.solution.state == Executing <==> s.execute.Some? && s.execute.value.kind in {Execute, ScanSolveExecute})
    && (s.execute.Some? || s.scan.Some? || s.solve.Some? ==> s.status.session.Some?)
    && (s.status.solution.state == NoSolution ==> s.status.solution.moves == [] && s.status.solution.completedMoves == 0)
    && (s.status.solution.state in {Prepared, Executing} ==> s.status.solution.id.Some?)
  }

  function MotionMarkers(steps: seq<SP.MotionStep>): nat {
    if steps == [] then 0
    else (if steps[0] == SP.Motion(MP.MoveCompleted) then 1 else 0) + MotionMarkers(steps[1..])
  }

  function InFlight(plan: ActivePlan): nat {
    |plan.steps| + if plan.pending.Some? then 1 else 0
  }

  /** Progress is conserved: what is done plus what is left is the total. */
  predicate Counted(s: State) {
    && |s.status.solution.moves| <= MAX_SOLUTION_MOVES
    && s.status.solution.completedMoves <= |s.status.solution.moves|
    && (s.status.operation.Some? ==>
          s.status.operation.value.currentAction <= s.status.operation.value.actionCount < 0xffff)
    && (s.motion.Some? && s.status.operation.Some? ==>
          s.status.operation.value.actionCount == if s.motion.value.kind == RecoverToOpen then 3 else 2)
    && (s.scan.Some? && s.status.operation.Some? ==>
          s.status.operation.value.currentAction + InFlight(s.scan.value.plan) == s.status.operation.value.actionCount
          && s.status.operation.value.actionCount == |SP.SCAN_STEPS|)
    && (s.solve.Some? && s.status.operation.Some? ==>
          s.status.operation.value.currentAction + 1 == s.status.operation.value.actionCount <= |SP.SCAN_STEPS| + 1)
    && (s.execute.Some? && s.status.operation.Some? ==>
          s.status.operation.value.currentAction + InFlight(s.execute.value) == s.status.operation.value.actionCount)
    && (s.status.solution.state == Executing && s.execute.Some? ==>
          s.status.solution.completedMoves + MotionMarkers(s.execute.value.steps) == |s.status.solution.moves|)
    && (s.execute.Some? && s.execute.value.kind == OpenStand ==> MotionMarkers(s.execute.value.steps) == 0)
  }

  /** Pending steps are steps that move something. */
  predicate PendingMoves(s: State) {
    && (s.scan.Some? && s.scan.value.plan.pending.Some? ==>
          s.scan.value.plan.pending.value.SetRails? || s.scan.value.plan.pending.value.SetGrippers?)
    && (s.execute.Some? && s.execute.value.pending.Some? ==>
          s.execute.value.pending.value.SetRails? || s.execute.value.pending.value.SetGrippers?)
  }

  /** Recovery and gripping run through their own phases. */
  predicate PhaseFits(s: State) {
    s.motion.Some? ==>
      (s.motion.value.kind == Grip <==> s.motion.value.phase in {GripStart, GripFinishGrippers, GripFinishRails})
  }

  predicate Inv(s: State) {
    OneOwner(s) && DataBelongs(s) && Counted(s) && PendingMoves(s) && PhaseFits(s) && Ids(s)
  }

  /** Identifiers in use and to be issued are non-zero 32-bit numbers. */
  predicate Ids(s: State) {
    && 0 < s.nextOperation < 0x1_0000_0000 && 0 < s.nextSession < 0x1_0000_0000
    && 0 < s.nextRevision < 0x1_0000_0000 && 0 < s.nextSolution < 0x1_0000_0000
    && (s.status.operation.Some? ==> s.status.operation.value.id != 0)
  }

  lemma {:induction false} NextIdStays(id: nat)
    requires 0 < id < 0x1_0000_0000
    ensures 0 < NextId(id) < 0x1_0000_0000 && NextId(id) != id
  {
  }

  lemma {:induction false} FaultKeeps(s: State, id: nat)
    requires Ids(s)
    ensures Inv(EnterFault(s, id)) && EnterFault(s, id).status.session.None?
    ensures EnterFault(s, id).status.controller == Faulted && EnterFault(s, id).cache == s.cache
  {
  }

  lemma {:induction false} AbortKeeps(s: State, id: Option<nat>)
    requires Ids(s)
    ensures Inv(Abort(s, id)) && Abort(s, id).status.session.None? && Filled(Abort(s, id)) == 0
  {
    hide StartRails, StopRails, StartGrippers, StopGrippers;
  }

  lemma {:induction false} RecoverStartKeeps(s: State, now: nat)
    requires Inv(s) && s.motion.Some? && s.motion.value.kind == RecoverToOpen
    ensures Inv(RecoverStartStep(s, now)) && RecoverStartStep(s, now).cache == s.cache
  {
    hide StartRails, StopRails, StartGrippers, StopGrippers;
    var cleared := SetPose(ClearScanAndSolution(s.(status := s.status.(session := None))), TRANSITIONAL);
    FaultKeeps(CommandRails(cleared, MP.Pair(LeftRight), FarOpen), s.motion.value.id);
  }

  lemma {:induction false} RecoverLeftRightKeeps(s: State, now: nat)
    requires Inv(s) && s.motion.Some? && s.motion.value.kind == RecoverToOpen
    ensures Inv(RecoverLeftRightStep(s, now)) && RecoverLeftRightStep(s, now).cache == s.cache
  {
    hide StartRails, StopRails, StartGrippers, StopGrippers, Outcome, Commanded, StepDuration;
    var finished := FinishRails(s, MP.Pair(LeftRight), FarOpen);
    FaultKeeps(finished, s.motion.value.id);
    FaultKeeps(CommandRails(finished, MP.Pair(TopBottom), FarOpen), s.motion.value.id);
  }

  lemma {:induction false} RecoverTopBottomKeeps(s: State, now: nat)
    requires Inv(s) && s.motion.Some? && s.motion.value.kind == RecoverToOpen
    ensures Inv(RecoverTopBottomStep(s, now)) && RecoverTopBottomStep(s, now).cache == s.cache
  {
    hide StartRails, StopRails, StartGrippers, StopGrippers, Outcome, Commanded, StepDuration;
    var finished := FinishRails(s, MP.Pair(TopBottom), FarOpen);
    FaultKeeps(finished, s.motion.value.id);
    FaultKeeps(CommandGrippers(finished, ALL_PERPENDICULAR), s.motion.value.id);
  }

  lemma {:induction false} RecoverGrippersKeeps(s: State)
    requires Inv(s) && s.motion.Some?
    ensures Inv(RecoverGrippersStep(s)) && RecoverGrippersStep(s).cache == s.cache
  {
    hide StartRails, StopRails, StartGrippers, StopGrippers;
    FaultKeeps(Attempt(s, AllOff), s.motion.value.id);
  }

  lemma {:induction false} GripStartKeeps(s: State, now: nat)
    requires Inv(s) && s.motion.Some? && s.motion.value.kind == Grip
    ensures Inv(GripStartStep(s, now)) && GripStartStep(s, now).cache == s.cache
  {
    hide StartRails, StopRails, StartGrippers, StopGrippers, EnterFault, MotionMarkers, InFlight;
    FaultKeeps(CommandGrippers(SetPose(s, TRANSITIONAL), ALL_PERPENDICULAR), s.motion.value.id);
  }

  lemma {:induction false} GripGrippersKeeps(s: State, now: nat)
    requires Inv(s) && s.motion.Some? && s.motion.value.kind == Grip
    ensures Inv(GripGrippersStep(s, now)) && GripGrippersStep(s, now).cache == s.cache
  {
    hide StartRails, StopRails, StartGrippers, StopGrippers, EnterFault;
    FaultKeeps(Attempt(FinishGrippers(s, ALL_PERPENDICULAR), SetAllRails(NearGrip)), s.motion.value.id);
  }

  lemma {:induction false} GripRailsKeeps(s: State)
    requires Inv(s) && s.motion.Some? && s.motion.value.kind == Grip
    ensures Inv(GripRailsStep(s)) && GripRailsStep(s).cache == s.cache
  {
    hide StartRails, StopRails, StartGrippers, StopGrippers, EnterFault;
    NextIdStays(s.nextSession);
    FaultKeeps(Attempt(s, DisableAllRails), s.motion.value.id);
  }

  lemma {:induction false} MotionKeeps(s: State, now: nat)
    requires Inv(s)
    ensures Inv(AdvanceMotion(s, now)) && AdvanceMotion(s, now).cache == s.cache
  {
    hide StartRails, StopRails, StartGrippers, StopGrippers, Ids, EnterFault;
    if s.motion.Some? {
      match s.motion.value.phase {
        case RecoverStart => RecoverStartKeeps(s, now);
        case RecoverFinishLeftRight => RecoverLeftRightKeeps(s, now);
        case RecoverFinishTopBottom => RecoverTopBottomKeeps(s, now);
        case RecoverFinishGrippers => RecoverGrippersKeeps(s);
        case GripStart => GripStartKeeps(s, now);
        case GripFinishGrippers => GripGrippersKeeps(s, now);
        case GripFinishRails => GripRailsKeeps(s);
      }
    }
  }

  lemma {:induction false} CaptureKeeps(s: State, scan: ActiveScan, face: Geometry.LogicalFace, env: Env)
    requires Inv(s) && s.scan.Some? && s.scan.value.plan.steps != [] && s.scan.value.plan.pending.None?
    requires scan == s.scan.value.(plan := s.scan.value.plan.(steps := s.scan.value.plan.steps[1..]))
    ensures Inv(CaptureStep(s, scan, face, env))
  {
    hide StartRails, StopRails, StartGrippers, StopGrippers, SolverString, Named, Record, RebuiltString;
  }

  lemma {:induction false} FinishScanKeeps(s: State, scan: ActiveScan)
    requires Inv(s) && s.scan == Some(scan) && scan.plan.steps == [] && scan.plan.pending.None?
    ensures Inv(FinishScan(s.(scan := None), scan))
  {
    hide SolverString, Named, Record, RebuiltString;
  }

  lemma {:induction false} ScanFinishKeeps(s: State, now: nat, env: Env)
    requires Inv(s) && s.scan.Some? && s.scan.value.plan.pending.Some?
    ensures Inv(AdvanceScan(s, now, env))
  {
    hide StartRails, StopRails, StartGrippers, StopGrippers, EnterFault, FinishScan, CaptureStep;
    var plan := s.scan.value.plan;
    FaultKeeps(FinishPending(s, plan.pending.value), plan.id);
  }

  lemma {:induction false} ScanCommandKeeps(s: State, now: nat, env: Env)
    requires Inv(s) && s.scan.Some? && s.scan.value.plan.pending.None? && s.scan.value.plan.steps != []
    requires s.scan.value.plan.steps[0].Motion?
    ensures Inv(AdvanceScan(s, now, env))
  {
    hide StartRails, StopRails, StartGrippers, StopGrippers;
    var plan := s.scan.value.plan;
    FaultKeeps(s, plan.id);
    FaultKeeps(CommandStep(SetPose(s, TRANSITIONAL), plan.steps[0].step), plan.id);
  }

  lemma {:induction false} ScanKeeps(s: State, now: nat, env: Env)
    requires Inv(s)
    ensures Inv(AdvanceScan(s, now, env))
  {
    hide MP.OptimizedHeldSteps, MP.ExecuteSteps, Counted, DataBelongs, OneOwner, CommandStep, FinishPending, Outcome,
         Commanded, StepDuration, SolverString, Named, Record, RebuiltString, FinishScan, CaptureStep;
    if s.scan.Some? {
      var scan := s.scan.value;
      var plan := scan.plan;
      if plan.pending.Some? {
        ScanFinishKeeps(s, now, env);
      } else if plan.steps == [] {
        FinishScanKeeps(s, scan);
      } else if plan.steps[0].Motion? {
        ScanCommandKeeps(s, now, env);
      } else {
        CaptureKeeps(s, scan.(plan := plan.(steps := plan.steps[1..])), plan.steps[0].face, env);
      }
    }
  }

  lemma {:induction false} MarkersOfMotion(steps: seq<MP.Step>)
    ensures MotionMarkers(MotionSteps(steps)) == PS.Markers(steps)
    decreases |steps|
  {
    if steps != [] {
      var k := |steps| - 1;
      assert MotionSteps(steps) == MotionSteps(steps[..k]) + [SP.Motion(steps[k])];
      MarkersOfMotion(steps[..k]);
      MotionMarkersAppend(MotionSteps(steps[..k]), SP.Motion(steps[k]));
    }
  }

  lemma {:induction false} MotionMarkersAppend(steps: seq<SP.MotionStep>, last: SP.MotionStep)
    ensures MotionMarkers(steps + [last]) == MotionMarkers(steps) + if last == SP.Motion(MP.MoveCompleted) then 1 else 0
    decreases |steps|
  {
    if steps == [] {
      assert steps + [last] == [last] && [last][1..] == [];
    } else {
      assert (steps + [last])[1..] == steps[1..] + [last];
      MotionMarkersAppend(steps[1..], last);
    }
  }

  /** A service plan carries one marker per move and fits the action counter. */
  lemma {:induction false} PlanCounts(moves: seq<MP.CubeMove>)
    requires |moves| <= MAX_SOLUTION_MOVES
    ensures MotionMarkers(MotionSteps(MP.ExecuteSteps(moves))) == |moves|
    ensures |MP.ExecuteSteps(moves)| <= 675 && |MP.OptimizedHeldSteps(moves)| <= 688
  {
    MarkersOfMotion(MP.ExecuteSteps(moves));
    PS.MarkersCountMoves(moves);
    PS.PlansFit(moves);
  }

  lemma {:induction false} SolveFailureKeeps(s: State, id: nat)
    requires Inv(s) && s.solve.Some?
    ensures Inv(SolveFailure(s.(solve := None), id))
  {
  }

  lemma {:induction false} PreparedKeeps(s: State, env: Env)
    requires Inv(s) && s.solve.Some? && s.solve.value.kind != ScanSolveExecute
    requires env.solver.Solved? && |env.solver.moves| <= MAX_SOLUTION_MOVES
    ensures Inv(AdvanceSolve(s, env))
  {
    hide MP.OptimizedHeldSteps, MP.ExecuteSteps;
    NextIdStays(s.nextSolution);
  }

  lemma {:induction false} BeginExecutionKeeps(s: State, active: ActiveSolve, solution: SolutionStatus, steps: seq<SP.MotionStep>)
    requires Inv(s) && s.solve == Some(active) && active.kind == ScanSolveExecute
    requires solution == SolutionStatus(Prepared, Some(s.nextSolution), Some(active.revision), solution.moves, 0)
    requires |solution.moves| <= MAX_SOLUTION_MOVES && |steps| <= 675 && MotionMarkers(steps) == |solution.moves|
    ensures Inv(BeginExecution(s.(solve := None, nextSolution := NextId(s.nextSolution),
                                  status := s.status.(solution := solution)), active, steps))
  {
    hide StartRails, StopRails, StartGrippers, StopGrippers;
    NextIdStays(s.nextSolution);
    ScanLength();
    assert |steps| % 0x1_0000 == |steps|;
  }

  lemma {:induction false} SolvedKeeps(s: State, env: Env)
    requires Inv(s) && s.solve.Some? && s.solve.value.kind == ScanSolveExecute
    requires env.solver.Solved? && |env.solver.moves| <= MAX_SOLUTION_MOVES
    ensures Inv(AdvanceSolve(s, env))
  {
    hide StartRails, StopRails, StartGrippers, StopGrippers, MP.OptimizedHeldSteps, MP.ExecuteSteps, Counted,
         DataBelongs, OneOwner;
    var active, moves := s.solve.value, env.solver.moves;
    PlanCounts(moves);
    var solution := SolutionStatus(Prepared, Some(s.nextSolution), Some(active.revision), moves, 0);
    var steps := MotionSteps(MP.ExecuteSteps(moves));
    BeginExecutionKeeps(s, active, solution, steps);
  }

  lemma {:induction false} SolveKeeps(s: State, env: Env)
    requires Inv(s)
    ensures Inv(AdvanceSolve(s, env))
  {
    hide MP.OptimizedHeldSteps, MP.ExecuteSteps, Counted, DataBelongs;
    if s.solve.Some? && !env.solver.StillSolving? {
      if !env.solver.Solved? || |env.solver.moves| > MAX_SOLUTION_MOVES {
        SolveFailureKeeps(s, s.solve.value.id);
      } else if s.solve.value.kind == ScanSolveExecute {
        SolvedKeeps(s, env);
      } else {
        PreparedKeeps(s, env);
      }
    }
  }

  lemma {:induction false} ExecuteFinishKeeps(s: State, now: nat)
    requires Inv(s) && s.execute.Some? && s.execute.value.pending.Some?
    ensures Inv(AdvanceExecute(s, now))
  {
    hide StartRails, StopRails, StartGrippers, StopGrippers, EnterFault;
    var plan := s.execute.value;
    FaultKeeps(FinishPending(s, plan.pending.value), plan.id);
  }

  lemma {:induction false} MarkerKeeps(s: State, plan: ActivePlan)
    requires Inv(s) && s.execute.Some? && s.execute.value.pending.None? && s.execute.value.steps != []
    requires s.execute.value.steps[0] == SP.Motion(MP.MoveCompleted)
    requires plan == s.execute.value.(steps := s.execute.value.steps[1..])
    ensures Inv(MarkerStep(s.(execute := Some(plan)), plan.kind))
  {
    hide StartRails, StopRails, StartGrippers, StopGrippers;
  }

  lemma {:induction false} AllOffKeeps(s: State, now: nat)
    requires Inv(s) && s.execute.Some? && s.execute.value.pending.None? && s.execute.value.steps != []
    requires s.execute.value.steps[0] == SP.Motion(MP.AllOff)
    ensures Inv(AdvanceExecute(s, now))
  {
    hide StartRails, StopRails, StartGrippers, StopGrippers, EnterFault, CommandStep, FinishPending;
    FaultKeeps(Attempt(s, AllOff), s.execute.value.id);
  }

  lemma {:induction false} ExecuteCommandKeeps(s: State, now: nat)
    requires Inv(s) && s.execute.Some? && s.execute.value.pending.None? && s.execute.value.steps != []
    requires s.execute.value.steps[0].Motion?
    requires s.execute.value.steps[0].step.SetRails? || s.execute.value.steps[0].step.SetGrippers?
    ensures Inv(AdvanceExecute(s, now))
  {
    hide StartRails, StopRails, StartGrippers, StopGrippers, Outcome, Commanded, StepDuration;
    var plan := s.execute.value;
    var pose := if plan.kind == OpenStand then TRANSITIONAL else StandPose(MovePose, Some(Geometry.Front));
    var commanded := CommandStep(SetPose(s, pose), plan.steps[0].step);
    FaultKeeps(commanded, plan.id);
  }

  lemma {:induction false} FinishExecuteKeeps(s: State, plan: ActivePlan)
    requires Inv(s) && s.execute == Some(plan) && plan.steps == [] && plan.pending.None?
    ensures Inv(FinishExecute(s.(execute := None), plan.id, plan.kind))
  {
    hide StartRails, StopRails, StartGrippers, StopGrippers;
  }

  lemma {:induction false} ExecuteKeeps(s: State, now: nat)
    requires Inv(s)
    ensures Inv(AdvanceExecute(s, now))
  {
    hide Ids, DataBelongs, OneOwner, EnterFault, CommandStep, FinishPending, Outcome, Commanded, StepDuration,
         FinishExecute, MarkerStep;
    if s.execute.Some? {
      var plan := s.execute.value;
      if plan.pending.Some? {
        ExecuteFinishKeeps(s, now);
      } else if plan.steps == [] {
        FinishExecuteKeeps(s, plan);
      } else if plan.steps[0] == SP.Motion(MP.MoveCompleted) {
        MarkerKeeps(s, plan.(steps := plan.steps[1..]));
      } else if plan.steps[0].Capture? {
        FaultKeeps(s, plan.id);
      } else if plan.steps[0].step.AllOff? {
        AllOffKeeps(s, now);
      } else {
        ExecuteCommandKeeps(s, now);
      }
    }
  }

  lemma {:induction false} StartMotionKeeps(s: State, kind: OperationKind)
    requires Inv(s) && kind in {RecoverToOpen, Grip}
    ensures Inv(StartMotion(s, kind))
  {
    NextIdStays(s.nextOperation);
  }

  lemma {:induction false} StartScanKeeps(s: State, session: nat, kind: OperationKind, env: Env)
    requires Inv(s) && kind in {Scan, ScanSolveExecute}
    ensures Inv(StartScanOperation(s, session, kind, env))
  {
    NextIdStays(s.nextOperation);
    NextIdStays(s.nextRevision);
    ScanLength();
  }

  lemma {:induction false} ScanLength()
    ensures |SP.SCAN_STEPS| == 26
  {
  }

  lemma {:induction false} StartSolveKeeps(s: State, session: nat, revision: nat)
    requires Inv(s)
    ensures Inv(StartSolve(s, session, revision))
  {
    NextIdStays(s.nextOperation);
    ScanLength();
  }

  lemma {:induction false} StartExecuteKeeps(s: State, session: nat, revision: nat, solution: nat)
    requires Inv(s)
    ensures Inv(StartExecute(s, session, revision, solution))
  {
    hide MP.OptimizedHeldSteps, MP.ExecuteSteps;
    NextIdStays(s.nextOperation);
    PlanCounts(s.status.solution.moves);
  }

  lemma {:induction false} StartExecuteMovesKeeps(s: State, session: nat, moves: seq<MP.CubeMove>)
    requires Inv(s)
    ensures Inv(StartExecuteMoves(s, session, moves))
  {
    hide MP.OptimizedHeldSteps, MP.ExecuteSteps, NextId;
    NextIdStays(s.nextOperation);
    if |moves| <= MAX_SOLUTION_MOVES {
      PlanCounts(moves);
    }
  }

  lemma {:induction false} StartOpenKeeps(s: State, session: nat)
    requires Inv(s)
    ensures Inv(StartOpen(s, session))
  {
    NextIdStays(s.nextOperation);
    PS.OpenStepsUnmarked();
    PS.UnmarkedHasNoMarkers(MP.OPEN_STEPS);
    MarkersOfMotion(MP.OPEN_STEPS);
  }

  lemma {:induction false} ObeyKeeps(s: State, command: Command, env: Env)
    requires Inv(s)
    ensures Inv(Obey(s, command, env))
  {
    hide MP.OptimizedHeldSteps, MP.ExecuteSteps, Ids, PendingMoves, PhaseFits;
    match command {
      case GetStatus =>
      case RecoverCommand => StartMotionKeeps(s, RecoverToOpen);
      case GripCommand => StartMotionKeeps(s, Grip);
      case StartScan(session) => StartScanKeeps(s, session, Scan, env);
      case SolveCommand(session, revision) => StartSolveKeeps(s, session, revision);
      case ExecuteCommand(session, revision, solution) => StartExecuteKeeps(s, session, revision, solution);
      case ExecuteMovesCommand(session, moves) => StartExecuteMovesKeeps(s, session, moves);
      case ScanSolveExecuteCommand(session) => StartScanKeeps(s, session, ScanSolveExecute, env);
      case OpenCommand(session) => StartOpenKeeps(s, session);
      case AbortCommand => AbortKeeps(s, ActiveId(s));
    }
  }

  // ---- whole runs -----------------------------------------------------------------

  datatype Input =
    | PacketArrives(packet: Packet, env: Env)
    | ButtonPressed(local: LocalCommand, env: Env)
    | TimePasses(now: nat, env: Env)

  ghost function Step(s: State, input: Input): State {
    match input
    case PacketArrives(packet, env) => HandlePacket(s, packet, env).0
    case ButtonPressed(local, env) => HandleLocal(s, local, env).0
    case TimePasses(now, env) => Tick(s, now, env).0
  }

  ghost function RunService(s: State, inputs: seq<Input>): State {
    hide Step;
    if inputs == [] then s else Step(RunService(s, inputs[..|inputs| - 1]), inputs[|inputs| - 1])
  }

  /** The bounded response cache holds one response per identifier. */
  ghost predicate CacheInv(s: State) {
    && |s.cache| <= REQUEST_CACHE_CAPACITY
    && (forall i :: 0 <= i < |s.cache| ==> s.cache[i].response.requestId != 0)
    && (forall i, j :: 0 <= i < j < |s.cache| ==> s.cache[i].response.requestId != s.cache[j].response.requestId)
  }

  lemma {:induction false} InvIgnoresBookkeeping(s: State, cache: seq<Cached>)
    requires Inv(s)
    ensures Inv(s.(events := [], cache := cache)) && Inv(s.(events := []))
  {
  }

  lemma {:induction false} CacheResponseKeeps(s: State, opcode: nat, response: Response)
    requires CacheInv(s) && CacheIndex(s.cache, response.requestId) == |s.cache|
    ensures CacheInv(CacheResponse(s, opcode, response))
  {
    hide StartRails, StopRails, StartGrippers, StopGrippers;
  }

  /** A response is cached only when its identifier was not cached before, so identifiers
      stay distinct; the newest sixteen survive, in order of arrival. */
  lemma {:induction false} PacketKeeps(s: State, packet: Packet, env: Env)
    requires Inv(s) && CacheInv(s) && s.events == []
    ensures var (after, response, events) := HandlePacket(s, packet, env);
            Inv(after) && CacheInv(after) && after.events == [] && response.requestId == packet.requestId
  {
    hide StartRails, StopRails, StartGrippers, StopGrippers, MP.OptimizedHeldSteps, MP.ExecuteSteps, Inv, StartPlan,
         StartMotion, StartScanOperation;
    if CacheIndex(s.cache, packet.requestId) == |s.cache| {
      var (dispatched, response) := Dispatch(s, packet, env);
      assert Inv(dispatched) && dispatched.cache == s.cache && response.requestId == packet.requestId by {
        if !Undecodable(packet) {
          ObeyKeeps(s, packet.command.value, env);
          ObeyKeepsCache(s, packet.command.value, env);
        }
      }
      CacheResponseKeeps(dispatched, packet.opcode, response);
      InvIgnoresBookkeeping(dispatched, CacheResponse(dispatched, packet.opcode, response).cache);
    }
  }

  lemma {:induction false} ObeyKeepsCache(s: State, command: Command, env: Env)
    ensures Obey(s, command, env).cache == s.cache
  {
    hide MP.OptimizedHeldSteps, MP.ExecuteSteps;
  }

  lemma {:induction false} ScanKeepsCache(s: State, now: nat, env: Env)
    ensures AdvanceScan(s, now, env).cache == s.cache
  {
    if s.scan.Some? && s.scan.value.plan.steps != [] && s.scan.value.plan.steps[0].Capture? {
      CaptureKeepsCache(s, s.scan.value.(plan := s.scan.value.plan.(steps := s.scan.value.plan.steps[1..])),
                        s.scan.value.plan.steps[0].face, env);
    }
  }

  lemma {:induction false} CaptureKeepsCache(s: State, scan: ActiveScan, face: Geometry.LogicalFace, env: Env)
    ensures CaptureStep(s, scan, face, env).cache == s.cache
  {
  }

  lemma {:induction false} SolveKeepsCache(s: State, env: Env)
    ensures AdvanceSolve(s, env).cache == s.cache
  {
    hide MP.OptimizedHeldSteps, MP.ExecuteSteps;
  }

  lemma {:induction false} ExecuteKeepsCache(s: State, now: nat)
    ensures AdvanceExecute(s, now).cache == s.cache
  {
    hide Outcome, Commanded, StepDuration;
  }

  lemma {:induction false} TickKeeps(s: State, now: nat, env: Env)
    requires Inv(s) && CacheInv(s)
    ensures Inv(Tick(s, now, env).0) && CacheInv(Tick(s, now, env).0) && Tick(s, now, env).0.events == []
  {
    hide StartRails, StopRails, StartGrippers, StopGrippers, MP.OptimizedHeldSteps, MP.ExecuteSteps, Counted,
         DataBelongs, SolverString, Named, Record, RebuiltString, AdvanceScan, AdvanceSolve, AdvanceMotion, Inv;
    var moved := AdvanceMotion(s, now);
    MotionKeeps(s, now);
    var scanned := AdvanceScan(moved, now, env);
    ScanKeeps(moved, now, env);
    ScanKeepsCache(moved, now, env);
    var solved := AdvanceSolve(scanned, env);
    SolveKeeps(scanned, env);
    SolveKeepsCache(scanned, env);
    var executed := AdvanceExecute(solved, now);
    ExecuteKeeps(solved, now);
    ExecuteKeepsCache(solved, now);
    InvIgnoresBookkeeping(executed, s.cache);
    assert Tick(s, now, env).0 == executed.(events := []);
  }

  ghost predicate Resting(s: State) {
    Inv(s) && CacheInv(s) && s.events == []
  }

  lemma {:induction false} StepKeeps(s: State, input: Input)
    requires Resting(s)
    ensures Resting(Step(s, input))
  {
    hide MP.OptimizedHeldSteps, MP.ExecuteSteps, DataBelongs, AdvanceScan, AdvanceSolve, AdvanceMotion, Obey,
         HandlePacket, Inv;
    match input {
      case PacketArrives(packet, env) => PacketKeeps(s, packet, env);
      case ButtonPressed(local, env) =>
        ObeyKeeps(s, LocalAsCommand(local), env);
        ObeyKeepsCache(s, LocalAsCommand(local), env);
        InvIgnoresBookkeeping(Obey(s, LocalAsCommand(local), env), s.cache);
      case TimePasses(now, env) => TickKeeps(s, now, env);
    }
  }

  /** In every state reachable from start-up, with any servo command failing, any requests,
      any clock readings and any scanner and solver answers: the invariants hold and the
      published snapshot is valid. */
  lemma {:induction false} ReachableStatesRest(times: Calibration, script: seq<bool>, inputs: seq<Input>)
    ensures Resting(RunService(Initial(times, script), inputs))
    ensures ValidSnapshot(RunService(Initial(times, script), inputs).status)
  {
    if inputs != [] {
      var k := |inputs| - 1;
      ReachableStatesRest(times, script, inputs[..k]);
      StepKeeps(RunService(Initial(times, script), inputs[..k]), inputs[k]);
    }
  }

  /** In every reachable state, a repeated request gets the identical response and changes
      nothing at all. */
  lemma {:induction false} RepeatChangesNothing(times: Calibration, script: seq<bool>, inputs: seq<Input>, packet: Packet, env: Env,
                                                i: nat)
    requires var cache := RunService(Initial(times, script), inputs).cache;
             i < |cache| && cache[i].response.requestId == packet.requestId && cache[i].opcode == packet.opcode
    ensures var s := RunService(Initial(times, script), inputs);
            HandlePacket(s, packet, env) == (s, s.cache[i].response, [])
  {
    hide RunService, Inv, MP.OptimizedHeldSteps, MP.ExecuteSteps, SolverString, Named, Record, RebuiltString,
         StartPlan, StartMotion, StartScanOperation;
    var s := RunService(Initial(times, script), inputs);
    ReachableStatesRest(times, script, inputs);
    var found := CacheIndex(s.cache, packet.requestId);
    assert found == i;
  }

  /** In every reachable state the cache is a queue of at most sixteen distinct requests: a
      fresh one enters at the end and pushes out the oldest only when sixteen are held. */
  lemma {:induction false} FreshRequestEntersCache(times: Calibration, script: seq<bool>, inputs: seq<Input>, packet: Packet, env: Env)
    requires packet.requestId != 0
    requires var cache := RunService(Initial(times, script), inputs).cache; CacheIndex(cache, packet.requestId) == |cache|
    ensures var s := RunService(Initial(times, script), inputs);
            var (after, response, events) := HandlePacket(s, packet, env);
            && CacheInv(s)
            && after.cache == (if |s.cache| == 16 then s.cache[1..] else s.cache) + [Cached(packet.opcode, response)]
  {
    hide RunService, Inv, MP.OptimizedHeldSteps, MP.ExecuteSteps, SolverString, Named, Record, RebuiltString, Obey,
         HandlePacket;
    var s := RunService(Initial(times, script), inputs);
    ReachableStatesRest(times, script, inputs);
    FreshEnters(s, packet, env);
  }

  lemma {:induction false} FreshEnters(s: State, packet: Packet, env: Env)
    requires packet.requestId != 0 && CacheIndex(s.cache, packet.requestId) == |s.cache|
    ensures var (after, response, events) := HandlePacket(s, packet, env);
            after.cache == (if |s.cache| == 16 then s.cache[1..] else s.cache) + [Cached(packet.opcode, response)]
  {
    hide MP.OptimizedHeldSteps, MP.ExecuteSteps, SolverString, Named, Record, RebuiltString, Abort, StartPlan,
         StartMotion, StartScanOperation;
    if !Undecodable(packet) {
      ObeyKeepsCache(s, packet.command.value, env);
    }
  }

  // ---- what the parts of a tick leave alone ---------------------------------------

  /** Servo commands change the published stand and the driver, and nothing else. */
  predicate StandOnly(a: State, b: State) {
    b == a.(status := a.status.(stand := b.status.stand), out := b.out)
  }

  /** After a fault nothing is active and nothing is known. */
  predicate Collapsed(a: State, b: State) {
    && b.motion.None? && b.scan.None? && b.solve.None? && b.execute.None?
    && b.status == StatusSnapshot(Faulted, UNKNOWN_STAND, None, EMPTY_SCAN, EMPTY_SOLUTION, None, true)
    && b.times == a.times
  }

  lemma {:induction false} StepFrame(s: State, step: MP.Step)
    ensures StandOnly(s, CommandStep(s, step)) && StandOnly(s, FinishPending(s, step))
  {
    hide StartRails, StopRails, StartGrippers, StopGrippers;
  }

  lemma {:induction false} PoseFrame(s: State, pose: StandPose)
    ensures StandOnly(s, SetPose(s, pose))
  {
  }

  lemma {:induction false} FaultFrame(s: State, id: nat)
    ensures Collapsed(s, EnterFault(s, id))
  {
  }

  /** What a phase of recovery or gripping may change besides the stand. */
  predicate MotionFrame(s: State, r: State) {
    || Collapsed(s, r)
    || (&& r.scan == s.scan && r.solve == s.solve && r.execute == s.execute && r.times == s.times
        && ((r.status.scan == s.status.scan && r.status.solution == s.status.solution)
            || (r.status.scan == EMPTY_SCAN && r.status.solution == EMPTY_SOLUTION)))
  }

  lemma {:induction false} RecoverStartLeaves(s: State, now: nat)
    requires s.motion.Some?
    ensures MotionFrame(s, RecoverStartStep(s, now))
  {
    hide StartRails, Outcome, Commanded, SetPhase, EnterFault;
    var cleared := SetPose(ClearScanAndSolution(s.(status := s.status.(session := None))), TRANSITIONAL);
    FaultFrame(CommandRails(cleared, MP.Pair(LeftRight), FarOpen), s.motion.value.id);
    PhaseFrame(CommandRails(cleared, MP.Pair(LeftRight), FarOpen), RecoverFinishLeftRight, now + s.times.railsOpen, 0);
  }

  lemma {:induction false} PhaseFrame(s: State, phase: Phase, deadline: nat, action: nat)
    requires s.motion.Some?
    ensures var r := SetPhase(s, phase, deadline, action);
            r == s.(motion := Some(s.motion.value.(phase := phase, deadline := Some(deadline))),
                    status := s.status.(operation := r.status.operation))
  {
  }

  lemma {:induction false} RecoverLeftRightLeaves(s: State, now: nat)
    requires s.motion.Some?
    ensures MotionFrame(s, RecoverLeftRightStep(s, now))
  {
    hide StartRails, StopRails, Outcome, Commanded, SetPhase, EnterFault;
    var finished := FinishRails(s, MP.Pair(LeftRight), FarOpen);
    var commanded := CommandRails(finished, MP.Pair(TopBottom), FarOpen);
    FaultFrame(finished, s.motion.value.id);
    FaultFrame(commanded, s.motion.value.id);
    PhaseFrame(commanded, RecoverFinishTopBottom, now + s.times.railsOpen, 1);
  }

  lemma {:induction false} RecoverTopBottomLeaves(s: State, now: nat)
    requires s.motion.Some?
    ensures MotionFrame(s, RecoverTopBottomStep(s, now))
  {
    hide StartGrippers, StopRails, Outcome, Commanded, SetPhase, EnterFault;
    var finished := FinishRails(s, MP.Pair(TopBottom), FarOpen);
    var commanded := CommandGrippers(finished, ALL_PERPENDICULAR);
    FaultFrame(finished, s.motion.value.id);
    FaultFrame(commanded, s.motion.value.id);
    PhaseFrame(commanded, RecoverFinishGrippers, now + s.times.gripperPose, 2);
  }

  lemma {:induction false} MotionEndLeaves(s: State)
    requires s.motion.Some?
    ensures MotionFrame(s, RecoverGrippersStep(s)) && MotionFrame(s, GripRailsStep(s))
  {
    hide StopGrippers, Outcome, Commanded, EnterFault;
    FaultFrame(Attempt(s, AllOff), s.motion.value.id);
    FaultFrame(Attempt(s, DisableAllRails), s.motion.value.id);
  }

  lemma {:induction false} GrippingLeaves(s: State, now: nat)
    requires s.motion.Some?
    ensures MotionFrame(s, GripStartStep(s, now)) && MotionFrame(s, GripGrippersStep(s, now))
  {
    hide StartRails, StartGrippers, StopGrippers, Outcome, Commanded, SetPhase, EnterFault;
    var commanded := CommandGrippers(SetPose(s, TRANSITIONAL), ALL_PERPENDICULAR);
    FaultFrame(commanded, s.motion.value.id);
    PhaseFrame(commanded, GripFinishGrippers, now + s.times.gripperPose, 0);
    var tried := Attempt(FinishGrippers(s, ALL_PERPENDICULAR), SetAllRails(NearGrip));
    FaultFrame(tried, s.motion.value.id);
    var rails := StartRails(StartRails(s.status.stand.rails, MP.Pair(LeftRight), NearGrip), MP.Pair(TopBottom), NearGrip);
    PhaseFrame(SetOutputs(SetRails(tried, rails), true), GripFinishRails, now + s.times.railsGrip, 1);
  }

  lemma {:induction false} MotionLeaves(s: State, now: nat)
    ensures MotionFrame(s, AdvanceMotion(s, now))
  {
    hide MotionFrame, RecoverStartStep, RecoverLeftRightStep, RecoverTopBottomStep, RecoverGrippersStep, GripStartStep,
         GripGrippersStep, GripRailsStep;
    if s.motion.Some? {
      RecoverStartLeaves(s, now);
      RecoverLeftRightLeaves(s, now);
      RecoverTopBottomLeaves(s, now);
      MotionEndLeaves(s);
      GrippingLeaves(s, now);
    }
    SelfFrame(s);
  }

  lemma {:induction false} SelfFrame(s: State)
    ensures MotionFrame(s, s)
  {
  }

  // ---- executions -----------------------------------------------------------------

  /** What an execution may change besides the stand. */
  predicate ExecutionFrame(s: State, r: State) {
    || Collapsed(s, r)
    || (&& r.motion == s.motion && r.scan == s.scan && r.solve == s.solve && r.times == s.times
        && (r.status.scan == s.status.scan || (r.status.scan == EMPTY_SCAN && r.status.solution == EMPTY_SOLUTION)))
  }

  lemma {:induction false} ExecutionEndLeaves(s: State, id: nat, kind: OperationKind)
    ensures ExecutionFrame(s, FinishExecute(s, id, kind)) && ExecutionFrame(s, MarkerStep(s, kind))
  {
  }

  lemma {:induction false} ExecutionLeaves(s: State, now: nat)
    ensures ExecutionFrame(s, AdvanceExecute(s, now))
  {
    hide CommandStep, FinishPending, StepDuration, Outcome, Commanded, EnterFault, FinishExecute, MarkerStep;
    if s.execute.Some? {
      var plan := s.execute.value;
      ExecutionEndLeaves(s.(execute := None), plan.id, plan.kind);
      if plan.pending.Some? {
        StepFrame(s, plan.pending.value);
        FaultFrame(FinishPending(s, plan.pending.value), plan.id);
      } else if plan.steps != [] {
        FaultFrame(s, plan.id);
        FaultFrame(Attempt(s, AllOff), plan.id);
        ExecutionEndLeaves(s.(execute := Some(plan.(steps := plan.steps[1..]))), plan.id, plan.kind);
        if plan.steps[0].Motion? {
          var pose := if plan.kind == OpenStand then TRANSITIONAL else StandPose(MovePose, Some(Front));
          StepFrame(SetPose(s, pose), plan.steps[0].step);
          FaultFrame(CommandStep(SetPose(s, pose), plan.steps[0].step), plan.id);
        }
      }
    }
  }
}

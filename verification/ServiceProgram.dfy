/** The service itself: an object whose methods update its status, its four activity slots,
    its counters, its request cache and its event queue in place. Every method is proved
    against the state machine of `RobotService`. */
module ServiceProgram {
  import opened Geometry
  import opened Stand
  import opened Options
  import opened Protocol
  import opened RS = RobotService
  import MP = MovePlanner
  import SP = ScanPlan
  import CS = CubeScan
  import StepPlanner

  lemma {:induction false} StringIsUnique(slots: CS.Slots, r: CS.Result<seq<LogicalFace>, CS.ScanError>)
    requires r.Ok? <==> CS.Acceptable(slots)
    requires r.Ok? ==> CS.Names(CS.ColorsOf(slots), r.value)
    ensures SolverString(slots) == if r.Ok? then Some(r.value) else None
  {
    if r.Ok? {
      CS.NamesUnique(CS.ColorsOf(slots), SolverString(slots).value, r.value);
    }
  }

  method FaceletLetters(slots: CS.Slots) returns (letters: Option<seq<LogicalFace>>)
    ensures letters == SolverString(slots)
  {
    var r := CS.FaceletString(slots);
    StringIsUnique(slots, r);
    letters := if r.Ok? then Some(r.value) else None;
  }

  /** The solver string of the published scan. */
  method PublishedLetters(scan: ScanStatus) returns (letters: Option<seq<LogicalFace>>)
    ensures letters == RebuiltString(scan)
  {
    var slots := RebuiltSlots(scan);
    if slots.None? {
      return None;
    }
    letters := FaceletLetters(slots.value);
  }

  function Released(s: State, controller: ControllerState): State {
    var status := s.status.(controller := controller, operation := None, stand := UNKNOWN_STAND, session := None,
                            scan := EMPTY_SCAN, solution := EMPTY_SOLUTION);
    s.(motion := None, scan := None, solve := None, execute := None, status := status)
  }

  function Larger(a: nat, b: nat): nat {
    if b > a then b else a
  }

  class RobotService {
    var status: StatusSnapshot
    var motion: Option<ActiveMotion>
    var scan: Option<ActiveScan>
    var solve: Option<ActiveSolve>
    var execute: Option<ActivePlan>
    var nextOperation: nat
    var nextSession: nat
    var nextRevision: nat
    var nextSolution: nat
    var cache: seq<Cached>
    var events: seq<Event>
    var out: Output
    const times: Calibration

    ghost function Value(): State
      reads this
    {
      State(status, motion, scan, solve, execute, nextOperation, nextSession, nextRevision, nextSolution,
            cache, events, out, times)
    }

    constructor (calibration: Calibration, script: seq<bool>)
      ensures Value() == Initial(calibration, script)
    {
      status := UNKNOWN_STATUS;
      motion, scan, solve, execute := None, None, None, None;
      nextOperation, nextSession, nextRevision, nextSolution := 1, 1, 1, 1;
      cache, events, out, times := [], [], Output(script, []), calibration;
    }

    // ---- outputs and events -------------------------------------------------------

    method Drive(command: PwmCommand) returns (ok: bool)
      modifies this
      ensures Value() == RS.Attempt(old(Value()), command) && ok == Outcome(old(out))
    {
      ok := Outcome(out);
      out := Commanded(out, command);
    }

    method EmitStand()
      modifies this
      ensures Value() == RS.EmitStand(old(Value()))
    {
      events := events + [StandStateChanged(status.stand)];
    }

    method EmitRobot()
      modifies this
      ensures Value() == RS.EmitRobot(old(Value()))
    {
      events := events + [RobotStateChanged(status.controller, status.operation)];
    }

    method Emit(event: Event)
      modifies this
      ensures Value() == RS.Emit(old(Value()), event)
    {
      events := events + [event];
    }

    method DrainEvents() returns (published: seq<Event>)
      modifies this
      ensures Value() == old(Value()).(events := []) && published == old(events)
    {
      published := events;
      events := [];
    }

    method SetPose(pose: StandPose)
      modifies this
      ensures Value() == RS.SetPose(old(Value()), pose)
    {
      status := status.(stand := status.stand.(pose := pose));
    }

    method Idle()
      modifies this
      ensures Value() == RS.SetOperation(RS.SetController(old(Value()), Ready), None)
    {
      status := status.(controller := Ready, operation := None);
    }

    method ClearScanAndSolution()
      modifies this
      ensures Value() == RS.ClearScanAndSolution(old(Value()))
    {
      status := status.(scan := EMPTY_SCAN, solution := EMPTY_SOLUTION);
    }

    method AdvanceCounter()
      modifies this
      ensures Value() == RS.AdvanceCounter(old(Value()))
    {
      if status.operation.Some? {
        var op := status.operation.value;
        status := status.(operation := Some(op.(currentAction := Increment(op.currentAction, 0xffff))));
      }
    }

    // ---- commanding the stand -----------------------------------------------------

    method CommandRails(target: MP.RailTarget, position: RailPosition) returns (ok: bool)
      modifies this
      ensures Value() == RS.CommandRails(old(Value()), target, position) && ok == Outcome(old(out))
    {
      ok := Drive(SetRailChannels(target, position));
      if ok {
        status := status.(stand := status.stand.(rails := StartRails(status.stand.rails, target, position), outputsEnabled := true));
      }
    }

    method FinishRails(target: MP.RailTarget, position: RailPosition) returns (ok: bool)
      modifies this
      ensures Value() == RS.FinishRails(old(Value()), target, position) && ok == Outcome(old(out))
    {
      ok := Drive(DisableRails(target));
      if ok {
        status := status.(stand := status.stand.(rails := StopRails(status.stand.rails, target, position)));
      }
    }

    /** Marks the posed grippers as moving, one after the other. */
    method MarkMoving(poses: seq<MP.Pose>)
      modifies this
      ensures Value() == RS.SetGrippers(old(Value()), StartGrippers(old(status).stand.grippers, poses))
    {
      var grippers := status.stand.grippers;
      for i := 0 to |poses|
        invariant StartGrippers(grippers, poses[i..]) == StartGrippers(old(status).stand.grippers, poses)
      {
        assert poses[i..][1..] == poses[i + 1..];
        grippers := grippers.Set(poses[i].side, StartGripper(grippers.Get(poses[i].side), poses[i].orientation));
      }
      status := status.(stand := status.stand.(grippers := grippers));
    }

    method CommandGrippers(poses: seq<MP.Pose>) returns (ok: bool)
      modifies this
      ensures Value() == RS.CommandGrippers(old(Value()), poses) && ok == Outcome(old(out))
    {
      hide StartGrippers;
      ok := Drive(SetGripperChannels(poses));
      if ok {
        MarkMoving(poses);
        status := status.(stand := status.stand.(outputsEnabled := true));
      }
    }

    method FinishGrippers(poses: seq<MP.Pose>)
      modifies this
      ensures Value() == RS.FinishGrippers(old(Value()), poses)
    {
      var grippers := status.stand.grippers;
      for i := 0 to |poses|
        invariant StopGrippers(grippers, poses[i..]) == StopGrippers(old(status).stand.grippers, poses)
      {
        assert poses[i..][1..] == poses[i + 1..];
        grippers := grippers.Set(poses[i].side, StableGripper(poses[i].orientation));
      }
      status := status.(stand := status.stand.(grippers := grippers));
    }

    /** The largest number of quarter turns among the posed grippers, at least one. */
    method LongestTurn(poses: seq<MP.Pose>) returns (turns: nat)
      ensures turns == QuarterTurns(status.stand.grippers, poses)
    {
      turns := 1;
      assert poses[0..] == poses;
      for i := 0 to |poses|
        invariant turns >= 1
        invariant QuarterTurns(status.stand.grippers, poses) == Larger(turns, QuarterTurns(status.stand.grippers, poses[i..]))
      {
        assert poses[i..][1..] == poses[i + 1..];
        var current := status.stand.grippers.Get(poses[i].side).current;
        if current.Some? {
          var delta := poses[i].orientation.Index() - current.value.Index();
          turns := Larger(turns, if delta < 0 then -delta else delta);
        }
      }
    }

    method Duration(step: MP.Step) returns (duration: nat)
      ensures duration == StepDuration(Value(), step)
    {
      match step {
        case SetRails(_, position) => duration := times.RailDuration(position);
        case SetGrippers(poses) =>
          var turns := LongestTurn(poses);
          duration := times.gripperPose * turns;
        case MoveCompleted => duration := 0;
        case AllOff => duration := 0;
      }
    }

    // ---- faults and aborts --------------------------------------------------------

    method EnterFault(operationId: nat)
      modifies this
      ensures Value() == RS.EnterFault(old(Value()), operationId)
    {
      var _ := Drive(PwmCommand.AllOff);
      Release(Faulted);
      status := status.(faulted := true);
      Emit(FaultEvent(if operationId == 0 then None else Some(operationId)));
      EmitRobot();
      EmitStand();
    }

    /** Everything about the cube is forgotten. */
    method Release(controller: ControllerState)
      modifies this
      ensures Value() == Released(old(Value()), controller)
    {
      motion, scan, solve, execute := None, None, None, None;
      status := status.(controller := controller, operation := None, stand := UNKNOWN_STAND, session := None);
      ClearScanAndSolution();
    }

    method Abort(operationId: Option<nat>)
      modifies this
      ensures Value() == RS.Abort(old(Value()), operationId)
    {
      hide RS.EnterFault, RS.Attempt, UNKNOWN_STAND, EMPTY_SCAN, EMPTY_SOLUTION;
      var ok := Drive(PwmCommand.AllOff);
      if !ok {
        EnterFault(if operationId.None? then 0 else operationId.value);
        return;
      }
      Release(Aborted);
      Emit(AbortedEvent(operationId));
      EmitRobot();
      EmitStand();
      Emit(CubeSessionChanged(None));
    }

    // ---- recovery and gripping ----------------------------------------------------

    method SetPhase(phase: Phase, deadline: nat, action: nat)
      requires motion.Some?
      modifies this
      ensures Value() == RS.SetPhase(old(Value()), phase, deadline, action)
    {
      motion := Some(motion.value.(phase := phase, deadline := Some(deadline)));
      if status.operation.Some? {
        status := status.(operation := Some(status.operation.value.(currentAction := action)));
      }
    }

    method CompleteMotion()
      requires motion.Some?
      modifies this
      ensures Value() == RS.CompleteMotion(old(Value()))
    {
      var active := motion.value;
      motion := None;
      Idle();
      EmitStand();
      EmitRobot();
      Emit(OperationCompleted(active.id, active.kind));
    }

    /** A phase that fails is followed by the fault that the caller enters. */
    ghost predicate PhaseEnds(ok: bool, intended: State, id: nat)
      reads this
    {
      if ok then Value() == intended else RS.EnterFault(Value(), id) == intended
    }

    method RecoverStart(now: nat) returns (ok: bool)
      requires motion.Some?
      modifies this
      ensures PhaseEnds(ok, RS.RecoverStartStep(old(Value()), now), old(motion).value.id)
    {
      hide StartRails;
      status := status.(session := None);
      ClearScanAndSolution();
      SetPose(TRANSITIONAL);
      ok := CommandRails(MP.Pair(LeftRight), FarOpen);
      if ok {
        SetPhase(Phase.RecoverFinishLeftRight, now + times.railsOpen, 0);
        EmitStand();
      }
    }

    method RecoverFinishLeftRight(now: nat) returns (ok: bool)
      requires motion.Some?
      modifies this
      ensures PhaseEnds(ok, RS.RecoverLeftRightStep(old(Value()), now), old(motion).value.id)
    {
      hide StartRails, StopRails, RS.EnterFault;
      ok := FinishRails(MP.Pair(LeftRight), FarOpen);
      if ok {
        ok := CommandRails(MP.Pair(TopBottom), FarOpen);
        if ok {
          SetPhase(Phase.RecoverFinishTopBottom, now + times.railsOpen, 1);
          EmitStand();
        }
      }
    }

    method RecoverFinishTopBottom(now: nat) returns (ok: bool)
      requires motion.Some?
      modifies this
      ensures PhaseEnds(ok, RS.RecoverTopBottomStep(old(Value()), now), old(motion).value.id)
    {
      hide StartGrippers, StopRails, RS.EnterFault;
      ok := FinishRails(MP.Pair(TopBottom), FarOpen);
      if ok {
        ok := CommandGrippers(ALL_PERPENDICULAR);
        if ok {
          SetPhase(Phase.RecoverFinishGrippers, now + times.gripperPose, 2);
          EmitStand();
        }
      }
    }

    method RecoverFinishGrippers() returns (ok: bool)
      requires motion.Some?
      modifies this
      ensures PhaseEnds(ok, RS.RecoverGrippersStep(old(Value())), old(motion).value.id)
    {
      hide StopGrippers, RS.EnterFault;
      ok := Drive(PwmCommand.AllOff);
      if ok {
        FinishGrippers(ALL_PERPENDICULAR);
        status := status.(stand := status.stand.(outputsEnabled := false));
        SetPose(StandPose(Open, None));
        CompleteMotion();
      }
    }

    method GripStart(now: nat) returns (ok: bool)
      requires motion.Some?
      modifies this
      ensures PhaseEnds(ok, RS.GripStartStep(old(Value()), now), old(motion).value.id)
    {
      hide StartGrippers, RS.EnterFault;
      SetPose(TRANSITIONAL);
      ok := CommandGrippers(ALL_PERPENDICULAR);
      if ok {
        SetPhase(Phase.GripFinishGrippers, now + times.gripperPose, 0);
        EmitStand();
      }
    }

    method GripFinishGrippers(now: nat) returns (ok: bool)
      requires motion.Some?
      modifies this
      ensures PhaseEnds(ok, RS.GripGrippersStep(old(Value()), now), old(motion).value.id)
    {
      hide StopGrippers, StartRails, RS.EnterFault;
      FinishGrippers(ALL_PERPENDICULAR);
      ok := Drive(SetAllRails(NearGrip));
      if ok {
        var rails := StartRails(StartRails(status.stand.rails, MP.Pair(LeftRight), NearGrip), MP.Pair(TopBottom), NearGrip);
        status := status.(stand := status.stand.(rails := rails, outputsEnabled := true));
        SetPhase(Phase.GripFinishRails, now + times.railsGrip, 1);
        EmitStand();
      }
    }

    method GripFinishRails() returns (ok: bool)
      requires motion.Some?
      modifies this
      ensures PhaseEnds(ok, RS.GripRailsStep(old(Value())), old(motion).value.id)
    {
      hide RS.EnterFault;
      ok := Drive(DisableAllRails);
      if ok {
        status := status.(stand := status.stand.(rails := AllSides(StableRail(NearGrip))));
        SetPose(CANONICAL);
        var session := nextSession;
        nextSession := NextId(nextSession);
        status := status.(session := Some(session));
        Emit(CubeSessionChanged(Some(session)));
        CompleteMotion();
      }
    }

    method AdvanceMotion(now: nat)
      modifies this
      ensures Value() == RS.AdvanceMotion(old(Value()), now)
    {
      hide RecoverStartStep, RecoverLeftRightStep, RecoverTopBottomStep, RecoverGrippersStep, GripStartStep,
           GripGrippersStep, GripRailsStep, RS.EnterFault;
      if motion.None? || (motion.value.deadline.Some? && now < motion.value.deadline.value) {
        return;
      }
      var active := motion.value;
      var ok: bool;
      match active.phase {
        case RecoverStart => ok := RecoverStart(now);
        case RecoverFinishLeftRight => ok := RecoverFinishLeftRight(now);
        case RecoverFinishTopBottom => ok := RecoverFinishTopBottom(now);
        case RecoverFinishGrippers => ok := RecoverFinishGrippers();
        case GripStart => ok := GripStart(now);
        case GripFinishGrippers => ok := GripFinishGrippers(now);
        case GripFinishRails => ok := GripFinishRails();
      }
      if !ok {
        EnterFault(active.id);
      }
    }

    // ---- scanning -----------------------------------------------------------------

    /** Ends the step in motion. */
    method FinishPending(pending: MP.Step) returns (ok: bool)
      modifies this
      ensures Value() == RS.FinishPending(old(Value()), pending) && ok == PendingSucceeds(old(Value()), pending)
    {
      ok := true;
      match pending {
        case SetRails(target, position) => ok := FinishRails(target, position);
        case SetGrippers(poses) => FinishGrippers(poses);
        case MoveCompleted =>
        case AllOff =>
      }
    }

    /** Starts a mechanical step, in a published pose. */
    method CommandStep(step: MP.Step, pose: StandPose) returns (ok: bool)
      requires step.SetRails? || step.SetGrippers?
      modifies this
      ensures Value() == RS.CommandStep(RS.SetPose(old(Value()), pose), step) && ok == Outcome(old(out))
    {
      SetPose(pose);
      match step {
        case SetRails(target, position) => ok := CommandRails(target, position);
        case SetGrippers(poses) => ok := CommandGrippers(poses);
      }
    }

    method Capture(active: ActiveScan, face: LogicalFace, env: Env)
      modifies this
      ensures Value() == RS.CaptureStep(old(Value()), active, face, env)
    {
      hide Record;
      SetPose(StandPose(ScanPose, Some(face)));
      status := status.(scan := status.scan.(currentFace := Some(face)));
      scan := Some(active);
      if active.failure.None? {
        var recorded := if env.capture.Seen? then Record(active.cube, face, env.capture.face) else None;
        if recorded.Some? {
          status := status.(scan := status.scan.(faces := status.scan.faces[face := env.capture.face],
                                                 scannedFaces := status.scan.scannedFaces + {face}));
          scan := Some(active.(cube := recorded.value));
          Emit(FaceScanned(active.plan.id, face, env.capture.face, status.scan.scannedFaces));
        } else {
          scan := Some(active.(failure := Some(RecognitionFailure)));
          var error := match env.capture
            case Seen(_) => InvalidFacelet
            case WrongCountSeen => WrongDetectionCount
            case CameraError => InferenceFailure;
          status := status.(scan := status.scan.(validationError := Some(error)));
        }
      }
      AdvanceCounter();
      EmitStand();
    }

    method BeginSolver(id: nat, kind: OperationKind, revision: nat, letters: seq<LogicalFace>)
      modifies this
      ensures Value() == RS.BeginSolver(old(Value()), id, kind, revision, letters)
    {
      status := status.(solution := EMPTY_SOLUTION.(state := Solving, sourceScanRevision := Some(revision)));
      solve := Some(ActiveSolve(id, kind, revision, letters));
    }

    method FinishScan(active: ActiveScan)
      modifies this
      ensures Value() == RS.FinishScan(old(Value()), active)
    {
      hide SolverString;
      var letters := None;
      if active.failure.None? {
        letters := FaceletLetters(active.cube);
      }
      var failure := if active.failure.Some? then active.failure else if letters.None? then Some(FaceletFailure) else None;
      status := status.(scan := status.scan.(currentFace := None, state := if failure.Some? then Invalid else Valid));
      if failure == Some(FaceletFailure) {
        status := status.(scan := status.scan.(validationError := Some(InvalidFacelet)));
      }
      SetPose(CANONICAL);
      EmitStand();
      if failure.Some? {
        Idle();
        EmitRobot();
        Emit(OperationFailed(active.plan.id, failure.value));
      } else if active.plan.kind == ScanSolveExecute {
        var revision := if status.scan.revision.Some? then status.scan.revision.value else 0;
        if status.operation.Some? {
          var op := status.operation.value;
          status := status.(operation := Some(op.(currentAction := op.actionCount, actionCount := Increment(op.actionCount, 0xffff))));
        }
        BeginSolver(active.plan.id, active.plan.kind, revision, letters.value);
        EmitRobot();
      } else {
        Idle();
        EmitRobot();
        Emit(OperationCompleted(active.plan.id, active.plan.kind));
      }
    }

    method AdvanceScan(now: nat, env: Env)
      modifies this
      ensures Value() == RS.AdvanceScan(old(Value()), now, env)
    {
      hide RS.FinishScan, RS.CaptureStep, RS.EnterFault, RS.FinishPending, RS.CommandStep, StepDuration;
      if scan.None? {
        return;
      }
      var active := scan.value;
      var plan := active.plan;
      if plan.deadline.Some? && now < plan.deadline.value {
        return;
      }
      if plan.pending.Some? {
        var ok := FinishPending(plan.pending.value);
        if !ok {
          EnterFault(plan.id);
          return;
        }
        scan := Some(active.(plan := plan.(pending := None, deadline := None)));
        AdvanceCounter();
        EmitStand();
        return;
      }
      if plan.steps == [] {
        scan := None;
        FinishScan(active);
        return;
      }
      var step := plan.steps[0];
      plan := plan.(steps := plan.steps[1..]);
      match step {
        case Capture(face) => Capture(active.(plan := plan), face, env);
        case Motion(motionStep) =>
          if motionStep.MoveCompleted? || motionStep.AllOff? {
            EnterFault(plan.id);
            return;
          }
          var duration := Duration(motionStep);
          var ok := CommandStep(motionStep, TRANSITIONAL);
          if !ok {
            EnterFault(plan.id);
          } else {
            scan := Some(active.(plan := Started(plan, motionStep, now + duration)));
          }
      }
    }

    // ---- solving ------------------------------------------------------------------

    method FinishSolveFailure(id: nat)
      modifies this
      ensures Value() == RS.SolveFailure(old(Value()), id)
    {
      status := status.(solution := EMPTY_SOLUTION);
      Idle();
      EmitRobot();
      Emit(OperationFailed(id, SolverNoSolution));
    }

    /** The execute plan: the planner's steps, then the orderly release. */
    method ExecutePlan(moves: seq<MP.CubeMove>) returns (steps: seq<MP.Step>)
      ensures steps == MP.ExecuteSteps(moves)
    {
      hide MP.OptimizedPlan;
      var planned := StepPlanner.OptimizedSteps(moves, MP.Release);
      steps := planned + MP.OPEN_STEPS;
    }

    method BeginExecution(active: ActiveSolve, steps: seq<SP.MotionStep>)
      modifies this
      ensures Value() == RS.BeginExecution(old(Value()), active, steps)
    {
      status := status.(solution := status.solution.(state := Executing));
      if status.operation.Some? {
        var op := status.operation.value;
        var current := Increment(op.currentAction, 0xffff);
        status := status.(operation := Some(op.(currentAction := current,
                                                actionCount := Min(current + |steps| % 0x1_0000, 0xffff))));
      }
      execute := Some(ActivePlan(active.id, active.kind, steps, None, None));
      EmitRobot();
    }

    method AdvanceSolve(env: Env)
      modifies this
      ensures Value() == RS.AdvanceSolve(old(Value()), env)
    {
      hide MP.ExecuteSteps, RS.BeginExecution, RS.SolveFailure;
      if solve.None? || env.solver.StillSolving? {
        return;
      }
      var active := solve.value;
      solve := None;
      if !env.solver.Solved? || |env.solver.moves| > MAX_SOLUTION_MOVES {
        FinishSolveFailure(active.id);
        return;
      }
      var solution := nextSolution;
      nextSolution := NextId(nextSolution);
      status := status.(solution := SolutionStatus(Prepared, Some(solution), Some(active.revision), env.solver.moves, 0));
      if active.kind == ScanSolveExecute {
        var planned := ExecutePlan(env.solver.moves);
        BeginExecution(active, MotionSteps(planned));
      } else {
        Idle();
        EmitRobot();
        Emit(OperationCompleted(active.id, active.kind));
      }
    }

    // ---- executing ----------------------------------------------------------------

    method FinishExecute(id: nat, kind: OperationKind)
      modifies this
      ensures Value() == RS.FinishExecute(old(Value()), id, kind)
    {
      Idle();
      if kind == OperationKind.ExecuteMoves {
        SetPose(CANONICAL);
        EmitRobot();
        EmitStand();
        Emit(OperationCompleted(id, kind));
        return;
      }
      SetPose(StandPose(Open, None));
      status := status.(session := None, stand := status.stand.(outputsEnabled := false));
      ClearScanAndSolution();
      EmitRobot();
      EmitStand();
      Emit(CubeSessionChanged(None));
      Emit(OperationCompleted(id, kind));
    }

    method CompleteMove(kind: OperationKind)
      modifies this
      ensures Value() == RS.MarkerStep(old(Value()), kind)
    {
      if kind == OperationKind.ExecuteMoves {
        ClearScanAndSolution();
      } else {
        status := status.(solution := status.solution.(completedMoves := Increment(status.solution.completedMoves, 0xff)));
      }
      SetPose(StandPose(MovePose, None));
      AdvanceCounter();
      EmitStand();
    }

    method AdvanceExecute(now: nat)
      modifies this
      ensures Value() == RS.AdvanceExecute(old(Value()), now)
    {
      hide RS.FinishExecute, RS.MarkerStep, RS.EnterFault, RS.FinishPending, RS.CommandStep, StepDuration;
      if execute.None? {
        return;
      }
      var plan := execute.value;
      if plan.deadline.Some? && now < plan.deadline.value {
        return;
      }
      if plan.pending.Some? {
        var ok := FinishPending(plan.pending.value);
        if !ok {
          EnterFault(plan.id);
          return;
        }
        execute := Some(plan.(pending := None, deadline := None));
        AdvanceCounter();
        EmitStand();
        return;
      }
      if plan.steps == [] {
        execute := None;
        FinishExecute(plan.id, plan.kind);
        return;
      }
      var next := plan.steps[0];
      plan := plan.(steps := plan.steps[1..]);
      match next {
        case Capture(_) => EnterFault(plan.id);
        case Motion(step) => AdvanceStep(plan, step, now);
      }
    }

    /** Takes the next step of an execution. */
    method AdvanceStep(plan: ActivePlan, step: MP.Step, now: nat)
      requires execute.Some? && plan == execute.value.(steps := plan.steps) && plan.pending.None?
      requires execute.value.steps == [SP.Motion(step)] + plan.steps
      requires plan.deadline.Some? ==> now >= plan.deadline.value
      modifies this
      ensures Value() == RS.AdvanceExecute(old(Value()), now)
    {
      hide RS.FinishExecute, RS.MarkerStep, RS.EnterFault, RS.FinishPending, RS.CommandStep, StepDuration, RS.AdvanceCounter, Commanded;
      assert execute.value.steps[1..] == plan.steps;
      match step {
        case MoveCompleted =>
          execute := Some(plan);
          CompleteMove(plan.kind);
        case AllOff =>
          var ok := Drive(PwmCommand.AllOff);
          if !ok {
            EnterFault(plan.id);
          } else {
            status := status.(stand := status.stand.(outputsEnabled := false));
            AdvanceCounter();
            execute := Some(plan);
          }
        case _ =>
          var duration := Duration(step);
          var pose := if plan.kind == OpenStand then TRANSITIONAL else StandPose(MovePose, Some(Front));
          var ok := CommandStep(step, pose);
          if !ok {
            EnterFault(plan.id);
          } else {
            execute := Some(Started(plan, step, now + duration));
          }
      }
    }

    // ---- admission ----------------------------------------------------------------

    predicate Active()
      reads this
    {
      motion.Some? || scan.Some? || solve.Some? || execute.Some?
    }

    function Rejected(requestId: nat, reason: RejectionReason): Response
      reads this
    {
      Response(requestId, ResponsePayload.Rejected(reason, status.controller))
    }

    /** What every command on the held cube must pass. */
    method CheckSession(session: nat) returns (refusal: Option<RejectionReason>)
      ensures refusal == SessionRefusal(Value(), session)
    {
      if Active() {
        return Some(OperationAlreadyActive);
      }
      if status.controller != Ready {
        return Some(InvalidControllerState);
      }
      if status.session.None? {
        return Some(SessionUnavailable);
      }
      if status.session.value != session {
        return Some(SessionMismatch);
      }
      refusal := None;
    }

    method CheckRevision(revision: nat) returns (refusal: Option<RejectionReason>)
      ensures refusal == RevisionRefusal(Value(), revision)
    {
      if status.scan.state != Valid {
        return Some(ScanUnavailable);
      }
      if status.scan.revision != Some(revision) {
        return Some(ScanRevisionMismatch);
      }
      refusal := None;
    }

    method Admit(kind: OperationKind, actions: nat)
      modifies this
      ensures Value() == RS.Admit(old(Value()), kind, actions)
    {
      var id := nextOperation;
      nextOperation := NextId(nextOperation);
      status := status.(controller := Busy, operation := Some(OperationStatus(id, kind, 0, actions)));
    }

    /** A response agrees with the admission rule: the operation's identifier, or the first
        reason against it. */
    ghost predicate Answers(response: Response, before: State, requestId: nat, refusal: Option<RejectionReason>) {
      response == if refusal.Some? then RejectedResponse(before, requestId, refusal.value) else AcceptedResponse(before, requestId)
    }

    method StartMotion(requestId: nat, kind: OperationKind) returns (response: Response)
      requires kind == RecoverToOpen || kind == Grip
      modifies this
      ensures Value() == RS.StartMotion(old(Value()), kind)
      ensures Answers(response, old(Value()), requestId, MotionRefusal(old(Value()), kind))
    {
      if Active() {
        return Rejected(requestId, OperationAlreadyActive);
      }
      if kind == Grip {
        if status.controller != Ready {
          return Rejected(requestId, InvalidControllerState);
        }
        if status.stand.pose.kind != Open {
          return Rejected(requestId, if status.stand.pose.kind == UnknownPose then StandPositionUnknown else StandPoseMismatch);
        }
        if status.session.Some? {
          return Rejected(requestId, SessionUnavailable);
        }
      }
      var id := nextOperation;
      Admit(kind, if kind == RecoverToOpen then 3 else 2);
      status := status.(faulted := false);
      motion := Some(ActiveMotion(id, kind, if kind == RecoverToOpen then Phase.RecoverStart else Phase.GripStart, None));
      EmitRobot();
      response := Response(requestId, Accepted(Some(id)));
    }

    method StartScanOperation(requestId: nat, session: nat, kind: OperationKind, env: Env) returns (response: Response)
      modifies this
      ensures Value() == RS.StartScanOperation(old(Value()), session, kind, env)
      ensures Answers(response, old(Value()), requestId, ScanRefusal(old(Value()), session, env))
    {
      hide SP.SCAN_STEPS;
      if !env.scannerAvailable {
        return Rejected(requestId, UnsupportedCommand);
      }
      var refusal := CheckSession(session);
      if refusal.Some? {
        return Rejected(requestId, refusal.value);
      }
      if status.stand.pose.kind != CanonicalPose {
        return Rejected(requestId, StandPoseMismatch);
      }
      if !env.scanBegins {
        return Rejected(requestId, InvalidControllerState);
      }
      var revision, id := nextRevision, nextOperation;
      nextRevision := NextId(nextRevision);
      Admit(kind, |SP.SCAN_STEPS|);
      status := status.(scan := EMPTY_SCAN.(state := InProgress, revision := Some(revision)), solution := EMPTY_SOLUTION);
      scan := Some(ActiveScan(ActivePlan(id, kind, SP.SCAN_STEPS, None, None), EMPTY_SLOTS, None));
      EmitRobot();
      response := Response(requestId, Accepted(Some(id)));
    }

    method StartSolve(requestId: nat, session: nat, revision: nat) returns (response: Response)
      modifies this
      ensures Value() == RS.StartSolve(old(Value()), session, revision)
      ensures Answers(response, old(Value()), requestId, SolveRefusal(old(Value()), session, revision))
    {
      hide RebuiltString;
      var refusal := CheckSession(session);
      if refusal.None? {
        refusal := CheckRevision(revision);
      }
      if refusal.Some? {
        return Rejected(requestId, refusal.value);
      }
      if status.stand.pose.kind != CanonicalPose {
        return Rejected(requestId, StandPoseMismatch);
      }
      var letters := PublishedLetters(status.scan);
      if letters.None? {
        return Rejected(requestId, ScanUnavailable);
      }
      var id := nextOperation;
      Admit(Solve, 1);
      BeginSolver(id, Solve, revision, letters.value);
      EmitRobot();
      response := Response(requestId, Accepted(Some(id)));
    }

    /** Begins to follow a plan. */
    method StartPlan(requestId: nat, kind: OperationKind, steps: seq<MP.Step>) returns (response: Response)
      modifies this
      ensures Value() == RS.StartPlan(old(Value()), kind, steps)
      ensures response == AcceptedResponse(old(Value()), requestId)
    {
      var id := nextOperation;
      Admit(kind, |steps|);
      execute := Some(ActivePlan(id, kind, MotionSteps(steps), None, None));
      EmitRobot();
      response := Response(requestId, Accepted(Some(id)));
    }

    method StartExecute(requestId: nat, session: nat, revision: nat, solution: nat) returns (response: Response)
      modifies this
      ensures Value() == RS.StartExecute(old(Value()), session, revision, solution)
      ensures Answers(response, old(Value()), requestId, ExecuteRefusal(old(Value()), session, revision, solution))
    {
      hide MP.ExecuteSteps, RS.StartPlan;
      var refusal := CheckSession(session);
      if refusal.None? {
        refusal := CheckRevision(revision);
      }
      if refusal.Some? {
        return Rejected(requestId, refusal.value);
      }
      if status.solution.state != Prepared {
        return Rejected(requestId, SolutionUnavailable);
      }
      if status.solution.id != Some(solution) || status.solution.sourceScanRevision != Some(revision) {
        return Rejected(requestId, SolutionMismatch);
      }
      if status.stand.pose.kind != CanonicalPose {
        return Rejected(requestId, StandPoseMismatch);
      }
      var steps := ExecutePlan(status.solution.moves);
      status := status.(solution := status.solution.(state := Executing, completedMoves := 0));
      response := StartPlan(requestId, Execute, steps);
    }

    method StartExecuteMoves(requestId: nat, session: nat, moves: seq<MP.CubeMove>) returns (response: Response)
      modifies this
      ensures Value() == RS.StartExecuteMoves(old(Value()), session, moves)
      ensures Answers(response, old(Value()), requestId, ExecuteMovesRefusal(old(Value()), session, moves))
    {
      hide MP.OptimizedPlan, RS.StartPlan;
      if moves == [] || |moves| > MAX_SOLUTION_MOVES {
        return Rejected(requestId, InvalidPayload);
      }
      var refusal := CheckSession(session);
      if refusal.Some? {
        return Rejected(requestId, refusal.value);
      }
      if status.stand.pose.kind != CanonicalPose {
        return Rejected(requestId, StandPoseMismatch);
      }
      var steps := StepPlanner.OptimizedSteps(moves, MP.CanonicalHeld);
      response := StartPlan(requestId, OperationKind.ExecuteMoves, steps);
    }

    method StartOpen(requestId: nat, session: nat) returns (response: Response)
      modifies this
      ensures Value() == RS.StartOpen(old(Value()), session)
      ensures Answers(response, old(Value()), requestId, OpenRefusal(old(Value()), session))
    {
      hide RS.StartPlan;
      var refusal := CheckSession(session);
      if refusal.Some? {
        return Rejected(requestId, refusal.value);
      }
      if status.stand.pose.kind != CanonicalPose {
        return Rejected(requestId, StandPoseMismatch);
      }
      response := StartPlan(requestId, OpenStand, MP.OPEN_STEPS);
    }

    // ---- requests -----------------------------------------------------------------

    method Obey(requestId: nat, command: Command, env: Env) returns (response: Response)
      modifies this
      ensures (Value(), response) == (RS.Obey(old(Value()), command, env), Reply(old(Value()), requestId, command, env))
    {
      hide RS.StartMotion, RS.StartScanOperation, RS.StartSolve, RS.StartExecute, RS.StartExecuteMoves, RS.StartOpen,
           RS.Abort, ScanRefusal, SolveRefusal, ExecuteRefusal, ExecuteMovesRefusal, OpenRefusal, MotionRefusal;
      match command {
        case GetStatus => response := Response(requestId, Status(status));
        case RecoverCommand => response := StartMotion(requestId, RecoverToOpen);
        case GripCommand => response := StartMotion(requestId, Grip);
        case StartScan(session) => response := StartScanOperation(requestId, session, Scan, env);
        case SolveCommand(session, revision) => response := StartSolve(requestId, session, revision);
        case ExecuteCommand(session, revision, solution) => response := StartExecute(requestId, session, revision, solution);
        case ExecuteMovesCommand(session, moves) => response := StartExecuteMoves(requestId, session, moves);
        case ScanSolveExecuteCommand(session) => response := StartScanOperation(requestId, session, ScanSolveExecute, env);
        case OpenCommand(session) => response := StartOpen(requestId, session);
        case AbortCommand =>
          Abort(if status.operation.None? then None else Some(status.operation.value.id));
          response := Response(requestId, Accepted(None));
      }
    }

    method Dispatch(packet: Packet, env: Env) returns (response: Response)
      modifies this
      ensures (Value(), response) == RS.Dispatch(old(Value()), packet, env)
    {
      hide RS.Obey, Reply;
      if !packet.isRequest || packet.requestId == 0 {
        return Rejected(packet.requestId, InvalidPayload);
      }
      if !packet.knownOpcode {
        return Rejected(packet.requestId, UnsupportedCommand);
      }
      if packet.command.None? {
        return Rejected(packet.requestId, InvalidPayload);
      }
      response := Obey(packet.requestId, packet.command.value, env);
    }

    /** Finds the first cached response to a request identifier. */
    method FindCached(requestId: nat) returns (i: nat)
      ensures i == CacheIndex(cache, requestId)
    {
      i := 0;
      assert cache[0..] == cache;
      while i < |cache| && cache[i].response.requestId != requestId
        invariant i <= |cache| && CacheIndex(cache, requestId) == i + CacheIndex(cache[i..], requestId)
      {
        assert cache[i..][1..] == cache[i + 1..];
        i := i + 1;
      }
    }

    method CacheResponse(opcode: nat, response: Response)
      modifies this
      ensures Value() == RS.CacheResponse(old(Value()), opcode, response)
    {
      if response.requestId == 0 {
        return;
      }
      if |cache| == REQUEST_CACHE_CAPACITY {
        cache := cache[1..];
      }
      cache := cache + [Cached(opcode, response)];
    }

    method HandlePacket(packet: Packet, env: Env) returns (response: Response, published: seq<Event>)
      modifies this
      ensures (Value(), response, published) == RS.HandlePacket(old(Value()), packet, env)
    {
      hide RS.Dispatch, RS.CacheResponse;
      var i := FindCached(packet.requestId);
      if i < |cache| {
        if cache[i].opcode == packet.opcode {
          response := cache[i].response;
        } else {
          response := Rejected(packet.requestId, InvalidPayload);
        }
      } else {
        response := Dispatch(packet, env);
        CacheResponse(packet.opcode, response);
      }
      published := DrainEvents();
    }

    method HandleLocal(command: LocalCommand, env: Env) returns (payload: ResponsePayload, published: seq<Event>)
      modifies this
      ensures (Value(), payload, published) == RS.HandleLocal(old(Value()), command, env)
    {
      hide RS.Obey, Reply;
      var response := Obey(0, LocalAsCommand(command), env);
      payload := response.payload;
      published := DrainEvents();
    }

    /** One iteration of the daemon. */
    method Tick(now: nat, env: Env) returns (published: seq<Event>)
      modifies this
      ensures (Value(), published) == RS.Tick(old(Value()), now, env)
    {
      hide RS.AdvanceMotion, RS.AdvanceScan, RS.AdvanceSolve, RS.AdvanceExecute;
      AdvanceMotion(now);
      AdvanceScan(now, env);
      AdvanceSolve(env);
      AdvanceExecute(now);
      published := DrainEvents();
    }
  }
}

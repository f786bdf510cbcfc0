/** What a tick achieves: it fails exactly when a servo command in it fails, it publishes the
    solver's answer, and late ticks bring every operation to its end. */
module ServiceProgress {
  import opened Geometry
  import opened Stand
  import opened Options
  import opened Protocol
  import opened RobotService
  import opened ServiceInvariants
  import opened ServiceWorld
  import opened ServiceCube
  import MP = MovePlanner
  import Mechanics
  import PS = PlanSafety
  import SP = ScanPlan

  // ---- failed commands ------------------------------------------------------------

  /** How many servo commands have failed. */
  function Failures(log: seq<(PwmCommand, bool)>): nat {
    if log == [] then 0 else Failures(log[..|log| - 1]) + if log[|log| - 1].1 then 0 else 1
  }

  lemma {:induction false} OneMore(out: Output, command: PwmCommand)
    ensures Failures(Commanded(out, command).log) == Failures(out.log) + if Outcome(out) then 0 else 1
  {
    var log := Commanded(out, command).log;
    assert log[..|log| - 1] == out.log;
  }

  /** The last command switches everything off. */
  predicate EndsOff(log: seq<(PwmCommand, bool)>) {
    log != [] && log[|log| - 1].0 == PwmCommand.AllOff
  }

  /** The rest of the driver's outcomes are successes. */
  predicate Sure(out: Output) {
    forall i :: 0 <= i < |out.script| ==> out.script[i]
  }

  lemma {:induction false} SureStays(out: Output, command: PwmCommand)
    requires Sure(out)
    ensures Outcome(out) && Sure(Commanded(out, command))
  {
  }

  // ---- what is left to do ---------------------------------------------------------

  const LONGEST_PLAN := 675

  /** Ticks that a plan needs, when each comes late enough. */
  function TicksOf(plan: ActivePlan): nat {
    2 * |plan.steps| + (if plan.pending.Some? then 1 else 0) + 1
  }

  function TicksOfPhase(phase: Phase): nat {
    match phase
    case RecoverStart => 4
    case RecoverFinishLeftRight => 3
    case RecoverFinishTopBottom => 2
    case RecoverFinishGrippers => 1
    case GripStart => 3
    case GripFinishGrippers => 2
    case GripFinishRails => 1
  }

  function TicksOfSolve(kind: OperationKind): nat {
    if kind == ScanSolveExecute then 2 * LONGEST_PLAN + 2 else 1
  }

  /** Ticks that are left until the operation is over. */
  function Left(s: State): nat {
    if s.motion.Some? then TicksOfPhase(s.motion.value.phase)
    else if s.scan.Some? then TicksOf(s.scan.value.plan) + TicksOfSolve(s.scan.value.plan.kind)
    else if s.solve.Some? then TicksOfSolve(s.solve.value.kind)
    else if s.execute.Some? then TicksOf(s.execute.value)
    else 0
  }

  /** The time by which the motion that is under way is over. */
  function DeadlineOf(s: State): Option<nat> {
    if s.motion.Some? then s.motion.value.deadline
    else if s.scan.Some? then s.scan.value.plan.deadline
    else if s.execute.Some? then s.execute.value.deadline
    else None
  }

  /** No motion takes longer. */
  function Longest(times: Calibration): nat {
    var rails := if times.railsOpen < times.railsGrip then times.railsGrip else times.railsOpen;
    if rails < 2 * times.gripperPose then 2 * times.gripperPose else rails
  }

  /** Whatever is under way now is over soon. */
  predicate Timely(s: State, now: nat) {
    DeadlineOf(s).Some? ==> DeadlineOf(s).value <= now + Longest(s.times)
  }

  /** Only a motion has a deadline. */
  predicate Unhurried(s: State) {
    && (s.motion.Some? && s.motion.value.phase in {RecoverStart, GripStart} ==> s.motion.value.deadline.None?)
    && (s.scan.Some? && s.scan.value.plan.pending.None? ==> s.scan.value.plan.deadline.None?)
    && (s.execute.Some? && s.execute.value.pending.None? ==> s.execute.value.deadline.None?)
  }

  /** A part of a tick: it fails exactly when a command in it fails; otherwise the operation
      goes on with less left to do, or ends and leaves the robot ready. */
  predicate Advanced(a: State, b: State, now: nat) {
    && b.times == a.times && Timely(b, now) && Unhurried(b)
    && Failures(b.out.log) >= Failures(a.out.log)
    && (Sure(a.out) ==> Sure(b.out) && Failures(b.out.log) == Failures(a.out.log))
    && (b.status.controller == Faulted <==> Failures(b.out.log) > Failures(a.out.log))
    && (b.status.controller == Faulted ==> EndsOff(b.out.log))
    && (|| (b.status.controller == Faulted && b.status.operation.None?)
        || (b.status.controller == Ready && b.status.operation.None? && Left(b) == 0)
        || (b.status.controller == Busy && Busily(a, b) && Left(b) < Left(a)))
  }

  /** The same operation goes on. */
  predicate Busily(a: State, b: State) {
    && a.status.operation.Some? && b.status.operation.Some?
    && b.status.operation.value.id == a.status.operation.value.id && b.status.operation.value.kind == a.status.operation.value.kind
  }

  predicate Working(s: State) {
    s.status.controller == Busy && s.status.operation.Some?
  }

  // ---- commands -------------------------------------------------------------------

  /** What one servo command does: it fails, or not, and publishes nothing but the stand. */
  predicate Tried(a: State, b: State, worked: bool) {
    && StandOnly(a, b) && Failures(b.out.log) == Failures(a.out.log) + (if worked then 0 else 1)
    && (Sure(a.out) ==> worked && Sure(b.out))
  }

  lemma {:induction false} StepTried(s: State, step: MP.Step)
    requires step.SetRails? || step.SetGrippers?
    ensures Tried(s, CommandStep(s, step), Outcome(s.out))
  {
    hide StartRails, StartGrippers, Failures, Sure, StopRails, StopGrippers;
    StepFrame(s, step);
    match step {
      case SetRails(target, position) => TriedOut(s.out, SetRailChannels(target, position));
      case SetGrippers(poses) => TriedOut(s.out, SetGripperChannels(poses));
    }
  }

  lemma {:induction false} TriedOut(out: Output, command: PwmCommand)
    ensures Failures(Commanded(out, command).log) == Failures(out.log) + if Outcome(out) then 0 else 1
    ensures Sure(out) ==> Outcome(out) && Sure(Commanded(out, command))
  {
    OneMore(out, command);
    if Sure(out) {
      SureStays(out, command);
    }
  }

  lemma {:induction false} PendingTried(s: State, step: MP.Step)
    ensures Tried(s, FinishPending(s, step), PendingSucceeds(s, step))
  {
    hide StopRails, StopGrippers, Failures, Sure;
    StepFrame(s, step);
    if step.SetRails? {
      TriedOut(s.out, DisableRails(step.target));
    }
  }

  /** A failed command ends in a fault. */
  lemma {:induction false} FaultAdvances(a: State, b: State, id: nat, now: nat)
    requires Failures(b.out.log) > Failures(a.out.log) && !Sure(a.out) && b.times == a.times
    ensures Advanced(a, EnterFault(b, id), now) && EnterFault(b, id).status.controller == Faulted
  {
    hide Failures, Sure, Left;
    TriedOut(b.out, PwmCommand.AllOff);
  }

  // ---- recovery and gripping ------------------------------------------------------

  lemma {:induction false} RailsTried(s: State, target: MP.RailTarget, position: RailPosition)
    ensures Tried(s, CommandRails(s, target, position), Outcome(s.out))
    ensures Tried(s, FinishRails(s, target, position), Outcome(s.out))
  {
    hide StartRails, StopRails, Failures, Sure;
    TriedOut(s.out, SetRailChannels(target, position));
    TriedOut(s.out, DisableRails(target));
  }

  lemma {:induction false} GrippersTried(s: State, poses: seq<MP.Pose>)
    ensures Tried(s, CommandGrippers(s, poses), Outcome(s.out))
  {
    hide StartGrippers, Failures, Sure;
    TriedOut(s.out, SetGripperChannels(poses));
  }

  lemma {:induction false} OffTried(s: State, command: PwmCommand)
    ensures Tried(s, Attempt(s, command), Outcome(s.out))
  {
    hide Failures, Sure;
    TriedOut(s.out, command);
  }

  lemma {:induction false} RecoverStartAdvances(s: State, now: nat)
    requires s.motion.Some? && s.motion.value.phase == RecoverStart && Working(s) && s.scan.None? && s.execute.None?
    ensures Advanced(s, RecoverStartStep(s, now), now) && Reported(s, RecoverStartStep(s, now))
  {
    hide Failures, Sure, CommandRails, Outcome, EnterFault;
    var cleared := SetPose(ClearScanAndSolution(s.(status := s.status.(session := None))), TRANSITIONAL);
    RailsTried(cleared, MP.Pair(LeftRight), FarOpen);
    if !Outcome(s.out) {
      FaultAdvances(s, CommandRails(cleared, MP.Pair(LeftRight), FarOpen), s.motion.value.id, now);
    }
  }

  /** An operation that ends well is reported to be complete. */
  predicate Reported(a: State, b: State) {
    b.status.controller == Ready && a.status.operation.Some? ==>
      && b.events != []
      && b.events[|b.events| - 1] == OperationCompleted(a.status.operation.value.id, a.status.operation.value.kind)
  }

  /** The activity is that of the published operation. */
  predicate Owned(s: State, id: nat, kind: OperationKind) {
    Working(s) && s.status.operation.value.id == id && s.status.operation.value.kind == kind
  }

  lemma {:induction false} RecoverLeftRightAdvances(s: State, now: nat)
    requires s.motion.Some? && s.motion.value.phase == RecoverFinishLeftRight && Working(s) && s.scan.None? && s.execute.None?
    ensures Advanced(s, RecoverLeftRightStep(s, now), now) && Reported(s, RecoverLeftRightStep(s, now))
  {
    hide Failures, Sure, CommandRails, FinishRails, Outcome, EnterFault;
    var finished := FinishRails(s, MP.Pair(LeftRight), FarOpen);
    RailsTried(s, MP.Pair(LeftRight), FarOpen);
    RailsTried(finished, MP.Pair(TopBottom), FarOpen);
    if !Outcome(s.out) {
      FaultAdvances(s, finished, s.motion.value.id, now);
    } else if !Outcome(finished.out) {
      FaultAdvances(s, CommandRails(finished, MP.Pair(TopBottom), FarOpen), s.motion.value.id, now);
    }
  }

  lemma {:induction false} RecoverTopBottomAdvances(s: State, now: nat)
    requires s.motion.Some? && s.motion.value.phase == RecoverFinishTopBottom && Working(s) && s.scan.None? && s.execute.None?
    ensures Advanced(s, RecoverTopBottomStep(s, now), now) && Reported(s, RecoverTopBottomStep(s, now))
  {
    hide Failures, Sure, CommandGrippers, FinishRails, Outcome, EnterFault, Commanded, StepDuration;
    var finished := FinishRails(s, MP.Pair(TopBottom), FarOpen);
    RailsTried(s, MP.Pair(TopBottom), FarOpen);
    GrippersTried(finished, ALL_PERPENDICULAR);
    if !Outcome(s.out) {
      FaultAdvances(s, finished, s.motion.value.id, now);
    } else if !Outcome(finished.out) {
      FaultAdvances(s, CommandGrippers(finished, ALL_PERPENDICULAR), s.motion.value.id, now);
    }
  }

  lemma {:induction false} RecoverGrippersAdvances(s: State, now: nat)
    requires s.motion.Some? && s.motion.value.phase == RecoverFinishGrippers && Owned(s, s.motion.value.id, s.motion.value.kind)
    requires s.scan.None? && s.solve.None? && s.execute.None?
    ensures Advanced(s, RecoverGrippersStep(s), now) && Reported(s, RecoverGrippersStep(s))
  {
    hide Failures, Sure, StopGrippers, Outcome, Commanded, EndsOff, EnterFault;
    OffTried(s, PwmCommand.AllOff);
    if !Outcome(s.out) {
      FaultAdvances(s, Attempt(s, PwmCommand.AllOff), s.motion.value.id, now);
    }
  }

  lemma {:induction false} GripStartAdvances(s: State, now: nat)
    requires s.motion.Some? && s.motion.value.phase == GripStart && Working(s) && s.scan.None? && s.execute.None?
    ensures Advanced(s, GripStartStep(s, now), now) && Reported(s, GripStartStep(s, now))
  {
    hide Failures, Sure, CommandGrippers, Outcome, EnterFault;
    var posed := SetPose(s, TRANSITIONAL);
    GrippersTried(posed, ALL_PERPENDICULAR);
    if !Outcome(s.out) {
      FaultAdvances(s, CommandGrippers(posed, ALL_PERPENDICULAR), s.motion.value.id, now);
    }
  }

  lemma {:induction false} GripGrippersAdvances(s: State, now: nat)
    requires s.motion.Some? && s.motion.value.phase == GripFinishGrippers && Working(s) && s.scan.None? && s.execute.None?
    ensures Advanced(s, GripGrippersStep(s, now), now) && Reported(s, GripGrippersStep(s, now))
  {
    hide Failures, Sure, StopGrippers, StartRails, Outcome, Commanded, EnterFault;
    var finished := FinishGrippers(s, ALL_PERPENDICULAR);
    OffTried(finished, SetAllRails(NearGrip));
    if !Outcome(s.out) {
      FaultAdvances(s, Attempt(finished, SetAllRails(NearGrip)), s.motion.value.id, now);
    }
  }

  lemma {:induction false} GripRailsAdvances(s: State, now: nat)
    requires s.motion.Some? && s.motion.value.phase == GripFinishRails && Owned(s, s.motion.value.id, s.motion.value.kind)
    requires s.scan.None? && s.solve.None? && s.execute.None?
    ensures Advanced(s, GripRailsStep(s), now) && Reported(s, GripRailsStep(s))
  {
    hide Failures, Sure, Outcome, Commanded, NextId, EnterFault;
    OffTried(s, DisableAllRails);
    if !Outcome(s.out) {
      FaultAdvances(s, Attempt(s, DisableAllRails), s.motion.value.id, now);
    }
  }

  lemma {:induction false} MotionAdvances(s: State, now: nat)
    requires s.motion.Some? && Due(DeadlineOf(s), now) && Owned(s, s.motion.value.id, s.motion.value.kind)
    requires s.scan.None? && s.solve.None? && s.execute.None?
    ensures Advanced(s, AdvanceMotion(s, now), now) && Reported(s, AdvanceMotion(s, now))
  {
    hide Advanced, Reported, RecoverStartStep, RecoverLeftRightStep, RecoverTopBottomStep, RecoverGrippersStep,
         GripStartStep, GripGrippersStep, GripRailsStep;
    match s.motion.value.phase {
      case RecoverStart => RecoverStartAdvances(s, now);
      case RecoverFinishLeftRight => RecoverLeftRightAdvances(s, now);
      case RecoverFinishTopBottom => RecoverTopBottomAdvances(s, now);
      case RecoverFinishGrippers => RecoverGrippersAdvances(s, now);
      case GripStart => GripStartAdvances(s, now);
      case GripFinishGrippers => GripGrippersAdvances(s, now);
      case GripFinishRails => GripRailsAdvances(s, now);
    }
  }

  // ---- scanning -------------------------------------------------------------------

  lemma {:induction false} FewTurns(grippers: Four<GripperStatus>, poses: seq<MP.Pose>)
    ensures QuarterTurns(grippers, poses) <= 2
    decreases |poses|
  {
    if poses != [] {
      FewTurns(grippers, poses[1..]);
    }
  }

  lemma {:induction false} DurationFits(s: State, step: MP.Step)
    ensures StepDuration(s, step) <= Longest(s.times)
  {
    if step.SetGrippers? {
      FewTurns(s.status.stand.grippers, step.poses);
      assert QuarterTurns(s.status.stand.grippers, step.poses) == 1 || QuarterTurns(s.status.stand.grippers, step.poses) == 2;
    }
  }

  lemma {:induction false} ScanEndAdvances(s: State, now: nat)
    requires s.scan.Some? && s.motion.None? && s.solve.None? && s.execute.None?
    requires Owned(s, s.scan.value.plan.id, s.scan.value.plan.kind)
    ensures Advanced(s, FinishScan(s.(scan := None), s.scan.value), now)
  {
    hide Failures, Sure, SolverString;
  }

  lemma {:induction false} CaptureAdvances(s: State, face: LogicalFace, env: Env, now: nat)
    requires s.scan.Some? && s.motion.None? && s.execute.None? && Owned(s, s.scan.value.plan.id, s.scan.value.plan.kind)
    requires s.scan.value.plan.pending.None? && s.scan.value.plan.steps != [] && Unhurried(s)
    ensures Advanced(s, CaptureStep(s, s.scan.value.(plan := s.scan.value.plan.(steps := s.scan.value.plan.steps[1..])), face, env), now)
  {
    hide Failures, Sure, Named, Record;
  }

  /** The next step of a scan is a photograph, or moves something. */
  predicate ScanStepNext(s: State) {
    s.scan.Some? && s.scan.value.plan.steps != [] ==>
      var step := s.scan.value.plan.steps[0];
      step.Capture? || step.step.SetRails? || step.step.SetGrippers?
  }

  lemma {:induction false} ScanAdvances(s: State, now: nat, env: Env)
    requires s.scan.Some? && s.motion.None? && s.solve.None? && s.execute.None? && Due(DeadlineOf(s), now)
    requires Owned(s, s.scan.value.plan.id, s.scan.value.plan.kind) && Unhurried(s) && ScanStepNext(s)
    ensures Advanced(s, AdvanceScan(s, now, env), now)
  {
    hide Failures, Sure, CommandStep, FinishPending, FinishScan, CaptureStep, Outcome, StepDuration, PendingSucceeds,
         EndsOff, EnterFault;
    var plan := s.scan.value.plan;
    if plan.pending.Some? {
      PendingTried(s, plan.pending.value);
      if !PendingSucceeds(s, plan.pending.value) {
        FaultAdvances(s, FinishPending(s, plan.pending.value), plan.id, now);
      }
    } else if plan.steps == [] {
      ScanEndAdvances(s, now);
    } else if plan.steps[0].Capture? {
      CaptureAdvances(s, plan.steps[0].face, env, now);
    } else {
      var posed := SetPose(s, TRANSITIONAL);
      StepTried(posed, plan.steps[0].step);
      DurationFits(s, plan.steps[0].step);
      if !Outcome(s.out) {
        FaultAdvances(s, CommandStep(posed, plan.steps[0].step), plan.id, now);
      }
    }
  }

  // ---- solving --------------------------------------------------------------------

  lemma {:induction false} BeginAdvances(a: State, b: State, active: ActiveSolve, steps: seq<SP.MotionStep>, now: nat)
    requires a.solve == Some(active) && active.kind == ScanSolveExecute && a.motion.None? && a.scan.None? && Working(a)
    requires b.out == a.out && b.times == a.times && b.solve.None? && b.scan.None? && b.motion.None?
    requires b.status.controller == Busy && b.status.operation == a.status.operation && |steps| <= LONGEST_PLAN
    ensures Advanced(a, BeginExecution(b, active, steps), now)
  {
    hide Failures, Sure;
  }

  lemma {:induction false} FailureAdvances(a: State, id: nat, now: nat)
    requires a.solve.Some? && a.motion.None? && a.scan.None? && a.execute.None?
    ensures Advanced(a, SolveFailure(a.(solve := None), id), now)
  {
    hide Failures, Sure;
  }

  lemma {:induction false} SolveAdvances(s: State, env: Env, now: nat)
    requires s.solve.Some? && s.motion.None? && s.scan.None? && s.execute.None? && !env.solver.StillSolving? && Working(s)
    ensures Advanced(s, AdvanceSolve(s, env), now)
    ensures AdvanceSolve(s, env).execute.Some? ==>
              && env.solver.Solved? && AdvanceSolve(s, env).execute.value.steps == MotionSteps(MP.ExecuteSteps(env.solver.moves))
              && DeadlineOf(AdvanceSolve(s, env)).None?
  {
    hide Failures, Sure, MP.ExecuteSteps, NextId, MotionSteps, MP.OptimizedHeldSteps;
    var active, taken := s.solve.value, s.(solve := None);
    if env.solver.Solved? && |env.solver.moves| <= MAX_SOLUTION_MOVES {
      var solution := SolutionStatus(SolutionStateKind.Prepared, Some(s.nextSolution), Some(active.revision), env.solver.moves, 0);
      var numbered := taken.(nextSolution := NextId(s.nextSolution), status := taken.status.(solution := solution));
      if active.kind == ScanSolveExecute {
        PS.PlansFit(env.solver.moves);
        BeginAdvances(s, numbered, active, MotionSteps(MP.ExecuteSteps(env.solver.moves)), now);
      }
    } else {
      FailureAdvances(s, active.id, now);
    }
  }

  // ---- executing ------------------------------------------------------------------

  lemma {:induction false} ExecuteEndAdvances(s: State, now: nat)
    requires s.execute.Some? && s.motion.None? && s.scan.None? && s.solve.None?
    requires Owned(s, s.execute.value.id, s.execute.value.kind)
    ensures var r := FinishExecute(s.(execute := None), s.execute.value.id, s.execute.value.kind);
            Advanced(s, r, now) && Reported(s, r)
  {
    hide Failures, Sure, EndsOff;
  }

  lemma {:induction false} MarkerAdvances(s: State, now: nat)
    requires s.execute.Some? && s.motion.None? && s.scan.None? && s.solve.None? && Unhurried(s)
    requires Owned(s, s.execute.value.id, s.execute.value.kind)
    requires s.execute.value.pending.None? && s.execute.value.steps != []
    ensures var r := MarkerStep(s.(execute := Some(s.execute.value.(steps := s.execute.value.steps[1..]))), s.execute.value.kind);
            Advanced(s, r, now) && r.status.controller != Ready
  {
    hide Failures, Sure;
  }

  lemma {:induction false} OffAdvances(s: State, now: nat)
    requires s.execute.Some? && s.motion.None? && s.scan.None? && s.solve.None? && Unhurried(s) && Due(DeadlineOf(s), now)
    requires Owned(s, s.execute.value.id, s.execute.value.kind) && s.execute.value.pending.None?
    requires s.execute.value.steps != [] && s.execute.value.steps[0] == SP.Motion(MP.AllOff)
    ensures Advanced(s, AdvanceExecute(s, now), now) && AdvanceExecute(s, now).status.controller != Ready
  {
    hide Failures, Sure, Outcome, Commanded, StartRails, StopRails, StartGrippers, StopGrippers;
    OffTried(s, PwmCommand.AllOff);
    if !Outcome(s.out) {
      FaultAdvances(s, Attempt(s, PwmCommand.AllOff), s.execute.value.id, now);
    }
  }

  lemma {:induction false} ExecuteAdvances(s: State, now: nat)
    requires s.execute.Some? && s.motion.None? && s.scan.None? && s.solve.None? && Due(DeadlineOf(s), now)
    requires Owned(s, s.execute.value.id, s.execute.value.kind) && Unhurried(s)
    requires s.execute.value.steps != [] ==> s.execute.value.steps[0].Motion?
    ensures Advanced(s, AdvanceExecute(s, now), now) && Reported(s, AdvanceExecute(s, now))
  {
    hide Failures, Sure, CommandStep, FinishPending, FinishExecute, MarkerStep, Outcome, StepDuration,
         PendingSucceeds, EnterFault;
    var plan := s.execute.value;
    if plan.pending.Some? {
      PendingTried(s, plan.pending.value);
      if !PendingSucceeds(s, plan.pending.value) {
        FaultAdvances(s, FinishPending(s, plan.pending.value), plan.id, now);
      }
    } else if plan.steps == [] {
      ExecuteEndAdvances(s, now);
    } else if plan.steps[0].step.MoveCompleted? {
      MarkerAdvances(s, now);
    } else if plan.steps[0].step.AllOff? {
      OffAdvances(s, now);
    } else {
      var posed := SetPose(s, if plan.kind == OpenStand then TRANSITIONAL else StandPose(MovePose, Some(Front)));
      StepTried(posed, plan.steps[0].step);
      DurationFits(s, plan.steps[0].step);
      if !Outcome(s.out) {
        FaultAdvances(s, CommandStep(posed, plan.steps[0].step), plan.id, now);
      }
    }
  }

  // ---- one tick -------------------------------------------------------------------

  /** Two parts of a tick, of which the second has work only if the first goes on. */
  lemma {:induction false} AdvancedThen(a: State, b: State, c: State, now: nat)
    requires Advanced(a, b, now) && (c == b || (Working(b) && Advanced(b, c, now)))
    ensures Advanced(a, c, now)
  {
    hide Failures, Sure, Left, Timely, Unhurried;
  }

  /** What the parts of a tick find in a reachable state. */
  ghost predicate Ordered(s: State) {
    && Inv(s) && Unhurried(s) && ScanStepNext(s)
    && (s.execute.Some? && s.execute.value.steps != [] ==> s.execute.value.steps[0].Motion?)
  }

  lemma {:induction false} OneActivity(s: State)
    requires Inv(s) && s.status.operation.Some?
    ensures Working(s)
    ensures s.motion.Some? ==> s.scan.None? && s.solve.None? && s.execute.None? && Owned(s, s.motion.value.id, s.motion.value.kind)
    ensures s.scan.Some? ==>
              s.motion.None? && s.solve.None? && s.execute.None? && Owned(s, s.scan.value.plan.id, s.scan.value.plan.kind)
    ensures s.solve.Some? ==> s.motion.None? && s.scan.None? && s.execute.None? && Owned(s, s.solve.value.id, s.solve.value.kind)
    ensures s.execute.Some? ==>
              s.motion.None? && s.scan.None? && s.solve.None? && Owned(s, s.execute.value.id, s.execute.value.kind)
    ensures s.motion.Some? || s.scan.Some? || s.solve.Some? || s.execute.Some?
  {
    hide DataBelongs, Counted, PendingMoves, PhaseFits, Ids;
  }

  lemma {:induction false} NothingActive(s: State)
    requires Inv(s) && s.status.operation.None?
    ensures s.motion.None? && s.scan.None? && s.solve.None? && s.execute.None?
  {
    hide DataBelongs, Counted, PendingMoves, PhaseFits, Ids;
  }

  lemma {:induction false} IdleParts(s: State, now: nat, env: Env)
    ensures s.motion.None? ==> AdvanceMotion(s, now) == s
    ensures s.scan.None? ==> AdvanceScan(s, now, env) == s
    ensures s.solve.None? || env.solver.StillSolving? ==> AdvanceSolve(s, env) == s
    ensures s.execute.None? ==> AdvanceExecute(s, now) == s
  {
    hide MP.OptimizedHeldSteps, MP.ExecuteSteps, FinishScan, CaptureStep, FinishExecute, MarkerStep;
  }

  lemma {:induction false} PlanIsMotions(steps: seq<MP.Step>)
    ensures MotionSteps(steps) != [] ==> MotionSteps(steps)[0].Motion?
  {
  }

  /** The solving and executing parts of a tick, after a scan that has gone on or ended. */
  lemma {:induction false} SolvingAdvances(s: State, now: nat, env: Env)
    requires Inv(s) && s.motion.None? && s.execute.None? && (s.scan.Some? ==> s.solve.None?)
    requires s.solve.Some? ==> s.status.operation.Some?
    ensures var r := AdvanceExecute(AdvanceSolve(s, env), now);
            || (r == s && (s.solve.None? || env.solver.StillSolving?))
            || (Working(s) && Advanced(s, r, now))
  {
    hide MP.OptimizedHeldSteps, MP.ExecuteSteps, Counted, Ids, PendingMoves, PhaseFits, AdvanceScan, AdvanceSolve,
         AdvanceMotion;
    IdleParts(s, now, env);
    if s.solve.Some? && !env.solver.StillSolving? {
      OneActivity(s);
      hide Inv, AdvanceMotion, AdvanceScan, AdvanceSolve, AdvanceExecute;
      SolveAdvances(s, env, now);
      var b := AdvanceSolve(s, env);
      SolveKeeps(s, env);
      if b.execute.None? {
        IdleParts(b, now, env);
      } else {
        SolvedIsWorking(s, b);
        OneActivity(b);
        PlanIsMotions(MP.ExecuteSteps(env.solver.moves));
        ExecuteAdvances(b, now);
      }
      AdvancedThen(s, b, AdvanceExecute(b, now), now);
    }
  }

  lemma {:induction false} SolvedIsWorking(a: State, b: State)
    requires Inv(b) && b.execute.Some?
    ensures b.status.operation.Some?
  {
    hide DataBelongs, Counted, PendingMoves, PhaseFits, Ids;
  }

  /** A tick that comes late enough, and in which the solver answers if it is asked. */
  predicate Prompt(s: State, now: nat, env: Env) {
    Due(DeadlineOf(s), now) && (s.solve.Some? ==> !env.solver.StillSolving?)
  }

  /** What the tick reports of an operation that it ends. */
  predicate Announced(s: State, events: seq<Event>) {
    (s.motion.Some? || s.execute.Some?) && s.status.operation.Some? ==>
      && events != []
      && events[|events| - 1] == OperationCompleted(s.status.operation.value.id, s.status.operation.value.kind)
  }

  lemma {:induction false} BareAdvances(a: State, b: State, now: nat)
    requires Advanced(a, b, now)
    ensures Advanced(a, b.(events := []), now)
  {
    hide Failures, Sure;
  }

  /** A tick of the operation. */
  lemma {:induction false} TickAdvances(s: State, now: nat, env: Env)
    requires Ordered(s) && s.status.operation.Some? && Prompt(s, now, env)
    ensures var (r, events) := Tick(s, now, env);
            Advanced(s, r, now) && (r.status.controller == Ready ==> Announced(s, events))
  {
    hide MP.OptimizedHeldSteps, MP.ExecuteSteps, Counted, Ids, PendingMoves, PhaseFits, OneOwner;
    OneActivity(s);
    IdleParts(s, now, env);
    hide Inv, AdvanceMotion, AdvanceScan, AdvanceSolve, AdvanceExecute, Advanced;
    if s.motion.Some? {
      var moved := AdvanceMotion(s, now);
      MotionAdvances(s, now);
      MotionLeaves(s, now);
      IdleParts(moved, now, env);
    } else if s.scan.Some? {
      var scanned := AdvanceScan(s, now, env);
      ScanAdvances(s, now, env);
      ScanKeeps(s, now, env);
      ScanLeaves(s, now, env);
      SolvingAdvances(scanned, now, env);
      AdvancedThen(s, scanned, AdvanceExecute(AdvanceSolve(scanned, env), now), now);
    } else if s.solve.Some? {
      SolvingAdvances(s, now, env);
    } else {
      ExecuteAdvances(s, now);
    }
    BareAdvances(s, AdvanceExecute(AdvanceSolve(AdvanceScan(AdvanceMotion(s, now), now, env), env), now), now);
  }

  lemma {:induction false} ScanLeaves(s: State, now: nat, env: Env)
    requires s.scan.Some? && s.motion.None? && s.solve.None? && s.execute.None?
    requires Inv(AdvanceScan(s, now, env))
    ensures var r := AdvanceScan(s, now, env);
            r.motion.None? && r.execute.None? && (r.scan.Some? ==> r.solve.None?) && (r.solve.Some? ==> r.status.operation.Some?)
  {
    hide CommandStep, FinishPending, StepDuration, Outcome, Commanded, SolverString, Named, Record, DataBelongs,
         Counted, PendingMoves, PhaseFits, Ids;
    if s.scan.value.plan.pending.Some? {
      StepFrame(s, s.scan.value.plan.pending.value);
    } else if s.scan.value.plan.steps != [] && s.scan.value.plan.steps[0].Motion? {
      StepFrame(SetPose(s, TRANSITIONAL), s.scan.value.plan.steps[0].step);
    }
  }

  /** Before its time a tick changes nothing. */
  lemma {:induction false} TickWaits(s: State, now: nat, env: Env)
    requires Inv(s) && s.events == [] && (s.status.operation.Some? ==> !Prompt(s, now, env))
    ensures Tick(s, now, env) == (s, [])
  {
    hide Counted, Ids, PendingMoves, PhaseFits, Inv, Resting, FinishScan, CaptureStep, FinishExecute, MarkerStep;
    if s.status.operation.Some? {
      OneActivity(s);
    } else {
      NothingActive(s);
    }
    hide Inv;
  }

  // ---- whole runs -----------------------------------------------------------------

  /** The steps of a plan are in the order of the plan. */
  lemma {:induction false} ReachableIsOrdered(s: State, w: World)
    requires Resting(s) && Mechanical(s, w) && Unhurried(s)
    ensures Ordered(s)
  {
    hide DataBelongs, Mechanical;
    assert Inv(s);
    if s.scan.Some? && s.scan.value.plan.steps != [] {
      ScanRests(s, w);
      hide Inv, Mechanical, Resting;
      ScanStepsMove();
      var steps := s.scan.value.plan.steps;
      assert steps[0] == SP.SCAN_STEPS[|SP.SCAN_STEPS| - |steps|];
    } else if s.execute.Some? && s.execute.value.steps != [] {
      OwnedExecution(s);
      ExecutingFacts(s, w);
      hide Inv, Mechanical, Resting, FullPlan;
      RestIsMotions(s.execute.value, FullPlan(s.execute.value.kind, s.status.solution.moves, w.moves), w);
    }
  }

  lemma {:induction false} OwnedExecution(s: State)
    requires Inv(s) && s.execute.Some?
    ensures s.motion.None?
  {
  }

  lemma {:induction false} RestIsMotions(plan: ActivePlan, full: seq<MP.Step>, w: World)
    requires Follows(Rest(plan), full, w) && plan.steps != []
    ensures plan.steps[0].Motion?
  {
    hide Mechanics.Run;
    var rest := Rest(plan);
    assert plan.steps[0] == rest[|rest| - |plan.steps|];
  }

  lemma {:induction false} ScanRests(s: State, w: World)
    requires Inv(s) && Mechanical(s, w) && s.scan.Some?
    ensures var steps := s.scan.value.plan.steps;
            |steps| <= |SP.SCAN_STEPS| && steps == SP.SCAN_STEPS[|SP.SCAN_STEPS| - |steps|..]
  {
    hide SP.RunScan, SP.SCAN_STEPS, Counted, PendingMoves, Ids, PhaseFits;
    var rest, plan := Rest(s.scan.value.plan), s.scan.value.plan;
    assert ScanFollows(rest, w);
    assert plan.steps == rest[|rest| - |plan.steps|..];
  }

  lemma {:induction false} ScanStepsMove()
    ensures forall i :: 0 <= i < |SP.SCAN_STEPS| ==>
              SP.SCAN_STEPS[i].Capture? || SP.SCAN_STEPS[i].step.SetRails? || SP.SCAN_STEPS[i].step.SetGrippers?
  {
  }

  /** Nothing that was not in motion before has a deadline. */
  predicate Calm(s: State, r: State, now: nat) {
    Unhurried(s) && Timely(s, now) ==> Unhurried(r) && Timely(r, now) && r.times == s.times
  }

  lemma {:induction false} StartsAreCalm(s: State, now: nat, kind: OperationKind, session: nat, revision: nat, env: Env)
    requires Inv(s)
    ensures Calm(s, StartMotion(s, kind), now) && Calm(s, StartScanOperation(s, session, kind, env), now)
    ensures Calm(s, StartSolve(s, session, revision), now) && Calm(s, Abort(s, ActiveId(s)), now)
  {
    hide RebuiltString, PoseRefusal, RevisionRefusal, DataBelongs, Counted, PendingMoves, PhaseFits, Ids, Longest,
         Inv, Resting;
  }

  lemma {:induction false} PlansAreCalm(s: State, now: nat, kind: OperationKind, steps: seq<MP.Step>)
    requires !OperationActive(s)
    ensures Calm(s, StartPlan(s, kind, steps), now)
  {
    hide Longest;
  }

  /** Commands set nothing in motion. */
  lemma {:induction false} ObeyIsTimely(s: State, command: Command, env: Env, now: nat)
    requires Inv(s)
    ensures Calm(s, Obey(s, command, env), now)
  {
    hide Inv, StartMotion, StartScanOperation, StartSolve, Abort, StartPlan, MP.ExecuteSteps, MP.OptimizedHeldSteps,
         PoseRefusal, RevisionRefusal, SolutionRefusal, Timely, Unhurried;
    match command {
      case GetStatus =>
      case RecoverCommand => StartsAreCalm(s, now, RecoverToOpen, 0, 0, env);
      case GripCommand => StartsAreCalm(s, now, Grip, 0, 0, env);
      case StartScan(session) => StartsAreCalm(s, now, OperationKind.Scan, session, 0, env);
      case SolveCommand(session, revision) => StartsAreCalm(s, now, OperationKind.Solve, session, revision, env);
      case ScanSolveExecuteCommand(session) => StartsAreCalm(s, now, ScanSolveExecute, session, 0, env);
      case AbortCommand => StartsAreCalm(s, now, Grip, 0, 0, env);
      case ExecuteCommand(session, revision, solution) =>
        if ExecuteRefusal(s, session, revision, solution).None? {
          var executing := s.(status := s.status.(solution := s.status.solution.(state := Executing, completedMoves := 0)));
          PlansAreCalm(executing, now, Execute, MP.ExecuteSteps(s.status.solution.moves));
          SameDeadlines(s, executing, now);
        }
      case ExecuteMovesCommand(session, moves) =>
        if ExecuteMovesRefusal(s, session, moves).None? {
          PlansAreCalm(s, now, ExecuteMoves, MP.OptimizedHeldSteps(moves));
        }
      case OpenCommand(session) =>
        if OpenRefusal(s, session).None? {
          PlansAreCalm(s, now, OpenStand, MP.OPEN_STEPS);
        }
    }
  }

  lemma {:induction false} SameDeadlines(a: State, b: State, now: nat)
    requires b.motion == a.motion && b.scan == a.scan && b.execute == a.execute && b.times == a.times
    ensures Timely(b, now) == Timely(a, now) && Unhurried(b) == Unhurried(a)
  {
    hide Longest;
  }

  predicate Later(x: Experience, last: nat) {
    x.input.TimePasses? ==> x.input.now <= last
  }

  /** One input, with a bound on all clocks so far. */
  lemma {:induction false} StepIsTimely(s: State, w: World, x: Experience, now: nat)
    requires Resting(s) && Mechanical(s, w) && Unhurried(s) && Timely(s, now) && Later(x, now)
    ensures var r := Step(s, x.input); Unhurried(r) && Timely(r, now) && r.times == s.times
  {
    hide Mechanical, AdvanceScan, AdvanceSolve, AdvanceMotion, Obey, HandlePacket;
    RestsQuietly(s);
    if x.input.TimePasses? {
      ReachableIsOrdered(s, w);
      hide Resting, Mechanical, Inv;
      TickIsTimely(s, x.input.now, x.input.env, now);
    } else {
      hide Resting, Mechanical, Inv;
      RequestIsTimely(s, x.input, now);
    }
  }

  lemma {:induction false} RequestIsTimely(s: State, input: Input, now: nat)
    requires Inv(s) && !input.TimePasses? && Unhurried(s) && Timely(s, now)
    ensures var r := Step(s, input); Unhurried(r) && Timely(r, now) && r.times == s.times
  {
    hide Inv, Obey, HandlePacket, Timely, Unhurried, MP.OptimizedHeldSteps, MP.ExecuteSteps, AdvanceScan,
         AdvanceSolve, AdvanceMotion;
    match input {
      case PacketArrives(packet, env) =>
        var core, cache := PacketIs(s, packet, env);
        if Fresh(s, packet) {
          ObeyIsTimely(s, packet.command.value, env, now);
        }
        SameDeadlines(core, core.(events := [], cache := cache), now);
      case ButtonPressed(local, env) =>
        ObeyIsTimely(s, LocalAsCommand(local), env, now);
        var core := Obey(s, LocalAsCommand(local), env);
        SameDeadlines(core, core.(events := []), now);
      case TimePasses(tick, env) =>
    }
  }

  lemma {:induction false} TickIsTimely(s: State, tick: nat, env: Env, now: nat)
    requires Ordered(s) && s.events == [] && Timely(s, now) && tick <= now
    ensures var r := Tick(s, tick, env).0; Unhurried(r) && Timely(r, now) && r.times == s.times
  {
    hide Inv, Tick, Failures, Sure, Left, Prompt;
    if s.status.operation.Some? && Prompt(s, tick, env) {
      TickAdvances(s, tick, env);
    } else {
      TickWaits(s, tick, env);
    }
  }

  lemma {:induction false} RunsAreTimely(times: Calibration, script: seq<bool>, w: World, xs: seq<Experience>, now: nat)
    requires forall i :: 0 <= i < |xs| ==> Later(xs[i], now)
    ensures var (t, u) := RunBoth(Initial(times, script), w, xs);
            Resting(t) && Mechanical(t, u) && Ordered(t) && Timely(t, now) && t.times == times
  {
    hide Resting, Mechanical, Step, WorldStep, Timely, Unhurried, Ordered, MP.OptimizedHeldSteps, MP.ExecuteSteps;
    RunsAreMechanical(times, script, w, xs);
    var (t, u) := RunBoth(Initial(times, script), w, xs);
    if xs == [] {
      FirstIsTimely(times, script, now);
    } else {
      var k := |xs| - 1;
      RunsAreTimely(times, script, w, xs[..k], now);
      var (s, v) := RunBoth(Initial(times, script), w, xs[..k]);
      OrderedIsUnhurried(s);
      StepIsTimely(s, v, xs[k], now);
    }
    ReachableIsOrdered(t, u);
  }

  lemma {:induction false} OrderedIsUnhurried(s: State)
    requires Ordered(s)
    ensures Unhurried(s) && Inv(s)
  {
  }

  lemma {:induction false} FirstIsTimely(times: Calibration, script: seq<bool>, now: nat)
    ensures Unhurried(Initial(times, script)) && Timely(Initial(times, script), now)
  {
  }

  // ---- failures -------------------------------------------------------------------

  /** In every reachable state a tick publishes a fault exactly when a servo command in it
      fails; the last command is then to switch everything off. */
  lemma {:induction false} FaultsAreFailures(times: Calibration, script: seq<bool>, w: World, xs: seq<Experience>, now: nat, env: Env)
    ensures var s := RunBoth(Initial(times, script), w, xs).0;
            var r := Tick(s, now, env).0;
            && Failures(r.out.log) >= Failures(s.out.log)
            && (s.status.controller != Faulted ==> (r.status.controller == Faulted <==> Failures(r.out.log) > Failures(s.out.log)))
            && (s.status.controller != Faulted && r.status.controller == Faulted ==> EndsOff(r.out.log))
            && (s.status.controller == Faulted ==> r == s)
  {
    hide Resting, Mechanical, RunBoth, Tick, Failures, Sure, Timely, Unhurried, Left, Prompt, Counted, Ids,
         PendingMoves, PhaseFits;
    var (s, u) := RunBoth(Initial(times, script), w, xs);
    var last := LastClock(xs);
    RunsAreTimely(times, script, w, xs, last);
    if s.status.operation.Some? && Prompt(s, now, env) {
      TickAdvances(s, now, env);
    } else {
      RestsQuietly(s);
      TickWaits(s, now, env);
    }
    FaultedIsIdle(s);
  }

  lemma {:induction false} RestsQuietly(s: State)
    requires Resting(s)
    ensures s.events == [] && Inv(s)
  {
  }

  lemma {:induction false} FaultedIsIdle(s: State)
    requires Ordered(s)
    ensures s.status.controller == Faulted ==> s.status.operation.None?
    ensures s.status.operation.Some? ==> s.status.controller == Busy
  {
    hide DataBelongs, Counted, PendingMoves, PhaseFits, Ids;
  }

  /** The latest clock of a run. */
  function LastClock(xs: seq<Experience>): (r: nat)
    ensures forall i :: 0 <= i < |xs| ==> Later(xs[i], r)
  {
    if xs == [] then 0
    else
      var before, x := LastClock(xs[..|xs| - 1]), xs[|xs| - 1];
      if x.input.TimePasses? && x.input.now > before then x.input.now else before
  }

  // ---- the solver -----------------------------------------------------------------

  /** The answer of the solver is what the tick publishes. */
  predicate AnswerPublished(s: StatusSnapshot, solver: SolverPoll, r: StatusSnapshot, events: seq<Event>) {
    s.operation.Some? &&
    if solver.StillSolving? then r == s && events == []
    else if solver.Solved? && |solver.moves| <= MAX_SOLUTION_MOVES then
      if s.operation.value.kind == OperationKind.Solve then
        && r == s.(controller := Ready, operation := None, solution := r.solution)
        && r.solution == SolutionStatus(SolutionStateKind.Prepared, r.solution.id, s.scan.revision, solver.moves, 0) && r.solution.id.Some?
        && events == [RobotStateChanged(Ready, None), OperationCompleted(s.operation.value.id, OperationKind.Solve)]
      else
        || (r.controller == Faulted && r.operation.None?)
        || (&& r.controller == Busy && r.operation.Some? && r.operation.value.id == s.operation.value.id
            && r.operation.value.kind == s.operation.value.kind && r.scan == s.scan && r.session == s.session
            && r.solution == SolutionStatus(SolutionStateKind.Executing, r.solution.id, s.scan.revision, solver.moves, 0)
            && r.solution.id.Some?)
    else
      && r == s.(controller := Ready, operation := None, solution := EMPTY_SOLUTION)
      && events == [RobotStateChanged(Ready, None), OperationFailed(s.operation.value.id, SolverNoSolution)]
  }

  lemma {:induction false} SolveTick(s: State, now: nat, env: Env)
    requires Inv(s) && s.events == [] && s.solve.Some?
    ensures AnswerPublished(s.status, env.solver, Tick(s, now, env).0.status, Tick(s, now, env).1)
  {
    hide MP.OptimizedHeldSteps, MP.ExecuteSteps, Counted, Ids, PendingMoves, PhaseFits;
    SolvingFacts(s);
    IdleParts(s, now, env);
    var solved := AdvanceSolve(s, env);
    hide Inv, AdvanceMotion, AdvanceScan, MP.ExecuteSteps, MotionSteps, NextId;
    if solved.execute.None? {
      IdleParts(solved, now, env);
      hide AdvanceExecute;
    } else {
      hide AdvanceExecute;
      FirstStepKeeps(solved, now, env.solver.moves);
    }
  }

  lemma {:induction false} SolvingFacts(s: State)
    requires Inv(s) && s.solve.Some?
    ensures s.motion.None? && s.scan.None? && s.execute.None? && s.status.operation.Some?
    ensures s.status.operation.value.id == s.solve.value.id && s.status.operation.value.kind == s.solve.value.kind
    ensures s.status.scan.revision == Some(s.solve.value.revision)
    ensures s.solve.value.kind == OperationKind.Solve || s.solve.value.kind == ScanSolveExecute
    ensures s.status.controller == Busy
  {
    hide Counted, PendingMoves, PhaseFits, Ids;
  }

  /** The first command of a plan publishes nothing but the stand. */
  lemma {:induction false} FirstStepKeeps(s: State, now: nat, moves: seq<MP.CubeMove>)
    requires s.execute.Some? && s.execute.value.pending.None? && s.execute.value.deadline.None?
    requires s.execute.value.steps == MotionSteps(MP.ExecuteSteps(moves)) && s.execute.value.kind != ExecuteMoves
    ensures var r := AdvanceExecute(s, now).status;
            || (r.controller == Faulted && r.operation.None?)
            || (r == s.status.(stand := r.stand))
  {
    hide CommandStep, StepDuration, Outcome, Commanded, MP.ExecuteSteps, StartRails, StopRails, StartGrippers,
         StopGrippers, FinishPending;
    PS.FirstStepMoves(moves);
    var posed := SetPose(s, if s.execute.value.kind == OpenStand then TRANSITIONAL else StandPose(MovePose, Some(Front)));
    StepFrame(posed, s.execute.value.steps[0].step);
  }

  /** In every reachable state in which the solver is at work, a tick publishes its answer: a
      solution is published with its moves and a new identifier for the revision of the scan,
      and prepared, or carried out by the automatic cycle; anything else ends the operation
      as a failure. */
  lemma {:induction false} AnswersArePublished(times: Calibration, script: seq<bool>, w: World, xs: seq<Experience>, now: nat, env: Env)
    requires RunBoth(Initial(times, script), w, xs).0.status.solution.state == Solving
    ensures var s := RunBoth(Initial(times, script), w, xs).0;
            AnswerPublished(s.status, env.solver, Tick(s, now, env).0.status, Tick(s, now, env).1)
  {
    hide RunBoth, Tick, AnswerPublished, Mechanical, MP.OptimizedHeldSteps, MP.ExecuteSteps;
    RunsAreMechanical(times, script, w, xs);
    var s := RunBoth(Initial(times, script), w, xs).0;
    RestsQuietly(s);
    SolvingIsSolving(s);
    SolveTick(s, now, env);
  }

  lemma {:induction false} SolvingIsSolving(s: State)
    requires Inv(s) && s.status.solution.state == Solving
    ensures s.solve.Some?
  {
  }

  // ---- the end --------------------------------------------------------------------

  /** Ticks that come so far apart that every motion is over before the next, and in which
      the solver answers. */
  ghost predicate Spaced(since: nat, apart: nat, ticks: seq<Experience>) {
    forall i :: 0 <= i < |ticks| ==> SpacedAt(since, apart, ticks, i)
  }

  predicate SpacedAt(since: nat, apart: nat, ticks: seq<Experience>, i: nat)
    requires i < |ticks|
  {
    && ticks[i].input.TimePasses? && !ticks[i].input.env.solver.StillSolving?
    && ticks[i].input.now >= (if i == 0 then since else ClockOf(ticks[i - 1])) + apart
  }

  function ClockOf(x: Experience): nat {
    if x.input.TimePasses? then x.input.now else 0
  }

  /** Two for each action that is left, and those of the solution in an automatic cycle. */
  function TicksFor(op: OperationStatus): int {
    2 * (op.actionCount - op.currentAction) + if op.kind == ScanSolveExecute then 2 * LONGEST_PLAN + 4 else 4
  }

  /** The operation is over, or has less left to do. */
  predicate Nearer(s: State, t: State, ticks: nat) {
    || (t.status.operation.None? && t.status.controller == Ready)
    || (t.status.operation.Some? && Left(t) + ticks <= Left(s))
  }

  lemma {:induction false} TicksBringNearer(s: State, w: World, since: nat, ticks: seq<Experience>)
    requires Resting(s) && Mechanical(s, w) && Ordered(s) && Timely(s, since) && Sure(s.out) && s.status.operation.Some?
    requires Spaced(since, Longest(s.times), ticks)
    ensures var (t, u) := RunBoth(s, w, ticks);
            && Resting(t) && Mechanical(t, u) && Ordered(t) && Sure(t.out) && t.times == s.times && Nearer(s, t, |ticks|)
            && Timely(t, if ticks == [] then since else ClockOf(ticks[|ticks| - 1]))
  {
    hide Resting, Mechanical, Step, WorldStep, Timely, Ordered, Sure, Left, RunBoth;
    if ticks == [] {
      RunOfNothing(s, w);
    } else {
      var k := |ticks| - 1;
      var (t, u) := RunBoth(s, w, ticks[..k]);
      SpacedPrefix(since, Longest(s.times), ticks);
      TicksBringNearer(s, w, since, ticks[..k]);
      RunOneMore(s, w, ticks);
      OneTickNearer(t, u, ticks[k], if k == 0 then since else ClockOf(ticks[k - 1]));
    }
  }

  lemma {:induction false} SpacedPrefix(since: nat, apart: nat, ticks: seq<Experience>)
    requires Spaced(since, apart, ticks) && ticks != []
    ensures Spaced(since, apart, ticks[..|ticks| - 1]) && SpacedAt(since, apart, ticks, |ticks| - 1)
  {
    var before := ticks[..|ticks| - 1];
    forall i | 0 <= i < |before|
      ensures SpacedAt(since, apart, before, i)
    {
      assert SpacedAt(since, apart, ticks, i);
    }
  }

  lemma {:induction false} RunOfNothing(s: State, w: World)
    ensures RunBoth(s, w, []) == (s, w)
  {
    hide AdvanceScan, AdvanceSolve, AdvanceMotion, Obey, HandlePacket;
  }

  lemma {:induction false} RunOneMore(s: State, w: World, xs: seq<Experience>)
    requires xs != []
    ensures var k := |xs| - 1;
            var (t, u) := RunBoth(s, w, xs[..k]);
            RunBoth(s, w, xs) == (Step(t, xs[k].input), WorldStep(t, u, xs[k]))
  {
    hide Step, WorldStep;
  }

  lemma {:induction false} OneTickNearer(t: State, u: World, x: Experience, since: nat)
    requires Resting(t) && Mechanical(t, u) && Ordered(t) && Timely(t, since) && Sure(t.out)
    requires x.input.TimePasses? && !x.input.env.solver.StillSolving? && x.input.now >= since + Longest(t.times)
    requires t.status.operation.None? ==> t.status.controller == Ready
    ensures var r, v := Step(t, x.input), WorldStep(t, u, x);
            && Resting(r) && Mechanical(r, v) && Ordered(r) && Sure(r.out) && r.times == t.times && Timely(r, ClockOf(x))
            && (t.status.operation.Some? ==> Nearer(t, r, 1))
            && (t.status.operation.None? ==> r.status.operation.None? && r.status.controller == Ready)
  {
    hide Mechanical, AdvanceScan, AdvanceSolve, AdvanceMotion;
    var now, env := x.input.now, x.input.env;
    var r, v := Step(t, x.input), WorldStep(t, u, x);
    StepMechanical(t, u, x);
    StepKeeps(t, x.input);
    RestsQuietly(t);
    OrderedIsUnhurried(t);
    assert r == Tick(t, now, env).0;
    assert Prompt(t, now, env);
    hide Resting, Mechanical, Step, WorldStep, Tick, Failures, Left, Ordered, Sure;
    if t.status.operation.Some? {
      TickAdvances(t, now, env);
      SureNeverFails(t, r, now);
    } else {
      TickWaits(t, now, env);
    }
    TimelyLater(r, since, now);
    ReachableIsOrdered(r, v);
  }

  lemma {:induction false} TimelyLater(s: State, since: nat, now: nat)
    requires since <= now
    ensures Timely(s, since) ==> Timely(s, now)
  {
  }

  /** A driver that cannot fail does not. */
  lemma {:induction false} SureNeverFails(a: State, b: State, now: nat)
    requires Advanced(a, b, now) && Sure(a.out)
    ensures b.status.controller != Faulted
  {
  }

  lemma {:induction false} LeftIsFew(s: State)
    requires Ordered(s) && s.status.operation.Some?
    ensures 0 < Left(s) <= TicksFor(s.status.operation.value)
  {
    hide DataBelongs, OneOwner;
    OneActivity(s);
    hide DataBelongs, PendingMoves, PhaseFits, Ids;
  }

  /** From every reachable state with an operation: as long as the servo driver does not fail,
      enough ticks bring the operation to its end, with the robot ready, whatever it is. */
  lemma {:induction false} OperationsEnd(times: Calibration, script: seq<bool>, w: World, xs: seq<Experience>, since: nat,
                                         ticks: seq<Experience>)
    requires forall i :: 0 <= i < |xs| ==> Later(xs[i], since)
    requires var s := RunBoth(Initial(times, script), w, xs).0; s.status.operation.Some? && Sure(s.out)
    requires Spaced(since, Longest(times), ticks)
    requires |ticks| >= TicksFor(RunBoth(Initial(times, script), w, xs).0.status.operation.value)
    ensures var (s, u) := RunBoth(Initial(times, script), w, xs);
            var r := RunBoth(s, u, ticks).0;
            r.status.operation.None? && r.status.controller == Ready
  {
    hide RunBoth, Resting, Mechanical, Ordered, Timely, Sure, Left, Spaced;
    RunsAreTimely(times, script, w, xs, since);
    var (s, u) := RunBoth(Initial(times, script), w, xs);
    TicksBringNearer(s, u, since, ticks);
    LeftIsFew(s);
    if RunBoth(s, u, ticks).0.status.operation.Some? {
      LeftIsFew(RunBoth(s, u, ticks).0);
    }
  }

  /** How an operation that ends well leaves the robot. */
  predicate LeftAs(kind: OperationKind, r: StatusSnapshot) {
    match kind
    case RecoverToOpen => r.session.None? && r.stand == StandState(StandPose(Open, None), OPEN_RAILS, PERPENDICULAR_GRIPPERS, false)
    case Grip => GripsCube(r)
    case ExecuteMoves => GripsCube(r)
    case Scan => true
    case Solve => true
    case _ =>
      && r.session.None? && r.scan == EMPTY_SCAN && r.solution == EMPTY_SOLUTION
      && r.stand == StandState(StandPose(Open, None), OPEN_RAILS, r.stand.grippers, false)
  }

  predicate GripsCube(r: StatusSnapshot) {
    r.session.Some? && r.stand == StandState(CANONICAL, GRIP_RAILS, PERPENDICULAR_GRIPPERS, r.stand.outputsEnabled)
  }

  /** What the operation itself says at its end; the rest follows from the machine. */
  predicate EndsWith(kind: OperationKind, r: StatusSnapshot) {
    r.controller == Ready ==>
      match kind
      case RecoverToOpen =>
        r.session.None? && r.stand.pose == StandPose(Open, None) && r.stand.grippers == PERPENDICULAR_GRIPPERS && !r.stand.outputsEnabled
      case Grip => r.session.Some?
      case ExecuteMoves => r.session.Some?
      case Scan => true
      case Solve => true
      case _ =>
        && r.session.None? && r.scan == EMPTY_SCAN && r.solution == EMPTY_SOLUTION
        && r.stand.pose == StandPose(Open, None) && !r.stand.outputsEnabled
  }

  lemma {:induction false} EndIsMechanical(kind: OperationKind, r: State, u: World)
    requires Resting(r) && Mechanical(r, u) && r.status.controller == Ready && EndsWith(kind, r.status)
    ensures LeftAs(kind, r.status)
  {
    assert Filled(r) == 0 by { ReadyIsIdle(r); }
    hide Resting;
  }

  lemma {:induction false} ReadyIsIdle(s: State)
    requires Resting(s) && s.status.controller == Ready
    ensures Filled(s) == 0
  {
  }

  lemma {:induction false} MotionEnds(s: State, now: nat)
    requires s.motion.Some? && Working(s) && PhaseFits(s) && s.status.operation.value.kind == s.motion.value.kind
    requires s.motion.value.kind in {RecoverToOpen, Grip} && (s.motion.value.phase != RecoverStart ==> s.status.session.None?)
    ensures EndsWith(s.motion.value.kind, AdvanceMotion(s, now).status)
  {
    hide StartRails, StopRails, StartGrippers, StopGrippers, Commanded, Outcome, NextId;
    AllPerpendicularArrives(s.status.stand.grippers);
  }

  lemma {:induction false} ExecuteEnds(s: State, now: nat)
    requires s.execute.Some? && Working(s) && s.status.operation.value.kind == s.execute.value.kind && s.status.session.Some?
    requires s.execute.value.kind in {Execute, ExecuteMoves, OpenStand, ScanSolveExecute}
    ensures EndsWith(s.execute.value.kind, AdvanceExecute(s, now).status)
  {
    hide CommandStep, FinishPending, StepDuration, Outcome, Commanded;
    var plan := s.execute.value;
    if plan.pending.Some? {
      StepFrame(s, plan.pending.value);
    } else if plan.steps != [] && plan.steps[0].Motion? {
      StepFrame(SetPose(s, if plan.kind == OpenStand then TRANSITIONAL else StandPose(MovePose, Some(Front))), plan.steps[0].step);
    }
  }

  lemma {:induction false} TickEnds(s: State, w: World, now: nat, env: Env)
    requires Inv(s) && Mechanical(s, w) && s.status.operation.Some? && (s.motion.Some? || s.execute.Some?)
    ensures EndsWith(s.status.operation.value.kind, Tick(s, now, env).0.status)
  {
    hide MP.OptimizedHeldSteps, MP.ExecuteSteps, Mechanical, AdvanceExecute, AdvanceScan, AdvanceSolve, AdvanceMotion;
    OneActivity(s);
    IdleParts(s, now, env);
    if s.motion.Some? {
      var moved := AdvanceMotion(s, now);
      MotionHasNoSession(s, w);
      MotionEnds(s, now);
      MotionLeaves(s, now);
      hide Inv, AdvanceMotion, AdvanceScan, AdvanceSolve, AdvanceExecute, EndsWith;
      IdleParts(moved, now, env);
    } else {
      ExecutingSession(s);
      hide Inv, AdvanceExecute, EndsWith;
      ExecuteEnds(s, now);
    }
  }

  lemma {:induction false} ExecutingSession(s: State)
    requires Inv(s) && s.execute.Some?
    ensures s.status.session.Some? && s.execute.value.kind in {Execute, ExecuteMoves, OpenStand, ScanSolveExecute}
  {
  }

  lemma {:induction false} MotionHasNoSession(s: State, w: World)
    requires Inv(s) && Mechanical(s, w) && s.motion.Some?
    ensures s.motion.value.phase != RecoverStart ==> s.status.session.None?
    ensures s.motion.value.kind in {RecoverToOpen, Grip} && PhaseFits(s)
  {
    hide PhaseStand, Counted, DataBelongs, Ids, PendingMoves, MP.OptimizedHeldSteps, MP.ExecuteSteps;
  }

  /** In every reachable state, a tick that ends a motion or an execution and leaves the robot
      ready reports the operation complete, and leaves the stand and the session as its kind
      promises. */
  lemma {:induction false} EndsAreReported(times: Calibration, script: seq<bool>, w: World, xs: seq<Experience>, now: nat, env: Env)
    requires var s := RunBoth(Initial(times, script), w, xs).0;
             && s.status.operation.Some? && s.status.scan.state != InProgress && s.status.solution.state != Solving
             && Tick(s, now, env).0.status.controller == Ready
    ensures var s := RunBoth(Initial(times, script), w, xs).0;
            var events := Tick(s, now, env).1;
            && events != []
            && events[|events| - 1] == OperationCompleted(s.status.operation.value.id, s.status.operation.value.kind)
            && LeftAs(s.status.operation.value.kind, Tick(s, now, env).0.status)
  {
    hide RunBoth, Resting, Mechanical, Tick, Advanced, Timely, Unhurried, Prompt, LeftAs, WorldStep,
         MP.OptimizedHeldSteps, MP.ExecuteSteps, Inv, Obey, HandlePacket;
    var (s, u) := RunBoth(Initial(times, script), w, xs);
    RunsAreTimely(times, script, w, xs, LastClock(xs));
    FaultedIsIdle(s);
    if Prompt(s, now, env) {
      TickAdvances(s, now, env);
      MovesOrExecutes(s);
      var x := Experience(TimePasses(now, env), []);
      StepKeeps(s, x.input);
      StepMechanical(s, u, x);
      TickEnds(s, u, now, env);
      EndIsMechanical(s.status.operation.value.kind, Step(s, x.input), WorldStep(s, u, x));
    } else {
      RestsQuietly(s);
      TickWaits(s, now, env);
    }
  }

  lemma {:induction false} MovesOrExecutes(s: State)
    requires Inv(s) && s.status.operation.Some? && s.status.scan.state != InProgress && s.status.solution.state != Solving
    ensures s.motion.Some? || s.execute.Some?
  {
  }

  // ---- identifiers ----------------------------------------------------------------

  /** An identifier is kept, or cleared, or issued anew from its counter. */
  predicate Issues(before: Option<nat>, after: Option<nat>, next: nat, next': nat) {
    || (next' == next && (after == before || after.None?))
    || (next' == NextId(next) && after == Some(next) && before != after)
  }

  /** Nothing is issued. */
  predicate Quiet(a: State, b: State) {
    && b.nextOperation == a.nextOperation && (ActiveId(b) == ActiveId(a) || ActiveId(b).None?)
    && b.nextSession == a.nextSession && (b.status.session == a.status.session || b.status.session.None?)
    && b.nextRevision == a.nextRevision && (b.status.scan.revision == a.status.scan.revision || b.status.scan.revision.None?)
    && b.nextSolution == a.nextSolution && (b.status.solution.id == a.status.solution.id || b.status.solution.id.None?)
  }

  lemma {:induction false} StandIsQuiet(a: State, b: State)
    requires StandOnly(a, b)
    ensures Quiet(a, b)
  {
  }

  lemma {:induction false} FaultIsQuiet(a: State, b: State, id: nat)
    requires Quiet(a, b)
    ensures Quiet(a, EnterFault(b, id))
  {
  }

  lemma {:induction false} RecoverStartIsQuiet(s: State, now: nat)
    requires s.motion.Some?
    ensures Quiet(s, RecoverStartStep(s, now))
  {
    hide CommandRails, EnterFault, Outcome, NextId, Failures, Sure, StartRails, StopRails, StartGrippers, StopGrippers;
    var cleared := SetPose(ClearScanAndSolution(s.(status := s.status.(session := None))), TRANSITIONAL);
    var commanded := CommandRails(cleared, MP.Pair(LeftRight), FarOpen);
    RailsTried(cleared, MP.Pair(LeftRight), FarOpen);
    FaultIsQuiet(s, commanded, s.motion.value.id);
  }

  lemma {:induction false} RecoverLeftRightIsQuiet(s: State, now: nat)
    requires s.motion.Some?
    ensures Quiet(s, RecoverLeftRightStep(s, now))
  {
    hide CommandRails, FinishRails, EnterFault, Outcome, NextId, Failures, Sure;
    var finished := FinishRails(s, MP.Pair(LeftRight), FarOpen);
    RailsTried(s, MP.Pair(LeftRight), FarOpen);
    RailsTried(finished, MP.Pair(TopBottom), FarOpen);
    FaultIsQuiet(s, finished, s.motion.value.id);
    FaultIsQuiet(s, CommandRails(finished, MP.Pair(TopBottom), FarOpen), s.motion.value.id);
  }

  lemma {:induction false} RecoverTopBottomIsQuiet(s: State, now: nat)
    requires s.motion.Some?
    ensures Quiet(s, RecoverTopBottomStep(s, now))
  {
    hide FinishRails, CommandGrippers, EnterFault, Outcome, NextId, Failures, Sure, StartRails, StopRails,
         StartGrippers, StopGrippers;
    var finished := FinishRails(s, MP.Pair(TopBottom), FarOpen);
    RailsTried(s, MP.Pair(TopBottom), FarOpen);
    GrippersTried(finished, ALL_PERPENDICULAR);
    FaultIsQuiet(s, finished, s.motion.value.id);
    FaultIsQuiet(s, CommandGrippers(finished, ALL_PERPENDICULAR), s.motion.value.id);
  }

  lemma {:induction false} GrippingIsQuiet(s: State, now: nat)
    requires s.motion.Some?
    ensures Quiet(s, RecoverGrippersStep(s)) && Quiet(s, GripStartStep(s, now)) && Quiet(s, GripGrippersStep(s, now))
  {
    hide StartRails, StopRails, StartGrippers, StopGrippers, Commanded, Outcome, NextId;
  }

  lemma {:induction false} MotionIsQuiet(s: State, now: nat)
    requires s.motion.Some? && s.motion.value.phase != GripFinishRails
    ensures Quiet(s, AdvanceMotion(s, now))
  {
    hide RecoverStartStep, RecoverLeftRightStep, RecoverTopBottomStep, RecoverGrippersStep, GripStartStep,
         GripGrippersStep, NextId;
    RecoverStartIsQuiet(s, now);
    RecoverLeftRightIsQuiet(s, now);
    RecoverTopBottomIsQuiet(s, now);
    GrippingIsQuiet(s, now);
  }

  lemma {:induction false} GripIssues(s: State, now: nat)
    requires s.motion.Some? && s.motion.value.phase == GripFinishRails && s.status.session.None?
    ensures var r := AdvanceMotion(s, now);
            && Issues(s.status.session, r.status.session, s.nextSession, r.nextSession)
            && Quiet(s, r.(status := r.status.(session := None), nextSession := s.nextSession))
  {
    hide Commanded, Outcome, NextId, StartRails, StopRails, StartGrippers, StopGrippers;
  }

  lemma {:induction false} ScanEndsAreQuiet(s: State, scan: ActiveScan, face: LogicalFace, env: Env)
    ensures Quiet(s, FinishScan(s.(scan := None), scan)) && Quiet(s, CaptureStep(s, scan, face, env))
  {
    hide SolverString, Named, Record, NextId;
  }

  /** A step that is commanded, or fails. */
  lemma {:induction false} StepIsQuiet(s: State, pose: StandPose, step: MP.Step, id: nat)
    ensures Quiet(s, FinishPending(s, step)) && Quiet(s, EnterFault(FinishPending(s, step), id))
    ensures Quiet(s, CommandStep(SetPose(s, pose), step)) && Quiet(s, EnterFault(CommandStep(SetPose(s, pose), step), id))
    ensures Quiet(s, EnterFault(s, id)) && Quiet(s, EnterFault(Attempt(s, PwmCommand.AllOff), id))
  {
    hide CommandStep, FinishPending, EnterFault, Outcome, Commanded;
    StepFrame(s, step);
    StepFrame(SetPose(s, pose), step);
    FaultIsQuiet(s, s, id);
    FaultIsQuiet(s, FinishPending(s, step), id);
    FaultIsQuiet(s, CommandStep(SetPose(s, pose), step), id);
    FaultIsQuiet(s, Attempt(s, PwmCommand.AllOff), id);
  }

  lemma {:induction false} ScanIsQuiet(s: State, now: nat, env: Env)
    ensures Quiet(s, AdvanceScan(s, now, env))
  {
    hide CommandStep, FinishPending, StepDuration, Outcome, FinishScan, CaptureStep, EnterFault, NextId, SetPose;
    if s.scan.Some? {
      var scan, plan := s.scan.value, s.scan.value.plan;
      if plan.pending.Some? {
        StepIsQuiet(s, TRANSITIONAL, plan.pending.value, plan.id);
      } else if plan.steps == [] {
        ScanEndsAreQuiet(s, scan, Front, env);
      } else if plan.steps[0].Capture? {
        ScanEndsAreQuiet(s, scan.(plan := plan.(steps := plan.steps[1..])), plan.steps[0].face, env);
      } else {
        StepIsQuiet(s, TRANSITIONAL, plan.steps[0].step, plan.id);
      }
    }
  }

  lemma {:induction false} ExecutionEndsAreQuiet(s: State, plan: Option<ActivePlan>, id: nat, kind: OperationKind)
    ensures Quiet(s, FinishExecute(s.(execute := plan), id, kind)) && Quiet(s, MarkerStep(s.(execute := plan), kind))
    ensures Quiet(s, AdvanceCounter(SetOutputs(Attempt(s, PwmCommand.AllOff), false)).(execute := plan))
  {
    hide NextId, Commanded;
  }

  lemma {:induction false} ExecuteIsQuiet(s: State, now: nat)
    ensures Quiet(s, AdvanceExecute(s, now))
  {
    hide CommandStep, FinishPending, StepDuration, Outcome, Attempt, EnterFault, FinishExecute, MarkerStep, NextId,
         SetPose;
    if s.execute.Some? {
      var plan := s.execute.value;
      var popped := if plan.steps == [] then plan else plan.(steps := plan.steps[1..]);
      var pose := if plan.kind == OpenStand then TRANSITIONAL else StandPose(MovePose, Some(Front));
      ExecutionEndsAreQuiet(s, None, plan.id, plan.kind);
      ExecutionEndsAreQuiet(s, Some(popped), plan.id, plan.kind);
      if plan.pending.Some? {
        StepIsQuiet(s, pose, plan.pending.value, plan.id);
      } else if plan.steps != [] && plan.steps[0].Motion? {
        StepIsQuiet(s, pose, plan.steps[0].step, plan.id);
      } else {
        StepIsQuiet(s, pose, MP.MoveCompleted, plan.id);
      }
    }
  }

  /** An answer of the solver is issued an identifier, unless the robot then faults. */
  predicate SolutionIssues(a: State, b: State) {
    && Quiet(a, b.(status := b.status.(solution := a.status.solution), nextSolution := a.nextSolution))
    && (|| (b.nextSolution == a.nextSolution && (b.status.solution.id == a.status.solution.id || b.status.solution.id.None?))
        || (b.nextSolution == NextId(a.nextSolution) && (b.status.solution.id == Some(a.nextSolution) || b.status.solution.id.None?)))
  }

  lemma {:induction false} SolveIssues(s: State, env: Env)
    ensures SolutionIssues(s, AdvanceSolve(s, env))
  {
    hide NextId, MP.ExecuteSteps, MotionSteps;
  }

  /** What one input issues. */
  predicate Issued(a: State, b: State) {
    && Issues(ActiveId(a), ActiveId(b), a.nextOperation, b.nextOperation)
    && Issues(a.status.session, b.status.session, a.nextSession, b.nextSession)
    && Issues(a.status.scan.revision, b.status.scan.revision, a.nextRevision, b.nextRevision)
    && (|| (b.nextSolution == a.nextSolution && (b.status.solution.id == a.status.solution.id || b.status.solution.id.None?))
        || (b.nextSolution == NextId(a.nextSolution) && (b.status.solution.id == Some(a.nextSolution) || b.status.solution.id.None?)))
  }

  lemma {:induction false} TickIssues(s: State, now: nat, env: Env)
    requires Inv(s) && (s.motion.Some? && s.motion.value.phase == GripFinishRails ==> s.status.session.None?)
    ensures Issued(s, Tick(s, now, env).0)
  {
    hide StartRails, StopRails, StartGrippers, StopGrippers, AdvanceScan, AdvanceSolve, AdvanceMotion;
    MotionOnly(s);
    IdleParts(s, now, env);
    hide Inv, AdvanceMotion, AdvanceScan, AdvanceSolve, AdvanceExecute, NextId;
    var moved := AdvanceMotion(s, now);
    if s.motion.Some? {
      MotionLeaves(s, now);
      IdleParts(moved, now, env);
      if s.motion.value.phase == GripFinishRails {
        GripIssues(s, now);
      } else {
        MotionIsQuiet(s, now);
      }
    } else {
      var scanned := AdvanceScan(s, now, env);
      ScanIsQuiet(s, now, env);
      SolveIssues(scanned, env);
      ExecuteIsQuiet(AdvanceSolve(scanned, env), now);
    }
  }

  lemma {:induction false} MotionOnly(s: State)
    requires Inv(s)
    ensures s.motion.Some? ==> s.scan.None? && s.solve.None? && s.execute.None?
  {
  }

  /** A revision that is published is the last one issued. */
  predicate LastRevision(s: State) {
    s.status.scan.revision.Some? ==> s.nextRevision == NextId(s.status.scan.revision.value)
  }

  lemma {:induction false} StartsIssue(s: State, kind: OperationKind, session: nat, env: Env)
    requires Inv(s) && LastRevision(s)
    ensures Issued(s, StartMotion(s, kind)) && Issued(s, StartScanOperation(s, session, kind, env))
  {
    hide PoseRefusal, RevisionRefusal, DataBelongs, Counted, PendingMoves, PhaseFits;
  }

  lemma {:induction false} SolveIsIssued(s: State, session: nat, revision: nat)
    requires Inv(s)
    ensures Issued(s, StartSolve(s, session, revision)) && Issued(s, Abort(s, ActiveId(s)))
  {
    hide RebuiltString, PoseRefusal, RevisionRefusal, DataBelongs, Counted, PendingMoves, PhaseFits, Commanded, Outcome;
  }

  lemma {:induction false} PlansIssue(s: State, kind: OperationKind, steps: seq<MP.Step>)
    requires s.status.operation.None?
    ensures Issued(s, StartPlan(s, kind, steps))
  {
    hide MotionSteps, NextId;
  }

  lemma {:induction false} CommandIssues(s: State, command: Command, env: Env)
    requires Inv(s) && LastRevision(s)
    ensures Issued(s, Obey(s, command, env))
  {
    hide Counted, Ids, PendingMoves, PhaseFits;
    if s.status.operation.None? {
      NothingActive(s);
    }
    hide Inv, StartMotion, StartScanOperation, StartSolve, Abort, StartPlan, MP.ExecuteSteps, MP.OptimizedHeldSteps, PoseRefusal,
         RevisionRefusal, SolutionRefusal, NextId;
    match command {
      case GetStatus =>
      case RecoverCommand => StartsIssue(s, RecoverToOpen, 0, env);
      case GripCommand => StartsIssue(s, Grip, 0, env);
      case StartScan(session) => StartsIssue(s, OperationKind.Scan, session, env);
      case SolveCommand(session, revision) => SolveIsIssued(s, session, revision);
      case ScanSolveExecuteCommand(session) => StartsIssue(s, ScanSolveExecute, session, env);
      case AbortCommand => SolveIsIssued(s, 0, 0);
      case ExecuteCommand(session, revision, solution) =>
        if ExecuteRefusal(s, session, revision, solution).None? {
          var executing := s.(status := s.status.(solution := s.status.solution.(state := Executing, completedMoves := 0)));
          NotBusy(s);
          PlansIssue(executing, Execute, MP.ExecuteSteps(s.status.solution.moves));
        }
      case ExecuteMovesCommand(session, moves) =>
        if ExecuteMovesRefusal(s, session, moves).None? {
          NotBusy(s);
          PlansIssue(s, ExecuteMoves, MP.OptimizedHeldSteps(moves));
        }
      case OpenCommand(session) =>
        if OpenRefusal(s, session).None? {
          NotBusy(s);
          PlansIssue(s, OpenStand, MP.OPEN_STEPS);
        }
    }
  }

  lemma {:induction false} NotBusy(s: State)
    requires Inv(s) && !OperationActive(s)
    ensures s.status.operation.None?
  {
  }

  lemma {:induction false} IssuedRevision(a: State, b: State)
    requires Issued(a, b) && LastRevision(a)
    ensures LastRevision(b)
  {
    hide NextId;
  }

  lemma {:induction false} BareIssues(a: State, b: State, cache: seq<Cached>)
    requires Issued(a, b)
    ensures Issued(a, b.(events := [])) && Issued(a, b.(events := [], cache := cache))
  {
    hide NextId;
  }

  lemma {:induction false} SameIssues(s: State)
    ensures Issued(s, s)
  {
  }

  lemma {:induction false} StepIssues(s: State, w: World, x: Experience)
    requires Resting(s) && Mechanical(s, w) && LastRevision(s)
    ensures Issued(s, Step(s, x.input)) && LastRevision(Step(s, x.input))
  {
    hide MP.OptimizedHeldSteps, MP.ExecuteSteps, Counted, Ids, PendingMoves, PhaseFits, Mechanical, AdvanceScan,
         AdvanceSolve, AdvanceMotion;
    RestsQuietly(s);
    if s.motion.Some? && s.motion.value.phase == GripFinishRails {
      GrippingHasNoSession(s, w);
    }
    hide Resting, Mechanical, Inv, Tick, Obey, HandlePacket, Issued, LastRevision;
    match x.input {
      case PacketArrives(packet, env) =>
        var core, cache := PacketIs(s, packet, env);
        if Fresh(s, packet) {
          CommandIssues(s, packet.command.value, env);
        } else {
          SameIssues(s);
        }
        BareIssues(s, core, cache);
      case ButtonPressed(local, env) =>
        CommandIssues(s, LocalAsCommand(local), env);
        BareIssues(s, Obey(s, LocalAsCommand(local), env), s.cache);
      case TimePasses(now, env) => TickIssues(s, now, env);
    }
    IssuedRevision(s, Step(s, x.input));
  }

  datatype Numbering = Operations | Sessions | Revisions

  function NumberOf(n: Numbering, status: StatusSnapshot): Option<nat> {
    match n
    case Operations => if status.operation.Some? then Some(status.operation.value.id) else None
    case Sessions => status.session
    case Revisions => status.scan.revision
  }

  /** The identifiers that a run publishes, in the order in which they appear. */
  ghost function Appeared(n: Numbering, s: State, w: World, xs: seq<Experience>): seq<nat> {
    hide RunBoth, Step, WorldStep;
    if xs == [] then []
    else
      var before := xs[..|xs| - 1];
      var last, now := NumberOf(n, RunBoth(s, w, before).0.status), NumberOf(n, RunBoth(s, w, xs).0.status);
      Appeared(n, s, w, before) + if now.Some? && now != last then [now.value] else []
  }

  function Counter(n: Numbering, s: State): nat {
    match n
    case Operations => s.nextOperation
    case Sessions => s.nextSession
    case Revisions => s.nextRevision
  }

  /** The k-th identifier: they count from one, and zero is left out when they wrap around. */
  function Numbered(k: nat): nat {
    1 + k % 0xffff_ffff
  }

  lemma {:induction false} NextNumbered(k: nat)
    ensures NextId(Numbered(k)) == Numbered(k + 1)
  {
  }

  /** Over every run the operations, the sessions and the scans are numbered from one, each
      with the next number, so that none is reused before all have been. */
  lemma {:induction false} NumbersAreConsecutive(n: Numbering, times: Calibration, script: seq<bool>, w: World, xs: seq<Experience>)
    ensures var ids := Appeared(n, Initial(times, script), w, xs);
            && (forall k :: 0 <= k < |ids| ==> ids[k] == Numbered(k))
            && Counter(n, RunBoth(Initial(times, script), w, xs).0) == Numbered(|ids|)
    ensures LastRevision(RunBoth(Initial(times, script), w, xs).0)
  {
    hide Resting, Mechanical, Step, WorldStep, Numbered, NextId, LastRevision, Inv;
    if xs == [] {
      FirstNumbers(n, times, script);
    } else {
      var k := |xs| - 1;
      var (s, u) := RunBoth(Initial(times, script), w, xs[..k]);
      NumbersAreConsecutive(n, times, script, w, xs[..k]);
      RunsAreMechanical(times, script, w, xs[..k]);
      StepIssues(s, u, xs[k]);
      NextNumbered(|Appeared(n, Initial(times, script), w, xs[..k])|);
      assert RunBoth(Initial(times, script), w, xs).0 == Step(s, xs[k].input);
      hide RunBoth;
      NumberStep(n, s, Step(s, xs[k].input));
    }
  }

  lemma {:induction false} FirstNumbers(n: Numbering, times: Calibration, script: seq<bool>)
    ensures Counter(n, Initial(times, script)) == Numbered(0) && LastRevision(Initial(times, script))
  {
  }

  lemma {:induction false} NumberStep(n: Numbering, a: State, b: State)
    requires Issued(a, b)
    ensures Issues(NumberOf(n, a.status), NumberOf(n, b.status), Counter(n, a), Counter(n, b))
  {
    hide NextId;
  }
}

/** Over whole runs: what is published of the servos is what they were commanded, and every
    motion ends at the first tick that finds its calibrated time elapsed, and not before. */
module ServiceTiming {
  import opened Geometry
  import opened Stand
  import opened Options
  import opened Protocol
  import opened RobotService
  import opened ServiceInvariants
  import SW = ServiceWorld
  import MP = MovePlanner
  import RT = RuntimeSafety
  import SP = ScanPlan

  // ---- what is in motion ----------------------------------------------------------

  datatype Doing =
    | AtEase
    | MovingRails(target: MP.RailTarget, position: RailPosition)
    | MovingAllRails
    | MovingGrippers(poses: seq<MP.Pose>)

  function DoingStep(step: MP.Step): Doing {
    match step
    case SetRails(target, position) => MovingRails(target, position)
    case SetGrippers(poses) => MovingGrippers(poses)
    case _ => AtEase
  }

  function DoingPhase(phase: Phase): Doing {
    match phase
    case RecoverStart => AtEase
    case RecoverFinishLeftRight => MovingRails(MP.Pair(LeftRight), FarOpen)
    case RecoverFinishTopBottom => MovingRails(MP.Pair(TopBottom), FarOpen)
    case RecoverFinishGrippers => MovingGrippers(ALL_PERPENDICULAR)
    case GripStart => AtEase
    case GripFinishGrippers => MovingGrippers(ALL_PERPENDICULAR)
    case GripFinishRails => MovingAllRails
  }

  function DoingPlan(plan: ActivePlan): Doing {
    if plan.pending.None? then AtEase else DoingStep(plan.pending.value)
  }

  function DoingOf(s: State): Doing {
    if s.motion.Some? then DoingPhase(s.motion.value.phase)
    else if s.scan.Some? then DoingPlan(s.scan.value.plan)
    else if s.execute.Some? then DoingPlan(s.execute.value)
    else AtEase
  }

  function DeadlineOf(s: State): Option<nat> {
    if s.motion.Some? then s.motion.value.deadline
    else if s.scan.Some? then s.scan.value.plan.deadline
    else if s.execute.Some? then s.execute.value.deadline
    else None
  }

  // ---- the axes and the log -------------------------------------------------------

  datatype Axes = Axes(rails: Four<RailStatus>, grippers: Four<GripperStatus>, log: seq<(PwmCommand, bool)>)

  function AxesOf(s: State): Axes {
    Axes(s.status.stand.rails, s.status.stand.grippers, s.out.log)
  }

  function Logged(x: Axes, command: PwmCommand): Axes {
    x.(log := x.log + [(command, true)])
  }

  /** The axes when a motion has been commanded. */
  function Begun(x: Axes, doing: Doing): Axes {
    match doing
    case AtEase => x
    case MovingRails(target, position) => Logged(x.(rails := StartRails(x.rails, target, position)), SetRailChannels(target, position))
    case MovingAllRails =>
      Logged(x.(rails := StartRails(StartRails(x.rails, MP.Pair(LeftRight), NearGrip), MP.Pair(TopBottom), NearGrip)),
             SetAllRails(NearGrip))
    case MovingGrippers(poses) => Logged(x.(grippers := StartGrippers(x.grippers, poses)), SetGripperChannels(poses))
  }

  /** The axes when it has ended; rails are released. */
  function Over(x: Axes, doing: Doing): Axes {
    match doing
    case AtEase => x
    case MovingRails(target, position) => Logged(x.(rails := StopRails(x.rails, target, position)), DisableRails(target))
    case MovingAllRails => Logged(x.(rails := AllSides(StableRail(NearGrip))), DisableAllRails)
    case MovingGrippers(poses) => x.(grippers := StopGrippers(x.grippers, poses))
  }

  predicate SameOrOff(x: Axes, y: Axes) {
    y == x || y == Logged(x, PwmCommand.AllOff)
  }

  // ---- the time a motion takes ----------------------------------------------------

  function RailTime(times: Calibration, position: RailPosition): nat {
    match position
    case FarOpen => times.railsOpen
    case NearGrip => times.railsGrip
  }

  function Distance(g: GripperStatus): nat {
    if g.motion.Moving? && g.current.Some? && g.target.Some? then
      var d := g.target.value.Index() - g.current.value.Index();
      if d < 0 then -d else d
    else 0
  }

  function Larger(a: nat, b: nat): nat {
    if a < b then b else a
  }

  /** The most quarter turns that any moving gripper has to make, and at least one. */
  function Turns(g: Four<GripperStatus>): nat {
    Larger(Larger(Larger(Larger(1, Distance(g.left)), Distance(g.right)), Distance(g.top)), Distance(g.bottom))
  }

  function Takes(times: Calibration, doing: Doing, grippers: Four<GripperStatus>): nat {
    match doing
    case AtEase => 0
    case MovingRails(_, position) => RailTime(times, position)
    case MovingAllRails => RailTime(times, NearGrip)
    case MovingGrippers(_) => times.gripperPose * Turns(grippers)
  }

  // ---- what a part of a tick does to the axes -------------------------------------

  /** Everything has been given up. */
  predicate Lost(b: State) {
    DoingOf(b) == AtEase && b.status.stand == UNKNOWN_STAND
  }

  /** No axis is in both motions. */
  predicate Apart(a: Doing, b: Doing) {
    || a.MovingGrippers? != b.MovingGrippers?
    || (a.MovingRails? && b.MovingRails? && a.target == MP.Pair(LeftRight) && b.target == MP.Pair(TopBottom))
  }

  /** A motion goes on until its time is up; then it ends, and another one may begin. */
  predicate Drives(a: State, b: State, now: nat) {
    b.times == a.times &&
    (|| (Lost(b) && (DoingOf(a) != AtEase ==> SW.Due(DeadlineOf(a), now)))
     || (AxesOf(b) == AxesOf(a) && DoingOf(b) == DoingOf(a) && DeadlineOf(b) == DeadlineOf(a)
         && (DoingOf(a) != AtEase ==> !SW.Due(DeadlineOf(a), now)))
     || (DoingOf(a) == AtEase && DoingOf(b) == AtEase && SameOrOff(AxesOf(a), AxesOf(b)))
     || (DoingOf(a) == AtEase && DoingOf(b) != AtEase && AxesOf(b) == Begun(AxesOf(a), DoingOf(b))
         && DeadlineOf(b) == Some(now + Takes(b.times, DoingOf(b), b.status.stand.grippers)))
     || (DoingOf(a) != AtEase && SW.Due(DeadlineOf(a), now) && DoingOf(b) == AtEase
         && SameOrOff(Over(AxesOf(a), DoingOf(a)), AxesOf(b)))
     || (DoingOf(a) != AtEase && SW.Due(DeadlineOf(a), now) && DoingOf(b) != AtEase && Apart(DoingOf(a), DoingOf(b))
         && AxesOf(b) == Begun(Over(AxesOf(a), DoingOf(a)), DoingOf(b))
         && DeadlineOf(b) == Some(now + Takes(b.times, DoingOf(b), b.status.stand.grippers))))
  }

  lemma {:induction false} FaultIsLost(s: State, id: nat)
    ensures Lost(EnterFault(s, id)) && EnterFault(s, id).times == s.times
  {
  }

  /** Servo commands on the axes. */
  lemma {:induction false} CommandedAxes(s: State, step: MP.Step)
    ensures Outcome(s.out) ==> AxesOf(CommandStep(s, step)) == Begun(AxesOf(s), DoingStep(step))
    ensures PendingSucceeds(s, step) ==> AxesOf(FinishPending(s, step)) == Over(AxesOf(s), DoingStep(step))
  {
    hide StartRails, StopRails, StartGrippers, StopGrippers;
  }

  // ---- recovery and gripping ------------------------------------------------------

  /** Straight is one quarter turn at most from anywhere. */
  lemma {:induction false} StraighteningTurns(g: Four<GripperStatus>)
    ensures Turns(StartGrippers(g, ALL_PERPENDICULAR)) == 1
  {
    FourStarted(g);
  }

  lemma {:induction false} FourStarted(g: Four<GripperStatus>)
    ensures StartGrippers(g, ALL_PERPENDICULAR) ==
              Four(StartGripper(g.left, FramePerpendicular), StartGripper(g.right, FramePerpendicular),
                   StartGripper(g.top, FramePerpendicular), StartGripper(g.bottom, FramePerpendicular))
  {
    var a, b, c, d := ALL_PERPENDICULAR[0], ALL_PERPENDICULAR[1], ALL_PERPENDICULAR[2], ALL_PERPENDICULAR[3];
    assert ALL_PERPENDICULAR == [a, b, c, d];
    assert ALL_PERPENDICULAR[1..] == [b, c, d] && [b, c, d][1..] == [c, d] && [c, d][1..] == [d] && [d][1..] == [];
    var g1 := g.Set(a.side, StartGripper(g.Get(a.side), a.orientation));
    var g2 := g1.Set(b.side, StartGripper(g1.Get(b.side), b.orientation));
    var g3 := g2.Set(c.side, StartGripper(g2.Get(c.side), c.orientation));
    assert StartGrippers(g, ALL_PERPENDICULAR) == StartGrippers(g1, [b, c, d]);
    assert StartGrippers(g1, [b, c, d]) == StartGrippers(g2, [c, d]);
    assert StartGrippers(g2, [c, d]) == StartGrippers(g3, [d]);
  }

  lemma {:induction false} RecoverStartDrives(s: State, now: nat)
    requires s.motion.Some? && s.motion.value.phase == RecoverStart
    ensures Drives(s, RecoverStartStep(s, now), now)
  {
    hide StartRails, EnterFault, Turns;
    var cleared := SetPose(ClearScanAndSolution(s.(status := s.status.(session := None))), TRANSITIONAL);
    FaultIsLost(CommandRails(cleared, MP.Pair(LeftRight), FarOpen), s.motion.value.id);
  }

  lemma {:induction false} RecoverLeftRightDrives(s: State, now: nat)
    requires s.motion.Some? && s.motion.value.phase == RecoverFinishLeftRight && SW.Due(s.motion.value.deadline, now)
    ensures Drives(s, RecoverLeftRightStep(s, now), now)
  {
    hide StartRails, StopRails, EnterFault, Turns;
    var finished := FinishRails(s, MP.Pair(LeftRight), FarOpen);
    FaultIsLost(finished, s.motion.value.id);
    FaultIsLost(CommandRails(finished, MP.Pair(TopBottom), FarOpen), s.motion.value.id);
  }

  lemma {:induction false} RecoverTopBottomDrives(s: State, now: nat)
    requires s.motion.Some? && s.motion.value.phase == RecoverFinishTopBottom && SW.Due(s.motion.value.deadline, now)
    ensures Drives(s, RecoverTopBottomStep(s, now), now)
  {
    hide StartGrippers, StopRails, EnterFault, Turns;
    var finished := FinishRails(s, MP.Pair(TopBottom), FarOpen);
    FaultIsLost(finished, s.motion.value.id);
    FaultIsLost(CommandGrippers(finished, ALL_PERPENDICULAR), s.motion.value.id);
    StraighteningTurns(finished.status.stand.grippers);
  }

  lemma {:induction false} MotionEndDrives(s: State, now: nat)
    requires s.motion.Some? && SW.Due(s.motion.value.deadline, now) && s.scan.None? && s.execute.None?
    ensures s.motion.value.phase == RecoverFinishGrippers ==> Drives(s, RecoverGrippersStep(s), now)
    ensures s.motion.value.phase == GripFinishRails ==> Drives(s, GripRailsStep(s), now)
  {
    hide StopGrippers, EnterFault;
    FaultIsLost(Attempt(s, AllOff), s.motion.value.id);
    FaultIsLost(Attempt(s, DisableAllRails), s.motion.value.id);
  }

  lemma {:induction false} GripStartDrives(s: State, now: nat)
    requires s.motion.Some? && s.motion.value.phase == GripStart
    ensures Drives(s, GripStartStep(s, now), now)
  {
    hide StartGrippers, EnterFault, Turns;
    FaultIsLost(CommandGrippers(SetPose(s, TRANSITIONAL), ALL_PERPENDICULAR), s.motion.value.id);
    StraighteningTurns(s.status.stand.grippers);
  }

  lemma {:induction false} GripGrippersDrives(s: State, now: nat)
    requires s.motion.Some? && s.motion.value.phase == GripFinishGrippers && SW.Due(s.motion.value.deadline, now)
    ensures Drives(s, GripGrippersStep(s, now), now)
  {
    hide StartRails, StopGrippers, EnterFault, Turns;
    FaultIsLost(Attempt(FinishGrippers(s, ALL_PERPENDICULAR), SetAllRails(NearGrip)), s.motion.value.id);
  }

  lemma {:induction false} MotionDrives(s: State, now: nat)
    requires s.motion.Some? && s.scan.None? && s.execute.None?
    ensures Drives(s, AdvanceMotion(s, now), now)
  {
    hide Drives, RecoverStartStep, RecoverLeftRightStep, RecoverTopBottomStep, RecoverGrippersStep, GripStartStep,
         GripGrippersStep, GripRailsStep;
    if SW.Due(s.motion.value.deadline, now) {
      match s.motion.value.phase {
        case RecoverStart => RecoverStartDrives(s, now);
        case RecoverFinishLeftRight => RecoverLeftRightDrives(s, now);
        case RecoverFinishTopBottom => RecoverTopBottomDrives(s, now);
        case RecoverFinishGrippers => MotionEndDrives(s, now);
        case GripStart => GripStartDrives(s, now);
        case GripFinishGrippers => GripGrippersDrives(s, now);
        case GripFinishRails => MotionEndDrives(s, now);
      }
    } else {
      WaitingDrives(s, now);
    }
  }

  lemma {:induction false} WaitingDrives(s: State, now: nat)
    requires !SW.Due(DeadlineOf(s), now)
    ensures Drives(s, s, now)
  {
  }

  // ---- plans ----------------------------------------------------------------------

  /** One gripper, or two different ones. */
  predicate Proper(poses: seq<MP.Pose>) {
    |poses| == 1 || (|poses| == 2 && poses[0].side != poses[1].side)
  }

  predicate ProperStep(step: SP.MotionStep) {
    step.Motion? && step.step.SetGrippers? ==> Proper(step.step.poses)
  }

  predicate ProperPlan(steps: seq<SP.MotionStep>) {
    forall i :: 0 <= i < |steps| ==> ProperStep(steps[i])
  }

  predicate ProperPlans(s: State) {
    (s.scan.Some? ==> ProperPlan(s.scan.value.plan.steps)) && (s.execute.Some? ==> ProperPlan(s.execute.value.steps))
  }

  lemma {:induction false} TurnsOfStarted(g: Four<GripperStatus>, poses: seq<MP.Pose>)
    requires SW.GrippersStill(g) && Proper(poses)
    ensures Turns(StartGrippers(g, poses)) == QuarterTurns(g, poses)
  {
    var a := poses[0];
    var one := g.Set(a.side, StartGripper(g.Get(a.side), a.orientation));
    if |poses| == 1 {
      assert poses[1..] == [];
      assert StartGrippers(g, poses) == StartGrippers(one, []);
      OneTurns(g, a);
    } else {
      var b := poses[1];
      assert poses[1..] == [b] && [b][1..] == [];
      assert StartGrippers(g, poses) == StartGrippers(one, [b]);
      assert StartGrippers(one, [b]) == StartGrippers(one.Set(b.side, StartGripper(one.Get(b.side), b.orientation)), []);
      assert QuarterTurns(g, [b]) == Larger(1, Distance(StartGripper(g.Get(b.side), b.orientation)));
      TwoTurns(g, a, b);
    }
  }

  lemma {:induction false} OneTurns(g: Four<GripperStatus>, a: MP.Pose)
    requires SW.GrippersStill(g)
    ensures Turns(g.Set(a.side, StartGripper(g.Get(a.side), a.orientation)))
         == Larger(1, Distance(StartGripper(g.Get(a.side), a.orientation)))
  {
    hide GripperOrientation.Index;
  }

  lemma {:induction false} TwoTurns(g: Four<GripperStatus>, a: MP.Pose, b: MP.Pose)
    requires SW.GrippersStill(g) && a.side != b.side
    ensures Turns(g.Set(a.side, StartGripper(g.Get(a.side), a.orientation)).Set(b.side, StartGripper(g.Get(b.side), b.orientation)))
         == Larger(Larger(1, Distance(StartGripper(g.Get(b.side), b.orientation))), Distance(StartGripper(g.Get(a.side), a.orientation)))
  {
    hide GripperOrientation.Index;
  }

  /** A commanded step is given its time. */
  lemma {:induction false} StepTakes(s: State, step: MP.Step)
    requires SW.GrippersStill(s.status.stand.grippers) && (step.SetGrippers? ==> Proper(step.poses)) && Outcome(s.out)
    ensures StepDuration(s, step) == Takes(s.times, DoingStep(step), CommandStep(s, step).status.stand.grippers)
  {
    hide Turns, QuarterTurns, StartGrippers;
    if step.SetGrippers? {
      TurnsOfStarted(s.status.stand.grippers, step.poses);
    }
  }

  lemma {:induction false} ScanDrives(s: State, now: nat, env: Env)
    requires Inv(s) && s.scan.Some? && ProperPlans(s)
    requires DoingOf(s) == AtEase ==> SW.GrippersStill(s.status.stand.grippers)
    ensures Drives(s, AdvanceScan(s, now, env), now)
  {
    hide CommandStep, FinishPending, FinishScan, CaptureStep, EnterFault, StepDuration, Takes, Begun, Over, Outcome,
         DataBelongs, Counted, PhaseFits, Ids, Proper;
    var scan := s.scan.value;
    var plan := scan.plan;
    if !SW.Due(plan.deadline, now) {
      WaitingDrives(s, now);
    } else if plan.pending.Some? {
      CommandedAxes(s, plan.pending.value);
      StepFrame(s, plan.pending.value);
      FaultIsLost(FinishPending(s, plan.pending.value), plan.id);
    } else if plan.steps == [] {
      ScanEndAxes(s);
    } else {
      FaultIsLost(s, plan.id);
      if plan.steps[0].Motion? {
        var posed, step := SetPose(s, TRANSITIONAL), plan.steps[0].step;
        CommandedAxes(posed, step);
        StepFrame(posed, step);
        FaultIsLost(CommandStep(posed, step), plan.id);
        if Outcome(s.out) {
          StepTakes(posed, step);
          SameTime(s, posed, step);
        }
      } else {
        CaptureAxes(s, scan.(plan := plan.(steps := plan.steps[1..])), plan.steps[0].face, env);
      }
    }
  }

  lemma {:induction false} SameTime(s: State, posed: State, step: MP.Step)
    requires posed.times == s.times && posed.status.stand.grippers == s.status.stand.grippers
    ensures StepDuration(posed, step) == StepDuration(s, step)
  {
  }

  lemma {:induction false} ScanEndAxes(s: State)
    requires s.scan.Some? && s.motion.None? && s.execute.None?
    ensures var r := FinishScan(s.(scan := None), s.scan.value);
            AxesOf(r) == AxesOf(s) && DoingOf(r) == AtEase && r.times == s.times
  {
    hide SolverString;
  }

  lemma {:induction false} CaptureAxes(s: State, scan: ActiveScan, face: LogicalFace, env: Env)
    requires s.motion.None? && scan.plan.pending.None?
    ensures var r := CaptureStep(s, scan, face, env);
            AxesOf(r) == AxesOf(s) && DoingOf(r) == AtEase && r.times == s.times
  {
    hide Record;
  }

  lemma {:induction false} SolveDrives(s: State, env: Env, now: nat)
    requires Inv(s)
    ensures var r := AdvanceSolve(s, env);
            && AxesOf(r) == AxesOf(s) && DoingOf(r) == DoingOf(s) && r.times == s.times
            && (s.solve.Some? ==> DoingOf(s) == AtEase)
            && (s.solve.None? ==> r == s)
  {
    hide DataBelongs, Counted, PhaseFits, Ids, MotionSteps, MP.ExecuteSteps;
  }

  lemma {:induction false} ExecuteDrives(s: State, now: nat)
    requires Inv(s) && s.execute.Some? && ProperPlans(s)
    requires DoingOf(s) == AtEase ==> SW.GrippersStill(s.status.stand.grippers)
    ensures Drives(s, AdvanceExecute(s, now), now)
  {
    hide CommandStep, FinishPending, FinishExecute, MarkerStep, EnterFault, StepDuration, Takes, Begun, Over, Outcome,
         DataBelongs, Counted, PhaseFits, Ids, Proper;
    var plan := s.execute.value;
    if !SW.Due(plan.deadline, now) {
      WaitingDrives(s, now);
    } else if plan.pending.Some? {
      CommandedAxes(s, plan.pending.value);
      StepFrame(s, plan.pending.value);
      FaultIsLost(FinishPending(s, plan.pending.value), plan.id);
    } else if plan.steps == [] {
      ExecutionEndAxes(s.(execute := None), plan.id, plan.kind);
    } else {
      FaultIsLost(s, plan.id);
      FaultIsLost(Attempt(s, AllOff), plan.id);
      ExecutionEndAxes(s.(execute := Some(plan.(steps := plan.steps[1..]))), plan.id, plan.kind);
      if plan.steps[0].Motion? {
        var step := plan.steps[0].step;
        var posed := SetPose(s, if plan.kind == OpenStand then TRANSITIONAL else StandPose(MovePose, Some(Front)));
        CommandedAxes(posed, step);
        StepFrame(posed, step);
        FaultIsLost(CommandStep(posed, step), plan.id);
        if Outcome(s.out) {
          StepTakes(posed, step);
          SameTime(s, posed, step);
        }
      }
    }
  }

  lemma {:induction false} ExecutionEndAxes(s: State, id: nat, kind: OperationKind)
    ensures var r := FinishExecute(s, id, kind);
            AxesOf(r) == AxesOf(s) && r.execute == s.execute && r.motion == s.motion && r.scan == s.scan && r.times == s.times
    ensures var r := MarkerStep(s, kind);
            AxesOf(r) == AxesOf(s) && r.execute == s.execute && r.motion == s.motion && r.scan == s.scan && r.times == s.times
  {
  }

  // ---- what the log tells ---------------------------------------------------------

  /** The servos that the log has left powered. */
  datatype Power = Power(rails: Four<bool>, grippers: Four<bool>)

  const NO_POWER := Power(AllSides(false), AllSides(false))

  predicate Targets(target: MP.RailTarget, side: Side) {
    match target
    case Single(only) => side == only
    case Pair(group) => GroupOf(side) == group
  }

  function SwitchRails(rails: Four<bool>, target: MP.RailTarget, on: bool): Four<bool> {
    match target
    case Single(side) => rails.Set(side, on)
    case Pair(group) => rails.SetGroup(group, on)
  }

  function SwitchGrippers(grippers: Four<bool>, poses: seq<MP.Pose>): Four<bool>
    decreases |poses|
  {
    if poses == [] then grippers else SwitchGrippers(grippers.Set(poses[0].side, true), poses[1..])
  }

  function AfterSwitch(p: Power, command: PwmCommand): Power {
    match command
    case SetRailChannels(target, _) => p.(rails := SwitchRails(p.rails, target, true))
    case SetAllRails(_) => p.(rails := AllSides(true))
    case SetGripperChannels(poses) => p.(grippers := SwitchGrippers(p.grippers, poses))
    case DisableRails(target) => p.(rails := SwitchRails(p.rails, target, false))
    case DisableAllRails => p.(rails := AllSides(false))
    case AllOff => NO_POWER
  }

  /** Commands that failed are taken to have done nothing. */
  function PowerOf(log: seq<(PwmCommand, bool)>): Power {
    if log == [] then NO_POWER
    else
      var before, (command, ok) := PowerOf(log[..|log| - 1]), log[|log| - 1];
      if ok then AfterSwitch(before, command) else before
  }

  lemma {:induction false} OneMoreCommand(log: seq<(PwmCommand, bool)>, command: PwmCommand)
    ensures PowerOf(log + [(command, true)]) == AfterSwitch(PowerOf(log), command)
    ensures RT.PostureOf(log + [(command, true)]) == RT.AfterCommand(RT.PostureOf(log), command)
  {
    var entry := (command, true);
    assert (log + [entry])[..|log + [entry]| - 1] == log;
  }

  /** A rail that is published moving has been commanded where it is published to go, and is
      powered; one at rest is where it was commanded last, and is not. */
  predicate RailTold(rail: RailStatus, commanded: Option<RailPosition>, powered: bool) {
    && (rail.motion == Moving ==> rail.target.Some? && commanded == rail.target && powered)
    && (rail.motion == Stable ==> rail.current.Some? && commanded == rail.current && !powered)
  }

  predicate GripperTold(g: GripperStatus, commanded: Option<GripperOrientation>) {
    && (g.motion == Moving ==> g.target.Some? && commanded == g.target)
    && (g.motion == Stable ==> g.current.Some? && commanded == g.current)
  }

  /** Everything published of the axes is what the log says. */
  ghost predicate Told(x: Axes) {
    && (forall side: Side :: RailTold(x.rails.Get(side), RT.PostureOf(x.log).rails.Get(side), PowerOf(x.log).rails.Get(side)))
    && (forall side: Side :: GripperTold(x.grippers.Get(side), RT.PostureOf(x.log).grippers.Get(side)))
  }

  // ---- what moves -----------------------------------------------------------------

  function LastPose(side: Side, poses: seq<MP.Pose>): GripperOrientation
    requires SW.Posed(side, poses)
  {
    if SW.Posed(side, poses[1..]) then LastPose(side, poses[1..]) else poses[0].orientation
  }

  predicate Goes(rail: RailStatus, position: RailPosition) {
    rail.motion == Moving && rail.target == Some(position)
  }

  predicate RailShown(rail: RailStatus, side: Side, doing: Doing) {
    match doing
    case MovingRails(target, position) => if Targets(target, side) then Goes(rail, position) else rail.motion != Moving
    case MovingAllRails => Goes(rail, NearGrip)
    case _ => rail.motion != Moving
  }

  predicate GripperShown(g: GripperStatus, side: Side, doing: Doing) {
    if doing.MovingGrippers? && SW.Posed(side, doing.poses) then g.motion == Moving && g.target == Some(LastPose(side, doing.poses))
    else g.motion != Moving
  }

  /** Exactly the axes of the motion are published moving, to its targets. */
  ghost predicate ShownAs(x: Axes, doing: Doing) {
    && (forall side: Side :: RailShown(x.rails.Get(side), side, doing))
    && (forall side: Side :: GripperShown(x.grippers.Get(side), side, doing))
  }

  lemma {:induction false} StartGoes(g: Four<GripperStatus>, commanded: Four<Option<GripperOrientation>>, poses: seq<MP.Pose>, side: Side)
    ensures var after := StartGrippers(g, poses).Get(side);
            if SW.Posed(side, poses) then
              && after == StartGripper(g.Get(side), LastPose(side, poses))
              && RT.GrippersAfter(commanded, poses).Get(side) == Some(LastPose(side, poses))
            else after == g.Get(side) && RT.GrippersAfter(commanded, poses).Get(side) == commanded.Get(side)
    decreases |poses|
  {
    if poses != [] {
      var p := poses[0];
      StartGoes(g.Set(p.side, StartGripper(g.Get(p.side), p.orientation)), commanded.Set(p.side, Some(p.orientation)), poses[1..], side);
    }
  }

  lemma {:induction false} StopGoes(g: Four<GripperStatus>, poses: seq<MP.Pose>, side: Side)
    ensures StopGrippers(g, poses).Get(side) ==
              if SW.Posed(side, poses) then StableGripper(LastPose(side, poses)) else g.Get(side)
    decreases |poses|
  {
    if poses != [] {
      StopGoes(g.Set(poses[0].side, StableGripper(poses[0].orientation)), poses[1..], side);
    }
  }

  lemma {:induction false} RailGoes(rails: Four<RailStatus>, commanded: Four<Option<RailPosition>>, powered: Four<bool>,
                                    target: MP.RailTarget, position: RailPosition, on: bool, side: Side)
    ensures Targets(target, side) ==>
              && StartRails(rails, target, position).Get(side) == StartRail(rails.Get(side), position)
              && StopRails(rails, target, position).Get(side) == StableRail(position)
              && RT.RailsAfter(commanded, target, position).Get(side) == Some(position)
              && SwitchRails(powered, target, on).Get(side) == on
    ensures !Targets(target, side) ==>
              && StartRails(rails, target, position).Get(side) == rails.Get(side) == StopRails(rails, target, position).Get(side)
              && RT.RailsAfter(commanded, target, position).Get(side) == commanded.Get(side)
              && SwitchRails(powered, target, on).Get(side) == powered.Get(side)
  {
  }

  lemma {:induction false} RailsBegin(x: Axes, target: MP.RailTarget, position: RailPosition)
    requires ShownAs(x, AtEase) && Told(x)
    ensures var y := Begun(x, MovingRails(target, position)); ShownAs(y, MovingRails(target, position)) && Told(y)
  {
    hide RT.PostureOf, PowerOf, StartRails, RT.RailsAfter, SwitchRails, Targets;
    OneMoreCommand(x.log, SetRailChannels(target, position));
    forall side: Side {
      RailGoes(x.rails, RT.PostureOf(x.log).rails, PowerOf(x.log).rails, target, position, true, side);
    }
  }

  lemma {:induction false} AllRailsBegin(x: Axes)
    requires ShownAs(x, AtEase) && Told(x)
    ensures var y := Begun(x, MovingAllRails); ShownAs(y, MovingAllRails) && Told(y)
  {
    hide RT.PostureOf, PowerOf;
    OneMoreCommand(x.log, SetAllRails(NearGrip));
  }

  lemma {:induction false} GrippersBegin(x: Axes, poses: seq<MP.Pose>)
    requires ShownAs(x, AtEase) && Told(x)
    ensures var y := Begun(x, MovingGrippers(poses)); ShownAs(y, MovingGrippers(poses)) && Told(y)
  {
    hide RT.PostureOf, PowerOf, StartGrippers, RT.GrippersAfter, SwitchGrippers, LastPose;
    OneMoreCommand(x.log, SetGripperChannels(poses));
    forall side: Side {
      StartGoes(x.grippers, RT.PostureOf(x.log).grippers, poses, side);
    }
  }

  lemma {:induction false} RailsEnd(x: Axes, target: MP.RailTarget, position: RailPosition)
    requires ShownAs(x, MovingRails(target, position)) && Told(x)
    ensures var y := Over(x, MovingRails(target, position)); ShownAs(y, AtEase) && Told(y)
  {
    hide RT.PostureOf, PowerOf, StopRails, RT.RailsAfter, SwitchRails, Targets;
    OneMoreCommand(x.log, DisableRails(target));
    forall side: Side {
      RailGoes(x.rails, RT.PostureOf(x.log).rails, PowerOf(x.log).rails, target, position, false, side);
    }
  }

  lemma {:induction false} AllRailsEnd(x: Axes)
    requires ShownAs(x, MovingAllRails) && Told(x)
    ensures var y := Over(x, MovingAllRails); ShownAs(y, AtEase) && Told(y)
  {
    hide RT.PostureOf, PowerOf;
    OneMoreCommand(x.log, DisableAllRails);
  }

  lemma {:induction false} GrippersEnd(x: Axes, poses: seq<MP.Pose>)
    requires ShownAs(x, MovingGrippers(poses)) && Told(x)
    ensures var y := Over(x, MovingGrippers(poses)); ShownAs(y, AtEase) && Told(y)
  {
    hide RT.PostureOf, PowerOf, StopGrippers, LastPose;
    forall side: Side {
      StopGoes(x.grippers, poses, side);
    }
  }

  lemma {:induction false} BeginIsTold(x: Axes, doing: Doing)
    requires ShownAs(x, AtEase) && Told(x)
    ensures ShownAs(Begun(x, doing), doing) && Told(Begun(x, doing))
  {
    hide Begun, ShownAs, Told;
    match doing {
      case AtEase => StillBegins(x);
      case MovingRails(target, position) => RailsBegin(x, target, position);
      case MovingAllRails => AllRailsBegin(x);
      case MovingGrippers(poses) => GrippersBegin(x, poses);
    }
  }

  lemma {:induction false} StillBegins(x: Axes)
    ensures Begun(x, AtEase) == x == Over(x, AtEase)
  {
  }

  lemma {:induction false} EndIsTold(x: Axes, doing: Doing)
    requires ShownAs(x, doing) && Told(x)
    ensures ShownAs(Over(x, doing), AtEase) && Told(Over(x, doing))
  {
    hide Over, ShownAs, Told;
    match doing {
      case AtEase => StillBegins(x);
      case MovingRails(target, position) => RailsEnd(x, target, position);
      case MovingAllRails => AllRailsEnd(x);
      case MovingGrippers(poses) => GrippersEnd(x, poses);
    }
  }

  lemma {:induction false} OffIsTold(x: Axes, y: Axes)
    requires ShownAs(x, AtEase) && Told(x) && SameOrOff(x, y)
    ensures ShownAs(y, AtEase) && Told(y)
  {
    hide RT.PostureOf, PowerOf;
    OneMoreCommand(x.log, PwmCommand.AllOff);
  }

  lemma {:induction false} LostIsTold(s: State)
    requires Lost(s)
    ensures ShownAs(AxesOf(s), DoingOf(s)) && Told(AxesOf(s))
  {
    hide RT.PostureOf, PowerOf, DoingOf;
  }

  /** A part of a tick keeps what is published true of the log. */
  lemma {:induction false} DrivingIsTold(a: State, b: State, now: nat)
    requires Drives(a, b, now) && ShownAs(AxesOf(a), DoingOf(a)) && Told(AxesOf(a))
    ensures ShownAs(AxesOf(b), DoingOf(b)) && Told(AxesOf(b))
  {
    hide ShownAs, Told, DoingOf, DeadlineOf, Takes, SameOrOff, Lost, AxesOf, Begun, Over;
    var x := AxesOf(a);
    if Lost(b) {
      LostIsTold(b);
    } else if DoingOf(a) == AtEase {
      if DoingOf(b) == AtEase {
        if SameOrOff(x, AxesOf(b)) {
          OffIsTold(x, AxesOf(b));
        }
      } else if AxesOf(b) == Begun(x, DoingOf(b)) {
        BeginIsTold(x, DoingOf(b));
      }
    } else if SW.Due(DeadlineOf(a), now) {
      EndIsTold(x, DoingOf(a));
      var y := Over(x, DoingOf(a));
      if DoingOf(b) == AtEase {
        OffIsTold(y, AxesOf(b));
      } else {
        BeginIsTold(y, DoingOf(b));
      }
    }
  }

  // ---- plans move one gripper or two ----------------------------------------------

  predicate ProperSteps(steps: seq<MP.Step>) {
    forall i :: 0 <= i < |steps| && steps[i].SetGrippers? ==> Proper(steps[i].poses)
  }

  lemma {:induction false} AppendIsProper(a: seq<MP.Step>, b: seq<MP.Step>)
    requires ProperSteps(a) && ProperSteps(b)
    ensures ProperSteps(a + b)
  {
    hide Proper;
  }

  lemma {:induction false} FlushIsProper(plan: MP.Plan, group: AxisGroup)
    requires ProperSteps(plan.steps)
    ensures ProperSteps(MP.FlushGroup(plan, group).steps)
  {
    var sides := MP.DirtyGrippers(plan.dirty, group);
    assert |sides| == 2 ==> sides[0] != sides[1];
  }

  lemma {:induction false} ReorientIsProper(plan: MP.Plan, frame: MP.Frame)
    requires ProperSteps(plan.steps)
    ensures ProperSteps(MP.Reorient(plan, frame).steps)
  {
    hide ProperSteps, MP.ReorientSteps, MP.FusedSteps, MP.Cleaned;
    var top, bottom := if frame == MP.RotatedFb then MP.P else MP.R, if frame == MP.RotatedFb then MP.R else MP.P;
    ReorientStepsAreProper(top, bottom);
    AppendIsProper(plan.steps, MP.ReorientSteps(top, bottom));
    var sides := MP.DirtyGrippers(plan.dirty, LeftRight);
    if sides != [] {
      assert |sides| == 2 ==> sides[0] != sides[1];
      FusedStepsAreProper(sides, top, bottom);
      AppendIsProper(plan.steps, MP.FusedSteps(sides, top, bottom));
    }
  }

  lemma {:induction false} ReorientStepsAreProper(top: GripperOrientation, bottom: GripperOrientation)
    ensures ProperSteps(MP.ReorientSteps(top, bottom))
  {
  }

  lemma {:induction false} FusedStepsAreProper(sides: seq<Side>, top: GripperOrientation, bottom: GripperOrientation)
    requires |sides| == 1 || (|sides| == 2 && sides[0] != sides[1])
    ensures ProperSteps(MP.FusedSteps(sides, top, bottom))
  {
  }

  lemma {:induction false} MoveIsProper(plan: MP.Plan, move: MP.CubeMove)
    requires ProperSteps(plan.steps)
    ensures ProperSteps(MP.PlanMove(plan, move).steps)
  {
    hide MP.FlushGroup, MP.Reorient, MP.NeededFrame;
    var side := MP.DirectSide(move.face);
    FlushIsProper(plan, TopBottom);
    ReorientIsProper(MP.FlushGroup(plan, TopBottom), MP.NeededFrame(plan.frame, move.face));
    FlushIsProper(MP.EnterFrame(plan, move.face), Other(GroupOf(side)));
  }

  lemma {:induction false} MovesAreProper(moves: seq<MP.CubeMove>)
    ensures ProperSteps(MP.PlanMoves(MP.EMPTY_PLAN, moves).steps)
  {
    if moves != [] {
      var k := |moves| - 1;
      MovesAreProper(moves[..k]);
      MoveIsProper(MP.PlanMoves(MP.EMPTY_PLAN, moves[..k]), moves[k]);
    }
  }

  lemma {:induction false} PlansAreProper(moves: seq<MP.CubeMove>)
    ensures ProperPlan(MotionSteps(MP.OptimizedHeldSteps(moves))) && ProperPlan(MotionSteps(MP.ExecuteSteps(moves)))
    ensures ProperPlan(MotionSteps(MP.OPEN_STEPS))
  {
    hide MP.FlushGroup, MP.Reorient, MP.PlanMoves, Proper;
    var plan := MP.PlanMoves(MP.EMPTY_PLAN, moves);
    MovesAreProper(moves);
    FlushIsProper(plan, TopBottom);
    ReorientIsProper(MP.FlushGroup(plan, TopBottom), MP.Canonical);
    var restored := if plan.frame == MP.RotatedFb then MP.Reorient(MP.FlushGroup(plan, TopBottom), MP.Canonical) else plan;
    FlushIsProper(restored, LeftRight);
    FlushIsProper(MP.FlushGroup(restored, LeftRight), TopBottom);
  }

  lemma {:induction false} ScanIsProper()
    ensures ProperPlan(SP.SCAN_STEPS)
  {
  }

  // ---- one tick -------------------------------------------------------------------

  /** What holds of the axes in every reachable state. */
  ghost predicate Driven(s: State) {
    ProperPlans(s) && ShownAs(AxesOf(s), DoingOf(s)) && Told(AxesOf(s))
  }

  lemma {:induction false} StillGrippers(s: State)
    requires ShownAs(AxesOf(s), AtEase) 
    ensures SW.GrippersStill(s.status.stand.grippers)
  {
    var g := s.status.stand.grippers;
    assert g.Get(Side.Left) == g.left && g.Get(Side.Right) == g.right && g.Get(Top) == g.top && g.Get(Bottom) == g.bottom;
    assert GripperShown(g.Get(Side.Left), Side.Left, AtEase);
  }

  lemma {:induction false} ShorterIsProper(steps: seq<SP.MotionStep>)
    requires ProperPlan(steps) && steps != []
    ensures ProperPlan(steps[1..])
  {
  }

  lemma {:induction false} MotionProper(s: State, now: nat)
    requires ProperPlans(s)
    ensures ProperPlans(AdvanceMotion(s, now))
  {
    hide ProperPlan, AdvanceMotion;
    MotionLeaves(s, now);
  }

  lemma {:induction false} ScanProper(s: State, now: nat, env: Env)
    requires ProperPlans(s)
    ensures ProperPlans(AdvanceScan(s, now, env))
  {
    hide ProperPlan, CommandStep, FinishPending, FinishScan, CaptureStep, EnterFault, StepDuration, Outcome;
    if s.scan.Some? {
      var scan := s.scan.value;
      if scan.plan.pending.Some? {
        StepFrame(s, scan.plan.pending.value);
        FaultFrame(FinishPending(s, scan.plan.pending.value), scan.plan.id);
      } else if scan.plan.steps == [] {
        ScanEndProper(s);
      } else {
        ShorterIsProper(scan.plan.steps);
        FaultFrame(s, scan.plan.id);
        if scan.plan.steps[0].Motion? {
          StepFrame(SetPose(s, TRANSITIONAL), scan.plan.steps[0].step);
          FaultFrame(CommandStep(SetPose(s, TRANSITIONAL), scan.plan.steps[0].step), scan.plan.id);
        } else {
          CaptureProper(s, scan.(plan := scan.plan.(steps := scan.plan.steps[1..])), scan.plan.steps[0].face, env);
        }
      }
    }
  }

  lemma {:induction false} ScanEndProper(s: State)
    requires s.scan.Some? && ProperPlans(s)
    ensures ProperPlans(FinishScan(s.(scan := None), s.scan.value))
  {
    hide SolverString, ProperPlan;
  }

  lemma {:induction false} CaptureProper(s: State, scan: ActiveScan, face: LogicalFace, env: Env)
    requires ProperPlans(s) && ProperPlan(scan.plan.steps)
    ensures ProperPlans(CaptureStep(s, scan, face, env))
  {
    hide Record, ProperPlan;
  }

  lemma {:induction false} SolveProper(s: State, env: Env)
    requires ProperPlans(s)
    ensures ProperPlans(AdvanceSolve(s, env))
  {
    hide ProperPlan, MotionSteps, MP.ExecuteSteps;
    if env.solver.Solved? {
      PlansAreProper(env.solver.moves);
    }
  }

  lemma {:induction false} ExecuteProper(s: State, now: nat)
    requires ProperPlans(s)
    ensures ProperPlans(AdvanceExecute(s, now))
  {
    hide ProperPlan, CommandStep, FinishPending, FinishExecute, MarkerStep, EnterFault, StepDuration, Outcome;
    if s.execute.Some? {
      var plan := s.execute.value;
      ExecutionEndAxes(s.(execute := None), plan.id, plan.kind);
      if plan.pending.Some? {
        StepFrame(s, plan.pending.value);
        FaultFrame(FinishPending(s, plan.pending.value), plan.id);
      } else if plan.steps != [] {
        ShorterIsProper(plan.steps);
        FaultFrame(s, plan.id);
        FaultFrame(Attempt(s, AllOff), plan.id);
        ExecutionEndAxes(s.(execute := Some(plan.(steps := plan.steps[1..]))), plan.id, plan.kind);
        if plan.steps[0].Motion? {
          var pose := if plan.kind == OpenStand then TRANSITIONAL else StandPose(MovePose, Some(Front));
          StepFrame(SetPose(s, pose), plan.steps[0].step);
          FaultFrame(CommandStep(SetPose(s, pose), plan.steps[0].step), plan.id);
        }
      }
    }
  }

  lemma {:induction false} ObeyProper(s: State, command: Command, env: Env)
    requires ProperPlans(s)
    ensures ProperPlans(Obey(s, command, env))
  {
    hide ProperPlan, MotionSteps, MP.ExecuteSteps, MP.OptimizedHeldSteps, RebuiltString, SessionRefusal, PoseRefusal,
         RevisionRefusal, SolutionRefusal, Earlier;
    PlansAreProper(s.status.solution.moves);
    ScanIsProper();
    if command.ExecuteMovesCommand? {
      PlansAreProper(command.moves);
    }
  }

  lemma {:induction false} TickProper(s: State, now: nat, env: Env)
    requires ProperPlans(s)
    ensures ProperPlans(Tick(s, now, env).0)
  {
    hide ProperPlan, AdvanceMotion, AdvanceScan, AdvanceSolve, AdvanceExecute;
    MotionProper(s, now);
    var moved := AdvanceMotion(s, now);
    ScanProper(moved, now, env);
    SolveProper(AdvanceScan(moved, now, env), env);
    ExecuteProper(AdvanceSolve(AdvanceScan(moved, now, env), env), now);
  }

  /** Drives looks at the axes only. */
  lemma {:induction false} DrivesFromRest(a: State, mid: State, b: State, now: nat)
    requires AxesOf(a) == AxesOf(mid) && DoingOf(a) == AtEase == DoingOf(mid) && a.times == mid.times && Drives(mid, b, now)
    ensures Drives(a, b, now)
  {
    hide AxesOf, DoingOf, DeadlineOf, Takes, Begun, Over;
  }

  lemma {:induction false} RestDrives(a: State, b: State, now: nat)
    requires AxesOf(a) == AxesOf(b) && DoingOf(a) == AtEase == DoingOf(b) && a.times == b.times
    ensures Drives(a, b, now)
  {
  }

  lemma {:induction false} BareDrives(a: State, b: State, now: nat)
    requires Drives(a, b, now)
    ensures Drives(a, b.(events := []), now)
  {
    assert AxesOf(b.(events := [])) == AxesOf(b) && DoingOf(b.(events := [])) == DoingOf(b) && DeadlineOf(b.(events := [])) == DeadlineOf(b);
    hide AxesOf, DoingOf, DeadlineOf, Takes, Begun, Over;
  }

  lemma {:induction false} TickDrives(s: State, now: nat, env: Env)
    requires Inv(s) && Driven(s)
    ensures Drives(s, Tick(s, now, env).0, now)
  {
    hide Inv, ProperPlans, ShownAs, Told, Drives, AdvanceMotion, AdvanceScan, AdvanceSolve, AdvanceExecute, AxesOf;
    var moved := AdvanceMotion(s, now);
    OneSlot(s);
    MotionKeeps(s, now);
    MotionProper(s, now);
    if s.motion.Some? {
      MotionDrives(s, now);
      MotionLeaves(s, now);
      NothingElse(moved, now, env);
    } else {
      assert moved == s by {
        NoMotion(s, now);
      }
      PlanDrives(s, now, env);
    }
    BareDrives(s, AdvanceExecute(AdvanceSolve(AdvanceScan(moved, now, env), env), now), now);
  }

  lemma {:induction false} OneSlot(s: State)
    requires Inv(s)
    ensures s.motion.Some? ==> s.scan.None? && s.solve.None? && s.execute.None?
    ensures s.scan.Some? ==> s.solve.None? && s.execute.None?
    ensures s.solve.Some? ==> s.execute.None?
  {
  }

  lemma {:induction false} NoMotion(s: State, now: nat)
    requires s.motion.None?
    ensures AdvanceMotion(s, now) == s
  {
  }

  lemma {:induction false} NothingElse(s: State, now: nat, env: Env)
    requires s.scan.None? && s.solve.None? && s.execute.None?
    ensures AdvanceScan(s, now, env) == s && AdvanceSolve(s, env) == s && AdvanceExecute(s, now) == s
  {
  }

  lemma {:induction false} NoExecution(s: State, now: nat)
    requires s.execute.None?
    ensures AdvanceExecute(s, now) == s
  {
  }

  lemma {:induction false} NoScan(s: State, now: nat, env: Env)
    requires s.scan.None?
    ensures AdvanceScan(s, now, env) == s
  {
  }

  /** A scan never begins an execution, and begins to solve only at rest. */
  lemma {:induction false} ScanHandsOver(s: State, now: nat, env: Env)
    requires s.scan.Some? && s.solve.None? && s.execute.None? && s.motion.None?
    ensures AdvanceScan(s, now, env).execute.None?
    ensures var r := AdvanceScan(s, now, env);
            r.solve.Some? ==> DoingOf(s) == AtEase == DoingOf(r) && AxesOf(r) == AxesOf(s) && r.times == s.times
  {
    hide CommandStep, FinishPending, FinishScan, CaptureStep, EnterFault, StepDuration, Outcome;
    var scan := s.scan.value;
    ScanEndAxes(s);
    ScanEndLeaves(s);
    FaultFrame(s, scan.plan.id);
    if scan.plan.pending.Some? {
      StepFrame(s, scan.plan.pending.value);
      FaultFrame(FinishPending(s, scan.plan.pending.value), scan.plan.id);
    } else if scan.plan.steps != [] {
      if scan.plan.steps[0].Motion? {
        StepFrame(SetPose(s, TRANSITIONAL), scan.plan.steps[0].step);
        FaultFrame(CommandStep(SetPose(s, TRANSITIONAL), scan.plan.steps[0].step), scan.plan.id);
      } else {
        CaptureLeaves(s, scan.(plan := scan.plan.(steps := scan.plan.steps[1..])), scan.plan.steps[0].face, env);
      }
    }
  }

  lemma {:induction false} ScanEndLeaves(s: State)
    requires s.scan.Some?
    ensures FinishScan(s.(scan := None), s.scan.value).execute == s.execute
  {
    hide SolverString;
  }

  lemma {:induction false} CaptureLeaves(s: State, scan: ActiveScan, face: LogicalFace, env: Env)
    ensures CaptureStep(s, scan, face, env).execute == s.execute && CaptureStep(s, scan, face, env).solve == s.solve
  {
    hide Record;
  }

  lemma {:induction false} RestThenExecute(s: State, solved: State, now: nat)
    requires AxesOf(s) == AxesOf(solved) && DoingOf(s) == AtEase == DoingOf(solved) && s.times == solved.times
    requires ShownAs(AxesOf(s), AtEase) && Inv(solved) && ProperPlans(solved)
    ensures Drives(s, AdvanceExecute(solved, now), now)
  {
    hide Inv, ProperPlans, ShownAs, Drives, AdvanceExecute, AxesOf;
    StillGrippers(solved);
    if solved.execute.None? {
      NoExecution(solved, now);
      RestDrives(s, solved, now);
    } else {
      ExecuteDrives(solved, now);
      DrivesFromRest(s, solved, AdvanceExecute(solved, now), now);
    }
  }

  lemma {:induction false} PlanDrives(s: State, now: nat, env: Env)
    requires Inv(s) && Driven(s) && s.motion.None?
    ensures Drives(s, AdvanceExecute(AdvanceSolve(AdvanceScan(s, now, env), env), now), now)
  {
    hide Inv, ProperPlans, ShownAs, Told, Drives, AdvanceScan, AdvanceSolve, AdvanceExecute, AxesOf;
    var scanned := AdvanceScan(s, now, env);
    var solved := AdvanceSolve(scanned, env);
    OneSlot(s);
    ScanKeeps(s, now, env);
    ScanProper(s, now, env);
    SolveKeeps(scanned, env);
    SolveProper(scanned, env);
    SolveDrives(scanned, env, now);
    if DoingOf(s) == AtEase {
      StillGrippers(s);
    }
    if s.scan.Some? {
      ScanHandsOver(s, now, env);
      if scanned.solve.None? {
        ScanDrives(s, now, env);
        NoExecution(scanned, now);
      } else {
        RestThenExecute(s, solved, now);
      }
    } else {
      NoScan(s, now, env);
      if s.solve.Some? {
        RestThenExecute(s, solved, now);
      } else if s.execute.Some? {
        ExecuteDrives(s, now);
      } else {
        NoExecution(s, now);
        IdleDrives(s, now);
      }
    }
  }

  lemma {:induction false} IdleDrives(s: State, now: nat)
    requires !OperationActive(s)
    ensures Drives(s, s, now)
  {
  }

  // ---- clocks ---------------------------------------------------------------------

  /** When each axis was set in motion. */
  datatype Clock = Clock(rails: Four<nat>, grippers: Four<nat>)

  const STOPPED := Clock(AllSides(0), AllSides(0))

  function Since(since: nat, before: AxisMotion, after: AxisMotion, now: nat): nat {
    if after == Moving && before != Moving then now else since
  }

  /** The clock after a tick, by what was published before and after it. */
  function Ticked(c: Clock, before: StandState, after: StandState, now: nat): Clock {
    Clock(Four(Since(c.rails.left, before.rails.left.motion, after.rails.left.motion, now),
               Since(c.rails.right, before.rails.right.motion, after.rails.right.motion, now),
               Since(c.rails.top, before.rails.top.motion, after.rails.top.motion, now),
               Since(c.rails.bottom, before.rails.bottom.motion, after.rails.bottom.motion, now)),
          Four(Since(c.grippers.left, before.grippers.left.motion, after.grippers.left.motion, now),
               Since(c.grippers.right, before.grippers.right.motion, after.grippers.right.motion, now),
               Since(c.grippers.top, before.grippers.top.motion, after.grippers.top.motion, now),
               Since(c.grippers.bottom, before.grippers.bottom.motion, after.grippers.bottom.motion, now)))
  }

  ghost function Clocks(s: State, inputs: seq<Input>): Clock {
    if inputs == [] then STOPPED
    else
      var before, input := inputs[..|inputs| - 1], inputs[|inputs| - 1];
      if input.TimePasses? then
        Ticked(Clocks(s, before), RunService(s, before).status.stand, RunService(s, inputs).status.stand, input.now)
      else Clocks(s, before)
  }

  predicate TimedAt(s: State, c: Clock, side: Side) {
    && (s.status.stand.rails.Get(side).motion == Moving ==>
          DeadlineOf(s) == Some(c.rails.Get(side) + Takes(s.times, DoingOf(s), s.status.stand.grippers)))
    && (s.status.stand.grippers.Get(side).motion == Moving ==>
          DeadlineOf(s) == Some(c.grippers.Get(side) + Takes(s.times, DoingOf(s), s.status.stand.grippers)))
  }

  /** The deadline is the time at which the motion began and the time that it takes. */
  ghost predicate Timed(s: State, c: Clock) {
    forall side: Side :: TimedAt(s, c, side)
  }

  lemma {:induction false} TickedGet(c: Clock, before: StandState, after: StandState, now: nat, side: Side)
    ensures var r := Ticked(c, before, after, now);
            && r.rails.Get(side) == Since(c.rails.Get(side), before.rails.Get(side).motion, after.rails.Get(side).motion, now)
            && r.grippers.Get(side) == Since(c.grippers.Get(side), before.grippers.Get(side).motion, after.grippers.Get(side).motion, now)
  {
  }

  /** What one tick does to one rail. */
  lemma {:induction false} RailDriven(a: State, b: State, now: nat, c: Clock, side: Side)
    requires Drives(a, b, now) && ShownAs(AxesOf(a), DoingOf(a)) && ShownAs(AxesOf(b), DoingOf(b)) && TimedAt(a, c, side)
    ensures a.status.stand.rails.Get(side).motion == Moving ==>
              && a.status.stand.rails.Get(side).target.Some?
              && Takes(a.times, DoingOf(a), a.status.stand.grippers) == RailTime(a.times, a.status.stand.rails.Get(side).target.value)
              && DeadlineOf(a).Some?
              && (now < DeadlineOf(a).value ==> b.status.stand.rails.Get(side) == a.status.stand.rails.Get(side))
              && (now >= DeadlineOf(a).value ==>
                    b.status.stand == UNKNOWN_STAND
                    || b.status.stand.rails.Get(side) == StableRail(a.status.stand.rails.Get(side).target.value))
  {
    hide Begun, Over, Told, StartRails, StopRails, Told, SW.Posed, LastPose, StartGrippers, StopGrippers;
    assert RailShown(a.status.stand.rails.Get(side), side, DoingOf(a));
    if a.status.stand.rails.Get(side).motion == Moving && DoingOf(a) != AtEase && SW.Due(DeadlineOf(a), now) {
      RailOver(AxesOf(a), DoingOf(a), side);
      if Apart(DoingOf(a), DoingOf(b)) {
        RailBegun(Over(AxesOf(a), DoingOf(a)), DoingOf(a), DoingOf(b), side);
      }
    }
  }

  lemma {:induction false} RailOver(x: Axes, doing: Doing, side: Side)
    requires RailShown(x.rails.Get(side), side, doing) && x.rails.Get(side).motion == Moving
    ensures Over(x, doing).rails.Get(side) == StableRail(x.rails.Get(side).target.value)
  {
    hide StopRails, StopGrippers;
    if doing.MovingRails? {
      RailGoes(x.rails, RT.NOTHING_COMMANDED.rails, NO_POWER.rails, doing.target, doing.position, false, side);
    }
  }

  lemma {:induction false} RailBegun(x: Axes, a: Doing, b: Doing, side: Side)
    requires Apart(a, b) && RailMoves(a, side)
    ensures Begun(x, b).rails.Get(side) == x.rails.Get(side)
  {
    hide StartRails, StartGrippers;
    if b.MovingRails? {
      RailGoes(x.rails, RT.NOTHING_COMMANDED.rails, NO_POWER.rails, b.target, b.position, false, side);
    }
  }

  predicate RailMoves(doing: Doing, side: Side) {
    doing.MovingAllRails? || (doing.MovingRails? && Targets(doing.target, side))
  }

  /** What one tick does to one gripper. */
  lemma {:induction false} GripperDriven(a: State, b: State, now: nat, c: Clock, side: Side)
    requires Drives(a, b, now) && ShownAs(AxesOf(a), DoingOf(a)) && ShownAs(AxesOf(b), DoingOf(b)) && TimedAt(a, c, side)
    ensures a.status.stand.grippers.Get(side).motion == Moving ==>
              && a.status.stand.grippers.Get(side).target.Some?
              && Takes(a.times, DoingOf(a), a.status.stand.grippers) == a.times.gripperPose * Turns(a.status.stand.grippers)
              && DeadlineOf(a).Some?
              && (now < DeadlineOf(a).value ==> b.status.stand.grippers.Get(side) == a.status.stand.grippers.Get(side))
              && (now >= DeadlineOf(a).value ==>
                    b.status.stand == UNKNOWN_STAND
                    || b.status.stand.grippers.Get(side) == StableGripper(a.status.stand.grippers.Get(side).target.value))
  {
    hide Begun, Over, Told, StartRails, StopRails, Told, SW.Posed, LastPose, StartGrippers, StopGrippers, Turns;
    assert GripperShown(a.status.stand.grippers.Get(side), side, DoingOf(a));
    if a.status.stand.grippers.Get(side).motion == Moving && SW.Due(DeadlineOf(a), now) {
      GripperOver(AxesOf(a), DoingOf(a), side);
      if Apart(DoingOf(a), DoingOf(b)) {
        GripperBegun(Over(AxesOf(a), DoingOf(a)), DoingOf(a), DoingOf(b), side);
      }
    }
  }

  lemma {:induction false} GripperOver(x: Axes, doing: Doing, side: Side)
    requires GripperShown(x.grippers.Get(side), side, doing) && x.grippers.Get(side).motion == Moving
    ensures Over(x, doing).grippers.Get(side) == StableGripper(x.grippers.Get(side).target.value)
  {
    hide StopRails, StopGrippers;
    StopGoes(x.grippers, doing.poses, side);
  }

  lemma {:induction false} GripperBegun(x: Axes, a: Doing, b: Doing, side: Side)
    requires Apart(a, b) && a.MovingGrippers?
    ensures Begun(x, b).grippers.Get(side) == x.grippers.Get(side)
  {
    hide StartRails, StartGrippers;
  }

  lemma {:induction false} RailIsTimed(a: State, b: State, now: nat, c: Clock, side: Side)
    requires Drives(a, b, now) && ShownAs(AxesOf(a), DoingOf(a)) && ShownAs(AxesOf(b), DoingOf(b)) && TimedAt(a, c, side)
    ensures b.status.stand.rails.Get(side).motion == Moving ==>
              DeadlineOf(b) == Some(Ticked(c, a.status.stand, b.status.stand, now).rails.Get(side)
                                    + Takes(b.times, DoingOf(b), b.status.stand.grippers))
  {
    hide Takes, Begun, Over, Ticked, SameOrOff, DeadlineOf;
    TickedGet(c, a.status.stand, b.status.stand, now, side);
    assert RailShown(b.status.stand.rails.Get(side), side, DoingOf(b)) && RailShown(a.status.stand.rails.Get(side), side, DoingOf(a));
    if Apart(DoingOf(a), DoingOf(b)) && RailMoves(DoingOf(b), side) {
      ApartRail(DoingOf(a), DoingOf(b), side);
    }
    SameTakes(a, b);
  }

  lemma {:induction false} GripperIsTimed(a: State, b: State, now: nat, c: Clock, side: Side)
    requires Drives(a, b, now) && ShownAs(AxesOf(a), DoingOf(a)) && ShownAs(AxesOf(b), DoingOf(b)) && TimedAt(a, c, side)
    ensures b.status.stand.grippers.Get(side).motion == Moving ==>
              DeadlineOf(b) == Some(Ticked(c, a.status.stand, b.status.stand, now).grippers.Get(side)
                                    + Takes(b.times, DoingOf(b), b.status.stand.grippers))
  {
    hide Takes, Begun, Over, Ticked, SameOrOff, DeadlineOf;
    TickedGet(c, a.status.stand, b.status.stand, now, side);
    assert GripperShown(b.status.stand.grippers.Get(side), side, DoingOf(b)) && GripperShown(a.status.stand.grippers.Get(side), side, DoingOf(a));
    SameTakes(a, b);
  }

  /** When a motion has just begun, its axes were at rest, and the deadline counts from now. */
  lemma {:induction false} DrivingIsTimed(a: State, b: State, now: nat, c: Clock)
    requires Drives(a, b, now) && ShownAs(AxesOf(a), DoingOf(a)) && ShownAs(AxesOf(b), DoingOf(b)) && Timed(a, c)
    ensures Timed(b, Ticked(c, a.status.stand, b.status.stand, now))
  {
    hide Takes, Ticked, Drives, ShownAs, DeadlineOf;
    forall side: Side
      ensures TimedAt(b, Ticked(c, a.status.stand, b.status.stand, now), side)
    {
      assert TimedAt(a, c, side);
      RailIsTimed(a, b, now, c, side);
      GripperIsTimed(a, b, now, c, side);
    }
  }

  lemma {:induction false} ApartRail(a: Doing, b: Doing, side: Side)
    requires Apart(a, b) && RailMoves(b, side)
    ensures !RailMoves(a, side)
  {
  }

  lemma {:induction false} SameTakes(a: State, b: State)
    requires b.times == a.times
    ensures AxesOf(b) == AxesOf(a) && DoingOf(b) == DoingOf(a) ==>
              Takes(b.times, DoingOf(b), b.status.stand.grippers) == Takes(a.times, DoingOf(a), a.status.stand.grippers)
  {
  }

  // ---- requests -------------------------------------------------------------------

  /** Commands move nothing: at most they give everything up. */
  predicate Holds(a: State, b: State) {
    b.times == a.times
    && (Lost(b) || (AxesOf(b) == AxesOf(a) && DoingOf(b) == DoingOf(a) && (DoingOf(a) != AtEase ==> DeadlineOf(b) == DeadlineOf(a))))
  }

  lemma {:induction false} ObeyHolds(s: State, command: Command, env: Env)
    requires Inv(s)
    ensures Holds(s, Obey(s, command, env))
  {
    hide MotionSteps, MP.ExecuteSteps, MP.OptimizedHeldSteps, RebuiltString, RebuiltSlots, PoseRefusal, RevisionRefusal,
         SolutionRefusal, DataBelongs, Counted, PendingMoves, PhaseFits, Ids;
  }

  lemma {:induction false} HoldingIsDriven(a: State, b: State, c: Clock)
    requires Holds(a, b) && ShownAs(AxesOf(a), DoingOf(a)) && Told(AxesOf(a)) && Timed(a, c)
    ensures ShownAs(AxesOf(b), DoingOf(b)) && Told(AxesOf(b)) && Timed(b, c)
  {
    hide Told, Takes;
    if Lost(b) {
      LostIsTold(b);
    } else {
      SameTakes(a, b);
      forall side: Side
        ensures TimedAt(b, c, side)
      {
        assert TimedAt(a, c, side);
        assert RailShown(a.status.stand.rails.Get(side), side, DoingOf(a));
        assert GripperShown(a.status.stand.grippers.Get(side), side, DoingOf(a));
      }
    }
  }

  /** States that agree but for the cache and the events. */
  predicate Alike(a: State, b: State) {
    AxesOf(b) == AxesOf(a) && DoingOf(b) == DoingOf(a) && DeadlineOf(b) == DeadlineOf(a) && b.times == a.times
    && b.scan == a.scan && b.execute == a.execute
  }

  lemma {:induction false} AlikeIsDriven(a: State, b: State, c: Clock)
    requires Alike(a, b) && Driven(a) && Timed(a, c)
    ensures Driven(b) && Timed(b, c)
  {
    hide ShownAs, Told, Takes, ProperPlan, DoingOf, DeadlineOf;
    SameTakes(a, b);
    assert forall side: Side :: TimedAt(a, c, side) ==> TimedAt(b, c, side);
  }

  lemma {:induction false} BareIsAlike(s: State, cache: seq<Cached>)
    ensures Alike(s, s.(events := [])) && Alike(s, s.(events := [], cache := cache))
  {
  }

  lemma {:induction false} BareIsDriven(s: State, cache: seq<Cached>, c: Clock)
    requires Driven(s) && Timed(s, c)
    ensures Driven(s.(events := [])) && Timed(s.(events := []), c)
    ensures Driven(s.(events := [], cache := cache)) && Timed(s.(events := [], cache := cache), c)
  {
    hide Driven, Timed, Alike;
    BareIsAlike(s, cache);
    AlikeIsDriven(s, s.(events := []), c);
    AlikeIsDriven(s, s.(events := [], cache := cache), c);
  }

  lemma {:induction false} CommandIsDriven(s: State, command: Command, env: Env, c: Clock)
    requires Inv(s) && Driven(s) && Timed(s, c)
    ensures Driven(Obey(s, command, env)) && Timed(Obey(s, command, env), c)
  {
    hide Inv, ProperPlans, ShownAs, Told, Timed, Obey, Holds;
    ObeyHolds(s, command, env);
    ObeyProper(s, command, env);
    HoldingIsDriven(s, Obey(s, command, env), c);
  }

  lemma {:induction false} PacketIsDriven(s: State, packet: Packet, env: Env, c: Clock)
    requires Inv(s) && Driven(s) && Timed(s, c)
    ensures Driven(HandlePacket(s, packet, env).0) && Timed(HandlePacket(s, packet, env).0, c)
  {
    hide Inv, Driven, Timed, Obey, Reply;
    var obeyed := if Undecodable(packet) then s else Obey(s, packet.command.value, env);
    if !Undecodable(packet) {
      CommandIsDriven(s, packet.command.value, env, c);
    }
    var after := HandlePacket(s, packet, env).0;
    assert after == obeyed.(events := [], cache := after.cache) || after == s.(events := []);
    BareIsDriven(obeyed, after.cache, c);
    BareIsDriven(s, s.cache, c);
  }

  // ---- whole runs -----------------------------------------------------------------

  lemma {:induction false} StartsDriven(times: Calibration, script: seq<bool>)
    ensures Driven(Initial(times, script)) && Timed(Initial(times, script), STOPPED)
  {
    hide RT.PostureOf, PowerOf;
  }

  lemma {:induction false} TickIsDriven(s: State, now: nat, env: Env, c: Clock)
    requires Inv(s) && Driven(s) && Timed(s, c)
    ensures var r := Tick(s, now, env).0; Driven(r) && Timed(r, Ticked(c, s.status.stand, r.status.stand, now)) && r.times == s.times
  {
    hide Inv, ProperPlans, ShownAs, Told, Timed, Tick, AxesOf, DoingOf, DeadlineOf, Begun, Over, Takes;
    var r := Tick(s, now, env).0;
    TickDrives(s, now, env);
    TickProper(s, now, env);
    DrivingIsTold(s, r, now);
    DrivingIsTimed(s, r, now, c);
  }

  lemma {:induction false} TimesStay(s: State, input: Input)
    requires Inv(s) && Driven(s)
    ensures Step(s, input).times == s.times
  {
    hide Inv, Driven, Obey, Reply, Tick, Drives;
    match input {
      case PacketArrives(packet, env) =>
        if !Undecodable(packet) {
          ObeyHolds(s, packet.command.value, env);
        }
      case ButtonPressed(local, env) => ObeyHolds(s, LocalAsCommand(local), env);
      case TimePasses(now, env) => TickDrives(s, now, env); DrivesTimes(s, Tick(s, now, env).0, now);
    }
  }

  lemma {:induction false} DrivesTimes(a: State, b: State, now: nat)
    requires Drives(a, b, now)
    ensures b.times == a.times
  {
  }

  lemma {:induction false} RunsAreDriven(times: Calibration, script: seq<bool>, inputs: seq<Input>)
    ensures var s := RunService(Initial(times, script), inputs);
            Resting(s) && Driven(s) && Timed(s, Clocks(Initial(times, script), inputs)) && s.times == times
  {
    hide Resting, Inv, Driven, Timed, Tick, HandlePacket, Obey, Ticked;
    ReachableStatesRest(times, script, inputs);
    if inputs == [] {
      StartsDriven(times, script);
    } else {
      var k := |inputs| - 1;
      var s, c := RunService(Initial(times, script), inputs[..k]), Clocks(Initial(times, script), inputs[..k]);
      RunsAreDriven(times, script, inputs[..k]);
      RestIsInv(s);
      TimesStay(s, inputs[k]);
      match inputs[k] {
        case PacketArrives(packet, env) => PacketIsDriven(s, packet, env, c);
        case ButtonPressed(local, env) =>
          CommandIsDriven(s, LocalAsCommand(local), env, c);
          BareIsDriven(Obey(s, LocalAsCommand(local), env), s.cache, c);
        case TimePasses(now, env) => TickIsDriven(s, now, env, c);
      }
    }
  }

  lemma {:induction false} RestIsInv(s: State)
    requires Resting(s)
    ensures Inv(s)
  {
  }

  /** In every reachable state, what is published of each axis is what it was commanded last:
      a moving rail is powered and on its way to the commanded position, a rail at rest is
      where it was sent and released, and a gripper is where, or on its way to where, it was
      sent. */
  lemma {:induction false} StandIsAsCommanded(times: Calibration, script: seq<bool>, inputs: seq<Input>, side: Side)
    ensures var s := RunService(Initial(times, script), inputs);
            && RailTold(s.status.stand.rails.Get(side), RT.PostureOf(s.out.log).rails.Get(side), PowerOf(s.out.log).rails.Get(side))
            && GripperTold(s.status.stand.grippers.Get(side), RT.PostureOf(s.out.log).grippers.Get(side))
  {
    hide Resting, RT.PostureOf, PowerOf, RunService, Timed, ProperPlans, ShownAs, RailTold, GripperTold, Clocks;
    RunsAreDriven(times, script, inputs);
    assert AxesOf(RunService(Initial(times, script), inputs)).rails == RunService(Initial(times, script), inputs).status.stand.rails;
  }

  /** In every reachable state a moving rail has been given its time to the position it is on
      its way to: a tick ends the motion exactly when that time has passed since the tick that
      began it, and then the rail is published there, or the robot has faulted. */
  lemma {:induction false} RailsGetTheirTime(times: Calibration, script: seq<bool>, inputs: seq<Input>, side: Side, now: nat, env: Env)
    requires RunService(Initial(times, script), inputs).status.stand.rails.Get(side).motion == Moving
    ensures var before := RunService(Initial(times, script), inputs).status.stand.rails.Get(side);
            var after := Step(RunService(Initial(times, script), inputs), TimePasses(now, env)).status.stand;
            && before.target.Some?
            && (var end := Clocks(Initial(times, script), inputs).rails.Get(side)
                           + if before.target == Some(FarOpen) then times.railsOpen else times.railsGrip;
                if now < end then after.rails.Get(side) == before
                else after == UNKNOWN_STAND || after.rails.Get(side) == StableRail(before.target.value))
  {
    hide Resting, Told, RunService, ProperPlans, ShownAs, Clocks, Tick, Drives, Takes, AxesOf, DoingOf, DeadlineOf;
    var s, c := RunService(Initial(times, script), inputs), Clocks(Initial(times, script), inputs);
    RunsAreDriven(times, script, inputs);
    RestIsInv(s);
    var r := Tick(s, now, env).0;
    TickDrives(s, now, env);
    DrivingIsTold(s, r, now);
    assert TimedAt(s, c, side);
    RailDriven(s, r, now, c, side);
  }

  /** The same for a moving gripper, whose time is the pose time for every quarter turn of the
      moving gripper that has the farthest to go, and for one at least. */
  lemma {:induction false} GrippersGetTheirTime(times: Calibration, script: seq<bool>, inputs: seq<Input>, side: Side, now: nat, env: Env)
    requires RunService(Initial(times, script), inputs).status.stand.grippers.Get(side).motion == Moving
    ensures var stand := RunService(Initial(times, script), inputs).status.stand;
            var before := stand.grippers.Get(side);
            var after := Step(RunService(Initial(times, script), inputs), TimePasses(now, env)).status.stand;
            && before.target.Some?
            && (var end := Clocks(Initial(times, script), inputs).grippers.Get(side) + times.gripperPose * Turns(stand.grippers);
                if now < end then after.grippers.Get(side) == before
                else after == UNKNOWN_STAND || after.grippers.Get(side) == StableGripper(before.target.value))
  {
    hide Resting, Told, RunService, ProperPlans, ShownAs, Clocks, Tick, Drives, Takes, Turns, AxesOf, DoingOf, DeadlineOf;
    var s, c := RunService(Initial(times, script), inputs), Clocks(Initial(times, script), inputs);
    RunsAreDriven(times, script, inputs);
    RestIsInv(s);
    var r := Tick(s, now, env).0;
    TickDrives(s, now, env);
    DrivingIsTold(s, r, now);
    assert TimedAt(s, c, side);
    GripperDriven(s, r, now, c, side);
  }

  /** Requests move nothing: they leave every axis as it is, or give everything up. */
  lemma {:induction false} RequestsMoveNothing(times: Calibration, script: seq<bool>, inputs: seq<Input>, input: Input)
    requires !input.TimePasses?
    ensures var before := RunService(Initial(times, script), inputs).status.stand;
            var after := Step(RunService(Initial(times, script), inputs), input).status.stand;
            after == UNKNOWN_STAND || (after.rails == before.rails && after.grippers == before.grippers)
  {
    hide Resting, RunService, Obey, Reply;
    var s := RunService(Initial(times, script), inputs);
    ReachableStatesRest(times, script, inputs);
    RestIsInv(s);
    match input {
      case PacketArrives(packet, env) =>
        if !Undecodable(packet) {
          ObeyHolds(s, packet.command.value, env);
          HoldsStand(s, Obey(s, packet.command.value, env));
        }
      case ButtonPressed(local, env) =>
        ObeyHolds(s, LocalAsCommand(local), env);
        HoldsStand(s, Obey(s, LocalAsCommand(local), env));
    }
  }

  lemma {:induction false} HoldsStand(a: State, b: State)
    requires Holds(a, b)
    ensures var before, after := a.status.stand, b.status.stand;
            after == UNKNOWN_STAND || (after.rails == before.rails && after.grippers == before.grippers)
  {
  }
}

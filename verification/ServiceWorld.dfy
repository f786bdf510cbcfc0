/** The service together with the stand it drives. The physical machine changes when a
    commanded step ends; the published stand state follows it, plans end where the planner
    promised, and scan and solution data describe the cube that is really held. */
module ServiceWorld {
  import opened Geometry
  import opened Stand
  import opened Mechanics
  import opened Options
  import opened Protocol
  import opened RobotService
  import opened ServiceInvariants
  import MP = MovePlanner
  import SP = ScanPlan
  import PM = PlanMeaning
  import PS = PlanSafety

  /** The machine, the held cube as it was when the current operation began, and the moves
      of the last accepted manual sequence. */
  datatype World = World(machine: Machine, cube: Cube, moves: seq<MP.CubeMove>)

  /** The physical effect of a step that has run to its end. */
  function Ended(m: Machine, step: MP.Step): Machine {
    if Exec(m, step).Some? then Exec(m, step).value else m
  }

  predicate Due(deadline: Option<nat>, now: nat) {
    deadline.None? || now >= deadline.value
  }

  /** The machine after the part of a tick that drives a plan. */
  function AfterPlan(s: State, plan: Option<ActivePlan>, m: Machine, now: nat): Machine {
    if plan.Some? && Due(plan.value.deadline, now) && plan.value.pending.Some? && PendingSucceeds(s, plan.value.pending.value)
    then Ended(m, plan.value.pending.value) else m
  }

  function ScanPlanOf(s: State): Option<ActivePlan> {
    if s.scan.None? then None else Some(s.scan.value.plan)
  }

  /** Gripping ends with whatever cube lies in the stand. */
  predicate GripEnds(s: State, now: nat) {
    s.motion.Some? && s.motion.value.phase == GripFinishRails && Due(s.motion.value.deadline, now) && Outcome(s.out)
  }

  // ---- the stand state that a machine shows ---------------------------------------

  function RailOf(closed: bool): RailStatus {
    StableRail(if closed then NearGrip else FarOpen)
  }

  function RailsOf(closed: Four<bool>): Four<RailStatus> {
    Four(RailOf(closed.left), RailOf(closed.right), RailOf(closed.top), RailOf(closed.bottom))
  }

  function GrippersOf(g: Four<GripperOrientation>): Four<GripperStatus> {
    Four(StableGripper(g.left), StableGripper(g.right), StableGripper(g.top), StableGripper(g.bottom))
  }

  function ShownRails(m: Machine, pending: Option<MP.Step>): Four<RailStatus> {
    if pending.Some? && pending.value.SetRails? then StartRails(RailsOf(m.closed), pending.value.target, pending.value.position)
    else RailsOf(m.closed)
  }

  function ShownGrippers(m: Machine, pending: Option<MP.Step>): Four<GripperStatus> {
    if pending.Some? && pending.value.SetGrippers? then StartGrippers(GrippersOf(m.grippers), pending.value.poses)
    else GrippersOf(m.grippers)
  }

  predicate Shows(stand: StandState, m: Machine, pending: Option<MP.Step>) {
    stand.rails == ShownRails(m, pending) && stand.grippers == ShownGrippers(m, pending)
  }

  lemma {:induction false} RailsArrive(closed: Four<bool>, target: MP.RailTarget, position: RailPosition)
    ensures StopRails(StartRails(RailsOf(closed), target, position), target, position)
         == RailsOf(SetClosed(closed, target, position))
  {
  }

  predicate Posed(side: Side, poses: seq<MP.Pose>) {
    poses != [] && (poses[0].side == side || Posed(side, poses[1..]))
  }

  lemma {:induction false} StopForgets(g: Four<GripperStatus>, h: Four<GripperStatus>, poses: seq<MP.Pose>)
    requires forall side: Side :: !Posed(side, poses) ==> g.Get(side) == h.Get(side)
    ensures StopGrippers(g, poses) == StopGrippers(h, poses)
    decreases |poses|
  {
    if poses == [] {
      assert forall side: Side :: g.Get(side) == h.Get(side);
      assert g.Get(Side.Left) == h.Get(Side.Left) && g.Get(Side.Right) == h.Get(Side.Right);
      assert g.Get(Top) == h.Get(Top) && g.Get(Bottom) == h.Get(Bottom);
    } else {
      var value := StableGripper(poses[0].orientation);
      var g1, h1 := g.Set(poses[0].side, value), h.Set(poses[0].side, value);
      StopForgets(g1, h1, poses[1..]);
    }
  }

  lemma {:induction false} StartTouchesPosed(g: Four<GripperStatus>, poses: seq<MP.Pose>, side: Side)
    requires !Posed(side, poses)
    ensures StartGrippers(g, poses).Get(side) == g.Get(side)
    decreases |poses|
  {
    if poses != [] {
      StartTouchesPosed(g.Set(poses[0].side, StartGripper(g.Get(poses[0].side), poses[0].orientation)), poses[1..], side);
    }
  }

  lemma {:induction false} StopIsSet(g: Four<GripperOrientation>, poses: seq<MP.Pose>)
    ensures StopGrippers(GrippersOf(g), poses) == GrippersOf(SetPoses(g, poses))
    decreases |poses|
  {
    if poses != [] {
      StopIsSet(g.Set(poses[0].side, poses[0].orientation), poses[1..]);
    }
  }

  lemma {:induction false} GrippersArrive(g: Four<GripperOrientation>, poses: seq<MP.Pose>)
    ensures StopGrippers(StartGrippers(GrippersOf(g), poses), poses) == GrippersOf(SetPoses(g, poses))
  {
    forall side: Side | !Posed(side, poses)
      ensures StartGrippers(GrippersOf(g), poses).Get(side) == GrippersOf(g).Get(side)
    {
      StartTouchesPosed(GrippersOf(g), poses, side);
    }
    StopForgets(StartGrippers(GrippersOf(g), poses), GrippersOf(g), poses);
    StopIsSet(g, poses);
  }

  /** When a step ends, the published stand is again that of the machine. */
  lemma {:induction false} StepArrives(s: State, m: Machine, step: MP.Step)
    requires Shows(s.status.stand, m, Some(step)) && PendingSucceeds(s, step) && Exec(m, step).Some?
    requires step.SetRails? || step.SetGrippers?
    ensures Shows(FinishPending(s, step).status.stand, Ended(m, step), None)
    ensures FinishPending(s, step).status.stand.pose == s.status.stand.pose
  {
    hide StartRails, StopRails, StartGrippers, StopGrippers, SetClosed, SetPoses;
    if step.SetRails? {
      RailsArrive(m.closed, step.target, step.position);
    } else {
      GrippersArrive(m.grippers, step.poses);
    }
  }

  // ---- what the stand shows in every phase ----------------------------------------

  predicate RailsStill(r: Four<RailStatus>) {
    !r.left.motion.Moving? && !r.right.motion.Moving? && !r.top.motion.Moving? && !r.bottom.motion.Moving?
  }

  predicate GrippersStill(g: Four<GripperStatus>) {
    !g.left.motion.Moving? && !g.right.motion.Moving? && !g.top.motion.Moving? && !g.bottom.motion.Moving?
  }

  const OPEN_RAILS: Four<RailStatus> := AllSides(StableRail(FarOpen))
  const GRIP_RAILS: Four<RailStatus> := AllSides(StableRail(NearGrip))
  const PERPENDICULAR_GRIPPERS: Four<GripperStatus> := AllSides(StableGripper(FramePerpendicular))

  /** Without a session the stand is at rest, and it is called open only when all rails are. */
  predicate Released(stand: StandState) {
    && RailsStill(stand.rails) && GrippersStill(stand.grippers)
    && (stand.pose.kind == UnknownPose || stand.pose.kind == Open)
    && (stand.pose.kind == Open ==> stand.rails == OPEN_RAILS)
  }

  /** Recovery and gripping move rails or grippers, never both. */
  predicate PhaseStand(stand: StandState, phase: Phase) {
    match phase
    case RecoverStart => RailsStill(stand.rails) && GrippersStill(stand.grippers)
    case RecoverFinishLeftRight =>
      !stand.rails.top.motion.Moving? && !stand.rails.bottom.motion.Moving? && GrippersStill(stand.grippers)
    case RecoverFinishTopBottom =>
      stand.rails.left == stand.rails.right == StableRail(FarOpen) && GrippersStill(stand.grippers)
    case RecoverFinishGrippers => stand.rails == OPEN_RAILS
    case GripStart => stand.rails == OPEN_RAILS && GrippersStill(stand.grippers)
    case GripFinishGrippers => stand.rails == OPEN_RAILS
    case GripFinishRails => stand.grippers == PERPENDICULAR_GRIPPERS
  }

  /** The plan an execution follows from canonical grip. */
  function FullPlan(kind: OperationKind, solution: seq<MP.CubeMove>, manual: seq<MP.CubeMove>): seq<MP.Step> {
    match kind
    case ExecuteMoves => MP.OptimizedHeldSteps(manual)
    case OpenStand => MP.OPEN_STEPS
    case _ => MP.ExecuteSteps(solution)
  }

  /** The steps of a plan that have not ended. */
  function Rest(plan: ActivePlan): seq<SP.MotionStep> {
    if plan.pending.Some? then [SP.Motion(plan.pending.value)] + plan.steps else plan.steps
  }

  /** The machine has come exactly as far as the steps that are left say. */
  ghost predicate Follows(rest: seq<SP.MotionStep>, full: seq<MP.Step>, w: World) {
    && |rest| <= |full|
    && rest == MotionSteps(full[|full| - |rest|..])
    && Run(CanonicalGrip(w.cube), full[..|full| - |rest|]) == Some(w.machine)
  }

  ghost predicate ScanFollows(rest: seq<SP.MotionStep>, w: World) {
    && |rest| <= |SP.SCAN_STEPS|
    && rest == SP.SCAN_STEPS[|SP.SCAN_STEPS| - |rest|..]
    && (var run := SP.RunScan(SP.ScanRun(CanonicalGrip(w.cube), [], true), SP.SCAN_STEPS[..|SP.SCAN_STEPS| - |rest|]);
        run.Some? && run.value.machine == w.machine)
  }

  function PendingStep(s: State): Option<MP.Step> {
    if s.scan.Some? then s.scan.value.plan.pending
    else if s.execute.Some? then s.execute.value.pending
    else None
  }

  ghost predicate PlanFits(s: State, w: World) {
    if s.scan.Some? then ScanFollows(Rest(s.scan.value.plan), w)
    else if s.execute.Some? then
      Follows(Rest(s.execute.value), FullPlan(s.execute.value.kind, s.status.solution.moves, w.moves), w)
    else w.machine == CanonicalGrip(w.cube) && s.status.stand.pose == CANONICAL
  }

  /** The published stand is the stand: at rest without a session, in the phase's state
      during recovery and gripping, and otherwise that of the machine, which has come as
      far as the running plan says. A recovery keeps the session only until it begins, and
      until then all rails stay at the cube. */
  ghost predicate Mechanical(s: State, w: World) {
    if s.motion.Some? then
      && PhaseStand(s.status.stand, s.motion.value.phase)
      && (s.status.session.Some? ==> s.motion.value.phase == RecoverStart && s.status.stand.rails == GRIP_RAILS)
    else if s.status.session.None? then Released(s.status.stand)
    else
      && Shows(s.status.stand, w.machine, PendingStep(s)) && PlanFits(s, w)
      && (Filled(s) == 0 ==> s.status.controller == Ready)
  }

  // ---- the world alongside the service --------------------------------------------

  function WorldAfterMotion(s: State, w: World, now: nat, inserted: Cube): World {
    if GripEnds(s, now) then World(CanonicalGrip(inserted), inserted, w.moves) else w
  }

  function WorldAfterScan(s: State, w: World, now: nat): World {
    w.(machine := AfterPlan(s, ScanPlanOf(s), w.machine, now))
  }

  /** An execution that has ended leaves a new held cube behind. */
  function WorldAfterExecute(s: State, w: World, now: nat): World {
    if s.execute.Some? && Due(s.execute.value.deadline, now) && s.execute.value.pending.None? && s.execute.value.steps == []
    then w.(cube := w.machine.cube)
    else w.(machine := AfterPlan(s, s.execute, w.machine, now))
  }

  function WorldAfterCommand(s: State, w: World, command: Command): World {
    if command.ExecuteMovesCommand? && ExecuteMovesRefusal(s, command.session, command.moves).None?
    then w.(moves := command.moves) else w
  }

  ghost function WorldAfterTick(s: State, w: World, now: nat, env: Env, inserted: Cube): World {
    var moved := AdvanceMotion(s, now);
    var w1 := WorldAfterMotion(s, w, now, inserted);
    var w2 := WorldAfterScan(moved, w1, now);
    WorldAfterExecute(AdvanceSolve(AdvanceScan(moved, now, env), env), w2, now)
  }

  // ---- plans end where they should ------------------------------------------------

  lemma {:induction false} PlanRuns(kind: OperationKind, solution: seq<MP.CubeMove>, manual: seq<MP.CubeMove>, cube: Cube, k: nat)
    requires k <= |FullPlan(kind, solution, manual)|
    ensures Run(CanonicalGrip(cube), FullPlan(kind, solution, manual)[..k]).Some?
  {
    hide MP.OptimizedHeldSteps, MP.ExecuteSteps, MP.OptimizedPlan;
    match kind {
      case ExecuteMoves => PS.HeldPlanSafeAtEveryPrefix(manual, cube, k);
      case OpenStand => PS.OpenPlanSafe(cube, k);
      case _ => PS.ExecutePlanSafe(solution, cube, k);
    }
  }

  lemma {:induction false} FollowsBegins(full: seq<MP.Step>, w: World)
    requires w.machine == CanonicalGrip(w.cube)
    ensures Follows(MotionSteps(full), full, w)
  {
    assert full[0..] == full && full[..0] == [];
  }

  lemma {:induction false} FollowsHead(rest: seq<SP.MotionStep>, full: seq<MP.Step>, w: World)
    requires Follows(rest, full, w) && rest != []
    ensures rest[0] == SP.Motion(full[|full| - |rest|])
    ensures rest[1..] == MotionSteps(full[|full| - |rest| + 1..])
  {
    var k := |full| - |rest|;
    assert full[k..][1..] == full[k + 1..];
  }

  lemma {:induction false} FollowsAdvances(rest: seq<SP.MotionStep>, kind: OperationKind, solution: seq<MP.CubeMove>, w: World)
    requires Follows(rest, FullPlan(kind, solution, w.moves), w) && rest != []
    ensures rest[0].Motion? && Exec(w.machine, rest[0].step).Some?
    ensures Follows(rest[1..], FullPlan(kind, solution, w.moves), w.(machine := Ended(w.machine, rest[0].step)))
  {
    hide MP.OptimizedHeldSteps, MP.ExecuteSteps, MP.OptimizedPlan;
    var full := FullPlan(kind, solution, w.moves);
    var k := |full| - |rest|;
    FollowsHead(rest, full, w);
    PlanRuns(kind, solution, w.moves, w.cube, k + 1);
    PS.RunAdvances(CanonicalGrip(w.cube), full, k);
  }

  lemma {:induction false} ScanFollowsBegins(w: World)
    requires w.machine == CanonicalGrip(w.cube)
    ensures ScanFollows(SP.SCAN_STEPS, w)
  {
    hide Exec;
    assert SP.SCAN_STEPS[0..] == SP.SCAN_STEPS && SP.SCAN_STEPS[..0] == [];
  }

  lemma {:induction false} ScanFollowsAdvances(rest: seq<SP.MotionStep>, w: World)
    requires ScanFollows(rest, w) && rest != []
    ensures rest[0].Motion? ==>
              Exec(w.machine, rest[0].step).Some? && SafeStep(w.machine, rest[0].step)
              && ScanFollows(rest[1..], w.(machine := Ended(w.machine, rest[0].step)))
    ensures rest[0].Capture? ==>
              ScanFollows(rest[1..], w) && SP.FaceImage(w.machine.cube, Front) == SP.FaceImage(w.cube, rest[0].face)
  {
    hide SP.RunScan, SP.SCAN_STEPS;
    var k := |SP.SCAN_STEPS| - |rest|;
    var r := SP.ScanPrefix(w.cube, k);
    assert rest[0] == SP.SCAN_STEPS[k];
    assert rest[1..] == SP.SCAN_STEPS[k + 1..];
    SP.ScanAdvances(w.cube, k, r);
  }

  lemma {:induction false} ScanFollowsEnds(w: World)
    requires ScanFollows([], w)
    ensures w.machine == CanonicalGrip(w.cube)
  {
    hide SP.RunScan, SP.SCAN_STEPS;
    var r := SP.ScanPrefix(w.cube, |SP.SCAN_STEPS|);
  }

  lemma {:induction false} FollowsEnds(kind: OperationKind, solution: seq<MP.CubeMove>, w: World)
    requires Follows([], FullPlan(kind, solution, w.moves), w)
    ensures kind == ExecuteMoves ==> w.machine == CanonicalGrip(PM.ApplyMoves(w.cube, w.moves))
    ensures kind == OpenStand ==> w.machine.closed == AllSides(false) && w.machine.cube == w.cube
    ensures kind != ExecuteMoves && kind != OpenStand ==>
              w.machine.closed == AllSides(false)
              && w.machine.cube == PM.InFrame(MP.OptimizedPlan(solution, MP.Release).frame, PM.ApplyMoves(w.cube, solution))
  {
    hide StartRails, StopRails, StartGrippers, StopGrippers, MP.OptimizedHeldSteps, MP.ExecuteSteps, MP.OptimizedPlan;
    var full := FullPlan(kind, solution, w.moves);
    assert full[..|full|] == full;
    match kind {
      case ExecuteMoves => PM.OptimizedHeldMeaning(w.moves, w.cube);
      case OpenStand => PS.OpenPlanSafe(w.cube, 3);
      case _ => PS.ExecutePlanSafe(solution, w.cube, |full|);
    }
  }

  // ---- recovery and gripping ------------------------------------------------------

  lemma {:induction false} FaultReleases(s: State, id: nat, w: World)
    ensures Mechanical(EnterFault(s, id), w) && EnterFault(s, id).motion.None?
    ensures EnterFault(s, id).scan.None? && EnterFault(s, id).solve.None? && EnterFault(s, id).execute.None?
  {
    hide MP.OptimizedHeldSteps, MP.ExecuteSteps, MP.OptimizedPlan, Follows, ScanFollows;
  }

  lemma {:induction false} AbortReleases(s: State, id: Option<nat>, w: World)
    ensures Mechanical(Abort(s, id), w)
  {
    hide Follows, ScanFollows, FullPlan;
    if !Outcome(s.out) {
      FaultReleases(Attempt(s, AllOff), if id.None? then 0 else id.value, w);
    }
  }

  lemma {:induction false} AllPerpendicularArrives(g: Four<GripperStatus>)
    ensures StopGrippers(g, ALL_PERPENDICULAR) == PERPENDICULAR_GRIPPERS
  {
    var a := [MP.Pose(Side.Right, FramePerpendicular), MP.Pose(Top, FramePerpendicular), MP.Pose(Bottom, FramePerpendicular)];
    var b := [MP.Pose(Top, FramePerpendicular), MP.Pose(Bottom, FramePerpendicular)];
    var c := [MP.Pose(Bottom, FramePerpendicular)];
    assert ALL_PERPENDICULAR[1..] == a && a[1..] == b && b[1..] == c && c[1..] == [];
    var stable := StableGripper(FramePerpendicular);
    var g1 := g.Set(Side.Left, stable);
    var g2 := g1.Set(Side.Right, stable);
    var g3 := g2.Set(Top, stable);
    assert StopGrippers(g, ALL_PERPENDICULAR) == StopGrippers(g1, a);
    assert StopGrippers(g1, a) == StopGrippers(g2, b);
    assert StopGrippers(g2, b) == StopGrippers(g3, c);
    assert StopGrippers(g3, c) == g3.Set(Bottom, stable);
  }

  lemma {:induction false} RecoverStartMoves(s: State, w: World, now: nat)
    requires Mechanical(s, w) && s.motion.Some? && s.motion.value.phase == RecoverStart
    ensures Mechanical(RecoverStartStep(s, now), w)
  {
    hide EnterFault, Follows, ScanFollows;
    var cleared := SetPose(ClearScanAndSolution(s.(status := s.status.(session := None))), TRANSITIONAL);
    FaultReleases(CommandRails(cleared, MP.Pair(LeftRight), FarOpen), s.motion.value.id, w);
  }

  lemma {:induction false} RecoverLeftRightMoves(s: State, w: World, now: nat)
    requires Mechanical(s, w) && s.motion.Some? && s.motion.value.phase == RecoverFinishLeftRight
    ensures Mechanical(RecoverLeftRightStep(s, now), w)
  {
    hide EnterFault, Shows, ShownRails, ShownGrippers, Follows, ScanFollows, FullPlan;
    var finished := FinishRails(s, MP.Pair(LeftRight), FarOpen);
    FaultReleases(finished, s.motion.value.id, w);
    FaultReleases(CommandRails(finished, MP.Pair(TopBottom), FarOpen), s.motion.value.id, w);
  }

  lemma {:induction false} RecoverTopBottomMoves(s: State, w: World, now: nat)
    requires Mechanical(s, w) && s.motion.Some? && s.motion.value.phase == RecoverFinishTopBottom
    ensures Mechanical(RecoverTopBottomStep(s, now), w)
  {
    var finished := FinishRails(s, MP.Pair(TopBottom), FarOpen);
    FaultReleases(finished, s.motion.value.id, w);
    FaultReleases(CommandGrippers(finished, ALL_PERPENDICULAR), s.motion.value.id, w);
  }

  /** Recovery leaves an open stand with every gripper perpendicular. */
  lemma {:induction false} RecoverGrippersMoves(s: State, w: World)
    requires Mechanical(s, w) && s.motion.Some? && s.motion.value.phase == RecoverFinishGrippers
    ensures Mechanical(RecoverGrippersStep(s), w)
    ensures Outcome(s.out) ==>
              RecoverGrippersStep(s).status.stand == StandState(StandPose(Open, None), OPEN_RAILS, PERPENDICULAR_GRIPPERS, false)
  {
    hide StartRails, StopRails, StartGrippers, StopGrippers, EnterFault, ShownRails, ShownGrippers, Rest, PlanFits;
    AllPerpendicularArrives(s.status.stand.grippers);
    FaultReleases(Attempt(s, AllOff), s.motion.value.id, w);
  }

  lemma {:induction false} GripStartMoves(s: State, w: World, now: nat)
    requires Mechanical(s, w) && s.motion.Some? && s.motion.value.phase == GripStart
    ensures Mechanical(GripStartStep(s, now), w)
  {
    hide StartRails, StopRails, StartGrippers, StopGrippers, MP.OptimizedHeldSteps, MP.ExecuteSteps,
         MP.OptimizedPlan, Follows, ScanFollows, Rest, PlanFits;
    FaultReleases(CommandGrippers(SetPose(s, TRANSITIONAL), ALL_PERPENDICULAR), s.motion.value.id, w);
  }

  lemma {:induction false} GripGrippersMoves(s: State, w: World, now: nat)
    requires Mechanical(s, w) && s.motion.Some? && s.motion.value.phase == GripFinishGrippers
    ensures Mechanical(GripGrippersStep(s, now), w)
  {
    hide StartRails, StopRails, StartGrippers, StopGrippers, EnterFault, Follows, ScanFollows, FullPlan, Released;
    AllPerpendicularArrives(s.status.stand.grippers);
    FaultReleases(Attempt(FinishGrippers(s, ALL_PERPENDICULAR), SetAllRails(NearGrip)), s.motion.value.id, w);
  }

  /** Gripping leaves the inserted cube in canonical grip, published as such. */
  lemma {:induction false} GripRailsMoves(s: State, w: World, inserted: Cube)
    requires Inv(s) && Mechanical(s, w) && s.motion.Some? && s.motion.value.phase == GripFinishRails
    ensures Outcome(s.out) ==> Mechanical(GripRailsStep(s), World(CanonicalGrip(inserted), inserted, w.moves))
    ensures !Outcome(s.out) ==> Mechanical(GripRailsStep(s), w)
  {
    hide Follows, ScanFollows;
    FaultReleases(Attempt(s, DisableAllRails), s.motion.value.id, w);
  }

  lemma {:induction false} MotionMoves(s: State, w: World, now: nat, inserted: Cube)
    requires Inv(s) && Mechanical(s, w)
    ensures Mechanical(AdvanceMotion(s, now), WorldAfterMotion(s, w, now, inserted))
  {
    hide Inv, Mechanical, RecoverStartStep, RecoverLeftRightStep, RecoverTopBottomStep, RecoverGrippersStep,
         GripStartStep, GripGrippersStep, GripRailsStep, StartRails, StopRails, StartGrippers, StopGrippers;
    if s.motion.Some? && Due(s.motion.value.deadline, now) {
      match s.motion.value.phase {
        case RecoverStart => RecoverStartMoves(s, w, now);
        case RecoverFinishLeftRight => RecoverLeftRightMoves(s, w, now);
        case RecoverFinishTopBottom => RecoverTopBottomMoves(s, w, now);
        case RecoverFinishGrippers => RecoverGrippersMoves(s, w);
        case GripStart => GripStartMoves(s, w, now);
        case GripFinishGrippers => GripGrippersMoves(s, w, now);
        case GripFinishRails => GripRailsMoves(s, w, inserted);
      }
    }
  }

  // ---- scanning -------------------------------------------------------------------

  lemma {:induction false} StepLeaves(s: State, m: Machine, step: MP.Step)
    requires Shows(s.status.stand, m, None) && (step.SetRails? || step.SetGrippers?) && Outcome(s.out)
    ensures Shows(CommandStep(s, step).status.stand, m, Some(step))
    ensures CommandStep(s, step).status == s.status.(stand := CommandStep(s, step).status.stand)
    ensures CommandStep(s, step) == s.(status := CommandStep(s, step).status, out := CommandStep(s, step).out)
  {
  }

  lemma {:induction false} ScanPendingMoves(s: State, w: World, now: nat, env: Env)
    requires Inv(s) && Mechanical(s, w) && s.motion.None? && s.scan.Some? && s.scan.value.plan.pending.Some?
    requires Due(s.scan.value.plan.deadline, now)
    ensures Mechanical(AdvanceScan(s, now, env), WorldAfterScan(s, w, now))
  {
    hide StartRails, StopRails, StartGrippers, StopGrippers, Shows, ShownRails, ShownGrippers, FullPlan, Released,
         SP.RunScan, SP.SCAN_STEPS;
    var plan := s.scan.value.plan;
    var step := plan.pending.value;
    assert Rest(plan)[1..] == plan.steps;
    ScanFollowsAdvances(Rest(plan), w);
    FaultReleases(FinishPending(s, step), plan.id, w);
    if PendingSucceeds(s, step) {
      StepArrives(s, w.machine, step);
    }
  }

  lemma {:induction false} ScanEndMoves(s: State, w: World)
    requires Inv(s) && Mechanical(s, w) && s.motion.None? && s.scan.Some?
    requires s.scan.value.plan.pending.None? && s.scan.value.plan.steps == []
    ensures Mechanical(FinishScan(s.(scan := None), s.scan.value), w)
  {
    hide StartRails, StopRails, StartGrippers, StopGrippers, Counted, Ids, PendingMoves, PhaseFits, Follows,
         ScanFollows, Released;
    ScanFollowsEnds(w);
  }

  lemma {:induction false} CaptureLeaves(s: State, scan: ActiveScan, face: LogicalFace, env: Env)
    ensures var r := CaptureStep(s, scan, face, env);
            && r.motion == s.motion && r.solve == s.solve && r.execute == s.execute
            && r.scan.Some? && r.scan.value.plan == scan.plan
            && r.status.session == s.status.session && r.status.controller == s.status.controller
            && r.status.stand == s.status.stand.(pose := StandPose(ScanPose, Some(face)))
            && r.status.solution == s.status.solution
  {
  }

  lemma {:induction false} ScanningFits(s: State, w: World)
    requires s.motion.None? && s.status.session.Some? && s.scan.Some?
    requires Shows(s.status.stand, w.machine, s.scan.value.plan.pending) && ScanFollows(Rest(s.scan.value.plan), w)
    ensures Mechanical(s, w)
  {
    hide MP.OptimizedHeldSteps, MP.ExecuteSteps, MP.OptimizedPlan, Shows, ShownRails, ShownGrippers, Follows,
         ScanFollows;
  }

  lemma {:induction false} ExecutingFits(s: State, w: World, plan: ActivePlan, full: seq<MP.Step>)
    requires s.motion.None? && s.status.session.Some? && s.scan.None? && s.execute == Some(plan)
    requires full == FullPlan(plan.kind, s.status.solution.moves, w.moves)
    requires Shows(s.status.stand, w.machine, plan.pending) && Follows(Rest(plan), full, w)
    ensures Mechanical(s, w)
  {
    hide MP.OptimizedHeldSteps, MP.ExecuteSteps, MP.OptimizedPlan, Shows, ShownRails, ShownGrippers, Follows,
         ScanFollows;
  }

  lemma {:induction false} CaptureMoves(s: State, w: World, scan: ActiveScan, face: LogicalFace, env: Env)
    requires Inv(s) && Mechanical(s, w) && s.motion.None? && s.scan.Some?
    requires s.scan.value.plan.pending.None? && s.scan.value.plan.steps != []
    requires s.scan.value.plan.steps[0] == SP.Capture(face)
    requires scan == s.scan.value.(plan := s.scan.value.plan.(steps := s.scan.value.plan.steps[1..]))
    ensures Mechanical(CaptureStep(s, scan, face, env), w)
  {
    hide CaptureStep, MP.OptimizedHeldSteps, MP.ExecuteSteps, MP.OptimizedPlan, Follows, ScanFollows, Exec;
    ScanFollowsAdvances(s.scan.value.plan.steps, w);
    CaptureLeaves(s, scan, face, env);
    var r := CaptureStep(s, scan, face, env);
    assert r.scan.value.plan.pending.None? && Rest(r.scan.value.plan) == s.scan.value.plan.steps[1..];
    ScanningFits(r, w);
  }

  /** What commanding a step of the scan leaves of the state. */
  lemma {:induction false} ScanCommandLeaves(s: State, now: nat, env: Env, step: MP.Step, commanded: State)
    requires s.scan.Some? && s.scan.value.plan.pending.None? && s.scan.value.plan.steps != []
    requires s.scan.value.plan.steps[0] == SP.Motion(step) && Due(s.scan.value.plan.deadline, now)
    requires commanded == CommandStep(SetPose(s, TRANSITIONAL), step)
    ensures var plan := s.scan.value.plan.(steps := s.scan.value.plan.steps[1..]);
            AdvanceScan(s, now, env) ==
              if step.MoveCompleted? || step.AllOff? then EnterFault(s, plan.id)
              else if !Outcome(s.out) then EnterFault(commanded, plan.id)
              else commanded.(scan := Some(s.scan.value.(plan := Started(plan, step, now + StepDuration(s, step)))))
  {
    hide StartRails, StopRails, StartGrippers, StopGrippers, EnterFault, CommandStep, FinishPending, StepDuration,
         QuarterTurns, SolverString, Named, Record, FinishScan;
  }

  lemma {:induction false} ScanCommandMoves(s: State, w: World, now: nat, env: Env)
    requires Inv(s) && Mechanical(s, w) && s.motion.None? && s.scan.Some?
    requires s.scan.value.plan.pending.None? && s.scan.value.plan.steps != [] && s.scan.value.plan.steps[0].Motion?
    requires Due(s.scan.value.plan.deadline, now)
    ensures Mechanical(AdvanceScan(s, now, env), w)
  {
    hide StartRails, StopRails, StartGrippers, StopGrippers, SolverString, Named, Record;
    var plan := s.scan.value.plan;
    var step := plan.steps[0].step;
    var posed := SetPose(s, TRANSITIONAL);
    var commanded := CommandStep(posed, step);
    assert Shows(posed.status.stand, w.machine, None) && ScanFollows(plan.steps, w) && s.status.session.Some?;
    ScanCommandLeaves(s, now, env, step, commanded);
    hide Inv, AdvanceScan, Shows, ScanFollows, EnterFault, CommandStep, Mechanical;
    if step.MoveCompleted? || step.AllOff? {
      FaultReleases(s, plan.id, w);
    } else if !Outcome(s.out) {
      FaultReleases(commanded, plan.id, w);
    } else {
      StepLeaves(posed, w.machine, step);
      var started := Started(plan.(steps := plan.steps[1..]), step, now + StepDuration(s, step));
      assert Rest(started) == plan.steps;
      ScanningFits(AdvanceScan(s, now, env), w);
    }
  }

  lemma {:induction false} ScanMoves(s: State, w: World, now: nat, env: Env)
    requires Inv(s) && Mechanical(s, w)
    ensures Mechanical(AdvanceScan(s, now, env), WorldAfterScan(s, w, now))
  {
    hide StartRails, StopRails, StartGrippers, StopGrippers, DataBelongs, EnterFault, CommandStep, FinishPending,
         FinishScan, CaptureStep, Mechanical, Exec, SP.RunScan, SP.SCAN_STEPS;
    if s.scan.Some? && Due(s.scan.value.plan.deadline, now) {
      var scan := s.scan.value;
      if scan.plan.pending.Some? {
        ScanPendingMoves(s, w, now, env);
      } else if scan.plan.steps == [] {
        ScanEndMoves(s, w);
      } else if scan.plan.steps[0].Motion? {
        ScanCommandMoves(s, w, now, env);
      } else {
        CaptureMoves(s, w, scan.(plan := scan.plan.(steps := scan.plan.steps[1..])), scan.plan.steps[0].face, env);
      }
    }
  }

  // ---- solving --------------------------------------------------------------------

  /** What the solver's answer leaves of the state. */
  lemma {:induction false} SolveLeaves(s: State, env: Env)
    requires s.solve.Some? && s.execute.None?
    ensures var r := AdvanceSolve(s, env);
            && r.motion == s.motion && r.scan == s.scan && r.status.stand == s.status.stand && r.status.session == s.status.session
            && if env.solver.StillSolving? then r == s
               else if env.solver.Solved? && |env.solver.moves| <= MAX_SOLUTION_MOVES && s.solve.value.kind == ScanSolveExecute then
                 r.execute == Some(ActivePlan(s.solve.value.id, ScanSolveExecute, MotionSteps(MP.ExecuteSteps(env.solver.moves)), None, None))
                 && r.status.solution.moves == env.solver.moves
               else r.execute.None? && r.solve.None? && r.status.controller == Ready
  {
    hide MP.OptimizedHeldSteps, MP.ExecuteSteps, MP.OptimizedPlan;
  }

  lemma {:induction false} HeldFits(s: State, w: World)
    requires s.motion.None? && s.scan.None? && s.execute.None?
    requires s.status.session.Some? && s.status.controller == Ready
    requires s.status.stand.pose == CANONICAL && w.machine == CanonicalGrip(w.cube) && Shows(s.status.stand, w.machine, None)
    ensures Mechanical(s, w)
  {
    hide MP.OptimizedHeldSteps, MP.ExecuteSteps, MP.OptimizedPlan, Shows, ShownRails, ShownGrippers, Follows,
         ScanFollows;
  }

  lemma {:induction false} SolveMoves(s: State, w: World, env: Env)
    requires Inv(s) && Mechanical(s, w)
    ensures Mechanical(AdvanceSolve(s, env), w)
  {
    hide MP.OptimizedHeldSteps, MP.ExecuteSteps, MP.OptimizedPlan, SP.RunScan, SP.SCAN_STEPS;
    if s.solve.Some? {
      assert s.motion.None? && s.scan.None? && s.execute.None? && s.status.session.Some?;
      assert s.status.stand.pose == CANONICAL && w.machine == CanonicalGrip(w.cube) && Shows(s.status.stand, w.machine, None);
      SolveLeaves(s, env);
      hide Inv, AdvanceSolve, Shows, MP.ExecuteSteps;
      var r := AdvanceSolve(s, env);
      if r.execute.Some? {
        FollowsBegins(MP.ExecuteSteps(env.solver.moves), w);
        assert Rest(r.execute.value) == MotionSteps(MP.ExecuteSteps(env.solver.moves));
        ExecutingFits(r, w, r.execute.value, MP.ExecuteSteps(env.solver.moves));
      } else if !env.solver.StillSolving? {
        HeldFits(r, w);
      }
    }
  }

  // ---- executing ------------------------------------------------------------------

  /** What the end of a step leaves of the state. */
  lemma {:induction false} ExecutePendingLeaves(s: State, now: nat)
    requires s.execute.Some? && s.execute.value.pending.Some? && Due(s.execute.value.deadline, now)
    ensures var r, plan := AdvanceExecute(s, now), s.execute.value;
            var finished := FinishPending(s, plan.pending.value);
            if !PendingSucceeds(s, plan.pending.value) then r == EnterFault(finished, plan.id)
            else r.motion == s.motion && r.scan == s.scan && r.solve == s.solve
                 && r.execute == Some(plan.(pending := None, deadline := None))
                 && r.status.session == s.status.session && r.status.solution == s.status.solution
                 && r.status.stand == finished.status.stand
  {
    hide StartRails, StopRails, StartGrippers, StopGrippers, EnterFault;
  }

  lemma {:induction false} ExecutePendingMoves(s: State, w: World, now: nat)
    requires Inv(s) && Mechanical(s, w) && s.motion.None? && s.execute.Some? && s.execute.value.pending.Some?
    requires Due(s.execute.value.deadline, now)
    ensures Mechanical(AdvanceExecute(s, now), WorldAfterExecute(s, w, now))
  {
    hide StartRails, StopRails, StartGrippers, StopGrippers, MP.OptimizedHeldSteps, MP.ExecuteSteps,
         MP.OptimizedPlan, Shows, ShownRails, ShownGrippers, Follows, ScanFollows, Exec, AdvanceExecute;
    var plan := s.execute.value;
    var step := plan.pending.value;
    var full := FullPlan(plan.kind, s.status.solution.moves, w.moves);
    assert s.scan.None? && s.status.session.Some? && (step.SetRails? || step.SetGrippers?);
    assert Shows(s.status.stand, w.machine, Some(step)) && Follows(Rest(plan), full, w);
    assert Rest(plan)[1..] == plan.steps;
    hide Inv, AdvanceExecute, FullPlan, Shows, Follows, EnterFault, FinishPending;
    ExecutePendingLeaves(s, now);
    FollowsAdvances(Rest(plan), plan.kind, s.status.solution.moves, w);
    if PendingSucceeds(s, step) {
      StepArrives(s, w.machine, step);
      var done := plan.(pending := None, deadline := None);
      assert Rest(done) == plan.steps;
      ExecutingFits(AdvanceExecute(s, now), w.(machine := Ended(w.machine, step)), done, full);
    } else {
      FaultReleases(FinishPending(s, step), plan.id, WorldAfterExecute(s, w, now));
    }
  }

  lemma {:induction false} MarkerMoves(s: State, w: World, plan: ActivePlan)
    requires Inv(s) && Mechanical(s, w) && s.motion.None? && s.execute.Some?
    requires s.execute.value.pending.None? && s.execute.value.steps != []
    requires s.execute.value.steps[0] == SP.Motion(MP.MoveCompleted)
    requires plan == s.execute.value.(steps := s.execute.value.steps[1..])
    ensures Mechanical(MarkerStep(s.(execute := Some(plan)), plan.kind), w)
  {
    hide Counted, Ids, PendingMoves, PhaseFits, ShownRails, ShownGrippers, Follows, ScanFollows;
    FollowsAdvances(s.execute.value.steps, plan.kind, s.status.solution.moves, w);
  }

  /** What switching the outputs off leaves of the state. */
  lemma {:induction false} AllOffLeaves(s: State, now: nat)
    requires s.execute.Some? && s.execute.value.pending.None? && s.execute.value.steps != []
    requires s.execute.value.steps[0] == SP.Motion(MP.AllOff) && Due(s.execute.value.deadline, now)
    ensures var r, plan := AdvanceExecute(s, now), s.execute.value.(steps := s.execute.value.steps[1..]);
            if !Outcome(s.out) then r == EnterFault(Attempt(s, AllOff), plan.id)
            else r.motion == s.motion && r.scan == s.scan && r.solve == s.solve && r.execute == Some(plan)
                 && r.status.session == s.status.session && r.status.solution == s.status.solution
                 && r.status.stand == s.status.stand.(outputsEnabled := false)
  {
    hide EnterFault, CommandStep, FinishPending, Outcome, Commanded;
  }

  lemma {:induction false} AllOffMoves(s: State, w: World, now: nat)
    requires Inv(s) && Mechanical(s, w) && s.motion.None? && s.execute.Some?
    requires s.execute.value.pending.None? && s.execute.value.steps != []
    requires s.execute.value.steps[0] == SP.Motion(MP.AllOff) && Due(s.execute.value.deadline, now)
    ensures Mechanical(AdvanceExecute(s, now), w)
  {
    hide Counted, Ids, PendingMoves, PhaseFits, EnterFault, MP.OptimizedHeldSteps, MP.ExecuteSteps, MP.OptimizedPlan,
         ShownRails, ShownGrippers, Follows, ScanFollows, AdvanceExecute;
    var plan := s.execute.value;
    var full := FullPlan(plan.kind, s.status.solution.moves, w.moves);
    FollowsAdvances(plan.steps, plan.kind, s.status.solution.moves, w);
    AllOffLeaves(s, now);
    if !Outcome(s.out) {
      FaultReleases(Attempt(s, AllOff), plan.id, w);
    } else {
      assert Ended(w.machine, MP.AllOff) == w.machine;
      ExecutingFits(AdvanceExecute(s, now), w, plan.(steps := plan.steps[1..]), full);
    }
  }

  /** What commanding a step leaves of the state. */
  lemma {:induction false} ExecuteCommandLeaves(s: State, now: nat, step: MP.Step, commanded: State)
    requires s.execute.Some? && s.execute.value.pending.None? && s.execute.value.steps != []
    requires s.execute.value.steps[0] == SP.Motion(step) && (step.SetRails? || step.SetGrippers?)
    requires Due(s.execute.value.deadline, now)
    requires commanded == CommandStep(SetPose(s, if s.execute.value.kind == OpenStand then TRANSITIONAL
                                                 else StandPose(MovePose, Some(Front))), step)
    ensures var plan := s.execute.value.(steps := s.execute.value.steps[1..]);
            AdvanceExecute(s, now) ==
              if !Outcome(s.out) then EnterFault(commanded, plan.id)
              else commanded.(execute := Some(Started(plan, step, now + StepDuration(s, step))))
  {
    hide StartRails, StopRails, StartGrippers, StopGrippers, EnterFault, CommandStep, FinishPending;
  }

  /** What an execution may rely on. */
  lemma {:induction false} ExecutingFacts(s: State, w: World)
    requires Inv(s) && Mechanical(s, w) && s.motion.None? && s.execute.Some?
    ensures s.scan.None? && s.solve.None? && s.status.session.Some?
    ensures Shows(s.status.stand, w.machine, s.execute.value.pending)
    ensures Follows(Rest(s.execute.value), FullPlan(s.execute.value.kind, s.status.solution.moves, w.moves), w)
  {
    hide Counted, Ids, PendingMoves, PhaseFits, Follows, ScanFollows, FullPlan;
  }

  lemma {:induction false} ExecuteCommandMoves(s: State, w: World, now: nat)
    requires Inv(s) && Mechanical(s, w) && s.motion.None? && s.execute.Some?
    requires s.execute.value.pending.None? && s.execute.value.steps != [] && s.execute.value.steps[0].Motion?
    requires s.execute.value.steps[0].step.SetRails? || s.execute.value.steps[0].step.SetGrippers?
    requires Due(s.execute.value.deadline, now)
    ensures Mechanical(AdvanceExecute(s, now), w)
  {
    hide Inv, AdvanceExecute, Shows, Follows, FullPlan, EnterFault, CommandStep, Mechanical, StartRails, StopRails,
         StartGrippers, StopGrippers, StepDuration, QuarterTurns;
    ExecutingFacts(s, w);
    var plan := s.execute.value;
    var step := plan.steps[0].step;
    var posed := SetPose(s, if plan.kind == OpenStand then TRANSITIONAL else StandPose(MovePose, Some(Front)));
    var commanded := CommandStep(posed, step);
    ExecuteCommandLeaves(s, now, step, commanded);
    if !Outcome(s.out) {
      FaultReleases(commanded, plan.id, w);
    } else {
      PoseAside(s.status.stand, posed.status.stand.pose, w.machine, None);
      StepLeaves(posed, w.machine, step);
      var started := Started(plan.(steps := plan.steps[1..]), step, now + StepDuration(s, step));
      assert Rest(started) == plan.steps;
      ExecutingFits(AdvanceExecute(s, now), w, started, FullPlan(plan.kind, s.status.solution.moves, w.moves));
    }
  }

  lemma {:induction false} PoseAside(stand: StandState, pose: StandPose, m: Machine, pending: Option<MP.Step>)
    requires Shows(stand, m, pending)
    ensures Shows(stand.(pose := pose), m, pending)
  {
  }

  /** A held plan ends in canonical grip; every other plan ends with the stand open. */
  lemma {:induction false} ExecuteEndMoves(s: State, w: World)
    requires Inv(s) && Mechanical(s, w) && s.motion.None? && s.execute.Some?
    requires s.execute.value.pending.None? && s.execute.value.steps == []
    ensures Mechanical(FinishExecute(s.(execute := None), s.execute.value.id, s.execute.value.kind), w.(cube := w.machine.cube))
  {
    hide Counted, Ids, PendingMoves, PhaseFits, MP.OptimizedHeldSteps, MP.ExecuteSteps, MP.OptimizedPlan, Follows,
         ScanFollows;
    FollowsEnds(s.execute.value.kind, s.status.solution.moves, w);
  }

  lemma {:induction false} ExecutionMoves(s: State, w: World, now: nat)
    requires Inv(s) && Mechanical(s, w)
    ensures Mechanical(AdvanceExecute(s, now), WorldAfterExecute(s, w, now))
  {
    hide Counted, Ids, PendingMoves, PhaseFits, StepDuration, QuarterTurns, MP.OptimizedHeldSteps, MP.ExecuteSteps,
         MP.OptimizedPlan, Shows, ShownRails, ShownGrippers, Follows, ScanFollows, Released;
    if s.execute.Some? && Due(s.execute.value.deadline, now) {
      var plan := s.execute.value;
      if plan.pending.Some? {
        ExecutePendingMoves(s, w, now);
      } else if plan.steps == [] {
        ExecuteEndMoves(s, w);
      } else {
        FollowsHead(plan.steps, FullPlan(plan.kind, s.status.solution.moves, w.moves), w);
        if plan.steps[0].step.MoveCompleted? {
          MarkerMoves(s, w, plan.(steps := plan.steps[1..]));
        } else if plan.steps[0].step.AllOff? {
          AllOffMoves(s, w, now);
        } else {
          ExecuteCommandMoves(s, w, now);
        }
      }
    }
  }

  // ---- admission ------------------------------------------------------------------

  lemma {:induction false} ExecuteAdmitted(s: State, w: World, kind: OperationKind, solution: SolutionStatus)
    requires Inv(s) && Mechanical(s, w) && Filled(s) == 0 && s.status.session.Some?
    requires kind == Execute || kind == OpenStand || kind == OperationKind.ExecuteMoves
    ensures Mechanical(StartPlan(s.(status := s.status.(solution := solution)), kind, FullPlan(kind, solution.moves, w.moves)), w)
  {
    hide MP.OptimizedHeldSteps, MP.ExecuteSteps, MP.OptimizedPlan, Shows, ShownRails, ShownGrippers, Follows,
         ScanFollows, Inv, Run;
    var full := FullPlan(kind, solution.moves, w.moves);
    var r := StartPlan(s.(status := s.status.(solution := solution)), kind, full);
    FollowsBegins(full, w);
    ExecutingFits(r, w, r.execute.value, full);
  }

  lemma {:induction false} SolutionAdmitted(s: State, w: World, session: nat, revision: nat, solution: nat)
    requires Inv(s) && Mechanical(s, w)
    ensures Mechanical(StartExecute(s, session, revision, solution), w)
  {
    hide StartRails, StopRails, StartGrippers, StopGrippers, Counted, Ids, PendingMoves, PhaseFits, Follows,
         ScanFollows, Mechanical;
    if ExecuteRefusal(s, session, revision, solution).None? {
      ExecuteAdmitted(s, w, Execute, s.status.solution.(state := Executing, completedMoves := 0));
    }
  }

  lemma {:induction false} SequenceAdmitted(s: State, w: World, session: nat, moves: seq<MP.CubeMove>)
    requires Inv(s) && Mechanical(s, w)
    ensures Mechanical(StartExecuteMoves(s, session, moves),
                       WorldAfterCommand(s, w, Command.ExecuteMovesCommand(session, moves)))
  {
    hide StartRails, StopRails, StartGrippers, StopGrippers, MP.OptimizedHeldSteps, MP.ExecuteSteps,
         MP.OptimizedPlan, ShownRails, ShownGrippers, Mechanical, Inv;
    if ExecuteMovesRefusal(s, session, moves).None? {
      MovesAdmitted(s, w, moves);
      ExecuteAdmitted(s, w.(moves := moves), OperationKind.ExecuteMoves, s.status.solution);
    }
  }

  lemma {:induction false} OpenAdmitted(s: State, w: World, session: nat)
    requires Inv(s) && Mechanical(s, w)
    ensures Mechanical(StartOpen(s, session), w)
  {
    hide StartRails, StopRails, StartGrippers, StopGrippers, Shows, ShownRails, ShownGrippers, Follows, ScanFollows,
         Inv, Released;
    if OpenRefusal(s, session).None? {
      ExecuteAdmitted(s, w, OpenStand, s.status.solution);
    }
  }

  lemma {:induction false} CommandMoves(s: State, w: World, command: Command, env: Env)
    requires Inv(s) && Mechanical(s, w)
    ensures Mechanical(Obey(s, command, env), WorldAfterCommand(s, w, command))
  {
    hide StartRails, StopRails, StartGrippers, StopGrippers, Counted, Ids, PendingMoves, PhaseFits, OneOwner,
         Mechanical, SP.RunScan, SP.SCAN_STEPS;
    match command {
      case AbortCommand => AbortReleases(s, ActiveId(s), w);
      case RecoverCommand => RecoverAdmitted(s, w);
      case GripCommand => GripAdmitted(s, w);
      case StartScan(session) => ScanAdmitted(s, w, session, Scan, env);
      case ScanSolveExecuteCommand(session) => ScanAdmitted(s, w, session, ScanSolveExecute, env);
      case SolveCommand(session, revision) => SolveAdmitted(s, w, session, revision);
      case ExecuteCommand(session, revision, solution) => SolutionAdmitted(s, w, session, revision, solution);
      case ExecuteMovesCommand(session, moves) => SequenceAdmitted(s, w, session, moves);
      case OpenCommand(session) => OpenAdmitted(s, w, session);
      case GetStatus =>
    }
  }

  lemma {:induction false} MovesAdmitted(s: State, w: World, moves: seq<MP.CubeMove>)
    requires Mechanical(s, w) && Filled(s) == 0
    ensures Mechanical(s, w.(moves := moves))
  {
    hide StartRails, StopRails, StartGrippers, StopGrippers, Follows, ScanFollows, FullPlan;
  }

  lemma {:induction false} SolveAdmitted(s: State, w: World, session: nat, revision: nat)
    requires Inv(s) && Mechanical(s, w)
    ensures Mechanical(StartSolve(s, session, revision), w)
  {
    hide StartRails, StopRails, StartGrippers, StopGrippers, MP.OptimizedHeldSteps, MP.ExecuteSteps,
         MP.OptimizedPlan, Follows, ScanFollows, Inv, RebuiltString, RebuiltSlots;
  }

  lemma {:induction false} RecoverAdmitted(s: State, w: World)
    requires Inv(s) && Mechanical(s, w)
    ensures Mechanical(StartMotion(s, RecoverToOpen), w)
  {
    hide Counted, Ids, PendingMoves, PhaseFits, Follows, ScanFollows, Inv;
  }

  lemma {:induction false} GripAdmitted(s: State, w: World)
    requires Inv(s) && Mechanical(s, w)
    ensures Mechanical(StartMotion(s, Grip), w)
  {
    hide DataBelongs, Rest, PlanFits;
  }

  lemma {:induction false} ScanAdmitted(s: State, w: World, session: nat, kind: OperationKind, env: Env)
    requires Inv(s) && Mechanical(s, w) && (kind == Scan || kind == ScanSolveExecute)
    ensures Mechanical(StartScanOperation(s, session, kind, env), w)
  {
    hide Counted, Ids, PendingMoves, PhaseFits, DataBelongs, MP.OptimizedHeldSteps, MP.ExecuteSteps,
         MP.OptimizedPlan, Shows, ShownRails, ShownGrippers, Follows, ScanFollows, SP.RunScan, SP.SCAN_STEPS;
    if ScanRefusal(s, session, env).None? {
      ScanFollowsBegins(w);
    }
  }

  lemma {:induction false} EventsAside(s: State, w: World)
    requires Mechanical(s, w)
    ensures Mechanical(s.(events := []), w)
    ensures forall cache: seq<Cached> :: Mechanical(s.(events := [], cache := cache), w)
  {
    hide MP.OptimizedHeldSteps, MP.ExecuteSteps, MP.OptimizedPlan, Shows, ShownRails, ShownGrippers, Follows,
         ScanFollows;
  }

  lemma {:induction false} TickMoves(s: State, w: World, now: nat, env: Env, inserted: Cube)
    requires Inv(s) && Mechanical(s, w)
    ensures Mechanical(Tick(s, now, env).0, WorldAfterTick(s, w, now, env, inserted))
  {
    hide StartRails, StopRails, StartGrippers, StopGrippers, Follows, ScanFollows, Mechanical, AdvanceScan;
    var moved := AdvanceMotion(s, now);
    MotionKeeps(s, now);
    MotionMoves(s, w, now, inserted);
    var w1 := WorldAfterMotion(s, w, now, inserted);
    var scanned := AdvanceScan(moved, now, env);
    ScanKeeps(moved, now, env);
    ScanMoves(moved, w1, now, env);
    var w2 := WorldAfterScan(moved, w1, now);
    var solved := AdvanceSolve(scanned, env);
    SolveKeeps(scanned, env);
    SolveMoves(scanned, w2, env);
    ExecutionMoves(solved, w2, now);
    EventsAside(AdvanceExecute(solved, now), WorldAfterExecute(solved, w2, now));
    TickIs(s, now, env, AdvanceExecute(solved, now));
  }

  lemma {:induction false} TickIs(s: State, now: nat, env: Env, executed: State)
    requires executed == AdvanceExecute(AdvanceSolve(AdvanceScan(AdvanceMotion(s, now), now, env), env), now)
    ensures Tick(s, now, env) == (executed.(events := []), executed.events)
  {
    hide SolverString, Named, Record, MP.OptimizedHeldSteps, MP.ExecuteSteps, MP.OptimizedPlan, AdvanceScan;
  }
}

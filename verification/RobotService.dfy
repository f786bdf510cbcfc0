/** The robot service as a state machine: what every request, local command and tick does
    to the service state. The class that runs is in `ServiceProgram`. */
module RobotService {
  import opened Geometry
  import opened Stand
  import opened Options
  import opened Protocol
  import MP = MovePlanner
  import SP = ScanPlan
  import CS = CubeScan

  const REQUEST_CACHE_CAPACITY := 16

  // ---- servo output ---------------------------------------------------------------

  datatype PwmCommand =
    | SetRailChannels(target: MP.RailTarget, position: RailPosition)
    | SetAllRails(position: RailPosition)
    | SetGripperChannels(poses: seq<MP.Pose>)
    | DisableRails(target: MP.RailTarget)
    | DisableAllRails
    | AllOff

  /** The servo driver: everything commanded so far, and the outcomes still to come. A
      driver whose outcomes are used up succeeds. */
  datatype Output = Output(script: seq<bool>, log: seq<(PwmCommand, bool)>)

  function Outcome(out: Output): bool {
    out.script == [] || out.script[0]
  }

  function Commanded(out: Output, command: PwmCommand): Output {
    Output(if out.script == [] then [] else out.script[1..], out.log + [(command, Outcome(out))])
  }

  // ---- state ----------------------------------------------------------------------

  datatype Event =
    | RobotStateChanged(controller: ControllerState, operation: Option<OperationStatus>)
    | StandStateChanged(stand: StandState)
    | CubeSessionChanged(session: Option<nat>)
    | FaceScanned(operationId: nat, face: LogicalFace, recognized: Recognized, scannedFaces: set<LogicalFace>)
    | OperationFailed(operationId: nat, failure: FailureKind)
    | OperationCompleted(operationId: nat, kind: OperationKind)
    | AbortedEvent(aborted: Option<nat>)
    | FaultEvent(faulted: Option<nat>)

  datatype FailureKind = RecognitionFailure | FaceletFailure | SolverNoSolution

  datatype Phase =
    | RecoverStart | RecoverFinishLeftRight | RecoverFinishTopBottom | RecoverFinishGrippers
    | GripStart | GripFinishGrippers | GripFinishRails

  datatype ActiveMotion = ActiveMotion(id: nat, kind: OperationKind, phase: Phase, deadline: Option<nat>)

  datatype ActivePlan = ActivePlan(
    id: nat, kind: OperationKind, steps: seq<SP.MotionStep>, pending: Option<MP.Step>, deadline: Option<nat>)

  datatype ActiveScan = ActiveScan(plan: ActivePlan, cube: CS.Slots, failure: Option<FailureKind>)

  datatype ActiveSolve = ActiveSolve(id: nat, kind: OperationKind, revision: nat, letters: seq<LogicalFace>)

  datatype RejectionReason =
    | InvalidControllerState | StandPositionUnknown | StandPoseMismatch | SessionUnavailable | SessionMismatch
    | ScanUnavailable | ScanRevisionMismatch | SolutionUnavailable | SolutionMismatch | OperationAlreadyActive
    | InvalidPayload | UnsupportedCommand

  datatype ResponsePayload =
    | Accepted(operationId: Option<nat>)
    | Rejected(reason: RejectionReason, controller: ControllerState)
    | Status(snapshot: StatusSnapshot)

  datatype Response = Response(requestId: nat, payload: ResponsePayload)

  datatype Cached = Cached(opcode: nat, response: Response)

  datatype State = State(
    status: StatusSnapshot,
    motion: Option<ActiveMotion>,
    scan: Option<ActiveScan>,
    solve: Option<ActiveSolve>,
    execute: Option<ActivePlan>,
    nextOperation: nat,
    nextSession: nat,
    nextRevision: nat,
    nextSolution: nat,
    cache: seq<Cached>,
    events: seq<Event>,
    out: Output,
    times: Calibration)

  function Initial(times: Calibration, script: seq<bool>): State {
    State(UNKNOWN_STATUS, None, None, None, None, 1, 1, 1, 1, [], [], Output(script, []), times)
  }

  // ---- what the outside world decides ---------------------------------------------

  datatype Recognition = Seen(face: Recognized) | WrongCountSeen | CameraError

  datatype SolverPoll = StillSolving | Disconnected | NoSolutionFound | Solved(moves: seq<MP.CubeMove>)

  datatype Env = Env(scannerAvailable: bool, scanBegins: bool, capture: Recognition, solver: SolverPoll)

  datatype Command =
    | GetStatus
    | RecoverCommand
    | GripCommand
    | StartScan(session: nat)
    | SolveCommand(session: nat, revision: nat)
    | ExecuteCommand(session: nat, revision: nat, solution: nat)
    | ExecuteMovesCommand(session: nat, moves: seq<MP.CubeMove>)
    | ScanSolveExecuteCommand(session: nat)
    | OpenCommand(session: nat)
    | AbortCommand

  /** A received packet: its opcode may be unknown, and its payload may not decode. */
  datatype Packet = Packet(isRequest: bool, requestId: nat, opcode: nat, knownOpcode: bool, command: Option<Command>)

  datatype LocalCommand = LocalRecover | LocalGrip | LocalScanSolveExecute(session: nat) | LocalAbort

  // ---- helpers --------------------------------------------------------------------

  /** Successor of a non-zero 32-bit identifier. */
  function NextId(id: nat): nat {
    var n := (id + 1) % 0x1_0000_0000;
    if n == 0 then 1 else n
  }

  function Min(a: nat, b: nat): nat {
    if a < b then a else b
  }

  function Increment(n: nat, limit: nat): nat {
    Min(n + 1, limit)
  }

  function Emit(s: State, event: Event): State {
    s.(events := s.events + [event])
  }

  function EmitStand(s: State): State {
    Emit(s, StandStateChanged(s.status.stand))
  }

  function EmitRobot(s: State): State {
    Emit(s, RobotStateChanged(s.status.controller, s.status.operation))
  }

  function SetPose(s: State, pose: StandPose): State {
    s.(status := s.status.(stand := s.status.stand.(pose := pose)))
  }

  function SetRails(s: State, rails: Four<RailStatus>): State {
    s.(status := s.status.(stand := s.status.stand.(rails := rails)))
  }

  function SetGrippers(s: State, grippers: Four<GripperStatus>): State {
    s.(status := s.status.(stand := s.status.stand.(grippers := grippers)))
  }

  function SetOutputs(s: State, enabled: bool): State {
    s.(status := s.status.(stand := s.status.stand.(outputsEnabled := enabled)))
  }

  function SetOperation(s: State, operation: Option<OperationStatus>): State {
    s.(status := s.status.(operation := operation))
  }

  function SetController(s: State, controller: ControllerState): State {
    s.(status := s.status.(controller := controller))
  }

  function ClearScanAndSolution(s: State): State {
    s.(status := s.status.(scan := EMPTY_SCAN, solution := EMPTY_SOLUTION))
  }

  function AdvanceCounter(s: State): State {
    if s.status.operation.None? then s
    else
      var op := s.status.operation.value;
      SetOperation(s, Some(op.(currentAction := Increment(op.currentAction, 0xffff))))
  }

  predicate OperationActive(s: State) {
    s.motion.Some? || s.scan.Some? || s.solve.Some? || s.execute.Some?
  }

  /** A servo command that may fail; the state changes further only when it succeeds. */
  function Attempt(s: State, command: PwmCommand): State {
    s.(out := Commanded(s.out, command))
  }

  function CommandRails(s: State, target: MP.RailTarget, position: RailPosition): State {
    var tried := Attempt(s, SetRailChannels(target, position));
    if !Outcome(s.out) then tried
    else SetOutputs(SetRails(tried, StartRails(s.status.stand.rails, target, position)), true)
  }

  function FinishRails(s: State, target: MP.RailTarget, position: RailPosition): State {
    var tried := Attempt(s, DisableRails(target));
    if !Outcome(s.out) then tried
    else SetRails(tried, StopRails(s.status.stand.rails, target, position))
  }

  function CommandGrippers(s: State, poses: seq<MP.Pose>): State {
    var tried := Attempt(s, SetGripperChannels(poses));
    if !Outcome(s.out) then tried
    else SetOutputs(SetGrippers(tried, StartGrippers(s.status.stand.grippers, poses)), true)
  }

  function FinishGrippers(s: State, poses: seq<MP.Pose>): State {
    SetGrippers(s, StopGrippers(s.status.stand.grippers, poses))
  }

  function QuarterTurns(grippers: Four<GripperStatus>, poses: seq<MP.Pose>): (r: nat)
    ensures r >= 1
  {
    if poses == [] then 1
    else
      var current := grippers.Get(poses[0].side).current;
      var rest := QuarterTurns(grippers, poses[1..]);
      if current.None? then rest
      else
        var delta := poses[0].orientation.Index() - current.value.Index();
        var turns: nat := if delta < 0 then -delta else delta;
        if turns > rest then turns else rest
  }

  function StepDuration(s: State, step: MP.Step): nat {
    match step
    case SetRails(_, position) => s.times.RailDuration(position)
    case SetGrippers(poses) => s.times.gripperPose * QuarterTurns(s.status.stand.grippers, poses)
    case MoveCompleted => 0
    case AllOff => 0
  }

  function EnterFault(s: State, operationId: nat): State {
    var off := Attempt(s, AllOff);
    var cleared := ClearScanAndSolution(off.(motion := None, scan := None, solve := None, execute := None));
    var status := cleared.status.(controller := Faulted, operation := None, stand := UNKNOWN_STAND, session := None, faulted := true);
    EmitStand(EmitRobot(Emit(cleared.(status := status), FaultEvent(if operationId == 0 then None else Some(operationId)))))
  }

  function Abort(s: State, operationId: Option<nat>): State {
    if !Outcome(s.out) then
      EnterFault(Attempt(s, AllOff), if operationId.None? then 0 else operationId.value)
    else
      var off := Attempt(s, AllOff).(motion := None, scan := None, solve := None, execute := None);
      var cleared := ClearScanAndSolution(off);
      var status := cleared.status.(controller := Aborted, operation := None, stand := UNKNOWN_STAND, session := None);
      Emit(EmitStand(EmitRobot(Emit(cleared.(status := status), AbortedEvent(operationId)))), CubeSessionChanged(None))
  }

  // ---- recovery and gripping ------------------------------------------------------

  function SetPhase(s: State, phase: Phase, deadline: nat, action: nat): State
    requires s.motion.Some?
  {
    var moved := s.(motion := Some(s.motion.value.(phase := phase, deadline := Some(deadline))));
    if s.status.operation.None? then moved
    else SetOperation(moved, Some(s.status.operation.value.(currentAction := action)))
  }

  function CompleteMotion(s: State): State
    requires s.motion.Some?
  {
    var done := SetOperation(SetController(s.(motion := None), Ready), None);
    Emit(EmitRobot(EmitStand(done)), OperationCompleted(s.motion.value.id, s.motion.value.kind))
  }

  function RecoverStartStep(s: State, now: nat): State
    requires s.motion.Some?
  {
    var cleared := SetPose(ClearScanAndSolution(s.(status := s.status.(session := None))), TRANSITIONAL);
    var commanded := CommandRails(cleared, MP.Pair(LeftRight), FarOpen);
    if !Outcome(s.out) then EnterFault(commanded, s.motion.value.id)
    else EmitStand(SetPhase(commanded, RecoverFinishLeftRight, now + s.times.railsOpen, 0))
  }

  function RecoverLeftRightStep(s: State, now: nat): State
    requires s.motion.Some?
  {
    var finished := FinishRails(s, MP.Pair(LeftRight), FarOpen);
    if !Outcome(s.out) then EnterFault(finished, s.motion.value.id)
    else
      var commanded := CommandRails(finished, MP.Pair(TopBottom), FarOpen);
      if !Outcome(finished.out) then EnterFault(commanded, s.motion.value.id)
      else EmitStand(SetPhase(commanded, RecoverFinishTopBottom, now + s.times.railsOpen, 1))
  }

  function RecoverTopBottomStep(s: State, now: nat): State
    requires s.motion.Some?
  {
    var finished := FinishRails(s, MP.Pair(TopBottom), FarOpen);
    if !Outcome(s.out) then EnterFault(finished, s.motion.value.id)
    else
      var commanded := CommandGrippers(finished, ALL_PERPENDICULAR);
      if !Outcome(finished.out) then EnterFault(commanded, s.motion.value.id)
      else EmitStand(SetPhase(commanded, RecoverFinishGrippers, now + s.times.gripperPose, 2))
  }

  function RecoverGrippersStep(s: State): State
    requires s.motion.Some?
  {
    var off := Attempt(s, AllOff);
    if !Outcome(s.out) then EnterFault(off, s.motion.value.id)
    else CompleteMotion(SetPose(SetOutputs(FinishGrippers(off, ALL_PERPENDICULAR), false), StandPose(Open, None)))
  }

  function GripStartStep(s: State, now: nat): State
    requires s.motion.Some?
  {
    var commanded := CommandGrippers(SetPose(s, TRANSITIONAL), ALL_PERPENDICULAR);
    if !Outcome(s.out) then EnterFault(commanded, s.motion.value.id)
    else EmitStand(SetPhase(commanded, GripFinishGrippers, now + s.times.gripperPose, 0))
  }

  function GripGrippersStep(s: State, now: nat): State
    requires s.motion.Some?
  {
    var finished := FinishGrippers(s, ALL_PERPENDICULAR);
    var tried := Attempt(finished, SetAllRails(NearGrip));
    if !Outcome(s.out) then EnterFault(tried, s.motion.value.id)
    else
      var rails := StartRails(StartRails(s.status.stand.rails, MP.Pair(LeftRight), NearGrip), MP.Pair(TopBottom), NearGrip);
      EmitStand(SetPhase(SetOutputs(SetRails(tried, rails), true), GripFinishRails, now + s.times.railsGrip, 1))
  }

  function GripRailsStep(s: State): State
    requires s.motion.Some?
  {
    var tried := Attempt(s, DisableAllRails);
    if !Outcome(s.out) then EnterFault(tried, s.motion.value.id)
    else
      var gripped := SetPose(SetRails(tried, AllSides(StableRail(NearGrip))), CANONICAL);
      var session := gripped.(status := gripped.status.(session := Some(s.nextSession)), nextSession := NextId(s.nextSession));
      CompleteMotion(Emit(session, CubeSessionChanged(Some(s.nextSession))))
  }

  function AdvanceMotion(s: State, now: nat): State {
    if s.motion.None? || (s.motion.value.deadline.Some? && now < s.motion.value.deadline.value) then s
    else
      match s.motion.value.phase
      case RecoverStart => RecoverStartStep(s, now)
      case RecoverFinishLeftRight => RecoverLeftRightStep(s, now)
      case RecoverFinishTopBottom => RecoverTopBottomStep(s, now)
      case RecoverFinishGrippers => RecoverGrippersStep(s)
      case GripStart => GripStartStep(s, now)
      case GripFinishGrippers => GripGrippersStep(s, now)
      case GripFinishRails => GripRailsStep(s)
  }

  // ---- scanning -------------------------------------------------------------------

  /** Ends the step in motion; `None` when the driver failed. */
  function FinishPending(s: State, pending: MP.Step): State {
    match pending
    case SetRails(target, position) => FinishRails(s, target, position)
    case SetGrippers(poses) => FinishGrippers(s, poses)
    case MoveCompleted => s
    case AllOff => s
  }

  predicate PendingSucceeds(s: State, pending: MP.Step) {
    pending.SetRails? ==> Outcome(s.out)
  }

  /** Starts a mechanical step. */
  function CommandStep(s: State, step: MP.Step): State {
    match step
    case SetRails(target, position) => CommandRails(s, target, position)
    case SetGrippers(poses) => CommandGrippers(s, poses)
    case MoveCompleted => s
    case AllOff => s
  }

  function Started(plan: ActivePlan, step: MP.Step, deadline: nat): ActivePlan {
    plan.(pending := Some(step), deadline := Some(deadline))
  }

  function Named(recognized: Recognized): Option<CS.Face> {
    if forall j :: 0 <= j < 9 ==> recognized[j].Some? then
      var colors: seq<CS.StickerColor> := seq(9, j requires 0 <= j < 9 => recognized[j].value);
      Some(colors)
    else None
  }

  /** Adds a recognised face to the cube under scan, unless a sticker is unnamed or the
      face has been seen already. */
  function Record(slots: CS.Slots, face: LogicalFace, recognized: Recognized): Option<CS.Slots> {
    var named := Named(recognized);
    if named.None? || slots[FaceOrder(face)].Some? then None else Some(slots[FaceOrder(face) := named])
  }

  function CaptureStep(s: State, scan: ActiveScan, face: LogicalFace, env: Env): State {
    var posed := SetPose(s, StandPose(ScanPose, Some(face)));
    var looking := posed.(status := posed.status.(scan := posed.status.scan.(currentFace := Some(face))));
    var recorded := if env.capture.Seen? then Record(scan.cube, face, env.capture.face) else None;
    var after :=
      if scan.failure.Some? then looking.(scan := Some(scan))
      else if recorded.Some? then
        var before := looking.status.scan;
        var seen := before.(faces := before.faces[face := env.capture.face], scannedFaces := before.scannedFaces + {face});
        Emit(looking.(status := looking.status.(scan := seen), scan := Some(scan.(cube := recorded.value))),
             FaceScanned(scan.plan.id, face, env.capture.face, seen.scannedFaces))
      else
        var error := match env.capture
          case Seen(_) => InvalidFacelet
          case WrongCountSeen => WrongDetectionCount
          case CameraError => InferenceFailure;
        looking.(status := looking.status.(scan := looking.status.scan.(validationError := Some(error))),
                 scan := Some(scan.(failure := Some(RecognitionFailure))));
    EmitStand(AdvanceCounter(after))
  }

  /** The string that names the stickers of acceptable slots. */
  ghost function SolverString(slots: CS.Slots): Option<seq<LogicalFace>> {
    if CS.Acceptable(slots) && exists letters :: CS.Names(CS.ColorsOf(slots), letters) then
      var letters :| CS.Names(CS.ColorsOf(slots), letters);
      Some(letters)
    else None
  }

  function BeginSolver(s: State, id: nat, kind: OperationKind, revision: nat, letters: seq<LogicalFace>): State {
    s.(status := s.status.(solution := EMPTY_SOLUTION.(state := Solving, sourceScanRevision := Some(revision))),
       solve := Some(ActiveSolve(id, kind, revision, letters)))
  }

  ghost function FinishScan(s: State, scan: ActiveScan): State {
    var letters := if scan.failure.None? then SolverString(scan.cube) else None;
    var failure := if scan.failure.Some? then scan.failure else if letters.None? then Some(FaceletFailure) else None;
    var scanned := s.status.scan.(currentFace := None, state := if failure.Some? then Invalid else Valid,
      validationError := if failure == Some(FaceletFailure) then Some(InvalidFacelet) else s.status.scan.validationError);
    var posed := EmitStand(SetPose(s.(status := s.status.(scan := scanned)), CANONICAL));
    if failure.Some? then
      Emit(EmitRobot(SetOperation(SetController(posed, Ready), None)), OperationFailed(scan.plan.id, failure.value))
    else if scan.plan.kind == ScanSolveExecute then
      var revision := if scanned.revision.Some? then scanned.revision.value else 0;
      var counted :=
        if posed.status.operation.None? then posed
        else
          var op := posed.status.operation.value;
          SetOperation(posed, Some(op.(currentAction := op.actionCount, actionCount := Increment(op.actionCount, 0xffff))));
      EmitRobot(BeginSolver(counted, scan.plan.id, scan.plan.kind, revision, letters.value))
    else
      Emit(EmitRobot(SetOperation(SetController(posed, Ready), None)), OperationCompleted(scan.plan.id, scan.plan.kind))
  }

  ghost function AdvanceScan(s: State, now: nat, env: Env): State {
    if s.scan.None? then s
    else
      var scan := s.scan.value;
      var plan := scan.plan;
      if plan.deadline.Some? && now < plan.deadline.value then s
      else if plan.pending.Some? then
        var finished := FinishPending(s, plan.pending.value);
        if !PendingSucceeds(s, plan.pending.value) then EnterFault(finished, plan.id)
        else EmitStand(AdvanceCounter(finished.(scan := Some(scan.(plan := plan.(pending := None, deadline := None))))))
      else if plan.steps == [] then FinishScan(s.(scan := None), scan)
      else
        var popped := scan.(plan := plan.(steps := plan.steps[1..]));
        match plan.steps[0]
        case Capture(face) => CaptureStep(s, popped, face, env)
        case Motion(step) =>
          if step.MoveCompleted? || step.AllOff? then EnterFault(s, plan.id)
          else
            var commanded := CommandStep(SetPose(s, TRANSITIONAL), step);
            if !Outcome(s.out) then EnterFault(commanded, plan.id)
            else commanded.(scan := Some(popped.(plan := Started(popped.plan, step, now + StepDuration(s, step)))))
  }

  // ---- solving --------------------------------------------------------------------

  function MotionSteps(steps: seq<MP.Step>): (r: seq<SP.MotionStep>)
    ensures |r| == |steps|
  {
    seq(|steps|, i requires 0 <= i < |steps| => SP.Motion(steps[i]))
  }

  function SolveFailure(s: State, id: nat): State {
    var cleared := s.(status := s.status.(solution := EMPTY_SOLUTION, controller := Ready, operation := None));
    Emit(EmitRobot(cleared), OperationFailed(id, SolverNoSolution))
  }

  /** The automatic cycle goes on with the plan of a solution just found. */
  function BeginExecution(s: State, active: ActiveSolve, steps: seq<SP.MotionStep>): State {
    var executing := s.(status := s.status.(solution := s.status.solution.(state := Executing)));
    var counted :=
      if executing.status.operation.None? then executing
      else
        var op := executing.status.operation.value;
        var current := Increment(op.currentAction, 0xffff);
        SetOperation(executing, Some(op.(currentAction := current, actionCount := Min(current + |steps| % 0x1_0000, 0xffff))));
    EmitRobot(counted.(execute := Some(ActivePlan(active.id, active.kind, steps, None, None))))
  }

  function AdvanceSolve(s: State, env: Env): State {
    if s.solve.None? || env.solver.StillSolving? then s
    else
      var active := s.solve.value;
      var taken := s.(solve := None);
      if !env.solver.Solved? || |env.solver.moves| > MAX_SOLUTION_MOVES then SolveFailure(taken, active.id)
      else
        var moves := env.solver.moves;
        var solution := SolutionStatus(Prepared, Some(s.nextSolution), Some(active.revision), moves, 0);
        var numbered := taken.(nextSolution := NextId(s.nextSolution), status := taken.status.(solution := solution));
        if active.kind == ScanSolveExecute then
          BeginExecution(numbered, active, MotionSteps(MP.ExecuteSteps(moves)))
        else
          Emit(EmitRobot(SetOperation(SetController(numbered, Ready), None)), OperationCompleted(active.id, active.kind))
  }

  // ---- executing ------------------------------------------------------------------

  function FinishExecute(s: State, id: nat, kind: OperationKind): State {
    var ready := SetOperation(SetController(s, Ready), None);
    if kind == ExecuteMoves then
      Emit(EmitStand(EmitRobot(SetPose(ready, CANONICAL))), OperationCompleted(id, kind))
    else
      var open := SetOutputs(SetPose(ready, StandPose(Open, None)), false);
      var released := ClearScanAndSolution(open.(status := open.status.(session := None)));
      Emit(Emit(EmitStand(EmitRobot(released)), CubeSessionChanged(None)), OperationCompleted(id, kind))
  }

  function MarkerStep(s: State, kind: OperationKind): State {
    var counted :=
      if kind == ExecuteMoves then ClearScanAndSolution(s)
      else s.(status := s.status.(solution := s.status.solution.(
                completedMoves := Increment(s.status.solution.completedMoves, 0xff))));
    EmitStand(AdvanceCounter(SetPose(counted, StandPose(MovePose, None))))
  }

  function AdvanceExecute(s: State, now: nat): State {
    if s.execute.None? then s
    else
      var plan := s.execute.value;
      if plan.deadline.Some? && now < plan.deadline.value then s
      else if plan.pending.Some? then
        var finished := FinishPending(s, plan.pending.value);
        if !PendingSucceeds(s, plan.pending.value) then EnterFault(finished, plan.id)
        else EmitStand(AdvanceCounter(finished.(execute := Some(plan.(pending := None, deadline := None)))))
      else if plan.steps == [] then FinishExecute(s.(execute := None), plan.id, plan.kind)
      else
        var popped := plan.(steps := plan.steps[1..]);
        var pose := if plan.kind == OpenStand then TRANSITIONAL else StandPose(MovePose, Some(Front));
        match plan.steps[0]
        case Capture(_) => EnterFault(s, plan.id)
        case Motion(step) =>
          if step.MoveCompleted? then MarkerStep(s.(execute := Some(popped)), plan.kind)
          else if step.AllOff? then
            var off := Attempt(s, AllOff);
            if !Outcome(s.out) then EnterFault(off, plan.id)
            else AdvanceCounter(SetOutputs(off, false)).(execute := Some(popped))
          else
            var commanded := CommandStep(SetPose(s, pose), step);
            if !Outcome(s.out) then EnterFault(commanded, plan.id)
            else commanded.(execute := Some(Started(popped, step, now + StepDuration(s, step))))
  }

  // ---- admission ------------------------------------------------------------------

  function RejectedResponse(s: State, requestId: nat, reason: RejectionReason): Response {
    Response(requestId, Rejected(reason, s.status.controller))
  }

  /** Admission common to every command that needs the held cube of a session. */
  function SessionRefusal(s: State, session: nat): Option<RejectionReason> {
    if OperationActive(s) then Some(OperationAlreadyActive)
    else if s.status.controller != Ready then Some(InvalidControllerState)
    else if s.status.session.None? then Some(SessionUnavailable)
    else if s.status.session.value != session then Some(SessionMismatch)
    else None
  }

  function PoseRefusal(s: State): Option<RejectionReason> {
    if s.status.stand.pose.kind != CanonicalPose then Some(StandPoseMismatch) else None
  }

  function Earlier(first: Option<RejectionReason>, second: Option<RejectionReason>): Option<RejectionReason> {
    if first.Some? then first else second
  }

  function RevisionRefusal(s: State, revision: nat): Option<RejectionReason> {
    if s.status.scan.state != Valid then Some(ScanUnavailable)
    else if s.status.scan.revision != Some(revision) then Some(ScanRevisionMismatch)
    else None
  }

  function SolutionRefusal(s: State, revision: nat, solution: nat): Option<RejectionReason> {
    if s.status.solution.state != Prepared then Some(SolutionUnavailable)
    else if s.status.solution.id != Some(solution) || s.status.solution.sourceScanRevision != Some(revision) then
      Some(SolutionMismatch)
    else None
  }

  /** Admits an operation: a fresh identifier, Busy, and the operation's progress counter. */
  function Admit(s: State, kind: OperationKind, actions: nat): State {
    var operation := OperationStatus(s.nextOperation, kind, 0, actions);
    s.(nextOperation := NextId(s.nextOperation), status := s.status.(controller := Busy, operation := Some(operation)))
  }

  function AcceptedResponse(s: State, requestId: nat): Response {
    Response(requestId, Accepted(Some(s.nextOperation)))
  }

  function MotionRefusal(s: State, kind: OperationKind): Option<RejectionReason> {
    if OperationActive(s) then Some(OperationAlreadyActive)
    else if kind == RecoverToOpen then None
    else if s.status.controller != Ready then Some(InvalidControllerState)
    else if s.status.stand.pose.kind != Open then
      Some(if s.status.stand.pose.kind == UnknownPose then StandPositionUnknown else StandPoseMismatch)
    else if s.status.session.Some? then Some(SessionUnavailable)
    else None
  }

  function StartMotion(s: State, kind: OperationKind): State {
    if MotionRefusal(s, kind).Some? then s
    else
      var admitted := Admit(s, kind, if kind == RecoverToOpen then 3 else 2);
      var cleared := admitted.(status := admitted.status.(faulted := false));
      EmitRobot(cleared.(motion := Some(ActiveMotion(s.nextOperation, kind, if kind == RecoverToOpen then RecoverStart else GripStart, None))))
  }

  function ScanRefusal(s: State, session: nat, env: Env): Option<RejectionReason> {
    if !env.scannerAvailable then Some(UnsupportedCommand)
    else
      Earlier(Earlier(SessionRefusal(s, session), PoseRefusal(s)), if !env.scanBegins then Some(InvalidControllerState) else None)
  }

  const EMPTY_SLOTS: CS.Slots := [None, None, None, None, None, None]

  function StartScanOperation(s: State, session: nat, kind: OperationKind, env: Env): State {
    if ScanRefusal(s, session, env).Some? then s
    else
      var admitted := Admit(s, kind, |SP.SCAN_STEPS|).(nextRevision := NextId(s.nextRevision));
      var scan := EMPTY_SCAN.(state := InProgress, revision := Some(s.nextRevision));
      EmitRobot(admitted.(status := admitted.status.(scan := scan, solution := EMPTY_SOLUTION),
                          scan := Some(ActiveScan(ActivePlan(s.nextOperation, kind, SP.SCAN_STEPS, None, None), EMPTY_SLOTS, None))))
  }

  /** The slots rebuilt from a published scan, unless a face is missing or unnamed. */
  function RebuiltSlots(scan: ScanStatus): Option<CS.Slots> {
    if forall i :: 0 <= i < 6 ==> FACES[i] in scan.faces && Named(scan.faces[FACES[i]]).Some? then
      var slots: seq<Option<CS.Face>> := seq(6, i requires 0 <= i < 6 => Named(scan.faces[FACES[i]]));
      Some(slots)
    else None
  }

  ghost function RebuiltString(scan: ScanStatus): Option<seq<LogicalFace>> {
    if RebuiltSlots(scan).None? then None else SolverString(RebuiltSlots(scan).value)
  }

  ghost function SolveRefusal(s: State, session: nat, revision: nat): Option<RejectionReason> {
    Earlier(Earlier(SessionRefusal(s, session), RevisionRefusal(s, revision)),
       Earlier(PoseRefusal(s), if RebuiltString(s.status.scan).None? then Some(ScanUnavailable) else None))
  }

  ghost function StartSolve(s: State, session: nat, revision: nat): State {
    if SolveRefusal(s, session, revision).Some? then s
    else EmitRobot(BeginSolver(Admit(s, Solve, 1), s.nextOperation, Solve, revision, RebuiltString(s.status.scan).value))
  }

  function ExecuteRefusal(s: State, session: nat, revision: nat, solution: nat): Option<RejectionReason> {
    Earlier(Earlier(SessionRefusal(s, session), RevisionRefusal(s, revision)), Earlier(SolutionRefusal(s, revision, solution), PoseRefusal(s)))
  }

  function StartPlan(s: State, kind: OperationKind, steps: seq<MP.Step>): State {
    EmitRobot(Admit(s, kind, |steps|).(execute := Some(ActivePlan(s.nextOperation, kind, MotionSteps(steps), None, None))))
  }

  function StartExecute(s: State, session: nat, revision: nat, solution: nat): State {
    if ExecuteRefusal(s, session, revision, solution).Some? then s
    else
      var executing := s.(status := s.status.(solution := s.status.solution.(state := Executing, completedMoves := 0)));
      StartPlan(executing, Execute, MP.ExecuteSteps(s.status.solution.moves))
  }

  function ExecuteMovesRefusal(s: State, session: nat, moves: seq<MP.CubeMove>): Option<RejectionReason> {
    if moves == [] || |moves| > MAX_SOLUTION_MOVES then Some(InvalidPayload)
    else Earlier(SessionRefusal(s, session), PoseRefusal(s))
  }

  function StartExecuteMoves(s: State, session: nat, moves: seq<MP.CubeMove>): State {
    if ExecuteMovesRefusal(s, session, moves).Some? then s
    else StartPlan(s, ExecuteMoves, MP.OptimizedHeldSteps(moves))
  }

  function OpenRefusal(s: State, session: nat): Option<RejectionReason> {
    Earlier(SessionRefusal(s, session), PoseRefusal(s))
  }

  function StartOpen(s: State, session: nat): State {
    if OpenRefusal(s, session).Some? then s else StartPlan(s, OpenStand, MP.OPEN_STEPS)
  }

  // ---- requests -------------------------------------------------------------------

  ghost function Refusal(s: State, command: Command, env: Env): Option<RejectionReason> {
    match command
    case GetStatus => None
    case RecoverCommand => MotionRefusal(s, RecoverToOpen)
    case GripCommand => MotionRefusal(s, Grip)
    case StartScan(session) => ScanRefusal(s, session, env)
    case SolveCommand(session, revision) => SolveRefusal(s, session, revision)
    case ExecuteCommand(session, revision, solution) => ExecuteRefusal(s, session, revision, solution)
    case ExecuteMovesCommand(session, moves) => ExecuteMovesRefusal(s, session, moves)
    case ScanSolveExecuteCommand(session) => ScanRefusal(s, session, env)
    case OpenCommand(session) => OpenRefusal(s, session)
    case AbortCommand => None
  }

  function ActiveId(s: State): Option<nat> {
    if s.status.operation.None? then None else Some(s.status.operation.value.id)
  }

  ghost function Obey(s: State, command: Command, env: Env): State {
    match command
    case GetStatus => s
    case RecoverCommand => StartMotion(s, RecoverToOpen)
    case GripCommand => StartMotion(s, Grip)
    case StartScan(session) => StartScanOperation(s, session, Scan, env)
    case SolveCommand(session, revision) => StartSolve(s, session, revision)
    case ExecuteCommand(session, revision, solution) => StartExecute(s, session, revision, solution)
    case ExecuteMovesCommand(session, moves) => StartExecuteMoves(s, session, moves)
    case ScanSolveExecuteCommand(session) => StartScanOperation(s, session, ScanSolveExecute, env)
    case OpenCommand(session) => StartOpen(s, session)
    case AbortCommand => Abort(s, ActiveId(s))
  }

  ghost function Reply(s: State, requestId: nat, command: Command, env: Env): Response {
    if Refusal(s, command, env).Some? then RejectedResponse(s, requestId, Refusal(s, command, env).value)
    else
      match command
      case GetStatus => Response(requestId, Status(s.status))
      case AbortCommand => Response(requestId, Accepted(None))
      case _ => AcceptedResponse(s, requestId)
  }

  predicate Undecodable(packet: Packet) {
    !packet.isRequest || packet.requestId == 0 || !packet.knownOpcode || packet.command.None?
  }

  function UndecodableReply(s: State, packet: Packet): Response {
    if !packet.isRequest || packet.requestId == 0 then RejectedResponse(s, packet.requestId, InvalidPayload)
    else if !packet.knownOpcode then RejectedResponse(s, packet.requestId, UnsupportedCommand)
    else RejectedResponse(s, packet.requestId, InvalidPayload)
  }

  ghost function Dispatch(s: State, packet: Packet, env: Env): (State, Response) {
    if Undecodable(packet) then (s, UndecodableReply(s, packet))
    else (Obey(s, packet.command.value, env), Reply(s, packet.requestId, packet.command.value, env))
  }

  /** Position of the cached response to a request identifier, or the length of the cache. */
  function CacheIndex(cache: seq<Cached>, requestId: nat): (r: nat)
    ensures r <= |cache|
    ensures r < |cache| ==> cache[r].response.requestId == requestId
    ensures forall i :: 0 <= i < r ==> cache[i].response.requestId != requestId
  {
    if cache == [] then 0
    else if cache[0].response.requestId == requestId then 0
    else 1 + CacheIndex(cache[1..], requestId)
  }

  function CacheResponse(s: State, opcode: nat, response: Response): State {
    if response.requestId == 0 then s
    else
      var kept := if |s.cache| == REQUEST_CACHE_CAPACITY then s.cache[1..] else s.cache;
      s.(cache := kept + [Cached(opcode, response)])
  }

  /** State after a packet, its response, and the events published with it. */
  ghost function HandlePacket(s: State, packet: Packet, env: Env): (State, Response, seq<Event>) {
    var i := CacheIndex(s.cache, packet.requestId);
    if i < |s.cache| then
      var response :=
        if s.cache[i].opcode == packet.opcode then s.cache[i].response
        else RejectedResponse(s, packet.requestId, InvalidPayload);
      (s.(events := []), response, s.events)
    else
      var (dispatched, response) := Dispatch(s, packet, env);
      var cached := CacheResponse(dispatched, packet.opcode, response);
      (cached.(events := []), response, cached.events)
  }

  function LocalAsCommand(command: LocalCommand): Command {
    match command
    case LocalRecover => RecoverCommand
    case LocalGrip => GripCommand
    case LocalScanSolveExecute(session) => ScanSolveExecuteCommand(session)
    case LocalAbort => AbortCommand
  }

  /** State after a command from the stand's own button, with its reply and events. */
  ghost function HandleLocal(s: State, command: LocalCommand, env: Env): (State, ResponsePayload, seq<Event>) {
    var obeyed := Obey(s, LocalAsCommand(command), env);
    (obeyed.(events := []), Reply(s, 0, LocalAsCommand(command), env).payload, obeyed.events)
  }

  /** State after one iteration of the daemon, and the events published in it. */
  ghost function Tick(s: State, now: nat, env: Env): (State, seq<Event>) {
    var moved := AdvanceMotion(s, now);
    var scanned := AdvanceScan(moved, now, env);
    var solved := AdvanceSolve(scanned, env);
    var executed := AdvanceExecute(solved, now);
    (executed.(events := []), executed.events)
  }
}

/** What the service answers, in every state it can reach, in terms of the snapshot that it
    published before: when a command is accepted, what is started then, and which reason a
    refusal gives. */
module ServiceAdmission {
  import opened Geometry
  import opened Stand
  import opened Options
  import opened Protocol
  import opened RobotService
  import opened ServiceInvariants
  import MP = MovePlanner
  import SP = ScanPlan
  import CS = CubeScan
  import SC = ServiceCube
  import SS = ServiceSafety
  import SW = ServiceWorld

  // ---- a valid scan can be solved -------------------------------------------------

  /** Every face under scan is published as it was recorded. */
  ghost predicate Published(slots: CS.Slots, faces: map<LogicalFace, Recognized>) {
    forall i :: 0 <= i < 6 && slots[i].Some? ==> FACES[i] in faces && Named(faces[FACES[i]]) == slots[i]
  }

  ghost predicate ScanKnown(s: State) {
    && (s.scan.Some? ==> Published(s.scan.value.cube, s.status.scan.faces))
    && (s.status.scan.state == Valid ==> RebuiltString(s.status.scan).Some?)
  }

  lemma {:induction false} RecordIsPublished(slots: CS.Slots, faces: map<LogicalFace, Recognized>, face: LogicalFace, seen: Recognized)
    requires Published(slots, faces) && Record(slots, face, seen).Some?
    ensures Published(Record(slots, face, seen).value, faces[face := seen])
  {
    hide Named;
    forall i | 0 <= i < 6 && Record(slots, face, seen).value[i].Some?
      ensures FACES[i] in faces[face := seen] && Named(faces[face := seen][FACES[i]]) == Record(slots, face, seen).value[i]
    {
      assert FaceOrder(FACES[i]) == i && FACES[FaceOrder(face)] == face;
    }
  }

  lemma {:induction false} CompleteIsRebuilt(slots: CS.Slots, scan: ScanStatus)
    requires Published(slots, scan.faces) && CS.Complete(slots)
    ensures RebuiltSlots(scan) == Some(slots)
  {
    hide Named;
    forall i | 0 <= i < 6
      ensures FACES[i] in scan.faces && Named(scan.faces[FACES[i]]) == slots[i]
    {
      assert slots[i].Some?;
    }
    assert forall i :: 0 <= i < 6 ==> RebuiltSlots(scan).value[i] == slots[i];
    assert RebuiltSlots(scan).value == slots;
  }

  lemma {:induction false} CaptureKnown(s: State, scan: ActiveScan, face: LogicalFace, env: Env)
    requires Published(scan.cube, s.status.scan.faces) && s.status.scan.state != Valid
    ensures ScanKnown(CaptureStep(s, scan, face, env))
  {
    hide Published, Named, Record;
    if scan.failure.None? && env.capture.Seen? && Record(scan.cube, face, env.capture.face).Some? {
      RecordIsPublished(scan.cube, s.status.scan.faces, face, env.capture.face);
    }
  }

  lemma {:induction false} FinishKnown(s: State, scan: ActiveScan)
    requires Published(scan.cube, s.status.scan.faces)
    ensures ScanKnown(FinishScan(s.(scan := None), scan))
  {
    hide Published, RebuiltSlots, CS.DistinctCentres, CS.NineOfEach, CS.Names;
    if CS.Complete(scan.cube) {
      CompleteIsRebuilt(scan.cube, FinishScan(s.(scan := None), scan).status.scan);
    }
  }

  lemma {:induction false} MotionKnown(s: State, now: nat)
    requires Inv(s) && ScanKnown(s)
    ensures ScanKnown(AdvanceMotion(s, now))
  {
    hide AdvanceMotion, Published, RebuiltString;
    MotionLeaves(s, now);
    if s.motion.None? {
      IdleMotion(s, now);
    }
  }

  lemma {:induction false} IdleMotion(s: State, now: nat)
    requires s.motion.None?
    ensures AdvanceMotion(s, now) == s
  {
  }

  lemma {:induction false} ScanningKnown(s: State, now: nat, env: Env)
    requires Inv(s) && ScanKnown(s)
    ensures ScanKnown(AdvanceScan(s, now, env))
  {
    hide Published, RebuiltString, FinishScan, CaptureStep, EnterFault, CommandStep, FinishPending, StepDuration, Outcome;
    if s.scan.Some? {
      var scan := s.scan.value;
      if scan.plan.pending.Some? {
        StepFrame(s, scan.plan.pending.value);
        FaultFrame(FinishPending(s, scan.plan.pending.value), scan.plan.id);
      } else if scan.plan.steps == [] {
        FinishKnown(s, scan);
      } else {
        FaultFrame(s, scan.plan.id);
        if scan.plan.steps[0].Capture? {
          CaptureKnown(s, scan.(plan := scan.plan.(steps := scan.plan.steps[1..])), scan.plan.steps[0].face, env);
        } else {
          StepFrame(SetPose(s, TRANSITIONAL), scan.plan.steps[0].step);
          FaultFrame(CommandStep(SetPose(s, TRANSITIONAL), scan.plan.steps[0].step), scan.plan.id);
        }
      }
    }
  }

  lemma {:induction false} SolvingKnown(s: State, env: Env)
    requires ScanKnown(s)
    ensures ScanKnown(AdvanceSolve(s, env))
  {
    hide Published, RebuiltString, MotionSteps;
  }

  lemma {:induction false} ExecutingKnown(s: State, now: nat)
    requires Inv(s) && ScanKnown(s)
    ensures ScanKnown(AdvanceExecute(s, now))
  {
    hide AdvanceExecute, Published, RebuiltString;
    ExecutionLeaves(s, now);
    if s.execute.None? {
      IdleExecution(s, now);
    }
  }

  lemma {:induction false} IdleExecution(s: State, now: nat)
    requires s.execute.None?
    ensures AdvanceExecute(s, now) == s
  {
  }

  lemma {:induction false} ObeyKnown(s: State, command: Command, env: Env)
    requires Inv(s) && ScanKnown(s)
    ensures ScanKnown(Obey(s, command, env))
  {
    hide Named, RebuiltString;
  }

  lemma {:induction false} TickKnown(s: State, now: nat, env: Env)
    requires Inv(s) && ScanKnown(s)
    ensures ScanKnown(Tick(s, now, env).0)
  {
    hide Inv, ScanKnown, AdvanceMotion, AdvanceScan, AdvanceSolve, AdvanceExecute;
    var moved := AdvanceMotion(s, now);
    MotionKeeps(s, now);
    MotionKnown(s, now);
    ScanKeeps(moved, now, env);
    ScanningKnown(moved, now, env);
    var scanned := AdvanceScan(moved, now, env);
    SolveKeeps(scanned, env);
    SolvingKnown(scanned, env);
    var solved := AdvanceSolve(scanned, env);
    ExecutingKnown(solved, now);
    BookkeepingKnown(AdvanceExecute(solved, now), AdvanceExecute(solved, now).cache);
  }

  lemma {:induction false} BookkeepingKnown(s: State, cache: seq<Cached>)
    requires ScanKnown(s)
    ensures ScanKnown(s.(events := [])) && ScanKnown(s.(events := [], cache := cache))
  {
  }

  lemma {:induction false} StepKnown(s: State, input: Input)
    requires Resting(s) && ScanKnown(s)
    ensures ScanKnown(Step(s, input))
  {
    hide Inv, CacheInv, ScanKnown, Tick, Obey, HandlePacket;
    match input {
      case PacketArrives(packet, env) =>
        if packet.command.Some? {
          ObeyKnown(s, packet.command.value, env);
        }
        PacketIsCommand(s, packet, env);
      case ButtonPressed(local, env) =>
        ObeyKnown(s, LocalAsCommand(local), env);
        BookkeepingKnown(Obey(s, LocalAsCommand(local), env), s.cache);
      case TimePasses(now, env) => TickKnown(s, now, env);
    }
  }

  lemma {:induction false} PacketIsCommand(s: State, packet: Packet, env: Env)
    requires ScanKnown(s) && (packet.command.Some? ==> ScanKnown(Obey(s, packet.command.value, env)))
    ensures ScanKnown(HandlePacket(s, packet, env).0)
  {
    hide Obey, Reply, Published, RebuiltString;
  }

  lemma {:induction false} StartsKnown(times: Calibration, script: seq<bool>)
    ensures ScanKnown(Initial(times, script))
  {
  }

  /** In every reachable state a valid scan can be given to the solver. */
  lemma {:induction false} ScansAreKnown(times: Calibration, script: seq<bool>, w: SW.World, xs: seq<SC.Experience>)
    ensures ScanKnown(SC.RunBoth(Initial(times, script), w, xs).0)
  {
    hide Resting, ScanKnown, Step, SC.WorldStep;
    if xs == [] {
      StartsKnown(times, script);
    } else {
      var k := |xs| - 1;
      ScansAreKnown(times, script, w, xs[..k]);
      SC.RunsAreMechanical(times, script, w, xs[..k]);
      StepKnown(SC.RunBoth(Initial(times, script), w, xs[..k]).0, xs[k].input);
    }
  }

  // ---- what is accepted -----------------------------------------------------------

  /** The robot is ready and holds the cube of the session in canonical grip. */
  predicate Holds(before: StatusSnapshot, session: nat) {
    before.controller == Ready && before.session == Some(session) && before.stand.pose.kind == CanonicalPose
  }

  /** What each command asks of the published snapshot, the scanner and its own moves. */
  predicate Admissible(before: StatusSnapshot, command: Command, env: Env) {
    match command
    case GetStatus => true
    case AbortCommand => true
    case RecoverCommand => before.controller != Busy
    case GripCommand => before.controller == Ready && before.stand.pose.kind == Open
    case StartScan(session) => Holds(before, session) && env.scannerAvailable && env.scanBegins
    case ScanSolveExecuteCommand(session) => Holds(before, session) && env.scannerAvailable && env.scanBegins
    case SolveCommand(session, revision) =>
      Holds(before, session) && before.scan.state == Valid && before.scan.revision == Some(revision)
    case ExecuteCommand(session, revision, solution) =>
      && Holds(before, session) && before.scan.state == Valid && before.scan.revision == Some(revision)
      && before.solution.state == Prepared && before.solution.id == Some(solution)
    case ExecuteMovesCommand(session, moves) => Holds(before, session) && 0 < |moves| <= 32
    case OpenCommand(session) => Holds(before, session)
  }

  /** The first thing that is wrong with a command that needs the cube of a session. */
  function SessionReason(before: StatusSnapshot, session: nat): RejectionReason {
    if before.controller == Busy then OperationAlreadyActive
    else if before.controller != Ready then InvalidControllerState
    else if before.session.None? then SessionUnavailable
    else SessionMismatch
  }

  /** The reason that a refusal gives. */
  function Reason(before: StatusSnapshot, command: Command, env: Env): RejectionReason {
    match command
    case RecoverCommand => OperationAlreadyActive
    case GripCommand =>
      if before.controller == Busy then OperationAlreadyActive
      else if before.controller != Ready then InvalidControllerState
      else if before.stand.pose.kind == UnknownPose then StandPositionUnknown else StandPoseMismatch
    case StartScan(session) =>
      if !env.scannerAvailable then UnsupportedCommand
      else if Holds(before, session) then InvalidControllerState else SessionReason(before, session)
    case ScanSolveExecuteCommand(session) =>
      if !env.scannerAvailable then UnsupportedCommand
      else if Holds(before, session) then InvalidControllerState else SessionReason(before, session)
    case SolveCommand(session, revision) =>
      if !Holds(before, session) then SessionReason(before, session)
      else if before.scan.state != Valid then ScanUnavailable else ScanRevisionMismatch
    case ExecuteCommand(session, revision, solution) =>
      if !Holds(before, session) then SessionReason(before, session)
      else if before.scan.state != Valid then ScanUnavailable
      else if before.scan.revision != Some(revision) then ScanRevisionMismatch
      else if before.solution.state != Prepared then SolutionUnavailable else SolutionMismatch
    case ExecuteMovesCommand(session, moves) => if 0 < |moves| <= 32 then SessionReason(before, session) else InvalidPayload
    case OpenCommand(session) => SessionReason(before, session)
    case _ => InvalidPayload
  }

  function KindOf(command: Command): OperationKind {
    match command
    case GripCommand => Grip
    case StartScan(_) => Scan
    case SolveCommand(_, _) => Solve
    case ExecuteCommand(_, _, _) => Execute
    case ExecuteMovesCommand(_, _) => ExecuteMoves
    case ScanSolveExecuteCommand(_) => ScanSolveExecute
    case OpenCommand(_) => OpenStand
    case _ => RecoverToOpen
  }

  /** What is known of the snapshot of a reachable state. */
  predicate Settled(before: StatusSnapshot) {
    before.controller == Ready ==>
      (before.session.Some? <==> before.stand.pose.kind == CanonicalPose) && (before.stand.pose.kind == Open ==> before.session.None?)
  }

  lemma {:induction false} RefusedExactly(s: State, command: Command, env: Env)
    requires Inv(s) && ScanKnown(s) && Settled(s.status)
    ensures Refusal(s, command, env) == if Admissible(s.status, command, env) then None else Some(Reason(s.status, command, env))
  {
    hide RebuiltString, Counted, PendingMoves, PhaseFits, Ids, Published;
  }

  /** An operation has been started and nothing else has happened yet. */
  predicate Begins(s: State, after: State, kind: OperationKind) {
    && after.status.controller == Busy && after.status.operation.Some?
    && after.status.operation.value == OperationStatus(s.nextOperation, kind, 0, after.status.operation.value.actionCount)
    && after.status.session == s.status.session && after.status.stand == s.status.stand && after.out == s.out
    && after.events == s.events + [RobotStateChanged(Busy, after.status.operation)]
  }

  lemma {:induction false} AcceptedBegins(s: State, command: Command, env: Env)
    requires Refusal(s, command, env).None? && !command.GetStatus? && !command.AbortCommand?
    ensures Begins(s, Obey(s, command, env), KindOf(command))
  {
    hide RebuiltString, RebuiltSlots, MP.OptimizedHeldSteps, MP.ExecuteSteps, SessionRefusal, PoseRefusal, RevisionRefusal,
         SolutionRefusal, Earlier;
  }

  lemma {:induction false} RefusedStays(s: State, command: Command, env: Env)
    requires Refusal(s, command, env).Some? || command.GetStatus?
    ensures Obey(s, command, env) == s
  {
    hide RebuiltString, RebuiltSlots, SessionRefusal, PoseRefusal, RevisionRefusal, SolutionRefusal, Earlier;
  }

  /** The answer to a command and the state after it, as the snapshot before decides. */
  ghost predicate Answered(s: State, command: Command, env: Env, after: State, answer: ResponsePayload, events: seq<Event>) {
    if command.GetStatus? then answer == Status(s.status) && after.status == s.status && after.out == s.out && events == []
    else if command.AbortCommand? then answer == Accepted(None)
    else if Admissible(s.status, command, env) then
      && answer == Accepted(Some(s.nextOperation))
      && Begins(s, after.(events := s.events + events), KindOf(command))
    else
      && answer == Rejected(Reason(s.status, command, env), s.status.controller)
      && after.status == s.status && after.out == s.out && events == []
  }

  lemma {:induction false} CommandAnswered(s: State, requestId: nat, command: Command, env: Env)
    requires Inv(s) && ScanKnown(s) && Settled(s.status) && s.events == []
    ensures var after := Obey(s, command, env);
            && Reply(s, requestId, command, env).requestId == requestId
            && Answered(s, command, env, after.(events := []), Reply(s, requestId, command, env).payload, after.events)
  {
    hide Inv, ScanKnown, Refusal, Obey, Begins, Admissible, Reason;
    RefusedExactly(s, command, env);
    if command.GetStatus? || Refusal(s, command, env).Some? {
      RefusedStays(s, command, env);
    } else if !command.AbortCommand? {
      AcceptedBegins(s, command, env);
      BeginsAlike(s, Obey(s, command, env), KindOf(command));
    }
    if command.GetStatus? || command.AbortCommand? {
      NeverRefused(s, command, env);
    }
  }

  lemma {:induction false} NeverRefused(s: State, command: Command, env: Env)
    requires command.GetStatus? || command.AbortCommand?
    ensures Refusal(s, command, env).None?
  {
  }

  lemma {:induction false} BeginsAlike(s: State, after: State, kind: OperationKind)
    requires Begins(s, after, kind) && s.events == []
    ensures var bare := after.(events := []); Begins(s, bare.(events := s.events + after.events), kind)
  {
  }

  lemma {:induction false} ReachableIsSettled(times: Calibration, script: seq<bool>, w: SW.World, xs: seq<SC.Experience>)
    ensures var s := SC.RunBoth(Initial(times, script), w, xs).0; Resting(s) && ScanKnown(s) && Settled(s.status)
  {
    hide SC.RunBoth, Resting, ScanKnown, SW.Mechanical;
    SC.RunsAreMechanical(times, script, w, xs);
    ScansAreKnown(times, script, w, xs);
    if SC.RunBoth(Initial(times, script), w, xs).0.status.controller == Ready {
      SS.ReadyMeansAtRest(times, script, w, xs);
    }
  }

  /** No response to the identifier is cached. */
  predicate Unseen(s: State, requestId: nat) {
    forall i :: 0 <= i < |s.cache| ==> s.cache[i].response.requestId != requestId
  }

  /** In every reachable state the published snapshot decides what a new request is answered:
      a command is accepted exactly when it names the current session, revision and solution
      and the robot is ready for it; it then begins an operation of its kind and nothing has
      moved yet. A refusal gives the first reason and changes nothing. */
  lemma {:induction false} RequestsAreAnswered(times: Calibration, script: seq<bool>, w: SW.World, xs: seq<SC.Experience>,
                                               packet: Packet, env: Env)
    requires Unseen(SC.RunBoth(Initial(times, script), w, xs).0, packet.requestId)
    requires packet.isRequest && packet.requestId != 0 && packet.knownOpcode && packet.command.Some?
    ensures var s := SC.RunBoth(Initial(times, script), w, xs).0;
            var (after, response, events) := HandlePacket(s, packet, env);
            response.requestId == packet.requestId && Answered(s, packet.command.value, env, after, response.payload, events)
  {
    hide SC.RunBoth, Inv, ScanKnown, Settled, Answered, Obey, Reply;
    var s := SC.RunBoth(Initial(times, script), w, xs).0;
    ReachableIsSettled(times, script, w, xs);
    CommandAnswered(s, packet.requestId, packet.command.value, env);
    var after := HandlePacket(s, packet, env).0;
    assert after == Obey(s, packet.command.value, env).(events := [], cache := after.cache);
    CacheIsNoAnswer(s, packet.command.value, env, Obey(s, packet.command.value, env).(events := []), after,
                    Reply(s, packet.requestId, packet.command.value, env).payload, Obey(s, packet.command.value, env).events);
  }

  lemma {:induction false} CacheIsNoAnswer(s: State, command: Command, env: Env, a: State, b: State, answer: ResponsePayload, events: seq<Event>)
    requires Answered(s, command, env, a, answer, events) && b == a.(cache := b.cache)
    ensures Answered(s, command, env, b, answer, events)
  {
  }

  /** The command that the button's command stands for. */
  predicate StandsFor(local: LocalCommand, command: Command) {
    match local
    case LocalRecover => command == RecoverCommand
    case LocalGrip => command == GripCommand
    case LocalScanSolveExecute(session) => command == ScanSolveExecuteCommand(session)
    case LocalAbort => command == AbortCommand
  }

  /** The button is answered in the same way. */
  lemma {:induction false} ButtonIsAnswered(times: Calibration, script: seq<bool>, w: SW.World, xs: seq<SC.Experience>,
                                            local: LocalCommand, command: Command, env: Env)
    requires StandsFor(local, command)
    ensures var s := SC.RunBoth(Initial(times, script), w, xs).0;
            var (after, answer, events) := HandleLocal(s, local, env);
            Answered(s, command, env, after, answer, events)
  {
    hide SC.RunBoth, Inv, ScanKnown, Settled, Answered, Obey, Reply;
    ReachableIsSettled(times, script, w, xs);
    CommandAnswered(SC.RunBoth(Initial(times, script), w, xs).0, 0, command, env);
  }

  /** A packet that is no request, has no identifier, or cannot be decoded is refused, and
      changes nothing but the cache. */
  lemma {:induction false} UndecodableAnswered(s: State, packet: Packet, env: Env)
    requires Unseen(s, packet.requestId) && s.events == []
    requires !packet.isRequest || packet.requestId == 0 || !packet.knownOpcode || packet.command.None?
    ensures var (after, response, events) := HandlePacket(s, packet, env);
            && after == s.(cache := after.cache) && events == []
            && response == Response(packet.requestId, Rejected(
                 if packet.isRequest && packet.requestId != 0 && !packet.knownOpcode then UnsupportedCommand else InvalidPayload,
                 s.status.controller))
  {
    hide Obey, Reply;
  }

  /** An abort switches everything off and forgets the cube, the stand and every activity;
      when the driver refuses, once more, and the robot is faulted. */
  lemma {:induction false} AbortForgets(s: State, requestId: nat, env: Env)
    requires s.events == []
    ensures var after := Obey(s, AbortCommand, env);
            && !OperationActive(after) && after.status.session.None? && after.status.operation.None?
            && after.status.stand == UNKNOWN_STAND && after.status.scan == EMPTY_SCAN && after.status.solution == EMPTY_SOLUTION
            && if Outcome(s.out) then
                 && after.status.controller == Aborted && after.out.log == s.out.log + [(PwmCommand.AllOff, true)]
                 && AbortedEvent(if s.status.operation.None? then None else Some(s.status.operation.value.id)) in after.events
                 && CubeSessionChanged(None) in after.events
               else
                 && after.status.controller == Faulted && after.status.faulted && |after.out.log| == |s.out.log| + 2
                 && after.out.log[..|s.out.log|] == s.out.log && after.out.log[|s.out.log|] == (PwmCommand.AllOff, false)
                 && after.out.log[|s.out.log| + 1].0 == PwmCommand.AllOff
  {
  }
}

/** Every accepted operation is announced as ended exactly once: completed, failed, aborted
    or faulted, in the order in which operations were accepted. */
module ServiceEvents {
  import Geometry
  import opened Stand
  import opened Options
  import opened Protocol
  import opened RobotService
  import opened ServiceInvariants
  import MP = MovePlanner
  import SP = ScanPlan
  import SW = ServiceWorld

  /** The operation that an event announces as ended. */
  function EndedBy(event: Event): Option<nat> {
    match event
    case OperationFailed(id, _) => Some(id)
    case OperationCompleted(id, _) => Some(id)
    case AbortedEvent(id) => id
    case FaultEvent(id) => id
    case _ => None
  }

  function AsSeq(id: Option<nat>): seq<nat> {
    if id.Some? then [id.value] else []
  }

  /** The operations that a sequence of events announces as ended, in order. */
  function EndedIds(events: seq<Event>): seq<nat> {
    if events == [] then [] else EndedIds(events[..|events| - 1]) + AsSeq(EndedBy(events[|events| - 1]))
  }

  lemma {:induction false} EndedAppend(events: seq<Event>, e: Event)
    ensures EndedIds(events + [e]) == EndedIds(events) + AsSeq(EndedBy(e))
  {
    assert (events + [e])[..|events + [e]| - 1] == events;
  }

  lemma {:induction false} EndedConcat(a: seq<Event>, b: seq<Event>)
    ensures EndedIds(a + b) == EndedIds(a) + EndedIds(b)
    decreases |b|
  {
    if b == [] {
      assert a + b == a;
    } else {
      var n := |b| - 1;
      assert a + b == a + b[..n] + [b[n]];
      EndedAppend(a + b[..n], b[n]);
      EndedConcat(a, b[..n]);
    }
  }

  /** Without an announced end the operation stays; with one it is gone. */
  ghost predicate Settles(s: State, after: State) {
    || (EndedIds(after.events) == EndedIds(s.events) && ActiveId(after) == ActiveId(s))
    || (ActiveId(s).Some? && ActiveId(after).None? && EndedIds(after.events) == EndedIds(s.events) + [ActiveId(s).value])
  }

  lemma {:induction false} SettlesTwice(a: State, b: State, c: State)
    requires Settles(a, b) && Settles(b, c)
    ensures Settles(a, c)
  {
  }

  lemma {:induction false} FaultEvents(s: State, id: nat)
    ensures EnterFault(s, id).events == s.events + [FaultEvent(if id == 0 then None else Some(id))]
                                        + [RobotStateChanged(Faulted, None)] + [StandStateChanged(UNKNOWN_STAND)]
    ensures ActiveId(EnterFault(s, id)).None?
  {
  }

  lemma {:induction false} FaultEnds(s: State, id: nat)
    ensures ActiveId(EnterFault(s, id)).None?
    ensures EndedIds(EnterFault(s, id).events) == EndedIds(s.events) + if id == 0 then [] else [id]
  {
    hide EndedIds, EnterFault;
    var e := FaultEvent(if id == 0 then None else Some(id));
    var robot := RobotStateChanged(Faulted, None);
    FaultEvents(s, id);
    EndedAppend(s.events, e);
    EndedAppend(s.events + [e], robot);
    EndedAppend(s.events + [e] + [robot], StandStateChanged(UNKNOWN_STAND));
  }

  lemma {:induction false} EndsFirst(s: State, first: Event, b: Event, c: Event, d: Event)
    requires EndedBy(b).None? && EndedBy(c).None? && EndedBy(d).None?
    ensures EndedIds(s.events + [first] + [b] + [c] + [d]) == EndedIds(s.events) + AsSeq(EndedBy(first))
  {
    EndedAppend(s.events, first);
    EndsAfterTwo(s.(events := s.events + [first]), b, c, d);
  }

  lemma {:induction false} AbortEvents(s: State, id: Option<nat>)
    requires Outcome(s.out)
    ensures Abort(s, id).events == s.events + [AbortedEvent(id)] + [RobotStateChanged(Aborted, None)]
                                   + [StandStateChanged(UNKNOWN_STAND)] + [CubeSessionChanged(None)]
    ensures ActiveId(Abort(s, id)).None?
  {
  }

  lemma {:induction false} AbortEnds(s: State)
    requires Ids(s)
    ensures Settles(s, Abort(s, ActiveId(s)))
  {
    hide EnterFault, Outcome, Commanded, StepDuration;
    var id := ActiveId(s);
    if !Outcome(s.out) {
      FaultEnds(Attempt(s, AllOff), if id.None? then 0 else id.value);
    } else {
      AbortEvents(s, id);
      EndsFirst(s, AbortedEvent(id), RobotStateChanged(Aborted, None), StandStateChanged(UNKNOWN_STAND), CubeSessionChanged(None));
    }
  }

  /** Two announcements of which the last one ends the operation. */
  lemma {:induction false} EndsAfter(s: State, a: Event, last: Event)
    requires EndedBy(a).None?
    ensures EndedIds(s.events + [a] + [last]) == EndedIds(s.events) + AsSeq(EndedBy(last))
  {
    EndedAppend(s.events, a);
    EndedAppend(s.events + [a], last);
  }

  lemma {:induction false} EndsAfterTwo(s: State, a: Event, b: Event, last: Event)
    requires EndedBy(a).None? && EndedBy(b).None?
    ensures EndedIds(s.events + [a] + [b] + [last]) == EndedIds(s.events) + AsSeq(EndedBy(last))
  {
    EndedAppend(s.events, a);
    EndsAfter(s.(events := s.events + [a]), b, last);
  }

  lemma {:induction false} EndsAfterThree(s: State, a: Event, b: Event, c: Event, last: Event)
    requires EndedBy(a).None? && EndedBy(b).None? && EndedBy(c).None?
    ensures EndedIds(s.events + [a] + [b] + [c] + [last]) == EndedIds(s.events) + AsSeq(EndedBy(last))
  {
    EndedAppend(s.events, a);
    EndsAfterTwo(s.(events := s.events + [a]), b, c, last);
  }

  // ---- recovery and gripping ------------------------------------------------------

  lemma {:induction false} PhaseEnds(s: State, now: nat)
    requires ActiveId(s).Some? && s.motion.Some? && s.motion.value.id == ActiveId(s).value != 0 && PhaseDue(s, now)
    requires s.motion.value.phase != RecoverFinishGrippers && s.motion.value.phase != GripFinishRails
    ensures Settles(s, AdvanceMotion(s, now))
  {
    hide AdvanceMotion, EndedIds, EnterFault;
    var r := AdvanceMotion(s, now);
    if r.motion.Some? {
      PhaseGoesOn(s, now);
      EndedAppend(s.events, StandStateChanged(r.status.stand));
    } else {
      var f := FaultedFrom(s, now);
      FaultEnds(f, s.motion.value.id);
    }
  }

  predicate PhaseDue(s: State, now: nat) {
    s.motion.Some? && SW.Due(s.motion.value.deadline, now)
  }

  /** A motion phase that does not go on has failed. */
  lemma {:induction false} FaultedFrom(s: State, now: nat) returns (f: State)
    requires PhaseDue(s, now) && AdvanceMotion(s, now).motion.None?
    requires s.motion.value.phase != RecoverFinishGrippers && s.motion.value.phase != GripFinishRails
    ensures AdvanceMotion(s, now) == EnterFault(f, s.motion.value.id) && f.events == s.events
  {
    hide StartRails, StopRails, StartGrippers, StopGrippers, EnterFault;
    match s.motion.value.phase {
      case RecoverStart =>
        f := CommandRails(SetPose(ClearScanAndSolution(s.(status := s.status.(session := None))), TRANSITIONAL),
                          MP.Pair(LeftRight), FarOpen);
      case RecoverFinishLeftRight =>
        f := FinishRails(s, MP.Pair(LeftRight), FarOpen);
        if Outcome(s.out) { f := CommandRails(f, MP.Pair(TopBottom), FarOpen); }
      case RecoverFinishTopBottom =>
        f := FinishRails(s, MP.Pair(TopBottom), FarOpen);
        if Outcome(s.out) { f := CommandGrippers(f, ALL_PERPENDICULAR); }
      case GripStart => f := CommandGrippers(SetPose(s, TRANSITIONAL), ALL_PERPENDICULAR);
      case GripFinishGrippers => f := Attempt(FinishGrippers(s, ALL_PERPENDICULAR), SetAllRails(NearGrip));
      case _ => assert false;
    }
  }

  lemma {:induction false} RecoverEvents(s: State)
    requires s.motion.Some? && Outcome(s.out)
    ensures var r := RecoverGrippersStep(s);
            r.events == s.events + [StandStateChanged(r.status.stand)] + [RobotStateChanged(Ready, None)]
                        + [OperationCompleted(s.motion.value.id, s.motion.value.kind)]
    ensures ActiveId(RecoverGrippersStep(s)).None?
  {
  }

  /** A motion phase that goes on announces the stand. */
  lemma {:induction false} PhaseGoesOn(s: State, now: nat)
    requires PhaseDue(s, now) && AdvanceMotion(s, now).motion.Some?
    ensures AdvanceMotion(s, now).events == s.events + [StandStateChanged(AdvanceMotion(s, now).status.stand)]
    ensures ActiveId(AdvanceMotion(s, now)) == ActiveId(s)
  {
    hide RecoverStartStep, RecoverLeftRightStep, RecoverTopBottomStep, GripStartStep, GripGrippersStep;
    match s.motion.value.phase {
      case RecoverStart => RecoverStartGoesOn(s, now);
      case RecoverFinishLeftRight => RecoverLeftRightGoesOn(s, now);
      case RecoverFinishTopBottom => RecoverTopBottomGoesOn(s, now);
      case RecoverFinishGrippers =>
      case GripStart => GripStartGoesOn(s, now);
      case GripFinishGrippers => GripGrippersGoesOn(s, now);
      case GripFinishRails =>
    }
  }

  lemma {:induction false} RecoverStartGoesOn(s: State, now: nat)
    requires s.motion.Some?
    ensures var r := RecoverStartStep(s, now);
            r.motion.Some? ==> r.events == s.events + [StandStateChanged(r.status.stand)] && ActiveId(r) == ActiveId(s)
  {
    hide StartRails, StopRails, StartGrippers, StopGrippers;
  }

  lemma {:induction false} RecoverLeftRightGoesOn(s: State, now: nat)
    requires s.motion.Some?
    ensures var r := RecoverLeftRightStep(s, now);
            r.motion.Some? ==> r.events == s.events + [StandStateChanged(r.status.stand)] && ActiveId(r) == ActiveId(s)
  {
  }

  lemma {:induction false} RecoverTopBottomGoesOn(s: State, now: nat)
    requires s.motion.Some?
    ensures var r := RecoverTopBottomStep(s, now);
            r.motion.Some? ==> r.events == s.events + [StandStateChanged(r.status.stand)] && ActiveId(r) == ActiveId(s)
  {
    hide StartRails, StopRails, StartGrippers, StopGrippers, Outcome, Commanded, StepDuration;
  }

  lemma {:induction false} GripStartGoesOn(s: State, now: nat)
    requires s.motion.Some?
    ensures var r := GripStartStep(s, now);
            r.motion.Some? ==> r.events == s.events + [StandStateChanged(r.status.stand)] && ActiveId(r) == ActiveId(s)
  {
    hide StartRails, StopRails, StartGrippers, StopGrippers;
  }

  lemma {:induction false} GripGrippersGoesOn(s: State, now: nat)
    requires s.motion.Some?
    ensures var r := GripGrippersStep(s, now);
            r.motion.Some? ==> r.events == s.events + [StandStateChanged(r.status.stand)] && ActiveId(r) == ActiveId(s)
  {
    hide StartRails, StopRails, StartGrippers, StopGrippers;
  }

  lemma {:induction false} RecoverEnds(s: State)
    requires ActiveId(s).Some? && s.motion.Some? && s.motion.value.id == ActiveId(s).value != 0
    ensures Settles(s, RecoverGrippersStep(s))
  {
    hide EndedIds, StartRails, StopRails, StartGrippers, StopGrippers, EnterFault;
    var id := s.motion.value.id;
    FaultEnds(Attempt(s, AllOff), id);
    if Outcome(s.out) {
      RecoverEvents(s);
      EndsAfterTwo(s, StandStateChanged(RecoverGrippersStep(s).status.stand), RobotStateChanged(Ready, None),
                   OperationCompleted(id, s.motion.value.kind));
    }
  }

  lemma {:induction false} GripEvents(s: State)
    requires s.motion.Some? && Outcome(s.out)
    ensures var r := GripRailsStep(s);
            r.events == s.events + [CubeSessionChanged(Some(s.nextSession))] + [StandStateChanged(r.status.stand)]
                        + [RobotStateChanged(Ready, None)] + [OperationCompleted(s.motion.value.id, s.motion.value.kind)]
    ensures ActiveId(GripRailsStep(s)).None?
  {
  }

  lemma {:induction false} GripEndsOperation(s: State)
    requires ActiveId(s).Some? && s.motion.Some? && s.motion.value.id == ActiveId(s).value != 0
    ensures Settles(s, GripRailsStep(s))
  {
    hide StartRails, StopRails, StartGrippers, StopGrippers, EnterFault;
    var id := s.motion.value.id;
    FaultEnds(Attempt(s, DisableAllRails), id);
    if Outcome(s.out) {
      GripEvents(s);
      EndsAfterThree(s, CubeSessionChanged(Some(s.nextSession)), StandStateChanged(GripRailsStep(s).status.stand),
                     RobotStateChanged(Ready, None), OperationCompleted(id, s.motion.value.kind));
    }
  }

  lemma {:induction false} SettlesItself(s: State)
    ensures Settles(s, s)
  {
  }

  lemma {:induction false} MotionSettles(s: State, now: nat)
    requires Inv(s)
    ensures Settles(s, AdvanceMotion(s, now))
  {
    if s.motion.Some? {
      OwnerIsActive(s);
    }
    hide Settles, Inv, EndedIds, RecoverStartStep, RecoverLeftRightStep, RecoverTopBottomStep, RecoverGrippersStep, GripStartStep,
         GripGrippersStep, GripRailsStep;
    if s.motion.None? || !PhaseDue(s, now) {
      SettlesItself(s);
    } else if s.motion.value.phase == RecoverFinishGrippers {
      RecoverEnds(s);
    } else if s.motion.value.phase == GripFinishRails {
      GripEndsOperation(s);
    } else {
      PhaseEnds(s, now);
    }
  }

  /** The filled slot carries the published identifier. */
  lemma {:induction false} OwnerIsActive(s: State)
    requires Inv(s) && Filled(s) > 0
    ensures ActiveId(s) == Some(Owner(s).0) && ActiveId(s).value != 0
  {
  }

  // ---- scanning and solving -------------------------------------------------------

  lemma {:induction false} CaptureSettles(s: State, scan: ActiveScan, face: Geometry.LogicalFace, env: Env)
    ensures Settles(s, CaptureStep(s, scan, face, env))
  {
    hide StartRails, StopRails, StartGrippers, StopGrippers;
    var r := CaptureStep(s, scan, face, env);
    var stand := StandStateChanged(r.status.stand);
    if r.events == s.events + [stand] {
      EndedAppend(s.events, stand);
    } else {
      var scanned := FaceScanned(scan.plan.id, face, env.capture.face, r.status.scan.scannedFaces);
      EndsAfter(s, scanned, stand);
      assert r.events == s.events + [scanned] + [stand];
    }
  }

  /** A scan ends its operation, unless the solver takes over. */
  lemma {:induction false} ScanEndEvents(s: State, scan: ActiveScan)
    requires s.solve.None?
    ensures var r := FinishScan(s.(scan := None), scan);
            var quiet := s.events + [StandStateChanged(r.status.stand)] + [RobotStateChanged(r.status.controller, r.status.operation)];
            if r.solve.Some? then ActiveId(r) == ActiveId(s) && r.events == quiet
            else ActiveId(r).None?
                 && (r.events == quiet + [OperationCompleted(scan.plan.id, scan.plan.kind)]
                     || exists failure :: r.events == quiet + [OperationFailed(scan.plan.id, failure)])
  {
    hide SolverString, Named, Record, RebuiltString;
  }

  lemma {:induction false} ScanEndSettles(s: State, scan: ActiveScan)
    requires s.solve.None? && ActiveId(s) == Some(scan.plan.id)
    ensures Settles(s, FinishScan(s.(scan := None), scan))
  {
    hide SolverString, Named, Record, RebuiltString, FinishScan, CaptureStep;
    var r := FinishScan(s.(scan := None), scan);
    var stand, robot := StandStateChanged(r.status.stand), RobotStateChanged(r.status.controller, r.status.operation);
    EndsAfter(s, stand, robot);
    ScanEndEvents(s, scan);
    if r.solve.None? {
      var last :| EndedBy(last) == Some(scan.plan.id) && r.events == s.events + [stand] + [robot] + [last];
      EndsAfterTwo(s, stand, robot, last);
    }
  }

  lemma {:induction false} ScanPendingSettles(s: State, now: nat, env: Env)
    requires Inv(s) && s.scan.Some? && s.scan.value.plan.pending.Some?
    ensures Settles(s, AdvanceScan(s, now, env))
  {
    hide FinishScan, CaptureStep;
    var plan := s.scan.value.plan;
    var finished := FinishPending(s, plan.pending.value);
    FaultEnds(finished, plan.id);
    var r := AdvanceScan(s, now, env);
    EndedAppend(s.events, StandStateChanged(r.status.stand));
  }

  lemma {:induction false} ScanCommandSettles(s: State, now: nat, env: Env)
    requires Inv(s) && s.scan.Some? && s.scan.value.plan.pending.None? && s.scan.value.plan.steps != []
    requires s.scan.value.plan.steps[0].Motion?
    ensures Settles(s, AdvanceScan(s, now, env))
  {
    hide EnterFault, Outcome, Commanded, StepDuration;
    var plan := s.scan.value.plan;
    FaultEnds(s, plan.id);
    FaultEnds(CommandStep(SetPose(s, TRANSITIONAL), plan.steps[0].step), plan.id);
  }

  lemma {:induction false} ScanSettles(s: State, now: nat, env: Env)
    requires Inv(s)
    ensures Settles(s, AdvanceScan(s, now, env))
  {
    hide FinishScan, CaptureStep;
    if s.scan.Some? {
      var scan := s.scan.value;
      if scan.plan.pending.Some? {
        ScanPendingSettles(s, now, env);
      } else if scan.plan.steps == [] {
        ScanEndSettles(s, scan);
      } else if scan.plan.steps[0].Motion? {
        ScanCommandSettles(s, now, env);
      } else {
        CaptureSettles(s, scan.(plan := scan.plan.(steps := scan.plan.steps[1..])), scan.plan.steps[0].face, env);
      }
    }
  }

  lemma {:induction false} SolveEvents(s: State, env: Env)
    requires s.solve.Some? && !env.solver.StillSolving?
    ensures var r := AdvanceSolve(s, env);
            var shown := s.events + [RobotStateChanged(r.status.controller, r.status.operation)];
            || (r.events == shown && ActiveId(r) == ActiveId(s))
            || (ActiveId(r).None?
                && (r.events == shown + [OperationCompleted(s.solve.value.id, s.solve.value.kind)]
                    || r.events == shown + [OperationFailed(s.solve.value.id, SolverNoSolution)]))
  {
    hide MP.ExecuteSteps, NextId;
  }

  lemma {:induction false} AnswerSettles(s: State, env: Env)
    requires s.solve.Some? && !env.solver.StillSolving? && ActiveId(s) == Some(s.solve.value.id)
    ensures Settles(s, AdvanceSolve(s, env))
  {
    hide AdvanceSolve, EndedIds, ActiveId;
    SolveEvents(s, env);
    var r := AdvanceSolve(s, env);
    var robot := RobotStateChanged(r.status.controller, r.status.operation);
    EndedAppend(s.events, robot);
    EndsAfter(s, robot, OperationCompleted(s.solve.value.id, s.solve.value.kind));
    EndsAfter(s, robot, OperationFailed(s.solve.value.id, SolverNoSolution));
  }

  lemma {:induction false} SolveSettles(s: State, env: Env)
    requires Inv(s)
    ensures Settles(s, AdvanceSolve(s, env))
  {
    hide Counted, Ids, PendingMoves, PhaseFits, DataBelongs;
    if s.solve.Some? && !env.solver.StillSolving? {
      OwnerIsActive(s);
      assert s.solve.value.id == Owner(s).0;
      AnswerSettles(s, env);
    } else {
      assert AdvanceSolve(s, env) == s;
    }
  }

  // ---- executing ------------------------------------------------------------------

  lemma {:induction false} MarkerSettles(s: State, kind: OperationKind)
    ensures Settles(s, MarkerStep(s, kind))
  {
    var r := MarkerStep(s, kind);
    EndedAppend(s.events, StandStateChanged(r.status.stand));
  }

  lemma {:induction false} ExecuteEndEvents(s: State, plan: ActivePlan)
    ensures var r := FinishExecute(s.(execute := None), plan.id, plan.kind);
            var shown := s.events + [RobotStateChanged(Ready, None)] + [StandStateChanged(r.status.stand)];
            && ActiveId(r).None?
            && r.events == (if plan.kind == ExecuteMoves then shown else shown + [CubeSessionChanged(None)])
                           + [OperationCompleted(plan.id, plan.kind)]
  {
  }

  lemma {:induction false} ExecuteEndSettles(s: State, plan: ActivePlan)
    requires ActiveId(s) == Some(plan.id)
    ensures Settles(s, FinishExecute(s.(execute := None), plan.id, plan.kind))
  {
    hide FinishExecute, EndedIds;
    var r := FinishExecute(s.(execute := None), plan.id, plan.kind);
    var stand, robot := StandStateChanged(r.status.stand), RobotStateChanged(Ready, None);
    ExecuteEndEvents(s, plan);
    EndsAfterTwo(s, robot, stand, OperationCompleted(plan.id, plan.kind));
    EndsAfterThree(s, robot, stand, CubeSessionChanged(None), OperationCompleted(plan.id, plan.kind));
  }

  lemma {:induction false} ExecutePendingSettles(s: State, now: nat)
    requires Inv(s) && s.execute.Some? && s.execute.value.pending.Some?
    ensures Settles(s, AdvanceExecute(s, now))
  {
    var plan := s.execute.value;
    FaultEnds(FinishPending(s, plan.pending.value), plan.id);
    EndedAppend(s.events, StandStateChanged(AdvanceExecute(s, now).status.stand));
  }

  lemma {:induction false} ExecuteFaultSettles(s: State, plan: ActivePlan, f: State)
    requires Inv(s) && s.execute == Some(plan) && f.events == s.events
    ensures Settles(s, EnterFault(f, plan.id))
  {
    hide EnterFault;
    FaultEnds(f, plan.id);
  }

  lemma {:induction false} CommandIsQuiet(s: State, step: MP.Step, pose: StandPose)
    ensures CommandStep(SetPose(s, pose), step).events == s.events && ActiveId(CommandStep(SetPose(s, pose), step)) == ActiveId(s)
  {
  }

  /** What a step of an execution that cannot be taken leaves behind. */
  lemma {:induction false} StrayCapture(s: State, now: nat)
    requires s.execute.Some? && s.execute.value.pending.None? && s.execute.value.steps != []
    requires s.execute.value.steps[0].Capture? && SW.Due(s.execute.value.deadline, now)
    ensures AdvanceExecute(s, now) == EnterFault(s, s.execute.value.id)
  {
    hide EnterFault, StartRails, StopRails, StartGrippers, StopGrippers;
  }

  lemma {:induction false} SwitchedOff(s: State, now: nat)
    requires s.execute.Some? && s.execute.value.pending.None? && s.execute.value.steps != []
    requires s.execute.value.steps[0] == SP.Motion(MP.AllOff) && SW.Due(s.execute.value.deadline, now) && Outcome(s.out)
    ensures AdvanceExecute(s, now).events == s.events && ActiveId(AdvanceExecute(s, now)) == ActiveId(s)
  {
    hide StartRails, StopRails, StartGrippers, StopGrippers, CommandStep, FinishPending, Outcome, Commanded,
         StepDuration;
  }

  lemma {:induction false} ExecuteCommandSettles(s: State, now: nat)
    requires Inv(s) && s.execute.Some? && s.execute.value.pending.None? && s.execute.value.steps != []
    requires s.execute.value.steps[0] != SP.Motion(MP.MoveCompleted) && SW.Due(s.execute.value.deadline, now)
    ensures Settles(s, AdvanceExecute(s, now))
  {
    hide Inv, AdvanceExecute, EnterFault, CommandStep, EndedIds, StartRails, StopRails, StartGrippers, StopGrippers,
         Outcome, Commanded, StepDuration;
    var plan := s.execute.value;
    if plan.steps[0].Capture? {
      StrayCapture(s, now);
      ExecuteFaultSettles(s, plan, s);
    } else if plan.steps[0].step.AllOff? {
      SW.AllOffLeaves(s, now);
      ExecuteFaultSettles(s, plan, Attempt(s, AllOff));
      if Outcome(s.out) {
        SwitchedOff(s, now);
      }
    } else {
      var pose := if plan.kind == OpenStand then TRANSITIONAL else StandPose(MovePose, Some(Geometry.Front));
      var commanded := CommandStep(SetPose(s, pose), plan.steps[0].step);
      CommandIsQuiet(s, plan.steps[0].step, pose);
      SW.ExecuteCommandLeaves(s, now, plan.steps[0].step, commanded);
      ExecuteFaultSettles(s, plan, commanded);
    }
  }

  lemma {:induction false} ExecuteSettles(s: State, now: nat)
    requires Inv(s)
    ensures Settles(s, AdvanceExecute(s, now))
  {
    hide FinishExecute, MarkerStep;
    if s.execute.Some? && SW.Due(s.execute.value.deadline, now) {
      var plan := s.execute.value;
      if plan.pending.Some? {
        ExecutePendingSettles(s, now);
      } else if plan.steps == [] {
        ExecuteEndSettles(s, plan);
      } else if plan.steps[0] == SP.Motion(MP.MoveCompleted) {
        MarkerSettles(s.(execute := Some(plan.(steps := plan.steps[1..]))), plan.kind);
      } else {
        ExecuteCommandSettles(s, now);
      }
    }
  }

  // ---- whole runs -----------------------------------------------------------------

  /** The operation that a command begins. */
  ghost function Begun(s: State, command: Command, env: Env): Option<nat> {
    match Reply(s, 0, command, env).payload
    case Accepted(id) => id
    case _ => None
  }

  lemma {:induction false} RefusedChangesNothing(s: State, command: Command, env: Env)
    requires !command.AbortCommand? && Begun(s, command, env).None?
    ensures Obey(s, command, env) == s
  {
    hide MP.OptimizedHeldSteps, MP.ExecuteSteps;
  }

  /** A command either ends the active operation, or begins one when none is active, or
      leaves operations alone. */
  lemma {:induction false} CommandSettles(s: State, command: Command, env: Env)
    requires Inv(s)
    ensures var after := Obey(s, command, env);
            if Begun(s, command, env).Some? then
              ActiveId(s).None? && ActiveId(after) == Begun(s, command, env) && EndedIds(after.events) == EndedIds(s.events)
            else Settles(s, after)
  {
    hide StartRails, StopRails, StartGrippers, StopGrippers, MP.OptimizedHeldSteps, MP.ExecuteSteps, Counted, Ids,
         PendingMoves, PhaseFits, DataBelongs, EnterFault, Outcome, Commanded, StepDuration;
    if command.AbortCommand? {
      AbortEnds(s);
    } else if Begun(s, command, env).Some? {
      BeginEvents(s, command, env);
      var after := Obey(s, command, env);
      EndedAppend(s.events, RobotStateChanged(after.status.controller, after.status.operation));
    } else {
      RefusedChangesNothing(s, command, env);
    }
  }

  lemma {:induction false} BeginEvents(s: State, command: Command, env: Env)
    requires Inv(s) && !command.AbortCommand? && Begun(s, command, env).Some?
    ensures var after := Obey(s, command, env);
            && ActiveId(s).None? && ActiveId(after) == Begun(s, command, env) == Some(s.nextOperation)
            && after.events == s.events + [RobotStateChanged(after.status.controller, after.status.operation)]
  {
    hide MP.OptimizedHeldSteps, MP.ExecuteSteps, DataBelongs;
  }

  lemma {:induction false} TickSettles(s: State, now: nat, env: Env)
    requires Resting(s)
    ensures var (after, events) := Tick(s, now, env);
            || (EndedIds(events) == [] && ActiveId(after) == ActiveId(s))
            || (ActiveId(s).Some? && ActiveId(after).None? && EndedIds(events) == [ActiveId(s).value])
  {
    hide Inv, SolverString, Named, Record, RebuiltString, AdvanceScan, AdvanceSolve, AdvanceMotion;
    var moved := AdvanceMotion(s, now);
    MotionSettles(s, now);
    MotionKeeps(s, now);
    var scanned := AdvanceScan(moved, now, env);
    ScanSettles(moved, now, env);
    ScanKeeps(moved, now, env);
    var solved := AdvanceSolve(scanned, env);
    SolveSettles(scanned, env);
    SolveKeeps(scanned, env);
    ExecuteSettles(solved, now);
    SettlesTwice(s, moved, scanned);
    SettlesTwice(s, scanned, solved);
    SettlesTwice(s, solved, AdvanceExecute(solved, now));
  }

  /** What one input publishes, and the operation that its response accepts. */
  ghost function Published(s: State, input: Input): seq<Event> {
    match input
    case PacketArrives(packet, env) => HandlePacket(s, packet, env).2
    case ButtonPressed(local, env) => HandleLocal(s, local, env).2
    case TimePasses(now, env) => Tick(s, now, env).1
  }

  ghost function AcceptedBy(s: State, input: Input): Option<nat> {
    match input
    case PacketArrives(packet, env) =>
      if CacheIndex(s.cache, packet.requestId) < |s.cache| then None
      else
        (match HandlePacket(s, packet, env).1.payload
         case Accepted(id) => id
         case _ => None)
    case ButtonPressed(local, env) =>
      (match HandleLocal(s, local, env).1
       case Accepted(id) => id
       case _ => None)
    case TimePasses(_, _) => None
  }

  ghost function AllEvents(s: State, inputs: seq<Input>): seq<Event> {
    if inputs == [] then []
    else AllEvents(s, inputs[..|inputs| - 1]) + Published(RunService(s, inputs[..|inputs| - 1]), inputs[|inputs| - 1])
  }

  ghost function AcceptedIds(s: State, inputs: seq<Input>): seq<nat> {
    if inputs == [] then []
    else AcceptedIds(s, inputs[..|inputs| - 1]) + AsSeq(AcceptedBy(RunService(s, inputs[..|inputs| - 1]), inputs[|inputs| - 1]))
  }

  lemma {:induction false} ReplyIgnoresId(s: State, a: nat, b: nat, command: Command, env: Env)
    ensures Reply(s, a, command, env).payload == Reply(s, b, command, env).payload
  {
  }

  lemma {:induction false} PacketSettles(s: State, packet: Packet, env: Env)
    requires Resting(s)
    ensures var input := PacketArrives(packet, env);
            AsSeq(ActiveId(s)) + AsSeq(AcceptedBy(s, input)) == EndedIds(Published(s, input)) + AsSeq(ActiveId(Step(s, input)))
  {
    hide Inv, AdvanceScan, AdvanceSolve, AdvanceMotion, FinishExecute, MarkerStep;
    if CacheIndex(s.cache, packet.requestId) == |s.cache| && !Undecodable(packet) {
      var command := packet.command.value;
      ReplyIgnoresId(s, 0, packet.requestId, command, env);
      CommandSettles(s, command, env);
      var core := Obey(s, command, env);
      assert AcceptedBy(s, PacketArrives(packet, env)) == Begun(s, command, env);
      assert Published(s, PacketArrives(packet, env)) == core.events;
      assert ActiveId(Step(s, PacketArrives(packet, env))) == ActiveId(core);
    }
  }

  lemma {:induction false} InputSettles(s: State, input: Input)
    requires Resting(s)
    ensures AsSeq(ActiveId(s)) + AsSeq(AcceptedBy(s, input)) == EndedIds(Published(s, input)) + AsSeq(ActiveId(Step(s, input)))
  {
    hide StartRails, StopRails, StartGrippers, StopGrippers, Inv, AdvanceScan, AdvanceSolve, AdvanceMotion, Obey,
         HandlePacket, Reply, Refusal;
    match input {
      case PacketArrives(packet, env) => PacketSettles(s, packet, env);
      case ButtonPressed(local, env) => CommandSettles(s, LocalAsCommand(local), env);
      case TimePasses(now, env) => TickSettles(s, now, env);
    }
  }

  lemma {:induction false} Balance(accepted: seq<nat>, newly: seq<nat>, ended: seq<nat>, more: seq<nat>, active: seq<nat>, next: seq<nat>)
    requires accepted == ended + active && active + newly == more + next
    ensures accepted + newly == (ended + more) + next
  {
    assert accepted + newly == ended + (active + newly);
  }

  /** The accepted operations are the ended ones followed by the active one. */
  ghost predicate Accounted(s0: State, inputs: seq<Input>) {
    AcceptedIds(s0, inputs) == EndedIds(AllEvents(s0, inputs)) + AsSeq(ActiveId(RunService(s0, inputs)))
  }

  /** Over every run from start-up: in order and each once, the accepted operations are the
      ended ones followed by the active one. */
  lemma {:induction false} EveryOperationEndsOnce(times: Calibration, script: seq<bool>, inputs: seq<Input>)
    ensures Accounted(Initial(times, script), inputs)
  {
    hide Step, Published, AcceptedBy, EndedIds, ActiveId, AsSeq, Counted, Ids, PendingMoves, PhaseFits;
    var s0 := Initial(times, script);
    if inputs == [] {
      NothingAccounted(times, script);
    } else {
      var k := |inputs| - 1;
      var before := RunService(s0, inputs[..k]);
      EveryOperationEndsOnce(times, script, inputs[..k]);
      ReachableStatesRest(times, script, inputs[..k]);
      InputSettles(before, inputs[k]);
      EndedConcat(AllEvents(s0, inputs[..k]), Published(before, inputs[k]));
      Balance(AcceptedIds(s0, inputs[..k]), AsSeq(AcceptedBy(before, inputs[k])),
              EndedIds(AllEvents(s0, inputs[..k])), EndedIds(Published(before, inputs[k])),
              AsSeq(ActiveId(before)), AsSeq(ActiveId(Step(before, inputs[k]))));
    }
  }

  lemma {:induction false} NothingAccounted(times: Calibration, script: seq<bool>)
    ensures Accounted(Initial(times, script), [])
  {
    hide MP.OptimizedHeldSteps, MP.ExecuteSteps, SolverString, Named, Record, RebuiltString, AdvanceScan,
         AdvanceSolve, AdvanceMotion, Obey, HandlePacket, Reply, Refusal;
  }
}

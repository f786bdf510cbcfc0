/** The service, the stand and the cube: with a truthful camera and an honest solver, a
    valid scan is the held cube, a prepared solution solves it, and a finished execution
    leaves it solved. */
module ServiceCube {
  import opened Geometry
  import opened Stand
  import opened Mechanics
  import opened Options
  import opened Protocol
  import opened RobotService
  import opened ServiceInvariants
  import opened ServiceWorld
  import opened Facelets
  import Simulator
  import MP = MovePlanner
  import SP = ScanPlan
  import CS = CubeScan
  import CY = Cycle
  import PS = PlanSafety

  /** How the stickers of each face are coloured. */
  type Paint = LogicalFace -> CS.StickerColor

  // ---- what the outside world is trusted with -------------------------------------

  /** Stickers that the camera names have the colour they show at the physical front. */
  ghost predicate Truthful(capture: Recognition, cube: Cube, paint: Paint) {
    capture.Seen? ==>
      forall j :: 0 <= j < 9 && capture.face[j].Some? ==>
        SP.FaceImage(cube, Front)[j].Some? && capture.face[j].value == paint(SP.FaceImage(cube, Front)[j].value)
  }

  /** Moves that the solver returns solve the string it was given. */
  ghost predicate HonestSolver(s: State, answer: SolverPoll) {
    s.solve.Some? && answer.Solved? ==> |s.solve.value.letters| == 54 && CY.Solves(s.solve.value.letters, answer.moves)
  }

  // ---- the invariant --------------------------------------------------------------

  /** Filled slots hold the true faces, and are published as such. */
  ghost predicate SlotsTrue(slots: CS.Slots, faces: map<LogicalFace, Recognized>, view: View, paint: Paint)
    requires Balanced(view)
  {
    forall i :: 0 <= i < 6 && slots[i].Some? ==>
      slots[i].value == CS.Photo(view, FACES[i], paint) && FACES[i] in faces && Named(faces[FACES[i]]) == slots[i]
  }

  /** All six published faces are the true faces. */
  ghost predicate FacesTrue(faces: map<LogicalFace, Recognized>, view: View, paint: Paint)
    requires Balanced(view)
  {
    forall i :: 0 <= i < 6 ==> FACES[i] in faces && Named(faces[FACES[i]]) == Some(CS.Photo(view, FACES[i], paint))
  }

  ghost predicate ScanTrue(s: State, view: View, paint: Paint)
    requires Balanced(view)
  {
    && (s.scan.Some? ==> SlotsTrue(s.scan.value.cube, s.status.scan.faces, view, paint))
    && (s.status.scan.state == Valid ==> FacesTrue(s.status.scan.faces, view, paint))
  }

  ghost predicate SolutionTrue(s: State, view: View)
    requires Balanced(view)
  {
    && (s.solve.Some? ==> s.solve.value.letters == CS.Letters(view))
    && (s.status.solution.state == Prepared || s.status.solution.state == Executing ==>
          MoveView(view, s.status.solution.moves) == ViewOf(Simulator.SolvedCube()))
  }

  /** A manual sequence invalidates the scan before it can end. */
  predicate ScanWillBeCleared(s: State) {
    s.execute.Some? && s.execute.value.kind == ExecuteMoves && s.status.scan.state != NoScan ==>
      MotionMarkers(s.execute.value.steps) > 0
  }

  /** While a session lasts, everything published about the cube is true of it. */
  ghost predicate Faithful(s: State, w: World, paint: Paint) {
    s.motion.None? && s.status.session.Some? ==>
      && Balanced(ViewOf(w.cube))
      && ScanTrue(s, ViewOf(w.cube), paint) && SolutionTrue(s, ViewOf(w.cube)) && ScanWillBeCleared(s)
  }

  // ---- the solver string ----------------------------------------------------------

  lemma {:induction false} FaceAtIndex(i: nat)
    requires i < 6
    ensures FaceOrder(FACES[i]) == i
  {
  }

  lemma {:induction false} TrueSlots(slots: CS.Slots, view: View, paint: Paint)
    requires Balanced(view) && forall i :: 0 <= i < 6 ==> slots[i] == Some(CS.Photo(view, FACES[i], paint))
    ensures slots == CS.Painted(view, paint)
  {
    forall i | 0 <= i < 6
      ensures slots[i] == CS.Painted(view, paint)[i]
    {
      FaceAtIndex(i);
    }
  }

  /** The solver is given the facelets of the cube that was scanned. */
  lemma {:induction false} StringIsTrue(slots: CS.Slots, view: View, paint: Paint)
    requires Balanced(view) && CS.Injective(paint) && slots == CS.Painted(view, paint)
    ensures SolverString(slots) == Some(CS.Letters(view))
  {
    CS.ScanReadsCube(view, paint);
    var letters := SolverString(slots).value;
    CS.NamesUnique(CS.ColorsOf(slots), letters, CS.Letters(view));
  }

  lemma {:induction false} RebuiltIsTrue(scan: ScanStatus, view: View, paint: Paint)
    requires Balanced(view) && CS.Injective(paint) && FacesTrue(scan.faces, view, paint)
    ensures RebuiltString(scan) == Some(CS.Letters(view))
  {
    var slots := RebuiltSlots(scan).value;
    TrueSlots(slots, view, paint);
    StringIsTrue(slots, view, paint);
  }

  lemma {:induction false} CompletedSlots(slots: CS.Slots, faces: map<LogicalFace, Recognized>, view: View, paint: Paint)
    requires Balanced(view) && CS.Injective(paint) && SlotsTrue(slots, faces, view, paint) && SolverString(slots).Some?
    ensures FacesTrue(faces, view, paint) && SolverString(slots) == Some(CS.Letters(view))
  {
    TrueSlots(slots, view, paint);
    StringIsTrue(slots, view, paint);
  }

  lemma {:induction false} HonestMoves(view: View, moves: seq<MP.CubeMove>)
    requires Balanced(view) && CY.Solves(CS.Letters(view), moves)
    ensures MoveView(view, moves) == ViewOf(Simulator.SolvedCube())
  {
    CY.LettersDescribeView(view);
  }

  // ---- captures -------------------------------------------------------------------

  lemma {:induction false} PhotoOf(cube: Cube, face: LogicalFace, paint: Paint, j: nat)
    requires Balanced(ViewOf(cube)) && j < 9
    ensures SP.FaceImage(cube, face)[j].Some?
    ensures CS.Photo(ViewOf(cube), face, paint)[j] == paint(SP.FaceImage(cube, face)[j].value)
  {
    Simulator.FacePlaceIsPlace(face, j);
  }

  /** A fully named truthful capture is the true face. */
  lemma {:induction false} CaptureIsTrue(capture: Recognition, seen: Cube, cube: Cube, face: LogicalFace, paint: Paint)
    requires Balanced(ViewOf(cube)) && capture.Seen? && Truthful(capture, seen, paint)
    requires SP.FaceImage(seen, Front) == SP.FaceImage(cube, face) && Named(capture.face).Some?
    ensures Named(capture.face) == Some(CS.Photo(ViewOf(cube), face, paint))
  {
    forall j | 0 <= j < 9
      ensures Named(capture.face).value[j] == CS.Photo(ViewOf(cube), face, paint)[j]
    {
      PhotoOf(cube, face, paint, j);
    }
    assert Named(capture.face).value == CS.Photo(ViewOf(cube), face, paint);
  }

  lemma {:induction false} RecordedIsTrue(slots: CS.Slots, faces: map<LogicalFace, Recognized>, view: View, paint: Paint,
                                          face: LogicalFace, recognized: Recognized)
    requires Balanced(view) && SlotsTrue(slots, faces, view, paint)
    requires Record(slots, face, recognized).Some? && Named(recognized) == Some(CS.Photo(view, face, paint))
    ensures SlotsTrue(Record(slots, face, recognized).value, faces[face := recognized], view, paint)
  {
    var after := Record(slots, face, recognized).value;
    forall i | 0 <= i < 6 && after[i].Some?
      ensures after[i].value == CS.Photo(view, FACES[i], paint)
      ensures FACES[i] in faces[face := recognized] && Named(faces[face := recognized][FACES[i]]) == after[i]
    {
      FaceAtIndex(i);
    }
  }

  /** What a capture leaves of the scan. */
  lemma {:induction false} CaptureScans(s: State, scan: ActiveScan, face: LogicalFace, env: Env)
    requires s.status.scan.state == InProgress
    ensures var r := CaptureStep(s, scan, face, env);
            var recorded := if env.capture.Seen? then Record(scan.cube, face, env.capture.face) else None;
            && r.scan.Some? && r.status.scan.state == InProgress
            && if scan.failure.None? && recorded.Some?
               then r.scan.value.cube == recorded.value && r.status.scan.faces == s.status.scan.faces[face := env.capture.face]
               else r.scan.value.cube == scan.cube && r.status.scan.faces == s.status.scan.faces
  {
  }

  lemma {:induction false} CaptureStaysFaithful(s: State, w: World, paint: Paint, scan: ActiveScan, face: LogicalFace, env: Env)
    requires Inv(s) && Mechanical(s, w) && Faithful(s, w, paint) && s.motion.None? && s.scan.Some?
    requires s.scan.value.plan.pending.None? && s.scan.value.plan.steps != []
    requires s.scan.value.plan.steps[0] == SP.Capture(face) && Truthful(env.capture, w.machine.cube, paint)
    requires scan == s.scan.value.(plan := s.scan.value.plan.(steps := s.scan.value.plan.steps[1..]))
    ensures Faithful(CaptureStep(s, scan, face, env), w, paint)
  {
    var view := ViewOf(w.cube);
    ScanFollowsAdvances(s.scan.value.plan.steps, w);
    CaptureScans(s, scan, face, env);
    CaptureLeaves(s, scan, face, env);
    if env.capture.Seen? && Record(scan.cube, face, env.capture.face).Some? {
      CaptureIsTrue(env.capture, w.machine.cube, w.cube, face, paint);
      RecordedIsTrue(scan.cube, s.status.scan.faces, view, paint, face, env.capture.face);
    }
  }

  // ---- every transition -----------------------------------------------------------

  /** A released stand carries no claims about a cube. */
  lemma {:induction false} NoSessionNoClaims(s: State, w: World, paint: Paint)
    requires s.status.session.None? || s.motion.Some?
    ensures Faithful(s, w, paint)
  {
  }

  lemma {:induction false} FreshSession(s: State, w: World, paint: Paint)
    requires Balanced(ViewOf(w.cube)) && s.status.scan.state == NoScan && s.status.solution.state == NoSolution
    requires s.scan.None? && s.solve.None?
    ensures Faithful(s, w, paint)
  {
  }

  /** A new session starts with a cube and no claims about it. */
  lemma {:induction false} GripFaithful(s: State, w: World, inserted: Cube, paint: Paint)
    requires Inv(s) && s.motion.Some? && s.motion.value.phase == GripFinishRails && Balanced(ViewOf(inserted))
    requires s.status.session.None?
    ensures Faithful(GripRailsStep(s), if Outcome(s.out) then World(CanonicalGrip(inserted), inserted, w.moves) else w, paint)
  {
    hide Counted, Ids, PendingMoves, PhaseFits, ScanTrue, SolutionTrue;
    if Outcome(s.out) {
      FreshSession(GripRailsStep(s), World(CanonicalGrip(inserted), inserted, w.moves), paint);
    } else {
      NoSessionNoClaims(GripRailsStep(s), w, paint);
    }
  }

  lemma {:induction false} RecoveryHasNoSession(s: State, w: World, now: nat)
    requires Mechanical(s, w) && s.motion.Some? && s.motion.value.phase != GripFinishRails
    ensures AdvanceMotion(s, now).motion.Some? || AdvanceMotion(s, now).status.session.None?
  {
    hide StartRails, StopRails, StartGrippers, StopGrippers, Follows, ScanFollows, PlanFits, FullPlan;
  }

  lemma {:induction false} GrippingHasNoSession(s: State, w: World)
    requires Mechanical(s, w) && s.motion.Some? && s.motion.value.phase == GripFinishRails
    ensures s.status.session.None?
  {
    hide PhaseStand, MP.OptimizedHeldSteps, MP.ExecuteSteps, Shows, Released, Follows, ScanFollows, PlanFits, FullPlan;
  }

  lemma {:induction false} MotionFaithful(s: State, w: World, now: nat, inserted: Cube, paint: Paint)
    requires Inv(s) && Mechanical(s, w) && Faithful(s, w, paint) && Balanced(ViewOf(inserted))
    ensures Faithful(AdvanceMotion(s, now), WorldAfterMotion(s, w, now, inserted), paint)
  {
    hide Inv, Mechanical, Faithful, Balanced, ViewOf, RecoverStartStep, RecoverLeftRightStep, RecoverTopBottomStep,
         RecoverGrippersStep, GripStartStep, GripGrippersStep, GripRailsStep, StartRails, StopRails, StartGrippers,
         StopGrippers, SlotsTrue, FacesTrue;
    if s.motion.Some? {
      if s.motion.value.phase != GripFinishRails {
        RecoveryHasNoSession(s, w, now);
        NoSessionNoClaims(AdvanceMotion(s, now), w, paint);
      } else {
        GrippingHasNoSession(s, w);
        GripFaithful(s, w, inserted, paint);
      }
    }
  }

  lemma {:induction false} ScanPendingFaithful(s: State, w: World, now: nat, env: Env, paint: Paint)
    requires Inv(s) && Faithful(s, w, paint) && s.motion.None? && s.scan.Some? && s.scan.value.plan.pending.Some?
    requires Due(s.scan.value.plan.deadline, now)
    ensures Faithful(AdvanceScan(s, now, env), WorldAfterScan(s, w, now), paint)
  {
    hide StartRails, StopRails, StartGrippers, StopGrippers;
    var plan := s.scan.value.plan;
    NoSessionNoClaims(EnterFault(FinishPending(s, plan.pending.value), plan.id), w, paint);
  }

  lemma {:induction false} ScanCommandFaithful(s: State, w: World, now: nat, env: Env, paint: Paint)
    requires Inv(s) && Faithful(s, w, paint) && s.motion.None? && s.scan.Some?
    requires s.scan.value.plan.pending.None? && s.scan.value.plan.steps != [] && s.scan.value.plan.steps[0].Motion?
    requires Due(s.scan.value.plan.deadline, now)
    ensures Faithful(AdvanceScan(s, now, env), w, paint)
  {
    hide StartRails, StopRails, StartGrippers, StopGrippers, Outcome, Commanded, StepDuration;
    var plan := s.scan.value.plan;
    NoSessionNoClaims(EnterFault(s, plan.id), w, paint);
    NoSessionNoClaims(EnterFault(CommandStep(SetPose(s, TRANSITIONAL), plan.steps[0].step), plan.id), w, paint);
  }

  /** A scan that ends valid has recorded the held cube, and the solver is given its facelets. */
  lemma {:induction false} ScanEndFaithful(s: State, w: World, paint: Paint)
    requires Inv(s) && Faithful(s, w, paint) && s.motion.None? && s.scan.Some? && CS.Injective(paint)
    requires s.scan.value.plan.pending.None? && s.scan.value.plan.steps == []
    ensures Faithful(FinishScan(s.(scan := None), s.scan.value), w, paint)
  {
    var scan := s.scan.value;
    if scan.failure.None? && SolverString(scan.cube).Some? {
      CompletedSlots(scan.cube, s.status.scan.faces, ViewOf(w.cube), paint);
    }
  }

  /** The machine that the camera of a tick looks at. */
  ghost predicate CameraTruthful(s: State, w: World, env: Env, paint: Paint) {
    s.motion.None? && s.scan.Some? && s.scan.value.plan.pending.None? ==> Truthful(env.capture, w.machine.cube, paint)
  }

  lemma {:induction false} ScanFaithful(s: State, w: World, now: nat, env: Env, paint: Paint)
    requires Inv(s) && Mechanical(s, w) && Faithful(s, w, paint) && CS.Injective(paint) && CameraTruthful(s, w, env, paint)
    ensures Faithful(AdvanceScan(s, now, env), WorldAfterScan(s, w, now), paint)
  {
    hide StartRails, StopRails, StartGrippers, StopGrippers, DataBelongs, Mechanical, SP.RunScan, SP.SCAN_STEPS,
         SP.ExecScan, Run, Exec, Faithful;
    if s.scan.Some? && Due(s.scan.value.plan.deadline, now) {
      var scan := s.scan.value;
      if scan.plan.pending.Some? {
        ScanPendingFaithful(s, w, now, env, paint);
      } else if scan.plan.steps == [] {
        ScanEndFaithful(s, w, paint);
      } else if scan.plan.steps[0].Motion? {
        ScanCommandFaithful(s, w, now, env, paint);
      } else {
        CaptureStaysFaithful(s, w, paint, scan.(plan := scan.plan.(steps := scan.plan.steps[1..])), scan.plan.steps[0].face, env);
      }
    }
  }

  lemma {:induction false} SolveFaithful(s: State, w: World, env: Env, paint: Paint)
    requires Inv(s) && Faithful(s, w, paint) && HonestSolver(s, env.solver)
    ensures Faithful(AdvanceSolve(s, env), w, paint)
  {
    if s.solve.Some? && env.solver.Solved? && |env.solver.moves| <= MAX_SOLUTION_MOVES {
      HonestMoves(ViewOf(w.cube), env.solver.moves);
    }
  }

  lemma {:induction false} ExecutePendingFaithful(s: State, w: World, now: nat, paint: Paint)
    requires Inv(s) && Faithful(s, w, paint) && s.motion.None? && s.execute.Some? && s.execute.value.pending.Some?
    requires Due(s.execute.value.deadline, now)
    ensures Faithful(AdvanceExecute(s, now), WorldAfterExecute(s, w, now), paint)
  {
    hide DataBelongs, Ended;
    var plan := s.execute.value;
    NoSessionNoClaims(EnterFault(FinishPending(s, plan.pending.value), plan.id), w, paint);
  }

  lemma {:induction false} MarkerFaithful(s: State, w: World, plan: ActivePlan, paint: Paint)
    requires Inv(s) && Faithful(s, w, paint) && s.motion.None? && s.execute.Some?
    requires s.execute.value.pending.None? && s.execute.value.steps != []
    requires s.execute.value.steps[0] == SP.Motion(MP.MoveCompleted)
    requires plan == s.execute.value.(steps := s.execute.value.steps[1..])
    ensures Faithful(MarkerStep(s.(execute := Some(plan)), plan.kind), w, paint)
  {
  }

  lemma {:induction false} FaultHasNoSession(s: State, id: nat)
    ensures EnterFault(s, id).status.session.None?
  {
  }

  /** Servo commands change the stand only. */
  lemma {:induction false} CommandSameData(s: State, step: MP.Step)
    ensures CommandStep(s, step) == s.(status := CommandStep(s, step).status, out := CommandStep(s, step).out)
    ensures CommandStep(s, step).status == s.status.(stand := CommandStep(s, step).status.stand)
  {
    hide StartRails, StopRails, StartGrippers, StopGrippers;
  }

  lemma {:induction false} ExecuteCommandFaithful(s: State, w: World, now: nat, paint: Paint)
    requires Inv(s) && Faithful(s, w, paint) && s.motion.None? && s.execute.Some?
    requires s.execute.value.pending.None? && s.execute.value.steps != [] && s.execute.value.steps[0].Motion?
    requires s.execute.value.steps[0].step.SetRails? || s.execute.value.steps[0].step.SetGrippers?
    requires Due(s.execute.value.deadline, now)
    ensures Faithful(AdvanceExecute(s, now), w, paint)
  {
    hide Inv, AdvanceExecute, CommandStep, EnterFault, SlotsTrue, FacesTrue, ViewOf, Balanced, Outcome, Commanded,
         StepDuration;
    var plan := s.execute.value;
    var posed := SetPose(s, if plan.kind == OpenStand then TRANSITIONAL else StandPose(MovePose, Some(Front)));
    var commanded := CommandStep(posed, plan.steps[0].step);
    ExecuteCommandLeaves(s, now, plan.steps[0].step, commanded);
    CommandSameData(posed, plan.steps[0].step);
    FaultHasNoSession(commanded, plan.id);
    NoSessionNoClaims(EnterFault(commanded, plan.id), w, paint);
  }

  lemma {:induction false} AllOffFaithful(s: State, w: World, now: nat, paint: Paint)
    requires Inv(s) && Faithful(s, w, paint) && s.motion.None? && s.execute.Some?
    requires s.execute.value.pending.None? && s.execute.value.steps != []
    requires s.execute.value.steps[0] == SP.Motion(MP.AllOff) && Due(s.execute.value.deadline, now)
    ensures Faithful(AdvanceExecute(s, now), w, paint)
  {
    hide StartRails, StopRails, StartGrippers, StopGrippers, DataBelongs;
    NoSessionNoClaims(EnterFault(Attempt(s, AllOff), s.execute.value.id), w, paint);
  }

  /** A held cube has new facelets after its moves; nothing is claimed about them yet. */
  lemma {:induction false} ExecuteEndFaithful(s: State, w: World, paint: Paint)
    requires Inv(s) && Mechanical(s, w) && Faithful(s, w, paint) && s.motion.None? && s.execute.Some?
    requires s.execute.value.pending.None? && s.execute.value.steps == []
    ensures Faithful(FinishExecute(s.(execute := None), s.execute.value.id, s.execute.value.kind),
                     w.(cube := w.machine.cube), paint)
  {
    hide StartRails, StopRails, StartGrippers, StopGrippers, MP.OptimizedHeldSteps, MP.ExecuteSteps, Counted, Ids,
         PendingMoves, PhaseFits, Shows, Released, PhaseStand;
    var plan := s.execute.value;
    if plan.kind == ExecuteMoves {
      FollowsEnds(plan.kind, s.status.solution.moves, w);
      MovesPermuteView(w.cube, w.moves);
      MovesKeepBalance(ViewOf(w.cube), w.moves);
      FreshSession(FinishExecute(s.(execute := None), plan.id, plan.kind), w.(cube := w.machine.cube), paint);
    }
  }

  lemma {:induction false} NextStep(s: State, w: World)
    requires Inv(s) && Mechanical(s, w) && s.motion.None? && s.execute.Some?
    requires s.execute.value.pending.None? && s.execute.value.steps != []
    ensures s.execute.value.steps[0].Motion?
  {
    hide MP.OptimizedHeldSteps, MP.ExecuteSteps, SP.RunScan, SP.SCAN_STEPS, SP.ExecScan, Run, Exec;
    var plan := s.execute.value;
    FollowsHead(plan.steps, FullPlan(plan.kind, s.status.solution.moves, w.moves), w);
  }

  lemma {:induction false} StepFaithful(s: State, w: World, now: nat, paint: Paint)
    requires Inv(s) && Faithful(s, w, paint) && s.motion.None? && s.execute.Some?
    requires s.execute.value.pending.None? && s.execute.value.steps != [] && s.execute.value.steps[0].Motion?
    requires Due(s.execute.value.deadline, now)
    ensures Faithful(AdvanceExecute(s, now), w, paint)
  {
    hide StartRails, StopRails, StartGrippers, StopGrippers, DataBelongs, Inv, CommandStep, FinishPending, Faithful;
    var plan := s.execute.value;
    if plan.steps[0].step.MoveCompleted? {
      MarkerFaithful(s, w, plan.(steps := plan.steps[1..]), paint);
    } else if plan.steps[0].step.AllOff? {
      AllOffFaithful(s, w, now, paint);
    } else {
      ExecuteCommandFaithful(s, w, now, paint);
    }
  }

  lemma {:induction false} ExecutionFaithful(s: State, w: World, now: nat, paint: Paint)
    requires Inv(s) && Mechanical(s, w) && Faithful(s, w, paint)
    ensures Faithful(AdvanceExecute(s, now), WorldAfterExecute(s, w, now), paint)
  {
    hide StartRails, StopRails, StartGrippers, StopGrippers, DataBelongs, Mechanical, Outcome, Commanded, StepDuration;
    if s.execute.Some? && Due(s.execute.value.deadline, now) {
      var plan := s.execute.value;
      if plan.pending.Some? {
        ExecutePendingFaithful(s, w, now, paint);
      } else if plan.steps == [] {
        ExecuteEndFaithful(s, w, paint);
      } else {
        NextStep(s, w);
        StepFaithful(s, w, now, paint);
        assert WorldAfterExecute(s, w, now) == w;
      }
    }
  }

  lemma {:induction false} SolveAdmittedFaithful(s: State, w: World, session: nat, revision: nat, paint: Paint)
    requires Inv(s) && Faithful(s, w, paint) && CS.Injective(paint)
    ensures Faithful(StartSolve(s, session, revision), w, paint)
  {
    if SolveRefusal(s, session, revision).None? {
      RebuiltIsTrue(s.status.scan, ViewOf(w.cube), paint);
    }
  }

  lemma {:induction false} SequenceAdmittedFaithful(s: State, w: World, session: nat, moves: seq<MP.CubeMove>, paint: Paint)
    requires Inv(s) && Faithful(s, w, paint)
    ensures Faithful(StartExecuteMoves(s, session, moves), w, paint)
    ensures Faithful(StartExecuteMoves(s, session, moves), w.(moves := moves), paint)
  {
    if ExecuteMovesRefusal(s, session, moves).None? {
      MarkersOfMotion(MP.OptimizedHeldSteps(moves));
      PS.MarkersCountMoves(moves);
    }
  }

  lemma {:induction false} ScanAdmittedFaithful(s: State, w: World, session: nat, kind: OperationKind, env: Env, paint: Paint)
    requires Inv(s) && Faithful(s, w, paint) && (kind == Scan || kind == ScanSolveExecute)
    ensures Faithful(StartScanOperation(s, session, kind, env), w, paint)
  {
    if ScanRefusal(s, session, env).None? {
      assert forall i :: 0 <= i < 6 ==> EMPTY_SLOTS[i].None?;
    }
  }

  lemma {:induction false} MotionAdmittedFaithful(s: State, w: World, kind: OperationKind, paint: Paint)
    requires Faithful(s, w, paint)
    ensures Faithful(StartMotion(s, kind), w, paint)
  {
    hide StartRails, StopRails, StartGrippers, StopGrippers, SlotsTrue, FacesTrue, ScanTrue, SolutionTrue;
  }

  lemma {:induction false} ExecuteAdmittedFaithful(s: State, w: World, session: nat, revision: nat, solution: nat, paint: Paint)
    requires Inv(s) && Faithful(s, w, paint)
    ensures Faithful(StartExecute(s, session, revision, solution), w, paint)
  {
    hide MP.OptimizedHeldSteps, MP.ExecuteSteps, Counted, Ids, PendingMoves, PhaseFits, Inv, ViewOf;
  }

  lemma {:induction false} OpenAdmittedFaithful(s: State, w: World, session: nat, paint: Paint)
    requires Inv(s) && Faithful(s, w, paint)
    ensures Faithful(StartOpen(s, session), w, paint)
  {
    hide Inv;
  }

  lemma {:induction false} CommandFaithful(s: State, w: World, command: Command, env: Env, paint: Paint)
    requires Inv(s) && Faithful(s, w, paint) && CS.Injective(paint)
    ensures Faithful(Obey(s, command, env), WorldAfterCommand(s, w, command), paint)
  {
    hide StartRails, StopRails, StartGrippers, StopGrippers, Inv, SolverString, Named, Record, Faithful;
    match command {
      case AbortCommand => NoSessionNoClaims(Abort(s, ActiveId(s)), w, paint);
      case RecoverCommand => MotionAdmittedFaithful(s, w, RecoverToOpen, paint);
      case GripCommand => MotionAdmittedFaithful(s, w, Grip, paint);
      case StartScan(session) => ScanAdmittedFaithful(s, w, session, Scan, env, paint);
      case ScanSolveExecuteCommand(session) => ScanAdmittedFaithful(s, w, session, ScanSolveExecute, env, paint);
      case SolveCommand(session, revision) => SolveAdmittedFaithful(s, w, session, revision, paint);
      case ExecuteCommand(session, revision, solution) => ExecuteAdmittedFaithful(s, w, session, revision, solution, paint);
      case ExecuteMovesCommand(session, moves) => SequenceAdmittedFaithful(s, w, session, moves, paint);
      case OpenCommand(session) => OpenAdmittedFaithful(s, w, session, paint);
      case GetStatus =>
    }
  }

  // ---- whole runs -----------------------------------------------------------------

  /** One input to the service, with the cube lying in the stand if a grip ends in it. */
  datatype Experience = Experience(input: Input, inserted: Cube)

  /** Packets that are answered from the cache or cannot be decoded do nothing. */
  predicate Fresh(s: State, packet: Packet) {
    CacheIndex(s.cache, packet.requestId) == |s.cache| && !Undecodable(packet)
  }

  ghost function WorldStep(s: State, w: World, x: Experience): World {
    match x.input
    case PacketArrives(packet, env) => if Fresh(s, packet) then WorldAfterCommand(s, w, packet.command.value) else w
    case ButtonPressed(local, env) => WorldAfterCommand(s, w, LocalAsCommand(local))
    case TimePasses(now, env) => WorldAfterTick(s, w, now, env, x.inserted)
  }

  ghost function RunBoth(s: State, w: World, xs: seq<Experience>): (State, World) {
    hide Step, WorldStep;
    if xs == [] then (s, w)
    else
      var (before, world) := RunBoth(s, w, xs[..|xs| - 1]);
      (Step(before, xs[|xs| - 1].input), WorldStep(before, world, xs[|xs| - 1]))
  }

  /** The outside world plays fair in one step: a real cube is inserted, the camera names
      true colours, and the solver's moves solve its string. */
  ghost predicate Fair(s: State, w: World, x: Experience, paint: Paint) {
    x.input.TimePasses? ==>
      && Balanced(ViewOf(x.inserted))
      && CameraTruthful(s, w, x.input.env, paint)
      && HonestSolver(AdvanceScan(AdvanceMotion(s, x.input.now), x.input.now, x.input.env), x.input.env.solver)
  }

  ghost predicate FairRun(s: State, w: World, xs: seq<Experience>, paint: Paint) {
    hide RunBoth, Fair;
    xs == []
    || (var (before, world) := RunBoth(s, w, xs[..|xs| - 1]);
        FairRun(s, w, xs[..|xs| - 1], paint) && Fair(before, world, xs[|xs| - 1], paint))
  }

  lemma {:induction false} CacheAside(s: State, w: World, cache: seq<Cached>)
    requires Mechanical(s, w)
    ensures Mechanical(s.(events := [], cache := cache), w)
  {
    hide StartRails, StopRails, StartGrippers, StopGrippers, Shows, Released, PhaseStand, SP.RunScan, SP.SCAN_STEPS,
         SP.ExecScan, Run, Exec;
  }

  lemma {:induction false} CacheAsideFaithful(s: State, w: World, paint: Paint, cache: seq<Cached>)
    requires Faithful(s, w, paint)
    ensures Faithful(s.(events := [], cache := cache), w, paint)
  {
    hide SolverString, Named, Record;
  }

  /** What an input does to the state, bookkeeping aside. */
  lemma {:induction false} PacketIs(s: State, packet: Packet, env: Env) returns (core: State, cache: seq<Cached>)
    ensures core == if Fresh(s, packet) then Obey(s, packet.command.value, env) else s
    ensures HandlePacket(s, packet, env).0 == core.(events := [], cache := cache)
  {
    hide MP.OptimizedHeldSteps, MP.ExecuteSteps;
    core := if Fresh(s, packet) then Obey(s, packet.command.value, env) else s;
    cache := HandlePacket(s, packet, env).0.cache;
  }

  lemma {:induction false} StepMechanical(s: State, w: World, x: Experience)
    requires Resting(s) && Mechanical(s, w)
    ensures Mechanical(Step(s, x.input), WorldStep(s, w, x))
  {
    hide StartRails, StopRails, StartGrippers, StopGrippers, MP.OptimizedHeldSteps, MP.ExecuteSteps, Inv, Mechanical,
         AdvanceScan, AdvanceSolve, Obey, HandlePacket;
    match x.input {
      case PacketArrives(packet, env) =>
        var core, cache := PacketIs(s, packet, env);
        if Fresh(s, packet) {
          CommandMoves(s, w, packet.command.value, env);
        }
        CacheAside(core, WorldStep(s, w, x), cache);
      case ButtonPressed(local, env) =>
        CommandMoves(s, w, LocalAsCommand(local), env);
        EventsAside(Obey(s, LocalAsCommand(local), env), WorldStep(s, w, x));
      case TimePasses(now, env) => TickMoves(s, w, now, env, x.inserted);
    }
  }

  /** The state and the world of a tick just before its execution stage. */
  lemma {:induction false} BeforeExecution(s: State, w: World, now: nat, env: Env, inserted: Cube, paint: Paint)
    returns (solved: State, w2: World)
    requires Inv(s) && Mechanical(s, w) && Faithful(s, w, paint) && CS.Injective(paint)
    requires Fair(s, w, Experience(TimePasses(now, env), inserted), paint)
    ensures solved == AdvanceSolve(AdvanceScan(AdvanceMotion(s, now), now, env), env)
    ensures Inv(solved) && Mechanical(solved, w2) && Faithful(solved, w2, paint)
    ensures Tick(s, now, env) == (AdvanceExecute(solved, now).(events := []), AdvanceExecute(solved, now).events)
    ensures WorldAfterTick(s, w, now, env, inserted) == WorldAfterExecute(solved, w2, now)
  {
    hide DataBelongs, AdvanceScan, AdvanceSolve;
    var moved := AdvanceMotion(s, now);
    var w1 := WorldAfterMotion(s, w, now, inserted);
    MotionKeeps(s, now);
    MotionMoves(s, w, now, inserted);
    MotionFaithful(s, w, now, inserted, paint);
    if s.motion.Some? {
      MotionStartsNothing(s, now);
    }
    var scanned := AdvanceScan(moved, now, env);
    w2 := WorldAfterScan(moved, w1, now);
    ScanKeeps(moved, now, env);
    ScanMoves(moved, w1, now, env);
    ScanFaithful(moved, w1, now, env, paint);
    solved := AdvanceSolve(scanned, env);
    SolveKeeps(scanned, env);
    SolveMoves(scanned, w2, env);
    SolveFaithful(scanned, w2, env, paint);
    TickIs(s, now, env, AdvanceExecute(solved, now));
  }

  lemma {:induction false} TickFaithful(s: State, w: World, now: nat, env: Env, inserted: Cube, paint: Paint)
    requires Inv(s) && Mechanical(s, w) && Faithful(s, w, paint) && CS.Injective(paint)
    requires Fair(s, w, Experience(TimePasses(now, env), inserted), paint)
    ensures Faithful(Tick(s, now, env).0, WorldAfterTick(s, w, now, env, inserted), paint)
  {
    hide StartRails, StopRails, StartGrippers, StopGrippers, Mechanical, AdvanceScan, AdvanceSolve;
    var solved, w2 := BeforeExecution(s, w, now, env, inserted, paint);
    ExecutionFaithful(solved, w2, now, paint);
    var executed := AdvanceExecute(solved, now);
    CacheAsideFaithful(executed, WorldAfterExecute(solved, w2, now), paint, executed.cache);
  }

  lemma {:induction false} MotionStartsNothing(s: State, now: nat)
    requires s.scan.None?
    ensures AdvanceMotion(s, now).scan.None?
  {
    hide StartRails, StopRails, StartGrippers, StopGrippers, Outcome, Commanded, StepDuration;
    if s.motion.Some? {
      match s.motion.value.phase {
        case RecoverStart => assert RecoverStartStep(s, now).scan.None?;
        case RecoverFinishLeftRight => assert RecoverLeftRightStep(s, now).scan.None?;
        case RecoverFinishTopBottom => assert RecoverTopBottomStep(s, now).scan.None?;
        case RecoverFinishGrippers => assert RecoverGrippersStep(s).scan.None?;
        case GripStart => assert GripStartStep(s, now).scan.None?;
        case GripFinishGrippers => assert GripGrippersStep(s, now).scan.None?;
        case GripFinishRails => assert GripRailsStep(s).scan.None?;
      }
    }
  }

  lemma {:induction false} StepFaithfully(s: State, w: World, x: Experience, paint: Paint)
    requires Resting(s) && Mechanical(s, w) && Faithful(s, w, paint) && CS.Injective(paint) && Fair(s, w, x, paint)
    ensures Faithful(Step(s, x.input), WorldStep(s, w, x), paint)
  {
    hide StartRails, StopRails, StartGrippers, StopGrippers, Inv, Mechanical;
    match x.input {
      case PacketArrives(packet, env) =>
        var core, cache := PacketIs(s, packet, env);
        if Fresh(s, packet) {
          CommandFaithful(s, w, packet.command.value, env, paint);
        }
        CacheAsideFaithful(core, WorldStep(s, w, x), paint, cache);
      case ButtonPressed(local, env) =>
        var core := Obey(s, LocalAsCommand(local), env);
        CommandFaithful(s, w, LocalAsCommand(local), env, paint);
        CacheAsideFaithful(core, WorldStep(s, w, x), paint, core.cache);
      case TimePasses(now, env) =>
        assert x == Experience(TimePasses(now, env), x.inserted);
        TickFaithful(s, w, now, env, x.inserted, paint);
    }
  }

  /** In every reachable state, whatever fails and whatever is requested, the published
      stand is the stand and plans are where the machine is. */
  lemma {:induction false} RunsAreMechanical(times: Calibration, script: seq<bool>, w: World, xs: seq<Experience>)
    ensures var (s, world) := RunBoth(Initial(times, script), w, xs); Resting(s) && Mechanical(s, world)
  {
    if xs != [] {
      var k := |xs| - 1;
      var (before, world) := RunBoth(Initial(times, script), w, xs[..k]);
      RunsAreMechanical(times, script, w, xs[..k]);
      StepMechanical(before, world, xs[k]);
      StepKeeps(before, xs[k].input);
    }
  }

  /** In every fair run, every reachable state speaks the truth about the held cube. */
  lemma {:induction false} FairRunsAreFaithful(times: Calibration, script: seq<bool>, w: World, xs: seq<Experience>, paint: Paint)
    requires FairRun(Initial(times, script), w, xs, paint) && CS.Injective(paint)
    ensures var (s, world) := RunBoth(Initial(times, script), w, xs); Faithful(s, world, paint)
  {
    hide StartRails, StopRails, StartGrippers, StopGrippers, Mechanical;
    if xs != [] {
      var k := |xs| - 1;
      var (before, world) := RunBoth(Initial(times, script), w, xs[..k]);
      FairRunsAreFaithful(times, script, w, xs[..k], paint);
      RunsAreMechanical(times, script, w, xs[..k]);
      StepFaithfully(before, world, xs[k], paint);
    }
  }
}

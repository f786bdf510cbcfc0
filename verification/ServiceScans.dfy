/** How a scan ends: the six captures that arrive while it runs decide whether it is valid,
    what is published of it, and what happens next. */
module ServiceScans {
  import opened Geometry
  import opened Stand
  import opened Options
  import opened Protocol
  import opened RobotService
  import opened ServiceInvariants
  import CS = CubeScan
  import F = Facelets
  import MP = MovePlanner
  import SC = ServiceCube
  import SP = ScanPlan
  import ST = ServiceTiming
  import SW = ServiceWorld

  // ---- the captures of the scan plan ----------------------------------------------

  /** How many captures are among the first `k` steps of the scan. */
  function CapturesIn(k: nat): nat {
    if k <= 2 then 0 else if k <= 5 then 1 else if k <= 10 then 2 else if k <= 13 then 3 else if k <= 18 then 4 else if k <= 20 then 5 else 6
  }

  lemma {:induction false} StepsAt(k: nat)
    requires k < 26
    ensures |SP.SCAN_STEPS| == 26 && |SP.SCAN_ORDER| == 6
    ensures if CapturesIn(k + 1) == CapturesIn(k) then SP.SCAN_STEPS[k].Motion?
            else CapturesIn(k + 1) == CapturesIn(k) + 1 && SP.SCAN_STEPS[k] == SP.Capture(SP.SCAN_ORDER[CapturesIn(k)])
  {
  }

  // ---- what the captures amount to ------------------------------------------------

  /** A capture: the face in front of the camera, and what the recogniser said. */
  datatype Shot = Shot(face: LogicalFace, seen: Recognition)

  /** All nine stickers have been named. */
  predicate Good(shot: Shot) {
    shot.seen.Seen? && forall j :: 0 <= j < 9 ==> shot.seen.face[j].Some?
  }

  predicate AllGood(shots: seq<Shot>) {
    forall i :: 0 <= i < |shots| ==> Good(shots[i])
  }

  function ErrorOf(seen: Recognition): ScanValidationError {
    match seen
    case Seen(_) => InvalidFacelet
    case WrongCountSeen => WrongDetectionCount
    case CameraError => InferenceFailure
  }

  /** The error of the first capture that is not good. */
  function FirstError(shots: seq<Shot>): Option<ScanValidationError> {
    if shots == [] then None
    else
      var before, last := FirstError(shots[..|shots| - 1]), shots[|shots| - 1];
      if before.Some? then before else if Good(last) then None else Some(ErrorOf(last.seen))
  }

  /** The faces recorded before the first capture that is not good. */
  function Gathered(shots: seq<Shot>): CS.Slots {
    if shots == [] then EMPTY_SLOTS
    else
      var before, last := Gathered(shots[..|shots| - 1]), shots[|shots| - 1];
      if FirstError(shots).None? then before[FaceOrder(last.face) := Named(last.seen.face)] else before
  }

  function FacesSeen(shots: seq<Shot>): map<LogicalFace, Recognized> {
    if shots == [] then map[]
    else
      var before, last := FacesSeen(shots[..|shots| - 1]), shots[|shots| - 1];
      if FirstError(shots).None? then before[last.face := last.seen.face] else before
  }

  predicate InOrder(shots: seq<Shot>) {
    |shots| <= 6 && forall i :: 0 <= i < |shots| ==> shots[i].face == SP.SCAN_ORDER[i]
  }

  lemma {:induction false} GoodMeansNoError(shots: seq<Shot>)
    ensures AllGood(shots) <==> FirstError(shots).None?
  {
    if shots != [] {
      GoodMeansNoError(shots[..|shots| - 1]);
    }
  }

  /** The error is that of the first capture that is not good. */
  lemma {:induction false} FirstErrorIsFirst(shots: seq<Shot>, i: nat)
    requires i < |shots| && !Good(shots[i]) && forall j :: 0 <= j < i ==> Good(shots[j])
    ensures FirstError(shots) == Some(ErrorOf(shots[i].seen))
    decreases |shots|
  {
    if i < |shots| - 1 {
      FirstErrorIsFirst(shots[..|shots| - 1], i);
    } else {
      GoodMeansNoError(shots[..i]);
    }
  }

  lemma {:induction false} OrderIsDistinct(i: nat, j: nat)
    requires i < 6 && j < 6 && FaceOrder(SP.SCAN_ORDER[i]) == FaceOrder(SP.SCAN_ORDER[j])
    ensures i == j
  {
  }

  /** Faces still to come are not yet recorded. */
  lemma {:induction false} LaterIsEmpty(shots: seq<Shot>, j: nat)
    requires InOrder(shots) && |shots| <= j < 6
    ensures Gathered(shots)[FaceOrder(SP.SCAN_ORDER[j])].None?
    decreases |shots|
  {
    if shots == [] {
    } else {
      var n := |shots| - 1;
      LaterIsEmpty(shots[..n], j);
      if FaceOrder(SP.SCAN_ORDER[n]) == FaceOrder(SP.SCAN_ORDER[j]) {
        OrderIsDistinct(n, j);
      }
    }
  }

  /** What good captures have recorded. */
  lemma {:induction false} GatheredIsNamed(shots: seq<Shot>, i: nat)
    requires InOrder(shots) && AllGood(shots) && i < |shots|
    ensures Gathered(shots)[FaceOrder(shots[i].face)] == Named(shots[i].seen.face)
    ensures shots[i].face in FacesSeen(shots) && FacesSeen(shots)[shots[i].face] == shots[i].seen.face
    decreases |shots|
  {
    hide Named;
    var n := |shots| - 1;
    GoodMeansNoError(shots);
    if i < n {
      GatheredIsNamed(shots[..n], i);
      if FaceOrder(SP.SCAN_ORDER[i]) == FaceOrder(SP.SCAN_ORDER[n]) {
        OrderIsDistinct(i, n);
      }
    }
  }

  // ---- the captures of a run ------------------------------------------------------

  /** The captures of the scan in progress: the ticks that bring a face before the camera. */
  ghost function Shots(s: State, w: SW.World, xs: seq<SC.Experience>): seq<Shot> {
    if xs == [] then []
    else
      var k := |xs| - 1;
      More(Shots(s, w, xs[..k]), SC.RunBoth(s, w, xs[..k]).0.status, SC.RunBoth(s, w, xs).0.status, xs[k].input)
  }

  function More(shots: seq<Shot>, before: StatusSnapshot, after: StatusSnapshot, input: Input): seq<Shot> {
    if before.scan.state != InProgress then []
    else if input.TimePasses? && before.stand.pose.kind != ScanPose && after.stand.pose.kind == ScanPose
            && after.stand.pose.cameraFace.Some? then
      shots + [Shot(after.stand.pose.cameraFace.value, input.env.capture)]
    else shots
  }

  /** What the captures say of a scan in progress. */
  ghost predicate ScanTold(s: State, shots: seq<Shot>) {
    s.scan.Some? ==>
      var scan := s.scan.value;
      && |scan.plan.steps| <= 26 && scan.plan.steps == SP.SCAN_STEPS[26 - |scan.plan.steps|..]
      && Told(s, scan, 26 - |scan.plan.steps|, shots)
  }

  predicate Told(s: State, scan: ActiveScan, k: nat, shots: seq<Shot>) {
    && |shots| == CapturesIn(k) && InOrder(shots)
    && (s.status.stand.pose.kind == ScanPose <==> k > 0 && CapturesIn(k) != CapturesIn(k - 1))
    && (scan.plan.pending.Some? ==> k > 0 && CapturesIn(k) == CapturesIn(k - 1))
    && scan.cube == Gathered(shots) && s.status.scan.faces == FacesSeen(shots) && s.status.scan.validationError == FirstError(shots)
    && scan.failure == if FirstError(shots).Some? then Some(RecognitionFailure) else None
  }

  lemma {:induction false} OneMoreShot(shots: seq<Shot>, shot: Shot)
    ensures var all := shots + [shot];
            && FirstError(all) == (if FirstError(shots).Some? then FirstError(shots) else if Good(shot) then None else Some(ErrorOf(shot.seen)))
            && (FirstError(all).None? ==>
                  Gathered(all) == Gathered(shots)[FaceOrder(shot.face) := Named(shot.seen.face)]
                  && FacesSeen(all) == FacesSeen(shots)[shot.face := shot.seen.face])
            && (FirstError(all).Some? ==> Gathered(all) == Gathered(shots) && FacesSeen(all) == FacesSeen(shots))
  {
    hide Named;
    assert (shots + [shot])[..|shots + [shot]| - 1] == shots;
  }

  /** What a capture does to the scan that it belongs to. */
  lemma {:induction false} CaptureDoes(s: State, scan: ActiveScan, face: LogicalFace, env: Env)
    requires scan.cube[FaceOrder(face)].None?
    ensures var r := CaptureStep(s, scan, face, env);
            && r.scan.Some? && r.scan.value.plan == scan.plan && r.status.scan.state == s.status.scan.state
            && r.status.stand.pose == StandPose(ScanPose, Some(face))
            && if scan.failure.Some? then
                 r.scan.value == scan && r.status.scan.faces == s.status.scan.faces
                 && r.status.scan.validationError == s.status.scan.validationError
               else if Good(Shot(face, env.capture)) then
                 && r.scan.value == scan.(cube := scan.cube[FaceOrder(face) := Named(env.capture.face)])
                 && r.status.scan.faces == s.status.scan.faces[face := env.capture.face]
                 && r.status.scan.validationError == s.status.scan.validationError
               else
                 && r.scan.value == scan.(failure := Some(RecognitionFailure)) && r.status.scan.faces == s.status.scan.faces
                 && r.status.scan.validationError == Some(ErrorOf(env.capture))
  {
  }

  lemma {:induction false} CaptureTold(s: State, k: nat, shots: seq<Shot>, face: LogicalFace, env: Env)
    requires s.scan.Some? && s.scan.value.plan.pending.None? && k < 26
    requires s.scan.value.plan.steps == SP.SCAN_STEPS[k..] && SP.SCAN_STEPS[k] == SP.Capture(face)
    requires Told(s, s.scan.value, k, shots)
    ensures s.status.stand.pose.kind != ScanPose
    ensures var scan := s.scan.value.(plan := s.scan.value.plan.(steps := s.scan.value.plan.steps[1..]));
            ScanTold(CaptureStep(s, scan, face, env), shots + [Shot(face, env.capture)])
  {
    hide CaptureStep, Named, Good, Gathered, FacesSeen, FirstError;
    var scan := s.scan.value.(plan := s.scan.value.plan.(steps := s.scan.value.plan.steps[1..]));
    StepsAt(k);
    LaterIsEmpty(shots, |shots|);
    CaptureDoes(s, scan, face, env);
    OneMoreShot(shots, Shot(face, env.capture));
    assert SP.SCAN_STEPS[k..][1..] == SP.SCAN_STEPS[k + 1..];
  }

  /** A motion step of the scan begins or ends. */
  lemma {:induction false} MotionTold(s: State, r: State, shots: seq<Shot>, k: nat, began: bool)
    requires s.scan.Some? && r.scan.Some? && Told(s, s.scan.value, k, shots) && k <= 26
    requires s.scan.value.plan.steps == SP.SCAN_STEPS[k..]
    requires r.status.scan == s.status.scan && r.scan.value == s.scan.value.(plan := r.scan.value.plan)
    requires began ==> k < 26 && SP.SCAN_STEPS[k].Motion? && s.scan.value.plan.pending.None? && r.scan.value.plan.pending.Some?
                       && r.scan.value.plan.steps == s.scan.value.plan.steps[1..] && r.status.stand.pose == TRANSITIONAL
    requires !began ==> s.scan.value.plan.pending.Some? && r.scan.value.plan.pending.None?
                        && r.scan.value.plan.steps == s.scan.value.plan.steps && r.status.stand.pose == s.status.stand.pose
    ensures ScanTold(r, shots) && !(s.status.stand.pose.kind != ScanPose && r.status.stand.pose.kind == ScanPose)
  {
    hide Gathered, FacesSeen, FirstError, InOrder;
    if began {
      StepsAt(k);
      assert SP.SCAN_STEPS[k..][1..] == SP.SCAN_STEPS[k + 1..];
    }
    assert |SP.SCAN_STEPS| == 26;
  }

  lemma {:induction false} ScanningTold(s: State, now: nat, env: Env, shots: seq<Shot>)
    requires Inv(s) && s.scan.Some? && ScanTold(s, shots)
    ensures ScanTold(AdvanceScan(s, now, env), More(shots, s.status, AdvanceScan(s, now, env).status, TimePasses(now, env)))
  {
    hide CommandStep, FinishPending, FinishScan, CaptureStep, EnterFault, StepDuration, Outcome, Told, Counted, Ids, PhaseFits, PendingMoves;
    var scan := s.scan.value;
    var plan := scan.plan;
    var k := 26 - |plan.steps|;
    var r := AdvanceScan(s, now, env);
    if r != s {
      if plan.pending.Some? {
        StepFrame(s, plan.pending.value);
        FaultFrame(FinishPending(s, plan.pending.value), plan.id);
        PendingKeepsPose(s, plan.pending.value);
        if r.scan.Some? {
          MotionTold(s, r, shots, k, false);
        }
      } else if plan.steps == [] {
        ScanEnds(s);
      } else {
        FaultFrame(s, plan.id);
        assert |SP.SCAN_STEPS| == 26 && plan.steps[0] == SP.SCAN_STEPS[k];
        if plan.steps[0].Capture? {
          CaptureTold(s, k, shots, plan.steps[0].face, env);
          CaptureDone(s, k, shots, plan.steps[0].face, env);
        } else {
          var posed, step := SetPose(s, TRANSITIONAL), plan.steps[0].step;
          StepFrame(posed, step);
          FaultFrame(CommandStep(posed, step), plan.id);
          StepKeepsPose(posed, step);
          if r.scan.Some? {
            MotionTold(s, r, shots, k, true);
          }
        }
      }
    }
  }

  lemma {:induction false} PendingKeepsPose(s: State, step: MP.Step)
    ensures FinishPending(s, step).status.stand.pose == s.status.stand.pose
  {
  }

  lemma {:induction false} StepKeepsPose(s: State, step: MP.Step)
    ensures CommandStep(s, step).status.stand.pose == s.status.stand.pose
  {
  }

  lemma {:induction false} ScanEnds(s: State)
    requires s.scan.Some?
    ensures FinishScan(s.(scan := None), s.scan.value).scan.None?
  {
    hide SolverString;
  }

  lemma {:induction false} CaptureDone(s: State, k: nat, shots: seq<Shot>, face: LogicalFace, env: Env)
    requires s.scan.Some? && s.scan.value.plan.pending.None? && k < 26
    requires s.scan.value.plan.steps == SP.SCAN_STEPS[k..] && SP.SCAN_STEPS[k] == SP.Capture(face)
    requires Told(s, s.scan.value, k, shots)
    ensures var scan := s.scan.value.(plan := s.scan.value.plan.(steps := s.scan.value.plan.steps[1..]));
            CaptureStep(s, scan, face, env).status.stand.pose == StandPose(ScanPose, Some(face))
  {
    hide CaptureStep, Good, Gathered, FacesSeen, FirstError;
    StepsAt(k);
    LaterIsEmpty(shots, |shots|);
    CaptureDoes(s, s.scan.value.(plan := s.scan.value.plan.(steps := s.scan.value.plan.steps[1..])), face, env);
  }

  // ---- whole runs -----------------------------------------------------------------

  /** No tick begins a scan. */
  lemma {:induction false} TicksBeginNoScan(s: State, now: nat, env: Env)
    requires Inv(s)
    ensures s.scan.None? ==> Tick(s, now, env).0.scan.None?
    ensures s.scan.Some? ==>
              var scanned := AdvanceScan(s, now, env);
              if scanned.scan.Some? then Tick(s, now, env).0 == scanned.(events := [])
              else Tick(s, now, env).0.scan.None?
  {
    hide Inv, AdvanceMotion, AdvanceScan, AdvanceSolve, AdvanceExecute;
    var moved := AdvanceMotion(s, now);
    ST.OneSlot(s);
    if s.motion.None? {
      ST.NoMotion(s, now);
    } else {
      MotionLeaves(s, now);
    }
    if moved.scan.None? {
      ST.NoScan(moved, now, env);
    }
    var scanned := AdvanceScan(moved, now, env);
    MotionKeeps(s, now);
    ScanKeeps(moved, now, env);
    ST.OneSlot(scanned);
    if scanned.scan.Some? {
      SolvesNothing(scanned, env);
      ST.NoExecution(scanned, now);
    } else {
      SolveLeavesScan(scanned, env);
      ExecutionLeaves(AdvanceSolve(scanned, env), now);
    }
  }

  lemma {:induction false} SolvesNothing(s: State, env: Env)
    requires s.solve.None?
    ensures AdvanceSolve(s, env) == s
  {
  }

  lemma {:induction false} SolveLeavesScan(s: State, env: Env)
    ensures AdvanceSolve(s, env).scan == s.scan
  {
    hide MotionSteps, MP.ExecuteSteps;
  }

  lemma {:induction false} TickTold(s: State, now: nat, env: Env, shots: seq<Shot>)
    requires Inv(s) && ScanTold(s, shots)
    ensures var r := Tick(s, now, env).0; ScanTold(r, More(shots, s.status, r.status, TimePasses(now, env)))
  {
    hide Tick, AdvanceScan, Counted, Ids, PhaseFits, PendingMoves;
    TicksBeginNoScan(s, now, env);
    if s.scan.Some? {
      ScanningTold(s, now, env, shots);
      var scanned := AdvanceScan(s, now, env);
      ScanAside(scanned, s.cache, More(shots, s.status, scanned.status, TimePasses(now, env)));
    }
  }

  lemma {:induction false} ScanAside(s: State, cache: seq<Cached>, shots: seq<Shot>)
    requires ScanTold(s, shots)
    ensures ScanTold(s.(events := []), shots) && ScanTold(s.(events := [], cache := cache), shots)
  {
    hide Gathered, FacesSeen, FirstError, InOrder;
  }

  lemma {:induction false} ObeyTold(s: State, command: Command, env: Env, shots: seq<Shot>, input: Input)
    requires Inv(s) && ScanTold(s, shots) && !input.TimePasses?
    ensures var r := Obey(s, command, env); ScanTold(r, More(shots, s.status, r.status, input))
  {
    hide Told, MotionSteps, MP.ExecuteSteps, MP.OptimizedHeldSteps, RebuiltString, RevisionRefusal, SolutionRefusal, Counted, Ids,
         PhaseFits, PendingMoves;
    if s.scan.None? {
      assert SP.SCAN_STEPS[0..] == SP.SCAN_STEPS;
      if command.StartScan? {
        NothingShot(s, command.session, Scan, env);
      } else if command.ScanSolveExecuteCommand? {
        NothingShot(s, command.session, ScanSolveExecute, env);
      }
    }
  }

  lemma {:induction false} NothingShot(s: State, session: nat, kind: OperationKind, env: Env)
    requires s.scan.None?
    ensures ScanTold(StartScanOperation(s, session, kind, env), [])
  {
    assert SP.SCAN_STEPS[0..] == SP.SCAN_STEPS && |SP.SCAN_STEPS| == 26;
  }

  lemma {:induction false} StepTold(s: State, input: Input, shots: seq<Shot>)
    requires Inv(s) && ScanTold(s, shots)
    ensures ScanTold(Step(s, input), More(shots, s.status, Step(s, input).status, input))
  {
    hide Inv, ScanTold, Obey, Tick, Reply, HandlePacket;
    match input {
      case TimePasses(now, env) => TickTold(s, now, env, shots);
      case ButtonPressed(local, env) =>
        var command := LocalAsCommand(local);
        ObeyTold(s, command, env, shots, input);
        var r := Obey(s, command, env);
        ScanAside(r, r.cache, More(shots, s.status, r.status, input));
      case PacketArrives(packet, env) =>
        var core, cache := SC.PacketIs(s, packet, env);
        if SC.Fresh(s, packet) {
          ObeyTold(s, packet.command.value, env, shots, input);
        } else {
          SameTold(s, shots, input);
        }
        ScanAside(core, cache, More(shots, s.status, core.status, input));
    }
  }

  lemma {:induction false} SameTold(s: State, shots: seq<Shot>, input: Input)
    requires Inv(s) && ScanTold(s, shots) && !input.TimePasses?
    ensures ScanTold(s, More(shots, s.status, s.status, input))
  {
    hide Told;
  }

  lemma {:induction false} RunsAreTold(times: Calibration, script: seq<bool>, w: SW.World, xs: seq<SC.Experience>)
    ensures ScanTold(SC.RunBoth(Initial(times, script), w, xs).0, Shots(Initial(times, script), w, xs))
  {
    hide ScanTold, Resting, Inv, Step, More, SC.WorldStep, SW.Mechanical;
    if xs == [] {
      NothingScanned(times, script);
    } else {
      var k := |xs| - 1;
      RunsAreTold(times, script, w, xs[..k]);
      SC.RunsAreMechanical(times, script, w, xs[..k]);
      var s := SC.RunBoth(Initial(times, script), w, xs[..k]).0;
      ST.RestIsInv(s);
      StepTold(s, xs[k].input, Shots(Initial(times, script), w, xs[..k]));
    }
  }

  lemma {:induction false} NothingScanned(times: Calibration, script: seq<bool>)
    ensures ScanTold(Initial(times, script), [])
  {
  }

  // ---- how a scan ends ------------------------------------------------------------

  /** Whether the captures make a valid scan. */
  ghost predicate Conclusive(shots: seq<Shot>) {
    AllGood(shots) && CS.Acceptable(Gathered(shots))
  }

  /** The scan is published valid: it reports completion, or goes on to solve. */
  ghost predicate EndsValid(shots: seq<Shot>, before: StatusSnapshot, r: State, events: seq<Event>) {
    && before.operation.Some? && Conclusive(shots)
    && r.status.scan.state == Valid && r.status.scan.faces == FacesSeen(shots) && r.status.scan.revision == before.scan.revision
    && r.status.scan.validationError.None? && r.status.session == before.session
    && if before.operation.value.kind == ScanSolveExecute then
         && r.status.operation.Some? && r.status.operation.value.id == before.operation.value.id
         && r.status.solution.state == Solving && r.solve.Some? && Some(r.solve.value.revision) == before.scan.revision
         && CS.Names(CS.ColorsOf(Gathered(shots)), r.solve.value.letters)
       else
         && r.status.controller == Ready && r.status.operation.None?
         && events == [StandStateChanged(r.status.stand), RobotStateChanged(Ready, None),
                       OperationCompleted(before.operation.value.id, before.operation.value.kind)]
  }

  /** The scan is published invalid, with the error of the first capture that was not good,
      and reports failure. */
  ghost predicate EndsInvalid(shots: seq<Shot>, before: StatusSnapshot, r: State, events: seq<Event>) {
    && before.operation.Some? && !Conclusive(shots)
    && r.status.scan.state == Invalid && r.status.session == before.session
    && r.status.scan.validationError == (if AllGood(shots) then Some(InvalidFacelet) else FirstError(shots))
    && r.status.controller == Ready && r.status.operation.None?
    && events == [StandStateChanged(r.status.stand), RobotStateChanged(Ready, None),
                  OperationFailed(before.operation.value.id, if AllGood(shots) then FaceletFailure else RecognitionFailure)]
  }

  /** The face whose centre has the colour of a sticker. */
  function LetterOf(colors: seq<CS.StickerColor>, k: nat): LogicalFace
    requires |colors| == 54 && k < 54
  {
    var c := colors[k];
    if CS.CentreColor(colors, 0) == c then FACES[0] else if CS.CentreColor(colors, 1) == c then FACES[1]
    else if CS.CentreColor(colors, 2) == c then FACES[2] else if CS.CentreColor(colors, 3) == c then FACES[3]
    else if CS.CentreColor(colors, 4) == c then FACES[4] else FACES[5]
  }

  lemma {:induction false} LetterNames(colors: seq<CS.StickerColor>, k: nat)
    requires |colors| == 54 && k < 54 && CS.DistinctCentres(colors)
    ensures CS.CentreColor(colors, FaceOrder(LetterOf(colors, k))) == colors[k]
  {
    var six := {CS.CentreColor(colors, 0), CS.CentreColor(colors, 1), CS.CentreColor(colors, 2),
                CS.CentreColor(colors, 3), CS.CentreColor(colors, 4), CS.CentreColor(colors, 5)};
    forall i | 0 <= i < 6
      ensures CS.CentreColor(colors, i) in six
    {
    }
    CS.AllColorsAreCentres(colors, six);
    assert colors[k] in six;
  }

  lemma {:induction false} NamedBy(colors: seq<CS.StickerColor>)
    requires |colors| == 54 && CS.DistinctCentres(colors)
    ensures exists letters :: CS.Names(colors, letters)
  {
    var letters := seq(54, k requires 0 <= k < 54 => LetterOf(colors, k));
    forall k | 0 <= k < 54
      ensures CS.CentreColor(colors, FaceOrder(letters[k])) == colors[k]
    {
      LetterNames(colors, k);
    }
    assert CS.Names(colors, letters);
  }

  lemma {:induction false} AcceptableIsNamed(slots: CS.Slots)
    ensures CS.Acceptable(slots) <==> SolverString(slots).Some?
    ensures CS.Acceptable(slots) ==> CS.Names(CS.ColorsOf(slots), SolverString(slots).value)
  {
    hide CS.Names, CS.NineOfEach, CS.DistinctCentres;
    if CS.Acceptable(slots) {
      NamedBy(CS.ColorsOf(slots));
    }
  }

  lemma {:induction false} FinishIs(s: State, shots: seq<Shot>)
    requires Inv(s) && s.scan.Some? && s.scan.value.plan.steps == [] && s.scan.value.plan.pending.None? && ScanTold(s, shots)
    requires s.events == []
    ensures var r := FinishScan(s.(scan := None), s.scan.value);
            |shots| == 6 && InOrder(shots)
            && if Conclusive(shots) then EndsValid(shots, s.status, r, r.events) && (r.solve.Some? ==> s.scan.value.plan.kind == ScanSolveExecute)
               else EndsInvalid(shots, s.status, r, r.events) && r.solve.None?
  {
    hide CS.Acceptable, CS.Names, SolverString, Gathered, FacesSeen, FirstError, InOrder, Counted, PhaseFits, PendingMoves, Ids;
    AcceptableIsNamed(s.scan.value.cube);
    GoodMeansNoError(shots);
  }

  /** Unless it faults, the tick that ends a scan is the one that finds no step left. */
  lemma {:induction false} EndingTick(s: State, now: nat, env: Env, shots: seq<Shot>)
    requires Inv(s) && s.events == [] && s.status.scan.state == InProgress && ScanTold(s, shots)
    requires Tick(s, now, env).0.status.scan.state == Valid || Tick(s, now, env).0.status.scan.state == Invalid
    ensures s.scan.Some? && s.scan.value.plan.steps == [] && s.scan.value.plan.pending.None?
    ensures var f := FinishScan(s.(scan := None), s.scan.value);
            && Tick(s, now, env).0.status.scan == f.status.scan
            && (f.solve.None? || env.solver.StillSolving? ==> Tick(s, now, env) == (f.(events := []), f.events))
  {
    hide AdvanceMotion, AdvanceSolve, AdvanceExecute, FinishScan, Told, CommandStep, FinishPending, CaptureStep, EnterFault,
         StepDuration, Outcome, Counted, PhaseFits, PendingMoves, Ids;
    ST.OneSlot(s);
    ST.NoMotion(s, now);
    var scanned := AdvanceScan(s, now, env);
    var solved := AdvanceSolve(scanned, env);
    AdvanceEnds(s, now, env);
    ScanKeeps(s, now, env);
    SolveKeepsScanStatus(scanned, env);
    ExecutionLeaves(solved, now);
    if scanned.solve.None? {
      SolvesNothing(scanned, env);
    }
    if scanned.solve.None? || env.solver.StillSolving? {
      ScanStartsNothing(s, now, env);
      ST.NoExecution(scanned, now);
    }
  }

  lemma {:induction false} ScanStartsNothing(s: State, now: nat, env: Env)
    requires s.scan.Some? && s.solve.None? && s.execute.None? && s.motion.None?
    ensures AdvanceScan(s, now, env).execute.None?
    ensures env.solver.StillSolving? ==> AdvanceSolve(AdvanceScan(s, now, env), env) == AdvanceScan(s, now, env)
  {
    hide AdvanceScan;
    ST.ScanHandsOver(s, now, env);
  }

  lemma {:induction false} SolveKeepsScanStatus(s: State, env: Env)
    ensures AdvanceSolve(s, env).status.scan == s.status.scan
  {
    hide MotionSteps, MP.ExecuteSteps;
  }

  lemma {:induction false} AdvanceEnds(s: State, now: nat, env: Env)
    requires Inv(s) && s.scan.Some?
    ensures var r := AdvanceScan(s, now, env);
            || r.status.scan.state == InProgress || r.status.scan == EMPTY_SCAN
            || (s.scan.value.plan.steps == [] && s.scan.value.plan.pending.None? && r == FinishScan(s.(scan := None), s.scan.value))
  {
    hide FinishScan, CommandStep, FinishPending, CaptureStep, EnterFault, StepDuration, Outcome, Counted, PhaseFits, PendingMoves, Ids;
    var scan := s.scan.value;
    var plan := scan.plan;
    FaultFrame(s, plan.id);
    if plan.pending.Some? {
      StepFrame(s, plan.pending.value);
      FaultFrame(FinishPending(s, plan.pending.value), plan.id);
    } else if plan.steps != [] {
      if plan.steps[0].Motion? {
        var posed, step := SetPose(s, TRANSITIONAL), plan.steps[0].step;
        StepFrame(posed, step);
        FaultFrame(CommandStep(posed, step), plan.id);
      } else {
        CaptureState(s, scan.(plan := plan.(steps := plan.steps[1..])), plan.steps[0].face, env);
      }
    }
  }

  lemma {:induction false} CaptureState(s: State, scan: ActiveScan, face: LogicalFace, env: Env)
    ensures CaptureStep(s, scan, face, env).status.scan.state == s.status.scan.state
  {
    hide Record;
  }

  /** A scan ends without a fault. */
  predicate ScanOver(before: StatusSnapshot, after: StatusSnapshot) {
    before.scan.state == InProgress && (after.scan.state == Valid || after.scan.state == Invalid)
  }

  /** Six captures, one of each face, decide how the scan ends; what follows in the same tick
      is told unless the solver has already answered. */
  ghost predicate Decided(shots: seq<Shot>, before: StatusSnapshot, r: State, events: seq<Event>, solving: bool) {
    && |shots| == 6 && InOrder(shots) && before.operation.Some?
    && (r.status.scan.state == Valid <==> Conclusive(shots))
    && (!Conclusive(shots) ==> EndsInvalid(shots, before, r, events))
    && (Conclusive(shots) && (before.operation.value.kind == Scan || solving) ==> EndsValid(shots, before, r, events))
  }

  /** In every run: when a tick ends a scan without a fault, the six captures that arrived
      while it ran, one of each face, decide the outcome. It is valid exactly when all of them
      were recognised with all nine stickers named and the faces can be given to the solver;
      then it publishes what was seen, and completes, or begins to solve with the string that
      names the stickers. Otherwise it is invalid, with the error of the first bad capture. */
  lemma {:induction false} CapturesDecideScan(times: Calibration, script: seq<bool>, w: SW.World, xs: seq<SC.Experience>, now: nat, env: Env)
    requires var s := SC.RunBoth(Initial(times, script), w, xs).0; ScanOver(s.status, Tick(s, now, env).0.status)
    ensures var s := SC.RunBoth(Initial(times, script), w, xs).0;
            Decided(Shots(Initial(times, script), w, xs), s.status, Tick(s, now, env).0, Tick(s, now, env).1, env.solver.StillSolving?)
  {
    hide Resting, Inv, Tick, SC.RunBoth, Shots, ScanTold, SW.Mechanical, Decided;
    var s, shots := SC.RunBoth(Initial(times, script), w, xs).0, Shots(Initial(times, script), w, xs);
    RunsAreTold(times, script, w, xs);
    SC.RunsAreMechanical(times, script, w, xs);
    RestIsQuiet(s);
    EndingDecides(s, now, env, shots);
  }

  lemma {:induction false} EndingDecides(s: State, now: nat, env: Env, shots: seq<Shot>)
    requires Inv(s) && s.events == [] && ScanTold(s, shots) && ScanOver(s.status, Tick(s, now, env).0.status)
    ensures Decided(shots, s.status, Tick(s, now, env).0, Tick(s, now, env).1, env.solver.StillSolving?)
  {
    hide Inv, Tick, ScanTold, Conclusive, EndsValid, EndsInvalid, FinishScan, InOrder;
    EndingTick(s, now, env, shots);
    FinishIs(s, shots);
    var f := FinishScan(s.(scan := None), s.scan.value);
    BareEnds(shots, s.status, f);
    ScanIsOperation(s);
  }

  lemma {:induction false} ScanIsOperation(s: State)
    requires Inv(s) && s.scan.Some?
    ensures s.status.operation.Some? && s.status.operation.value.kind == s.scan.value.plan.kind
  {
  }

  lemma {:induction false} RestIsQuiet(s: State)
    requires Resting(s)
    ensures Inv(s) && s.events == []
  {
  }

  lemma {:induction false} BareEnds(shots: seq<Shot>, before: StatusSnapshot, f: State)
    ensures EndsValid(shots, before, f, f.events) ==> EndsValid(shots, before, f.(events := []), f.events) && f.status.scan.state == Valid
    ensures EndsInvalid(shots, before, f, f.events) ==> EndsInvalid(shots, before, f.(events := []), f.events) && f.status.scan.state == Invalid
  {
    hide Conclusive, CS.Names, FacesSeen, FirstError;
  }

  lemma {:induction false} AllFacesGathered(shots: seq<Shot>, i: nat)
    requires InOrder(shots) && |shots| == 6 && AllGood(shots) && i < 6
    ensures Gathered(shots)[i].Some?
  {
    var j := [3, 1, 4, 2, 0, 5][i];
    assert FaceOrder(SP.SCAN_ORDER[j]) == i;
    GatheredIsNamed(shots, j);
  }

  lemma {:induction false} TrueCapturesConclude(s: State, view: F.View, paint: SC.Paint, shots: seq<Shot>)
    requires F.Balanced(view) && CS.Injective(paint) && InOrder(shots) && |shots| == 6 && AllGood(shots)
    requires s.scan.Some? && s.scan.value.cube == Gathered(shots)
    requires SC.SlotsTrue(s.scan.value.cube, s.status.scan.faces, view, paint)
    ensures Conclusive(shots) && forall letters :: CS.Names(CS.ColorsOf(Gathered(shots)), letters) ==> letters == CS.Letters(view)
  {
    hide CS.Names, CS.Acceptable, SolverString, Gathered, InOrder;
    var slots := Gathered(shots);
    forall i | 0 <= i < 6
      ensures slots[i] == Some(CS.Photo(view, FACES[i], paint))
    {
      AllFacesGathered(shots, i);
    }
    SC.TrueSlots(slots, view, paint);
    SC.StringIsTrue(slots, view, paint);
    AcceptableIsNamed(slots);
    forall letters | CS.Names(CS.ColorsOf(slots), letters)
      ensures letters == CS.Letters(view)
    {
      DistinctWhenAcceptable(slots);
      CS.NamesUnique(CS.ColorsOf(slots), letters, CS.Letters(view));
    }
  }

  lemma {:induction false} DistinctWhenAcceptable(slots: CS.Slots)
    requires CS.Acceptable(slots)
    ensures CS.DistinctCentres(CS.ColorsOf(slots))
  {
  }

  /** In every fair run a scan whose six captures named every sticker is valid, and the
      automatic cycle gives the solver the facelets of the held cube. */
  lemma {:induction false} GoodCapturesAreValid(times: Calibration, script: seq<bool>, w: SW.World, xs: seq<SC.Experience>, now: nat, env: Env,
                                                paint: SC.Paint)
    requires CS.Injective(paint) && SC.FairRun(Initial(times, script), w, xs, paint)
    requires var s := SC.RunBoth(Initial(times, script), w, xs).0; ScanOver(s.status, Tick(s, now, env).0.status)
    requires AllGood(Shots(Initial(times, script), w, xs))
    ensures var (s, world) := SC.RunBoth(Initial(times, script), w, xs);
            var r := Tick(s, now, env).0;
            && r.status.scan.state == Valid
            && (s.status.operation.Some? && s.status.operation.value.kind == ScanSolveExecute && env.solver.StillSolving? ==>
                  r.solve.Some? && TrueLetters(r.solve.value.letters, world.cube))
  {
    hide Resting, Inv, Tick, SC.RunBoth, Shots, SW.Mechanical, Decided, SC.FairRun, SC.Faithful;
    var (s, world) := SC.RunBoth(Initial(times, script), w, xs);
    var shots := Shots(Initial(times, script), w, xs);
    RunsAreTold(times, script, w, xs);
    SC.RunsAreMechanical(times, script, w, xs);
    SC.FairRunsAreFaithful(times, script, w, xs, paint);
    RestIsQuiet(s);
    EndingDecides(s, now, env, shots);
    FairScanEnds(s, world, paint, now, env, shots);
  }

  ghost predicate TrueLetters(letters: seq<LogicalFace>, cube: Cube) {
    F.Balanced(F.ViewOf(cube)) && letters == CS.Letters(F.ViewOf(cube))
  }

  lemma {:induction false} FairScanEnds(s: State, w: SW.World, paint: SC.Paint, now: nat, env: Env, shots: seq<Shot>)
    requires Inv(s) && s.events == [] && ScanTold(s, shots) && ScanOver(s.status, Tick(s, now, env).0.status)
    requires CS.Injective(paint) && SC.Faithful(s, w, paint) && AllGood(shots)
    requires Decided(shots, s.status, Tick(s, now, env).0, Tick(s, now, env).1, env.solver.StillSolving?)
    ensures var r := Tick(s, now, env).0;
            && r.status.scan.state == Valid
            && (s.status.operation.Some? && s.status.operation.value.kind == ScanSolveExecute && env.solver.StillSolving? ==>
                  r.solve.Some? && TrueLetters(r.solve.value.letters, w.cube))
  {
    hide Tick, Conclusive, Gathered, FacesSeen, FirstError, InOrder, CS.Names, Counted, PhaseFits, PendingMoves, Ids, SC.SlotsTrue;
    EndingTick(s, now, env, shots);
    ST.OneSlot(s);
    TrueCapturesConclude(s, F.ViewOf(w.cube), paint, shots);
  }
}

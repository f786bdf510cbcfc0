/** The simulator beside the service: fed the statuses of an accepted move sequence, of an
    accepted solution or of an automatic cycle, it animates exactly the requested moves. */
module ReplayService {
  import opened Geometry
  import opened Stand
  import opened Mechanics
  import opened Options
  import opened Protocol
  import opened RobotService
  import opened ServiceInvariants
  import opened ServiceWorld
  import opened ServiceCube
  import opened Replay
  import opened ReplayRuns
  import MP = MovePlanner
  import SP = ScanPlan
  import PM = PlanMeaning
  import PS = PlanSafety

  function See(sight: Sight, status: StatusSnapshot): Sight {
    var (view, done) := Replay.Seen(sight.view, status);
    Sight(view, if done.Some? then sight.shown + [done.value] else sight.shown)
  }

  /** A status is passed on when it has changed. */
  function SeeChange(sight: Sight, last: StatusSnapshot, now: StatusSnapshot): Sight {
    if now == last then sight else See(sight, now)
  }

  /** The sight after a run of inputs. */
  ghost function Observe(sight: Sight, s: State, w: World, xs: seq<Experience>): Sight {
    hide Step, WorldStep, SeeChange;
    if xs == [] then sight
    else
      var before := xs[..|xs| - 1];
      SeeChange(Observe(sight, s, w, before), RunBoth(s, w, before).0.status, RunBoth(s, w, xs).0.status)
  }

  /** The requested plan is being executed. */
  predicate Underway(s: State, q: Request) {
    s.execute.Some? && s.execute.value.id == q.id && s.execute.value.kind == q.kind
  }

  ghost predicate UnderwayUntil(s: State, w: World, xs: seq<Experience>, q: Request) {
    hide Step, WorldStep, RunBoth, Underway;
    forall k :: 0 <= k < |xs| ==> Underway(RunBoth(s, w, xs[..k]).0, q)
  }

  /** How many steps of the plan have ended. */
  function Done(q: Request, s: State): nat {
    if s.execute.Some? && |Rest(s.execute.value)| <= |Full(q)| then |Full(q)| - |Rest(s.execute.value)| else 0
  }

  function Pending(s: State): Option<MP.Step> {
    if s.execute.Some? then s.execute.value.pending else None
  }

  // ---- one status -----------------------------------------------------------------

  lemma {:induction false} AxisAlike(v: View, a: StandState, b: StandState, id: nat, started: seq<Side>, axis: Side)
    requires a.rails == b.rails && a.grippers == b.grippers
    ensures AxisSeen(v, a, id, started, axis) == AxisSeen(v, b, id, started, axis)
  {
    hide PhysicalFace, IsHalf, IsTurnTarget;
    assert TurnStart(v, a, started, axis) == TurnStart(v, b, started, axis);
    hide TurnStart;
  }

  lemma {:induction false} AxesAlike(v: View, a: StandState, b: StandState, id: nat, started: seq<Side>, sides: seq<Side>)
    requires a.rails == b.rails && a.grippers == b.grippers
    ensures AxesSeen(v, a, id, started, sides) == AxesSeen(v, b, id, started, sides)
    decreases |sides|
  {
    hide AxisSeen;
    if sides != [] {
      AxesAlike(v, a, b, id, started, sides[..|sides| - 1]);
      AxisAlike(AxesSeen(v, a, id, started, sides[..|sides| - 1]).0, a, b, id, started, sides[|sides| - 1]);
    }
  }

  /** The published pose matters at most for the frame. */
  lemma {:induction false} StandsAlike(sight: Sight, a: StandState, b: StandState, id: nat)
    requires a.rails == b.rails && a.grippers == b.grippers
    ensures Look(sight, a, id) == Look(sight, b, id)
  {
    hide AxesSeen;
    var framed := sight.view.(frame := FrameSeen(sight.view.frame, a));
    AxesAlike(framed, a, b, id, StartedFrom(framed.previous, a.grippers, SIDES), SIDES);
  }

  predicate Introduced(v: View, id: nat) {
    v.operation == Some(id) && v.solutionAtStart.None?
  }

  predicate Of(status: StatusSnapshot, q: Request) {
    status.operation.Some? && status.operation.value.id == q.id && status.operation.value.kind == q.kind
  }

  /** The operations in which layers turn. */
  predicate Turns(q: Request) {
    q.kind == OperationKind.ExecuteMoves || q.kind == OperationKind.Execute || q.kind == OperationKind.ScanSolveExecute
  }

  /** A status of the operation, once it is known to the view and while a move is unread. */
  lemma {:induction false} SeeIsLook(sight: Sight, status: StatusSnapshot, q: Request)
    requires Introduced(sight.view, q.id) && Of(status, q) && Turns(q)
    requires CanonicalSeen(status.stand) ==> sight.view.frame == MP.Canonical
    requires q.kind == OperationKind.ExecuteMoves || sight.view.index < |sight.view.expected|
    ensures See(sight, status) == Look(sight, status.stand, q.id)
  {
    hide AxesSeen, FrameSeen, StartedFrom;
  }

  /** Axes never touch the operation. */
  lemma {:induction false} AxesKeep(v: View, stand: StandState, id: nat, started: seq<Side>, sides: seq<Side>)
    ensures var after := AxesSeen(v, stand, id, started, sides).0;
            after.operation == v.operation && after.solutionAtStart == v.solutionAtStart && after.frame == v.frame
    decreases |sides|
  {
    hide TurnStart;
    if sides != [] {
      AxesKeep(v, stand, id, started, sides[..|sides| - 1]);
    }
  }

  lemma {:induction false} LookKeeps(sight: Sight, stand: StandState, id: nat)
    ensures var after := Look(sight, stand, id).view;
            && after.operation == sight.view.operation && after.solutionAtStart == sight.view.solutionAtStart
            && after.frame == FrameSeen(sight.view.frame, stand)
  {
    hide AxesSeen, FrameSeen, StartedFrom;
    var framed := sight.view.(frame := FrameSeen(sight.view.frame, stand));
    AxesKeep(framed, stand, id, StartedFrom(framed.previous, stand.grippers, SIDES), SIDES);
  }

  // ---- the view follows the service -----------------------------------------------

  /** The sight at a state of the execution. */
  ghost function Expected(q: Request, cube: Cube, s: State): Sight {
    var sight, m := SightAfter(q, cube, Done(q, s)), MachineAfter(q, cube, Done(q, s));
    if Pending(s).Some? then LookBegin(q, sight, m, Pending(s).value) else sight
  }

  /** Canonical grip is published only before the first step. */
  predicate PoseTells(q: Request, s: State) {
    s.status.stand.pose == CANONICAL ==> Pending(s).None? && Done(q, s) == 0
  }

  /** The plan is that of the requested moves: of the last accepted sequence, or of the
      published solution. */
  predicate Asked(q: Request, s: State, w: World) {
    if q.kind == OperationKind.ExecuteMoves then w.moves == q.moves else s.status.solution.moves == q.moves
  }

  ghost predicate Executing(q: Request, cube: Cube, s: State, w: World) {
    && Resting(s) && Mechanical(s, w) && Underway(s, q) && Turns(q) && Asked(q, s, w) && w.cube == cube && PoseTells(q, s)
  }

  /** Where an execution is. */
  ghost predicate Placed(q: Request, cube: Cube, s: State, w: World) {
    var k := Done(q, s);
    && s.execute.Some? && k <= |Full(q)| && |Rest(s.execute.value)| == |Full(q)| - k
    && MachineAfter(q, cube, k) == w.machine && Shows(s.status.stand, w.machine, Pending(s))
    && Rest(s.execute.value) == MotionSteps(Full(q)[k..])
    && (Pending(s).Some? ==> k < |Full(q)| && Pending(s).value == Full(q)[k])
    && Of(s.status, q) && s.scan.None? && s.solve.None? && s.motion.None? && s.status.session.Some?
  }

  lemma {:induction false} PlaceInPlan(q: Request, cube: Cube, s: State, w: World)
    requires Executing(q, cube, s, w)
    ensures Placed(q, cube, s, w)
  {
    hide Mechanical, Shows, Follows, DataBelongs, Counted, PendingMoves, CacheInv, MP.OptimizedHeldSteps,
         MP.ExecuteSteps, PoseTells, MachineAfter;
    OwnerFacts(s);
    ExecutingFacts(s, w);
    assert Full(q) == FullPlan(q.kind, s.status.solution.moves, w.moves);
    FollowedPlan(q, cube, s.execute.value, w);
  }

  lemma {:induction false} OwnerFacts(s: State)
    requires Inv(s) && s.execute.Some?
    ensures s.motion.None? && s.scan.None? && s.solve.None? && s.status.session.Some? && s.status.operation.Some?
    ensures s.status.operation.value.id == s.execute.value.id && s.status.operation.value.kind == s.execute.value.kind
  {
    hide Counted, PendingMoves, Ids;
  }

  lemma {:induction false} FollowedPlan(q: Request, cube: Cube, plan: ActivePlan, w: World)
    requires Follows(Rest(plan), Full(q), w) && w.cube == cube
    ensures var k := |Full(q)| - |Rest(plan)|;
            && 0 <= k && MachineAfter(q, cube, k) == w.machine && Rest(plan) == MotionSteps(Full(q)[k..])
            && (plan.pending.Some? ==> k < |Full(q)| && plan.pending.value == Full(q)[k])
  {
    hide Run, Full;
    if plan.pending.Some? {
      FollowsHead(Rest(plan), Full(q), w);
    }
  }

  /** Seeing the stand that the sight already matches changes nothing. */
  lemma {:induction false} SeenAgain(q: Request, cube: Cube, s: State, w: World)
    requires Placed(q, cube, s, w)
    ensures Look(Expected(q, cube, s), s.status.stand, q.id) == Expected(q, cube, s)
  {
    hide Look, LookStep, Full, Rest, Shows, MachineAfter, SightAfter, Run;
    SightFacts(q, cube, Done(q, s));
    ShownStand(s.status.stand, w.machine, Pending(s));
    StandsAlike(Expected(q, cube, s), s.status.stand, StandOf(w.machine, Pending(s)), q.id);
  }

  lemma {:induction false} ShownStand(stand: StandState, m: Machine, pending: Option<MP.Step>)
    requires Shows(stand, m, pending)
    ensures stand.rails == StandOf(m, pending).rails && stand.grippers == StandOf(m, pending).grippers
  {
  }

  // ---- one step of the execution --------------------------------------------------

  /** Markers and switched-off outputs take no time. */
  predicate Silent(step: SP.MotionStep) {
    step == SP.Motion(MP.MoveCompleted) || step == SP.Motion(MP.AllOff)
  }

  /** What a tick of the execution does: nothing, begin a step, end a step, or pass a
      marker. */
  predicate Goes(s: State, r: State) {
    && s.execute.Some? && r.execute.Some?
    && (var a, b := s.execute.value, r.execute.value;
        || (b == a && r.status.stand == s.status.stand)
        || (a.pending.None? && a.steps != [] && a.steps[0].Motion? && b.pending == Some(a.steps[0].step) && b.steps == a.steps[1..]
            && r.status.stand.pose.kind == MovePose)
        || (a.pending.Some? && b.pending.None? && b.steps == a.steps && r.status.stand.pose == s.status.stand.pose)
        || (a.pending.None? && b.pending.None? && a.steps != [] && Silent(a.steps[0]) && b.steps == a.steps[1..]
            && (r.status.stand.pose.kind == MovePose
                || (a.steps[0] == SP.Motion(MP.AllOff) && r.status.stand.pose == s.status.stand.pose))))
  }

  /** The next step is the plan's. */
  lemma {:induction false} NextInPlan(plan: ActivePlan, full: seq<MP.Step>, k: nat)
    requires k <= |full| && Rest(plan) == MotionSteps(full[k..]) && plan.pending.None? && plan.steps != []
    ensures k < |full| && plan.steps[0] == SP.Motion(full[k])
  {
  }

  /** A plan does not begin by switching off. */
  lemma {:induction false} BeginsOn(q: Request, cube: Cube)
    ensures Full(q) != [] ==> Full(q)[0] != MP.AllOff
  {
    hide MP.OptimizedHeldSteps, MP.ExecuteSteps;
    if q.kind == OperationKind.ExecuteMoves {
      if Full(q) != [] {
        PS.HeldPlanSafeAtEveryPrefix(q.moves, cube, 0);
      }
    } else {
      PS.FirstStepMoves(q.moves);
    }
  }

  lemma {:induction false} BeginGoes(s: State, step: MP.Step)
    ensures CommandStep(s, step).status.stand.pose == s.status.stand.pose
    ensures CommandStep(s, step).execute == s.execute && CommandStep(s, step).status.solution == s.status.solution
  {
  }

  /** What happens to the stand and to the solution when a step ends. */
  lemma {:induction false} PendingGoes(s: State, now: nat)
    requires PendingMoves(s) && Pending(s).Some? && Due(s.execute.value.deadline, now) && AdvanceExecute(s, now).execute.Some?
    ensures Goes(s, AdvanceExecute(s, now)) && AdvanceExecute(s, now).status.solution == s.status.solution
  {
    hide AdvanceExecute, StartRails, StopRails, StartGrippers, StopGrippers;
    var step := s.execute.value.pending.value;
    assert FinishPending(s, step).status.stand.pose == s.status.stand.pose;
    ExecutePendingLeaves(s, now);
  }

  /** And when one begins, or a silent one passes. */
  lemma {:induction false} NextGoes(s: State, now: nat)
    requires s.execute.Some? && s.execute.value.kind != OpenStand && Pending(s).None? && Due(s.execute.value.deadline, now)
    requires s.execute.value.steps != [] && s.execute.value.steps[0].Motion? && AdvanceExecute(s, now).execute.Some?
    ensures Goes(s, AdvanceExecute(s, now))
    ensures s.execute.value.kind != OperationKind.ExecuteMoves ==>
              AdvanceExecute(s, now).status.solution.moves == s.status.solution.moves
  {
    hide CommandStep, StepDuration, Commanded, FinishPending;
    var step := s.execute.value.steps[0].step;
    if step.SetRails? || step.SetGrippers? {
      var posed := SetPose(s, StandPose(MovePose, Some(Front)));
      BeginGoes(posed, step);
      ExecuteCommandLeaves(s, now, step, CommandStep(posed, step));
    }
  }

  lemma {:induction false} ExecutionGoes(q: Request, cube: Cube, s: State, w: World, now: nat)
    requires Executing(q, cube, s, w) && Underway(AdvanceExecute(s, now), q)
    ensures Goes(s, AdvanceExecute(s, now))
    ensures q.kind != OperationKind.ExecuteMoves ==> AdvanceExecute(s, now).status.solution.moves == s.status.solution.moves
  {
    hide MP.OptimizedHeldSteps, MP.ExecuteSteps, Counted, Ids, PendingMoves, PhaseFits, DataBelongs, Mechanical,
         CommandStep, FinishPending;
    assert PendingMoves(s) && Turns(q) && Underway(s, q);
    if Due(s.execute.value.deadline, now) {
      if Pending(s).Some? {
        hide AdvanceExecute, Executing, Goes;
        PendingGoes(s, now);
      } else if s.execute.value.steps != [] {
        PlaceInPlan(q, cube, s, w);
        NextInPlan(s.execute.value, Full(q), Done(q, s));
        BeginsOn(q, cube);
        hide AdvanceExecute, Executing, Goes;
        NextGoes(s, now);
      } else {
        hide Executing;
      }
    } else {
      hide Executing;
    }
  }

  /** While the plan is executed, a tick is a tick of the execution. */
  lemma {:induction false} TickGoes(q: Request, cube: Cube, s: State, w: World, now: nat, env: Env, inserted: Cube)
    requires Placed(q, cube, s, w)
    ensures Tick(s, now, env).0 == AdvanceExecute(s, now).(events := [])
    ensures WorldAfterTick(s, w, now, env, inserted) == WorldAfterExecute(s, w, now)
  {
    hide AdvanceExecute, WorldAfterExecute, MachineAfter, Full, Shows, MP.OptimizedHeldSteps, MP.ExecuteSteps,
         FinishScan, CaptureStep, FinishExecute, MarkerStep;
    assert AdvanceMotion(s, now) == s;
    assert AdvanceScan(s, now, env) == s;
    assert AdvanceSolve(s, env) == s;
  }

  lemma {:induction false} CommandGoes(s: State, w: World, command: Command, env: Env)
    requires OperationActive(s) && !command.AbortCommand?
    ensures Obey(s, command, env) == s && WorldAfterCommand(s, w, command) == w
  {
    hide MP.OptimizedHeldSteps, MP.ExecuteSteps;
  }

  /** A command finds the operation running, or aborts it. */
  lemma {:induction false} CommandOrAbort(s: State, w: World, command: Command, env: Env)
    requires OperationActive(s)
    ensures WorldAfterCommand(s, w, command) == w
    ensures Obey(s, command, env) == s || Stopped(Obey(s, command, env))
  {
    if !command.AbortCommand? {
      CommandGoes(s, w, command, env);
    }
  }

  /** Nothing runs, nothing is ready. */
  predicate Stopped(s: State) {
    && s.motion.None? && s.scan.None? && s.solve.None? && s.execute.None? && s.status.operation.None?
    && s.status.controller != Ready
  }

  /** A packet or a press changes nothing that the simulator sees, or stops the operation. */
  lemma {:induction false} RequestGoes(s: State, w: World, x: Experience)
    requires OperationActive(s) && !x.input.TimePasses?
    ensures WorldStep(s, w, x) == w
    ensures var r := Step(s, x.input);
            || Stopped(r)
            || (r.status == s.status && r.motion == s.motion && r.scan == s.scan && r.solve == s.solve && r.execute == s.execute)
  {
    hide Obey, WorldAfterCommand, HandlePacket, MP.OptimizedHeldSteps, MP.ExecuteSteps, AdvanceScan, AdvanceSolve,
         AdvanceMotion;
    match x.input {
      case PacketArrives(packet, env) =>
        var core, cache := PacketIs(s, packet, env);
        if Fresh(s, packet) {
          CommandOrAbort(s, w, packet.command.value, env);
        }
      case ButtonPressed(local, env) =>
        CommandOrAbort(s, w, LocalAsCommand(local), env);
      case TimePasses(now, env) =>
    }
  }

  /** After an input, either the plan is still being executed one step on, or nothing is. */
  lemma {:induction false} StepGoes(q: Request, cube: Cube, s: State, w: World, x: Experience)
    requires Executing(q, cube, s, w)
    ensures var r, v := Step(s, x.input), WorldStep(s, w, x);
            Underway(r, q) ==> Goes(s, r) && Asked(q, r, v) && v.cube == w.cube
  {
    hide Mechanical;
    PlaceInPlan(q, cube, s, w);
    if x.input.TimePasses? {
      var now := x.input.now;
      TickGoes(q, cube, s, w, now, x.input.env, x.inserted);
      if Underway(AdvanceExecute(s, now), q) {
        ExecutionGoes(q, cube, s, w, now);
        hide Placed, Resting, Mechanical, PoseTells;
        NotEnded(q, s, w, now);
      }
    } else {
      hide Placed, Resting, Mechanical, PoseTells, Step, WorldStep;
      RequestGoes(s, w, x);
    }
  }

  lemma {:induction false} NotEnded(q: Request, s: State, w: World, now: nat)
    requires Underway(s, q) && Underway(AdvanceExecute(s, now), q)
    ensures WorldAfterExecute(s, w, now).cube == w.cube && WorldAfterExecute(s, w, now).moves == w.moves
  {
    hide CommandStep, FinishPending;
  }

  lemma {:induction false} StaysExecuting(q: Request, cube: Cube, s: State, w: World, x: Experience)
    requires Executing(q, cube, s, w) && Underway(Step(s, x.input), q)
    ensures Executing(q, cube, Step(s, x.input), WorldStep(s, w, x)) && Goes(s, Step(s, x.input))
  {
    hide Inv, Resting, Mechanical, AdvanceScan, AdvanceSolve, AdvanceMotion, Obey, HandlePacket, Full, Turning;
    var r, v := Step(s, x.input), WorldStep(s, w, x);
    assert Resting(s) && Mechanical(s, w) && PoseTells(q, s) && s.execute.Some?;
    StepGoes(q, cube, s, w, x);
    if Pending(s).None? && s.execute.value.steps != [] {
      PlaceInPlan(q, cube, s, w);
      NextInPlan(s.execute.value, Full(q), Done(q, s));
      BeginsOn(q, cube);
    }
    hide Step, WorldStep, Resting, Mechanical, Full;
    StepMechanical(s, w, x);
    StepKeeps(s, x.input);
    PoseGoes(q, s, r);
  }

  lemma {:induction false} PoseGoes(q: Request, s: State, r: State)
    requires Goes(s, r) && PoseTells(q, s)
    requires Pending(s).None? && s.execute.value.steps != [] && s.execute.value.steps[0] == SP.Motion(MP.AllOff) ==> Done(q, s) > 0
    ensures PoseTells(q, r)
  {
    hide Full;
  }

  /** The place after a step. */
  lemma {:induction false} PlaceGoes(q: Request, cube: Cube, s: State, w: World, r: State, v: World)
    requires Placed(q, cube, s, w) && Placed(q, cube, r, v) && Goes(s, r)
    ensures Done(q, s) <= Done(q, r) <= Done(q, s) + 1
    ensures Done(q, r) == Done(q, s) ==>
              Rest(r.execute.value) == Rest(s.execute.value) && (Pending(s).Some? ==> Pending(r) == Pending(s))
    ensures Done(q, r) > Done(q, s) ==>
              && Pending(r).None? && Done(q, s) < |Full(q)|
              && (Pending(s).None? ==> Silent(SP.Motion(Full(q)[Done(q, s)])))
  {
    hide Full, MachineAfter, Shows;
    var a, b, k := s.execute.value, r.execute.value, Done(q, s);
    if b.pending.Some? && a.pending.None? {
      assert Rest(b) == Rest(a);
    } else if b != a {
      assert Rest(b) == Rest(a)[1..];
      assert Rest(a)[0] == SP.Motion(Full(q)[k]);
    }
  }

  /** Seeing the next stand keeps the sight where the execution is. */
  lemma {:induction false} SightGoes(q: Request, cube: Cube, s: State, w: World, r: State, v: World)
    requires Placed(q, cube, s, w) && Placed(q, cube, r, v) && Goes(s, r)
    ensures Look(Expected(q, cube, s), r.status.stand, q.id) == Expected(q, cube, r)
  {
    hide Look, Shows, Ended, Rest, Full, MachineAfter, SightAfter, Run, StandOf;
    var k := Done(q, s);
    PlaceGoes(q, cube, s, w, r, v);
    SightFacts(q, cube, k);
    ShownStand(r.status.stand, v.machine, Pending(r));
    StandsAlike(Expected(q, cube, s), r.status.stand, StandOf(v.machine, Pending(r)), q.id);
    if Done(q, r) == k {
      SeenAgain(q, cube, r, v);
    } else if Pending(s).None? {
      SilentIsStill(w.machine, Full(q)[k]);
    }
  }

  lemma {:induction false} SilentIsStill(m: Machine, step: MP.Step)
    requires Silent(SP.Motion(step))
    ensures Ended(m, step) == m && StandOf(m, Some(step)) == StandOf(m, None)
  {
  }

  // ---- the sight of an execution --------------------------------------------------

  /** Every move is shown; a view that takes the same moves again finds nothing to read. */
  ghost predicate AllShown(q: Request, sight: Sight) {
    && sight.shown == AllRendered(q.moves) && Introduced(sight.view, q.id) && sight.view.active.None?
    && (q.moves != [] ==> sight.view.violation.None?)
  }

  /** The sight fits the execution: exactly so until the last turn, and then with every
      move shown. */
  ghost predicate Tracked(q: Request, cube: Cube, s: State, sight: Sight) {
    if Done(q, s) < Turning(q) then sight == Expected(q, cube, s) else AllShown(q, sight)
  }

  /** What has been shown is a prefix of the moves, without a violation. */
  predicate InOrder(q: Request, sight: Sight) {
    && (q.moves != [] ==> sight.view.violation.None?)
    && |sight.shown| <= |q.moves| && sight.shown == AllRendered(q.moves)[..|sight.shown|]
  }

  /** The sight of an execution in progress. */
  ghost predicate Sighted(q: Request, cube: Cube, s: State) {
    var sight := Expected(q, cube, s);
    && Introduced(sight.view, q.id) && InOrder(q, sight)
    && (Done(q, s) == 0 && Pending(s).None? ==> sight.view.frame == MP.Canonical)
    && (Done(q, s) == |Full(q)| ==> sight.shown == AllRendered(q.moves))
    && (q.kind != OperationKind.ExecuteMoves && Done(q, s) < Turning(q) ==> sight.view.index < |sight.view.expected|)
    && (q.kind != OperationKind.ExecuteMoves && Done(q, s) >= Turning(q) && Pending(s).None? ==> AllShown(q, sight))
  }

  lemma {:induction false} ExpectedFacts(q: Request, cube: Cube, s: State, w: World)
    requires Placed(q, cube, s, w)
    ensures Sighted(q, cube, s)
  {
    hide Look, LookStep, LookBegin, Full, MachineAfter, SightAfter, Rest, Shows, Run, Turning, AllRendered, Visuals;
    var k := Done(q, s);
    SightFacts(q, cube, k);
    if q.kind != OperationKind.ExecuteMoves {
      LastTurnReads(q, cube, k);
      if k >= Turning(q) {
        TailIsRead(q, cube, k);
      }
    }
    var sight := SightAfter(q, cube, k);
    RestShown(q, sight);
    if Pending(s).Some? {
      BeginIntroduced(q, sight, w.machine, Pending(s).value);
    }
  }

  lemma {:induction false} RestShown(q: Request, sight: Sight)
    requires AtRest(q, sight)
    ensures InOrder(q, sight) && Introduced(sight.view, q.id) && sight.view.active.None? && |sight.view.expected| == |q.moves|
    ensures sight.view.index == |q.moves| ==> sight.shown == AllRendered(q.moves)
  {
  }

  lemma {:induction false} BeginIntroduced(q: Request, sight: Sight, m: Machine, step: MP.Step)
    requires AtRest(q, sight)
    ensures Introduced(LookBegin(q, sight, m, step).view, q.id)
  {
    LookKeeps(sight, StandOf(m, Some(step)), q.id);
  }

  /** When every move is shown, a status in which no gripper moves shows nothing more. */
  lemma {:induction false} NothingMoreShown(q: Request, sight: Sight, status: StatusSnapshot)
    requires AllShown(q, sight) && Of(status, q) && Turns(q) && Still(status.stand.grippers)
    ensures AllShown(q, See(sight, status))
  {
    hide FrameSeen, StartedFrom, AllRendered, Visuals, AxesSeen;
    var settled := if CanonicalSeen(status.stand) then sight.view.(frame := MP.Canonical) else sight.view;
    var ready := Expecting(settled, status.operation.value, status.solution);
    StillLooked(ready, status.stand, q.id);
  }

  // ---- whole executions -----------------------------------------------------------

  lemma {:induction false} RunNothing(s: State, w: World)
    ensures RunBoth(s, w, []) == (s, w)
  {
    hide AdvanceScan, AdvanceSolve, AdvanceMotion, Obey, HandlePacket;
  }

  lemma {:induction false} LastStep(s: State, w: World, xs: seq<Experience>, q: Request)
    requires xs != [] && UnderwayUntil(s, w, xs, q)
    ensures var before, last := xs[..|xs| - 1], xs[|xs| - 1];
            var (t, world) := RunBoth(s, w, before);
            && UnderwayUntil(s, w, before, q) && Underway(t, q)
            && RunBoth(s, w, xs) == (Step(t, last.input), WorldStep(t, world, last))
  {
    hide Step, WorldStep, Underway;
    var before := xs[..|xs| - 1];
    forall j | 0 <= j < |before|
      ensures Underway(RunBoth(s, w, before[..j]).0, q)
    {
      assert before[..j] == xs[..j];
    }
  }

  /** From a state that the sight fits, it keeps fitting. */
  lemma {:induction false} FollowedOneStep(q: Request, cube: Cube, s: State, w: World, sight: Sight, r: State, v: World)
    requires Placed(q, cube, s, w) && Placed(q, cube, r, v) && Goes(s, r) && Turns(q) && PoseTells(q, r)
    requires Tracked(q, cube, s, sight)
    ensures Tracked(q, cube, r, SeeChange(sight, s.status, r.status))
  {
    hide Full, MachineAfter, SightAfter, Shows, Look, See, Turning, Rest, Expected, Goes, AllShown;
    PlaceGoes(q, cube, s, w, r, v);
    if Done(q, s) < Turning(q) {
      FollowedTurning(q, cube, s, w, sight, r, v);
    } else {
      StillAfterTurning(q, cube, r, v);
      NothingMoreShown(q, sight, r.status);
    }
  }

  lemma {:induction false} StillAfterTurning(q: Request, cube: Cube, s: State, w: World)
    requires Placed(q, cube, s, w) && Done(q, s) >= Turning(q)
    ensures Still(s.status.stand.grippers)
  {
    hide Full, MachineAfter, Rest, Run, AxesSeen, AxisSeen, StartedFrom, Watch, Turning;
    var k := Done(q, s);
    if q.kind != OperationKind.ExecuteMoves {
      LastTurnReads(q, cube, k);
    } else {
      HeldTurning(q);
    }
    hide Turning;
    ShownStand(s.status.stand, w.machine, Pending(s));
  }

  lemma {:induction false} HeldTurning(q: Request)
    requires q.kind == OperationKind.ExecuteMoves
    ensures Turning(q) == |Full(q)| + 1
  {
  }

  lemma {:induction false} FollowedTurning(q: Request, cube: Cube, s: State, w: World, sight: Sight, r: State, v: World)
    requires Placed(q, cube, s, w) && Placed(q, cube, r, v) && Goes(s, r) && Turns(q) && PoseTells(q, r)
    requires Done(q, s) < Turning(q) && sight == Expected(q, cube, s)
    ensures Tracked(q, cube, r, SeeChange(sight, s.status, r.status))
  {
    hide Full, MachineAfter, SightAfter, Shows, Look, See, Turning, Rest, Expected, Goes, AllShown, InOrder;
    ExpectedFacts(q, cube, s, w);
    ExpectedFacts(q, cube, r, v);
    SightGoes(q, cube, s, w, r, v);
    PlaceGoes(q, cube, s, w, r, v);
    CanonicalIsFirst(q, cube, s, w, r, v);
    SeeIsLook(sight, r.status, q);
    if r.status == s.status {
      SeenAgain(q, cube, s, w);
    }
    if Done(q, r) >= Turning(q) {
      HeldReads(q, cube, r, v);
    }
  }

  lemma {:induction false} HeldReads(q: Request, cube: Cube, s: State, w: World)
    requires Placed(q, cube, s, w) && Done(q, s) >= Turning(q)
    ensures q.kind != OperationKind.ExecuteMoves
  {
    hide Full, Shows, StandOf, Watch, Run;
  }

  lemma {:induction false} CanonicalIsFirst(q: Request, cube: Cube, s: State, w: World, r: State, v: World)
    requires Placed(q, cube, s, w) && Placed(q, cube, r, v) && Goes(s, r) && PoseTells(q, r)
    ensures CanonicalSeen(r.status.stand) ==> Done(q, s) == 0 && Pending(s).None?
  {
    hide MP.OptimizedHeldSteps, MP.ExecuteSteps, Shows, StandOf, Watch, Run;
    PlaceGoes(q, cube, s, w, r, v);
    hide Placed, Done, Rest;
  }

  /** Only rails have been moved so far. */
  predicate OnlyRails(q: Request, s: State) {
    && (forall j :: 0 <= j < Done(q, s) && j < |Full(q)| ==> !Full(q)[j].SetGrippers?)
    && (Pending(s).Some? ==> !Pending(s).value.SetGrippers?)
  }

  lemma {:induction false} RailsKeepGrippers(q: Request, cube: Cube, k: nat)
    requires k <= |Full(q)| && forall j :: 0 <= j < k ==> !Full(q)[j].SetGrippers?
    ensures MachineAfter(q, cube, k).grippers == AllSides(MP.X)
    ensures SightAfter(q, cube, k) == RestSight(q, MP.Canonical, 0)
  {
    hide Look, LookStep, Full, MachineAfter, SightAfter, Run, FrameOn, FrameSeen, StartRails, StopRails,
         StartGrippers, StopGrippers;
    SightFacts(q, cube, k);
    if k > 0 {
      RailsKeepGrippers(q, cube, k - 1);
      SightFacts(q, cube, k - 1);
      var m, step := MachineAfter(q, cube, k - 1), Full(q)[k - 1];
      FrameKept(MP.Canonical, m);
      QuietReads(q, m, step, MP.Canonical, 0);
      FrameKept(MP.Canonical, Ended(m, step));
    }
  }

  /** A view that knows the operation and has the cube in the canonical frame. */
  predicate Knowing(v: View, id: nat) {
    Introduced(v, id) && v.frame == MP.Canonical
  }

  lemma {:induction false} EarlierOnlyRails(q: Request, cube: Cube, s: State, w: World, r: State, v: World)
    requires Placed(q, cube, s, w) && Placed(q, cube, r, v) && Goes(s, r) && OnlyRails(q, r)
    ensures OnlyRails(q, s)
  {
    hide Full, Rest, MachineAfter, Shows, Goes;
    PlaceGoes(q, cube, s, w, r, v);
  }

  /** While only rails move, the view keeps its frame, whatever it expects. */
  lemma {:induction false} RailsKeepView(q: Request, cube: Cube, s: State, w: World, sight: Sight)
    requires Placed(q, cube, s, w) && OnlyRails(q, s) && Knowing(sight.view, q.id) && q.kind == OperationKind.ExecuteMoves
    ensures Knowing(See(sight, s.status).view, q.id)
  {
    hide Full, Rest, Look, See, MachineAfter, SightAfter, Run;
    RailsKeepGrippers(q, cube, Done(q, s));
    SeeIsLook(sight, s.status, q);
    LookKeeps(sight, s.status.stand, q.id);
  }

  /** The sight fits the execution; or the view has not been told the moves yet, and knows
      where the cube is as long as only rails have moved. */
  ghost predicate Fits(q: Request, cube: Cube, s: State, sight: Sight, told: bool) {
    if told then Tracked(q, cube, s, sight)
    else q.kind == OperationKind.ExecuteMoves && (OnlyRails(q, s) ==> Knowing(sight.view, q.id))
  }

  lemma {:induction false} FitsOneStep(q: Request, cube: Cube, s: State, w: World, sight: Sight, r: State, v: World, told: bool)
    requires Placed(q, cube, s, w) && Placed(q, cube, r, v) && Goes(s, r) && Turns(q) && PoseTells(q, r)
    requires Fits(q, cube, s, sight, told)
    ensures Fits(q, cube, r, SeeChange(sight, s.status, r.status), told)
  {
    hide Placed, Tracked, Goes, PoseTells, Knowing, OnlyRails, See;
    if told {
      FollowedOneStep(q, cube, s, w, sight, r, v);
    } else if OnlyRails(q, r) {
      EarlierOnlyRails(q, cube, s, w, r, v);
      RailsKeepView(q, cube, r, v, sight);
    }
  }

  /** A run of the execution. */
  lemma {:induction false} RunIsFollowed(q: Request, cube: Cube, s: State, w: World, sight: Sight, xs: seq<Experience>, told: bool)
    requires Executing(q, cube, s, w) && Fits(q, cube, s, sight, told)
    requires UnderwayUntil(s, w, xs, q) && Underway(RunBoth(s, w, xs).0, q)
    ensures Executing(q, cube, RunBoth(s, w, xs).0, RunBoth(s, w, xs).1)
    ensures Fits(q, cube, RunBoth(s, w, xs).0, Observe(sight, s, w, xs), told)
  {
    hide Step, WorldStep, RunBoth, UnderwayUntil, Underway, Resting, Mechanical, PoseTells, Fits, Placed,
         SeeChange, Goes;
    if xs == [] {
      RunNothing(s, w);
    } else {
      var k := |xs| - 1;
      var (t, world) := RunBoth(s, w, xs[..k]);
      LastStep(s, w, xs, q);
      RunIsFollowed(q, cube, s, w, sight, xs[..k], told);
      StaysExecuting(q, cube, t, world, xs[k]);
      PlaceInPlan(q, cube, t, world);
      PlaceInPlan(q, cube, Step(t, xs[k].input), WorldStep(t, world, xs[k]));
      FitsOneStep(q, cube, t, world, Observe(sight, s, w, xs[..k]), Step(t, xs[k].input), WorldStep(t, world, xs[k]), told);
    }
  }

  // ---- the end --------------------------------------------------------------------

  /** What the simulator displays after animating the shown moves. */
  function Displayed(cube: Cube, shown: seq<VisualMove>): Cube {
    if shown == [] then cube
    else
      var last := shown[|shown| - 1];
      SpinLayer(Displayed(cube, shown[..|shown| - 1]), last.face, last.turns)
  }

  lemma {:induction false} DisplayedIsApplied(cube: Cube, moves: seq<MP.CubeMove>)
    ensures Displayed(cube, AllRendered(moves)) == PM.ApplyMoves(cube, moves)
  {
    if moves != [] {
      var k := |moves| - 1;
      DisplayedIsApplied(cube, moves[..k]);
      assert AllRendered(moves)[..k] == AllRendered(moves[..k]);
      if moves[k].turn == MP.Half {
        SpinLayerMod(PM.ApplyMoves(cube, moves[..k]), moves[k].face, -2, 2);
      }
    }
  }

  /** The machine at the end of the plan: holding the moved cube canonically, or open around
      it. */
  predicate LeftBy(q: Request, m: Machine, moved: Cube) {
    if q.kind == OperationKind.ExecuteMoves then m == CanonicalGrip(moved)
    else
      m.closed == AllSides(false) && m.cube == PM.InFrame(MP.OptimizedPlan(q.moves, MP.Release).frame, moved)
  }

  /** When the plan is no longer being executed, no operation is; and with the robot ready,
      the plan has been run to its end. */
  lemma {:induction false} ExecutionEnds(q: Request, cube: Cube, s: State, w: World, x: Experience)
    requires Executing(q, cube, s, w) && !Underway(Step(s, x.input), q)
    ensures Step(s, x.input).status.operation.None?
    ensures Step(s, x.input).status.controller == Ready ==>
              Done(q, s) == |Full(q)| && LeftBy(q, WorldStep(s, w, x).machine, PM.ApplyMoves(cube, q.moves))
  {
    hide Mechanical, AdvanceScan, AdvanceSolve, AdvanceMotion;
    PlaceInPlan(q, cube, s, w);
    if x.input.TimePasses? {
      hide MachineAfter, Shows, Full;
      TickGoes(q, cube, s, w, x.input.now, x.input.env, x.inserted);
      hide Placed;
      TickEnds(q, cube, s, w, x.input.now);
    } else {
      hide Placed, Step, WorldStep, Resting, Mechanical;
      RequestGoes(s, w, x);
    }
  }

  lemma {:induction false} TickEnds(q: Request, cube: Cube, s: State, w: World, now: nat)
    requires Executing(q, cube, s, w) && !Underway(AdvanceExecute(s, now), q)
    ensures AdvanceExecute(s, now).status.operation.None?
    ensures AdvanceExecute(s, now).status.controller == Ready ==>
              Done(q, s) == |Full(q)| && LeftBy(q, WorldAfterExecute(s, w, now).machine, PM.ApplyMoves(cube, q.moves))
  {
    hide Counted, Ids, PendingMoves, PhaseFits, DataBelongs, Mechanical, AdvanceExecute;
    PlaceInPlan(q, cube, s, w);
    if Pending(s).None? && s.execute.value.steps == [] {
      PlanEnds(q, cube, s, w, now);
    } else {
      if Pending(s).None? {
        PlaceInPlan(q, cube, s, w);
        NextInPlan(s.execute.value, Full(q), Done(q, s));
        BeginsOn(q, cube);
      }
      assert s.execute.value.kind != OpenStand && Underway(s, q);
      hide Executing, Placed;
      StepEnds(q, s, now);
    }
  }

  /** The plan has run to its end. */
  lemma {:induction false} PlanEnds(q: Request, cube: Cube, s: State, w: World, now: nat)
    requires Executing(q, cube, s, w) && Pending(s).None? && s.execute.value.steps == [] && Placed(q, cube, s, w)
    requires !Underway(AdvanceExecute(s, now), q)
    ensures AdvanceExecute(s, now).status.operation.None? && Done(q, s) == |Full(q)|
    ensures LeftBy(q, WorldAfterExecute(s, w, now).machine, PM.ApplyMoves(cube, q.moves))
  {
    hide MachineAfter, Shows, MP.OptimizedHeldSteps, MP.ExecuteSteps, Run, Counted, Ids, PendingMoves, PhaseFits,
         DataBelongs, Mechanical;
    assert Follows([], FullPlan(q.kind, s.status.solution.moves, w.moves), w) by { ExecutingFacts(s, w); }
    FollowsEnds(q.kind, s.status.solution.moves, w);
    hide Resting, Mechanical, Placed, Follows;
  }

  /** A step that does not go on is a fault. */
  lemma {:induction false} StepEnds(q: Request, s: State, now: nat)
    requires Underway(s, q) && !Underway(AdvanceExecute(s, now), q) && s.execute.value.kind != OpenStand
    requires Pending(s).Some? || (s.execute.value.steps != [] && s.execute.value.steps[0].Motion?)
    ensures AdvanceExecute(s, now).status.operation.None? && AdvanceExecute(s, now).status.controller != Ready
  {
    hide CommandStep, StepDuration, Commanded, FinishPending;
    if Pending(s).Some? {
      ExecutePendingLeaves(s, now);
    } else {
      var step := s.execute.value.steps[0].step;
      if step.SetRails? || step.SetGrippers? {
        ExecuteCommandLeaves(s, now, step, CommandStep(SetPose(s, StandPose(MovePose, Some(Front))), step));
      }
    }
  }

  /** A status without an operation animates nothing. */
  lemma {:induction false} IdleSee(sight: Sight, status: StatusSnapshot)
    requires status.operation.None?
    ensures See(sight, status).shown == sight.shown && See(sight, status).view.violation == sight.view.violation
  {
  }

  /** What has been shown of a request, and what the end of its plan leaves. */
  ghost predicate Replayed(q: Request, cube: Cube, seen: Sight, t: State, world: World) {
    && InOrder(q, seen)
    && (!Underway(t, q) && t.status.controller == Ready ==>
          seen.shown == AllRendered(q.moves) && LeftBy(q, world.machine, Displayed(cube, seen.shown)))
  }

  lemma {:induction false} FollowedToTheEnd(q: Request, cube: Cube, s: State, w: World, sight: Sight, xs: seq<Experience>)
    requires Executing(q, cube, s, w) && Tracked(q, cube, s, sight) && UnderwayUntil(s, w, xs, q)
    ensures Replayed(q, cube, Observe(sight, s, w, xs), RunBoth(s, w, xs).0, RunBoth(s, w, xs).1)
  {
    hide Step, WorldStep, RunBoth, UnderwayUntil, Executing, See, Expected, MachineAfter, Displayed, Done,
         AllRendered, PM.ApplyMoves, Underway, Tracked, InOrder, LeftBy, StartRails, StopRails, StartGrippers,
         StopGrippers, MP.OptimizedHeldSteps, MP.ExecuteSteps;
    var (t, world) := RunBoth(s, w, xs);
    if xs == [] {
      RunNothing(s, w);
      ExecutingIsUnderway(q, cube, s, w);
    }
    if Underway(t, q) {
      RunIsFollowed(q, cube, s, w, sight, xs, true);
      TrackedInOrder(q, cube, t, world, Observe(sight, s, w, xs));
    } else {
      var k := |xs| - 1;
      var (u, before) := RunBoth(s, w, xs[..k]);
      LastStep(s, w, xs, q);
      RunIsFollowed(q, cube, s, w, sight, xs[..k], true);
      var last := Observe(sight, s, w, xs[..k]);
      TrackedInOrder(q, cube, u, before, last);
      ExecutionEnds(q, cube, u, before, xs[k]);
      IdleSee(last, t.status);
      IdleInOrder(q, last, Observe(sight, s, w, xs));
      DisplayedIsApplied(cube, q.moves);
    }
  }

  lemma {:induction false} ExecutingIsUnderway(q: Request, cube: Cube, s: State, w: World)
    requires Executing(q, cube, s, w)
    ensures Underway(s, q)
  {
  }

  lemma {:induction false} IdleInOrder(q: Request, a: Sight, b: Sight)
    requires InOrder(q, a) && b.shown == a.shown && b.view.violation == a.view.violation
    ensures InOrder(q, b)
  {
  }

  lemma {:induction false} TrackedInOrder(q: Request, cube: Cube, s: State, w: World, sight: Sight)
    requires Executing(q, cube, s, w) && Tracked(q, cube, s, sight)
    ensures InOrder(q, sight) && (Done(q, s) == |Full(q)| ==> sight.shown == AllRendered(q.moves))
  {
    hide Executing, Expected, Done, Turning, Placed, AllRendered, Full;
    PlaceInPlan(q, cube, s, w);
    ExpectedFacts(q, cube, s, w);
    assert AllRendered(q.moves)[..|AllRendered(q.moves)|] == AllRendered(q.moves);
  }

  // ---- move sequences -------------------------------------------------------------

  /** Moves set before the first gripper moves put the sight where the execution is. */
  lemma {:induction false} SettingBegins(q: Request, cube: Cube, s: State, w: World, v: View)
    requires Placed(q, cube, s, w) && OnlyRails(q, s) && Knowing(v, q.id) && q.kind == OperationKind.ExecuteMoves
    ensures Tracked(q, cube, s, See(Sight(WithExpected(v, Visuals(q.moves)), []), s.status))
  {
    hide Full, Rest, Look, See, SightAfter, MachineAfter, Run, Visuals, AllRendered, Shows, StandOf, Turning;
    RailsKeepGrippers(q, cube, Done(q, s));
    HeldTurning(q);
    hide Turning;
    var blank := Sight(WithExpected(v, Visuals(q.moves)), []);
    SeeIsLook(blank, s.status, q);
    RailsLook(q, w.machine, Pending(s), s.status.stand, blank);
    if Pending(s).Some? {
      RailsBegin(q, w.machine, Pending(s).value);
    }
  }

  lemma {:induction false} RailsLook(q: Request, m: Machine, pending: Option<MP.Step>, stand: StandState, blank: Sight)
    requires Shows(stand, m, pending) && m.grippers == AllSides(MP.X)
    requires pending.Some? ==> !pending.value.SetGrippers?
    requires Knowing(blank.view, q.id) && blank == Sight(WithExpected(blank.view, Visuals(q.moves)), [])
    ensures Look(blank, stand, q.id) == RestSight(q, MP.Canonical, 0)
  {
    hide Visuals, AllRendered;
    StillLooked(blank.view, stand, q.id);
    assert AllRendered(q.moves)[..0] == [];
  }

  lemma {:induction false} RailsBegin(q: Request, m: Machine, step: MP.Step)
    requires m.grippers == AllSides(MP.X) && !step.SetGrippers?
    ensures LookBegin(q, RestSight(q, MP.Canonical, 0), m, step) == RestSight(q, MP.Canonical, 0)
  {
    hide Visuals, AllRendered;
    StillLooked(RestView(q, MP.Canonical, 0), StandOf(m, Some(step)), q.id);
  }

  /** The ready robot's own status tells the view that the cube is canonical. */
  lemma {:induction false} ReadyIsSeen(s: State, w: World, v: View)
    requires Resting(s) && Mechanical(s, w) && Filled(s) == 0 && s.status.session.Some?
    ensures CanonicalSeen(s.status.stand) && Still(s.status.stand.grippers)
    ensures FrameSeen(MP.Canonical, s.status.stand) == MP.Canonical
    ensures See(Sight(v, []), s.status)
              == Sight(v.(frame := MP.Canonical, previous := STABLE, active := None, operation := None, solutionAtStart := None), [])
  {
    hide Resting, AxesSeen, StartedFrom, StartRails, StopRails, StartGrippers, StopGrippers, Counted, Ids,
         PendingMoves, PhaseFits, DataBelongs;
    assert s.status.operation.None? by { QuietOperation(s); }
    FrameKept(MP.Canonical, w.machine);
  }

  lemma {:induction false} QuietOperation(s: State)
    requires Resting(s) && Filled(s) == 0
    ensures s.status.operation.None?
  {
  }

  lemma {:induction false} AcceptedIsKnown(q: Request, s: State, w: World, v: View, r: State)
    requires Resting(s) && Mechanical(s, w) && Filled(s) == 0 && s.status.session.Some?
    requires Of(r.status, q) && r.status.stand == s.status.stand && q.kind == OperationKind.ExecuteMoves
    ensures Knowing(See(See(Sight(v, []), s.status), r.status).view, q.id)
  {
    hide AxesSeen, StartedFrom, Resting, Mechanical, FrameSeen;
    ReadyIsSeen(s, w, v);
    var ready := See(Sight(v, []), s.status);
    var begun := Begun(ready.view, r.status.operation.value, r.status.solution);
    SeeIsLook(Sight(begun, []), r.status, q);
    assert See(ready, r.status) == See(Sight(begun, []), r.status);
    LookKeeps(Sight(begun, []), r.status.stand, q.id);
  }

  lemma {:induction false} SequenceStarts(s: State, session: nat, moves: seq<MP.CubeMove>)
    requires ExecuteMovesRefusal(s, session, moves).None?
    ensures var r := StartExecuteMoves(s, session, moves);
            && r.execute == Some(ActivePlan(s.nextOperation, OperationKind.ExecuteMoves, MotionSteps(MP.OptimizedHeldSteps(moves)), None, None))
            && r.status.stand == s.status.stand
    ensures Filled(s) == 0 && s.status.session.Some?
  {
    hide MP.OptimizedHeldSteps;
  }

  lemma {:induction false} AdmittedStep(s: State, w: World, session: nat, x: Experience, moves: seq<MP.CubeMove>)
    requires x.input.PacketArrives? && ServiceCube.Fresh(s, x.input.packet) && ExecuteMovesRefusal(s, session, moves).None?
    requires x.input.packet.command == Some(Command.ExecuteMovesCommand(session, moves))
    ensures var core := StartExecuteMoves(s, session, moves);
            && Step(s, x.input).execute == core.execute && Step(s, x.input).status == core.status
            && WorldStep(s, w, x) == w.(moves := moves)
  {
    hide StartExecuteMoves, ExecuteMovesRefusal, HandlePacket, CacheIndex, AdvanceScan, AdvanceSolve, AdvanceMotion,
         Obey;
    var core, cache := PacketIs(s, x.input.packet, x.input.env);
    ObeyMoves(s, session, moves, x.input.env);
  }

  lemma {:induction false} ObeyMoves(s: State, session: nat, moves: seq<MP.CubeMove>, env: Env)
    ensures Obey(s, Command.ExecuteMovesCommand(session, moves), env) == StartExecuteMoves(s, session, moves)
  {
    hide StartExecuteMoves, MP.OptimizedHeldSteps, MP.ExecuteSteps;
  }

  /** A packet asks for the moves and is admitted. */
  predicate Admitted(s: State, session: nat, x: Experience, q: Request) {
    && q.kind == OperationKind.ExecuteMoves && x.input.PacketArrives? && ServiceCube.Fresh(s, x.input.packet)
    && x.input.packet.command == Some(Command.ExecuteMovesCommand(session, q.moves))
    && ExecuteMovesRefusal(s, session, q.moves).None? && q.id == s.nextOperation
  }

  lemma {:induction false} AdmittedExecutes(q: Request, s: State, w: World, session: nat, x: Experience)
    requires Resting(s) && Mechanical(s, w) && Admitted(s, session, x, q)
    ensures Executing(q, w.cube, Step(s, x.input), WorldStep(s, w, x)) && Step(s, x.input).status.stand == s.status.stand
    ensures Filled(s) == 0 && s.status.session.Some?
  {
    hide Resting, Mechanical, MP.OptimizedHeldSteps, StartExecuteMoves, ExecuteMovesRefusal, Step, WorldStep,
         ServiceCube.Fresh, MP.ExecuteSteps;
    StepMechanical(s, w, x);
    StepKeeps(s, x.input);
    AdmittedStep(s, w, session, x, q.moves);
    SequenceStarts(s, session, q.moves);
  }

  /** A move sequence is requested in `s0` by a packet that is accepted; a view that has seen
      the ready robot is told the moves after the inputs `ys`, before a gripper has moved;
      and while the inputs `xs` arrive the sequence is executed, at least up to the last. */
  ghost predicate Requested(s0: State, w0: World, session: nat, x0: Experience, q: Request, ys: seq<Experience>, xs: seq<Experience>) {
    hide RunBoth, UnderwayUntil, Underway, Step, WorldStep, Admitted, OnlyRails;
    && Admitted(s0, session, x0, q)
    && (var s1, w1 := Step(s0, x0.input), WorldStep(s0, w0, x0);
        var (s2, w2) := RunBoth(s1, w1, ys);
        && UnderwayUntil(s1, w1, ys, q) && Underway(s2, q) && OnlyRails(q, s2)
        && UnderwayUntil(s2, w2, xs, q))
  }

  /** What the view has come to after all that. */
  ghost function SeenThrough(s0: State, w0: World, x0: Experience, q: Request, v: View, ys: seq<Experience>, xs: seq<Experience>): Sight {
    hide RunBoth, Step, WorldStep, Observe, See;
    var s1, w1 := Step(s0, x0.input), WorldStep(s0, w0, x0);
    var (s2, w2) := RunBoth(s1, w1, ys);
    var watched := Observe(See(See(Sight(v, []), s0.status), s1.status), s1, w1, ys);
    Observe(See(Sight(WithExpected(watched.view, Visuals(q.moves)), []), s2.status), s2, w2, xs)
  }

  ghost function EndOf(s0: State, w0: World, x0: Experience, ys: seq<Experience>, xs: seq<Experience>): (State, World) {
    hide RunBoth, Step, WorldStep;
    var (s2, w2) := RunBoth(Step(s0, x0.input), WorldStep(s0, w0, x0), ys);
    RunBoth(s2, w2, xs)
  }

  /** For every reachable state, every move sequence accepted in it, and every run of inputs
      after that: the view animates the requested moves in order and never finds a violation;
      and when the sequence completes it has animated all of them, so that it displays the
      cube that the robot holds. */
  lemma {:induction false} MovesAreReplayed(times: Calibration, script: seq<bool>, w: World, zs: seq<Experience>, session: nat,
                                            x0: Experience, q: Request, v: View, ys: seq<Experience>, xs: seq<Experience>)
    requires var (s0, w0) := RunBoth(Initial(times, script), w, zs); Requested(s0, w0, session, x0, q, ys, xs)
    ensures var (s0, w0) := RunBoth(Initial(times, script), w, zs);
            var (s3, w3) := EndOf(s0, w0, x0, ys, xs);
            Replayed(q, w0.cube, SeenThrough(s0, w0, x0, q, v, ys, xs), s3, w3)
  {
    hide Step, WorldStep, RunBoth, UnderwayUntil, See, OnlyRails, Knowing, Resting, Mechanical, Placed, Admitted,
         Shows, Observe, Visuals, AllRendered, Done, Underway, Replayed, Tracked, Asked, PoseTells,
         MP.OptimizedHeldSteps, MP.ExecuteSteps, Counted, Ids, PendingMoves, PhaseFits, DataBelongs;
    var (s0, w0) := RunBoth(Initial(times, script), w, zs);
    RunsAreMechanical(times, script, w, zs);
    var s1, w1 := Step(s0, x0.input), WorldStep(s0, w0, x0);
    SequenceIsKnown(q, s0, w0, session, x0, v);
    var (s2, w2) := RunBoth(s1, w1, ys);
    var ready := See(See(Sight(v, []), s0.status), s1.status);
    RunIsFollowed(q, w0.cube, s1, w1, ready, ys, false);
    var watched := Observe(ready, s1, w1, ys);
    PlaceInPlan(q, w0.cube, s2, w2);
    SettingBegins(q, w0.cube, s2, w2, watched.view);
    FollowedToTheEnd(q, w0.cube, s2, w2, See(Sight(WithExpected(watched.view, Visuals(q.moves)), []), s2.status), xs);
  }

  lemma {:induction false} SequenceIsKnown(q: Request, s: State, w: World, session: nat, x: Experience, v: View)
    requires Resting(s) && Mechanical(s, w) && Admitted(s, session, x, q)
    ensures Executing(q, w.cube, Step(s, x.input), WorldStep(s, w, x)) && q.kind == OperationKind.ExecuteMoves
    ensures Knowing(See(See(Sight(v, []), s.status), Step(s, x.input).status).view, q.id)
  {
    hide Mechanical, AdvanceScan, AdvanceSolve, AdvanceMotion;
    AdmittedExecutes(q, s, w, session, x);
    PlaceInPlan(q, w.cube, Step(s, x.input), WorldStep(s, w, x));
    hide Step, WorldStep, Resting, Mechanical, Executing, See, Knowing;
    AcceptedIsKnown(q, s, w, v, Step(s, x.input));
  }

  // ---- solutions ------------------------------------------------------------------

  /** Nothing is left to be read. */
  predicate NothingUnread(v: View) {
    v.expected == [] || v.index >= |v.expected|
  }

  /** A view that comes to an operation: one that knows it, or one at rest. */
  predicate Coming(v: View, q: Request) {
    && NothingUnread(v) && v.frame == MP.Canonical && v.active.None?
    && (Introduced(v, q.id) || (v.operation.None? && q.kind == OperationKind.Execute))
  }

  /** The status that publishes the solution tells the view its moves. */
  lemma {:induction false} MovesAreTaken(q: Request, v: View, status: StatusSnapshot)
    requires Coming(v, q) && Of(status, q) && Turns(q) && q.kind != OperationKind.ExecuteMoves
    requires status.solution.moves == q.moves != [] && status.solution.id.Some?
    ensures See(Sight(v, []), status)
              == Look(Sight(RestView(q, MP.Canonical, 0).(previous := AllSides(None)), []), status.stand, q.id)
  {
    hide AxesSeen, FrameSeen, StartedFrom;
  }

  /** An empty solution leaves nothing to show. */
  lemma {:induction false} NothingIsTaken(q: Request, v: View, status: StatusSnapshot)
    requires Coming(v, q) && Of(status, q) && Turns(q) && q.kind != OperationKind.ExecuteMoves
    requires status.solution.moves == q.moves == [] && Still(status.stand.grippers)
    ensures AllShown(q, See(Sight(v, []), status))
  {
    hide AxesSeen, FrameSeen, StartedFrom;
    var settled := if CanonicalSeen(status.stand) then v.(frame := MP.Canonical) else v;
    StillLooked(Begun(settled, status.operation.value, status.solution), status.stand, q.id);
  }

  /** A solution is published with its identifier. */
  lemma {:induction false} PublishedWithId(s: State)
    requires Inv(s) && s.execute.Some? && s.execute.value.kind != OperationKind.ExecuteMoves && s.execute.value.kind != OpenStand
    ensures s.status.solution.id.Some?
  {
  }

  /** The view of an accepted solution. */
  lemma {:induction false} SolutionIsTaken(q: Request, s: State, w: World, v: View, r: State, u: World)
    requires Resting(s) && Mechanical(s, w) && Filled(s) == 0 && s.status.session.Some?
    requires Executing(q, w.cube, r, u) && q.kind == OperationKind.Execute && r.status.stand == s.status.stand
    requires Done(q, r) == 0 && Pending(r).None? && NothingUnread(v)
    ensures Tracked(q, w.cube, r, See(See(Sight(v, []), s.status), r.status))
  {
    hide Counted, Ids, PendingMoves, PhaseFits, DataBelongs, Mechanical, Look, Looked, Full, Turning;
    assert Resting(r);
    PlaceInPlan(q, w.cube, r, u);
    PublishedWithId(r);
    hide Resting, Mechanical, See, Full, FrameSeen, Look, MachineAfter, SightAfter, Rest, Shows, Turning, AllShown,
         Done, Still;
    ReadyIsSeen(s, w, v);
    SightFacts(q, w.cube, 0);
    LastTurnReads(q, w.cube, 0);
    var ready := See(Sight(v, []), s.status).view;
    if q.moves == [] {
      NothingIsTaken(q, ready, r.status);
    } else {
      MovesAreTaken(q, ready, r.status);
      ToldAtRest(q, r.status.stand);
    }
  }

  /** A view that has just been told its moves, and sees the grippers at rest. */
  lemma {:induction false} ToldAtRest(q: Request, stand: StandState)
    requires Still(stand.grippers) && FrameSeen(MP.Canonical, stand) == MP.Canonical
    ensures Look(Sight(RestView(q, MP.Canonical, 0).(previous := AllSides(None)), []), stand, q.id) == RestSight(q, MP.Canonical, 0)
  {
    hide FrameSeen, Visuals, AllRendered;
    StillLooked(RestView(q, MP.Canonical, 0).(previous := AllSides(None)), stand, q.id);
    assert AllRendered(q.moves)[..0] == [];
  }

  /** The execution of a solution begins when no operation runs. */
  lemma {:induction false} SolutionStarts(s: State, command: Command, env: Env)
    requires Filled(s) == 0 && Obey(s, command, env).execute.Some?
    requires Obey(s, command, env).execute.value.kind == OperationKind.Execute
    ensures var r := Obey(s, command, env);
            && r.execute.value.steps == MotionSteps(MP.ExecuteSteps(r.status.solution.moves)) && Pending(r).None?
            && r.status.stand == s.status.stand && s.status.session.Some? && WorldUntouched(command)
  {
    hide MP.OptimizedPlan, MP.OptimizedHeldSteps, MP.ExecuteSteps, RebuiltString, SolverString;
  }

  predicate WorldUntouched(command: Command) {
    !command.ExecuteMovesCommand?
  }

  /** An input after which something runs that did not run before. */
  lemma {:induction false} CommandBegan(s: State, w: World, x: Experience) returns (command: Command, env: Env)
    requires Resting(s) && Filled(s) == 0 && Filled(Step(s, x.input)) > 0
    ensures var r, core := Step(s, x.input), Obey(s, command, env);
            && r.status == core.status && r.execute == core.execute && r.scan == core.scan
            && WorldStep(s, w, x) == WorldAfterCommand(s, w, command)
  {
    hide Obey, WorldAfterCommand, HandlePacket, Inv, Resting, AdvanceScan, AdvanceSolve, AdvanceMotion;
    match x.input {
      case PacketArrives(packet, e) =>
        var core, cache := PacketIs(s, packet, e);
        command, env := if Fresh(s, packet) then packet.command.value else GetStatus, e;
      case ButtonPressed(local, e) =>
        command, env := LocalAsCommand(local), e;
      case TimePasses(now, e) =>
        IdleTick(s, now, e);
        command, env := GetStatus, e;
    }
  }

  lemma {:induction false} IdleTick(s: State, now: nat, env: Env)
    requires Filled(s) == 0
    ensures Tick(s, now, env).0 == s.(events := [])
  {
    hide MP.OptimizedHeldSteps, MP.ExecuteSteps, FinishScan, CaptureStep, FinishExecute, MarkerStep;
    assert AdvanceMotion(s, now) == s;
    assert AdvanceScan(s, now, env) == s;
    assert AdvanceSolve(s, env) == s;
    assert AdvanceExecute(s, now) == s;
  }

  lemma {:induction false} SolutionExecutes(q: Request, s: State, w: World, x: Experience)
    requires Resting(s) && Mechanical(s, w) && Filled(s) == 0 && q.kind == OperationKind.Execute
    requires Underway(Step(s, x.input), q) && q.moves == Step(s, x.input).status.solution.moves
    ensures Executing(q, w.cube, Step(s, x.input), WorldStep(s, w, x)) && Step(s, x.input).status.stand == s.status.stand
    ensures Done(q, Step(s, x.input)) == 0 && Pending(Step(s, x.input)).None? && s.status.session.Some?
    ensures q.moves != [] ==> Step(s, x.input).status.solution.id.Some?
  {
    hide Mechanical, MP.ExecuteSteps, Obey, Step, WorldStep, MP.OptimizedHeldSteps;
    StepMechanical(s, w, x);
    StepKeeps(s, x.input);
    var command, env := CommandBegan(s, w, x);
    SolutionStarts(s, command, env);
  }

  /** For every reachable state without an operation, every input that begins the execution
      of a solution there, and every run of inputs after that: a view with nothing left to
      read takes the published moves and animates them in order without a violation; and when
      the execution completes it has animated all of them, so that it displays the cube that
      the robot has let go. */
  lemma {:induction false} SolutionIsReplayed(times: Calibration, script: seq<bool>, w: World, zs: seq<Experience>, x0: Experience,
                                              q: Request, v: View, xs: seq<Experience>)
    requires var (s0, w0) := RunBoth(Initial(times, script), w, zs);
             var s1, w1 := Step(s0, x0.input), WorldStep(s0, w0, x0);
             && s0.status.operation.None? && NothingUnread(v) && q.kind == OperationKind.Execute
             && Underway(s1, q) && q.moves == s1.status.solution.moves && UnderwayUntil(s1, w1, xs, q)
    ensures var (s0, w0) := RunBoth(Initial(times, script), w, zs);
            var s1, w1 := Step(s0, x0.input), WorldStep(s0, w0, x0);
            var (s2, w2) := RunBoth(s1, w1, xs);
            Replayed(q, w0.cube, Observe(See(See(Sight(v, []), s0.status), s1.status), s1, w1, xs), s2, w2)
  {
    hide Step, WorldStep, RunBoth, UnderwayUntil, See, Mechanical, Observe, Done, Underway, Replayed, Tracked,
         Executing, MP.OptimizedHeldSteps, MP.ExecuteSteps;
    var (s0, w0) := RunBoth(Initial(times, script), w, zs);
    RunsAreMechanical(times, script, w, zs);
    var s1, w1 := Step(s0, x0.input), WorldStep(s0, w0, x0);
    NothingFilled(s0);
    hide Resting;
    SolutionExecutes(q, s0, w0, x0);
    SolutionIsTaken(q, s0, w0, v, s1, w1);
    FollowedToTheEnd(q, w0.cube, s1, w1, See(See(Sight(v, []), s0.status), s1.status), xs);
  }

  lemma {:induction false} NothingFilled(s: State)
    requires Resting(s) && s.status.operation.None?
    ensures Filled(s) == 0
  {
  }

  // ---- unread moves ---------------------------------------------------------------

  /** Once every move of a solution is shown, the next status of the same execution makes the
      view expect them all again. */
  lemma {:induction false} MovesAreExpectedAgain(q: Request, sight: Sight, status: StatusSnapshot)
    requires AllShown(q, sight) && sight.view.index >= |sight.view.expected| && q.kind == OperationKind.Execute && Of(status, q)
    requires status.solution.moves == q.moves != [] && status.solution.id.Some? && Still(status.stand.grippers)
    ensures See(sight, status).view.expected == Visuals(q.moves) && See(sight, status).view.index == 0
    ensures !NothingUnread(See(sight, status).view)
  {
    hide AxesSeen, FrameSeen, StartedFrom, Visuals;
    var settled := if CanonicalSeen(status.stand) then sight.view.(frame := MP.Canonical) else sight.view;
    StillLooked(WithExpected(settled, Visuals(q.moves)), status.stand, q.id);
  }

  /** The view takes the moves of an accepted solution exactly when nothing else is left to be
      read in it. */
  lemma {:induction false} TakenExactly(q: Request, v: View, status: StatusSnapshot)
    requires q.kind == OperationKind.Execute && v.operation.None? && v.active.None? && Of(status, q)
    requires status.solution.moves == q.moves != [] && status.solution.id.Some? && Still(status.stand.grippers)
    ensures var after := See(Sight(v, []), status).view;
            after.expected == Visuals(q.moves) && after.index == 0
            <==> NothingUnread(v) || (v.expected == Visuals(q.moves) && v.index == 0)
  {
    hide AxesSeen, FrameSeen, StartedFrom, Visuals;
    var settled := if CanonicalSeen(status.stand) then v.(frame := MP.Canonical) else v;
    var begun := Begun(settled, status.operation.value, status.solution);
    StillLooked(Expecting(begun, status.operation.value, status.solution), status.stand, q.id);
  }

  /** A right turn left unread makes the left turn of the next solution a violation. */
  lemma {:induction false} NextSolutionIsMisread(id: nat, cube: Cube)
    ensures var q := Request([MP.CubeMove(LogicalFace.Left, MP.Clockwise)], id, OperationKind.Execute);
            var unread := RestView(Request([MP.CubeMove(LogicalFace.Right, MP.Clockwise)], id, q.kind), MP.Canonical, 0);
            && |Full(q)| > 0
            && Looked(unread, StandOf(CanonicalGrip(cube), Some(Full(q)[0])), id).0.violation
                 == Some(WrongFace(LogicalFace.Right, LogicalFace.Left))
  {
    var moves := [MP.CubeMove(LogicalFace.Left, MP.Clockwise)];
    var q, m, pose := Request(moves, id, OperationKind.Execute), CanonicalGrip(cube), MP.Pose(Side.Left, MP.R);
    assert moves[..0] == [];
    assert MP.PlanMoves(MP.EMPTY_PLAN, moves) == MP.PlanMove(MP.EMPTY_PLAN, moves[0]);
    assert Full(q)[0] == MP.SetGrippers([pose]);
    hide MP.PlanMoves, Full, MP.PlanMove;
    var unread := RestView(Request([MP.CubeMove(LogicalFace.Right, MP.Clockwise)], id, q.kind), MP.Canonical, 0);
    var stand := StandOf(m, Some(MP.SetGrippers([pose])));
    OnePoseShown(m, pose);
    OneFresh(m.grippers, pose, STABLE);
    PairFrame(m, [pose], MP.Canonical);
    FrameKept(MP.Canonical, m);
    FourAxes(unread, stand, id, [Side.Left]);
    MisfitSeen(unread, stand, id, LogicalFace.Right, LogicalFace.Left);
    hide AxisSeen, TurnStart;
    AxisAtRest(AxisSeen(unread, stand, id, [Side.Left], Side.Left).0, stand, id, Side.Left, Side.Right);
  }

  lemma {:induction false} MisfitSeen(v: View, stand: StandState, id: nat, expected: LogicalFace, owner: LogicalFace)
    requires TurnStart(v, stand, [Side.Left], Side.Left) == Misfit(Some(WrongFace(expected, owner)))
    ensures AxisSeen(v, stand, id, [Side.Left], Side.Left) == (v.(violation := Some(WrongFace(expected, owner))), None)
  {
  }

  // ---- the automatic cycle --------------------------------------------------------

  /** The automatic cycle is scanning, or waiting for the solver. */
  predicate Preparing(s: State, id: nat) {
    || (s.scan.Some? && s.scan.value.plan.id == id && s.scan.value.plan.kind == OperationKind.ScanSolveExecute)
    || (s.solve.Some? && s.solve.value.id == id && s.solve.value.kind == OperationKind.ScanSolveExecute)
  }

  ghost predicate PreparingUntil(s: State, w: World, xs: seq<Experience>, id: nat) {
    hide Step, WorldStep, RunBoth, Preparing;
    forall k :: 0 <= k < |xs| ==> Preparing(RunBoth(s, w, xs[..k]).0, id)
  }

  /** The view of a cycle whose solution is not yet published. */
  predicate Awaiting(v: View, id: nat) {
    Introduced(v, id) && v.expected == [] && v.active.None?
  }

  /** A view that expects nothing shows nothing. */
  lemma {:induction false} AxesIdle(v: View, stand: StandState, id: nat, started: seq<Side>, sides: seq<Side>)
    requires v.expected == [] && v.active.None?
    ensures AxesSeen(v, stand, id, started, sides) == (v.(previous := AxesSeen(v, stand, id, started, sides).0.previous), None)
    decreases |sides|
  {
    if sides != [] {
      AxesIdle(v, stand, id, started, sides[..|sides| - 1]);
    }
  }

  lemma {:induction false} AwaitingSee(sight: Sight, status: StatusSnapshot, q: Request)
    requires Awaiting(sight.view, q.id) && Of(status, q) && q.kind == OperationKind.ScanSolveExecute && status.solution.moves == []
    ensures Awaiting(See(sight, status).view, q.id) && See(sight, status).shown == sight.shown
    ensures CanonicalSeen(status.stand) && FrameSeen(MP.Canonical, status.stand) == MP.Canonical ==>
              See(sight, status).view.frame == MP.Canonical
  {
    hide AxesSeen, FrameSeen, StartedFrom;
    var settled := if CanonicalSeen(status.stand) then sight.view.(frame := MP.Canonical) else sight.view;
    var framed := settled.(frame := FrameSeen(settled.frame, status.stand));
    AxesIdle(framed, status.stand, q.id, StartedFrom(framed.previous, status.stand.grippers, SIDES), SIDES);
  }

  /** Until the solution is published: the view awaits it, and once the solver is at work it
      has seen the cube canonical. */
  ghost predicate Waits(id: nat, s: State, sight: Sight) {
    && Awaiting(sight.view, id) && sight.shown == []
    && (s.solve.Some? ==> sight.view.frame == MP.Canonical)
  }

  lemma {:induction false} PreparingFacts(s: State, w: World, id: nat)
    requires Resting(s) && Mechanical(s, w) && Preparing(s, id)
    ensures s.motion.None? && s.execute.None? && OperationActive(s)
    ensures Of(s.status, Request([], id, OperationKind.ScanSolveExecute))
    ensures s.scan.Some? ==> s.solve.None? && s.status.solution.moves == [] && s.status.solution.state != Solving
    ensures s.solve.Some? ==>
              && s.scan.None? && s.status.solution.state == Solving && Shows(s.status.stand, w.machine, None)
              && w.machine == CanonicalGrip(w.cube) && s.status.stand.pose == CANONICAL
  {
    hide Counted, PendingMoves, Ids, CacheInv, Shows, PhaseStand, MP.OptimizedHeldSteps, MP.ExecuteSteps;
  }

  lemma {:induction false} CanonicalShown(stand: StandState, cube: Cube)
    requires Shows(stand, CanonicalGrip(cube), None) && stand.pose == CANONICAL
    ensures CanonicalSeen(stand) && FrameSeen(MP.Canonical, stand) == MP.Canonical
  {
    FrameKept(MP.Canonical, CanonicalGrip(cube));
  }

  /** Seeing a status of the preparation. */
  lemma {:induction false} PreparingSeen(id: nat, s: State, w: World, sight: Sight)
    requires Resting(s) && Mechanical(s, w) && Preparing(s, id) && s.status.solution.moves == []
    requires Awaiting(sight.view, id) && sight.shown == []
    ensures Waits(id, s, See(sight, s.status))
  {
    hide Counted, Ids, PendingMoves, PhaseFits, DataBelongs, Mechanical, AxesSeen, AxisSeen, StartedFrom,
         AllRendered, Visuals;
    PreparingFacts(s, w, id);
    hide Resting, Mechanical, See, FrameSeen, Shows, Awaiting;
    AwaitingSee(sight, s.status, Request([], id, OperationKind.ScanSolveExecute));
    if s.solve.Some? {
      CanonicalShown(s.status.stand, w.cube);
    }
  }

  /** A part of a scan that publishes no moves. */
  predicate Moveless(r: State) {
    r.execute.None? && (r.scan.Some? || r.solve.Some? ==> r.status.solution.moves == [])
  }

  lemma {:induction false} FinishMoveless(s: State, scan: ActiveScan)
    requires Moveless(s) && s.scan.None? && s.solve.None?
    ensures Moveless(FinishScan(s, scan))
  {
    hide SolverString;
  }

  lemma {:induction false} CaptureMoveless(s: State, scan: ActiveScan, face: LogicalFace, env: Env)
    requires s.execute.None? && s.status.solution.moves == []
    ensures Moveless(CaptureStep(s, scan, face, env))
  {
    hide Named, Record;
  }

  lemma {:induction false} StepMoveless(s: State, step: MP.Step)
    ensures FinishPending(s, step).execute == s.execute && FinishPending(s, step).status.solution == s.status.solution
    ensures CommandStep(s, step).execute == s.execute && CommandStep(s, step).status.solution == s.status.solution
  {
    hide StartRails, StopRails, StartGrippers, StopGrippers;
  }

  lemma {:induction false} FaultMoveless(s: State, id: nat)
    ensures Moveless(EnterFault(s, id))
  {
  }

  lemma {:induction false} ScanSolves(s: State, now: nat, env: Env)
    requires s.scan.Some? && s.solve.None? && s.execute.None? && s.motion.None? && s.status.solution.moves == []
    ensures Moveless(AdvanceScan(s, now, env))
  {
    hide FinishScan, CaptureStep, CommandStep, FinishPending, EnterFault, StepDuration, Outcome, Commanded;
    var scan, plan := s.scan.value, s.scan.value.plan;
    if plan.pending.Some? {
      StepMoveless(s, plan.pending.value);
      FaultMoveless(FinishPending(s, plan.pending.value), plan.id);
    } else if plan.steps == [] {
      FinishMoveless(s.(scan := None), scan);
    } else if plan.steps[0].Capture? {
      CaptureMoveless(s, scan.(plan := plan.(steps := plan.steps[1..])), plan.steps[0].face, env);
    } else {
      FaultMoveless(s, plan.id);
      StepMoveless(SetPose(s, TRANSITIONAL), plan.steps[0].step);
      FaultMoveless(CommandStep(SetPose(s, TRANSITIONAL), plan.steps[0].step), plan.id);
    }
  }

  lemma {:induction false} SolveWaits(s: State, env: Env)
    ensures var r := AdvanceSolve(s, env);
            || r == s
            || (s.solve.Some? && r.solve.None? && r.scan == s.scan && r.motion == s.motion && r.status.stand == s.status.stand)
  {
    hide MP.OptimizedHeldSteps, MP.ExecuteSteps;
  }

  lemma {:induction false} ExecuteSolvesNothing(s: State, now: nat)
    requires s.solve.None? && s.scan.None?
    ensures AdvanceExecute(s, now).solve.None? && AdvanceExecute(s, now).scan.None?
  {
    hide StartRails, StopRails, StartGrippers, StopGrippers, StepDuration;
  }

  /** The preparation publishes no moves. */
  lemma {:induction false} PreparingTick(s: State, w: World, now: nat, env: Env, inserted: Cube, id: nat)
    requires Preparing(s, id) && s.motion.None? && s.execute.None? && (s.scan.None? || s.solve.None?) && s.status.solution.moves == []
    requires Preparing(Tick(s, now, env).0, id)
    ensures Tick(s, now, env).0.status.solution.moves == []
    ensures WorldAfterTick(s, w, now, env, inserted).cube == w.cube
  {
    hide AdvanceScan, AdvanceSolve, AdvanceExecute;
    assert AdvanceMotion(s, now) == s;
    var scanned := AdvanceScan(s, now, env);
    if s.scan.Some? {
      ScanSolves(s, now, env);
    } else {
      ScanIdle(s, now, env);
    }
    SolveWaits(scanned, env);
    var solved := AdvanceSolve(scanned, env);
    if solved == scanned {
      ExecuteIdle(solved, now);
    } else {
      SolvedNotScanning(s, now, env);
      ExecuteSolvesNothing(solved, now);
    }
  }

  lemma {:induction false} ScanIdle(s: State, now: nat, env: Env)
    requires s.scan.None?
    ensures AdvanceScan(s, now, env) == s
  {
    hide CommandStep, FinishPending, FinishScan, CaptureStep, FinishExecute, MarkerStep;
  }

  lemma {:induction false} ExecuteIdle(s: State, now: nat)
    requires s.execute.None?
    ensures AdvanceExecute(s, now) == s
  {
    hide StartRails, StopRails, StartGrippers, StopGrippers;
  }

  /** Once a solver answers, no scan runs. */
  lemma {:induction false} SolvedNotScanning(s: State, now: nat, env: Env)
    requires s.scan.None? || s.solve.None?
    ensures AdvanceScan(s, now, env).solve.Some? ==> AdvanceScan(s, now, env).scan.None?
  {
    hide StartRails, StopRails, StartGrippers, StopGrippers, SolverString, Named, Record, StepDuration, Outcome,
         Commanded;
  }

  lemma {:induction false} PreparingGoes(s: State, w: World, x: Experience, id: nat)
    requires Resting(s) && Mechanical(s, w) && Preparing(s, id) && s.status.solution.moves == [] && Preparing(Step(s, x.input), id)
    ensures Step(s, x.input).status.solution.moves == [] && WorldStep(s, w, x).cube == w.cube
  {
    hide Counted, Ids, PendingMoves, PhaseFits, DataBelongs, Mechanical, AdvanceScan, AdvanceSolve, AdvanceMotion,
         Obey, HandlePacket;
    PreparingFacts(s, w, id);
    hide Resting, Mechanical, Shows;
    if x.input.TimePasses? {
      hide Tick, WorldAfterTick;
      PreparingTick(s, w, x.input.now, x.input.env, x.inserted, id);
    } else {
      hide Step, WorldStep;
      RequestGoes(s, w, x);
    }
  }

  /** One more input of the preparation. */
  lemma {:induction false} WaitsOn(id: nat, s: State, w: World, sight: Sight, x: Experience)
    requires Resting(s) && Mechanical(s, w) && Preparing(s, id) && s.status.solution.moves == [] && Preparing(Step(s, x.input), id)
    requires Waits(id, s, sight)
    ensures var r, v := Step(s, x.input), WorldStep(s, w, x);
            && Resting(r) && Mechanical(r, v) && r.status.solution.moves == [] && v.cube == w.cube
            && Waits(id, r, SeeChange(sight, s.status, r.status))
  {
    var r, v := Step(s, x.input), WorldStep(s, w, x);
    hide Step, WorldStep, Resting, Mechanical, See, Awaiting, Preparing;
    StepKeeps(s, x.input);
    StepMechanical(s, w, x);
    PreparingGoes(s, w, x, id);
    PreparingSeen(id, r, v, sight);
    PreparingFacts(s, w, id);
    PreparingFacts(r, v, id);
    assert s.scan.Some? || s.solve.Some? by { PreparingIsEither(s, id); }
  }

  lemma {:induction false} PreparingIsEither(s: State, id: nat)
    requires Preparing(s, id)
    ensures s.scan.Some? || s.solve.Some?
  {
  }

  /** The solver's answer makes the plan of its solution. */
  lemma {:induction false} SolveBegins(s: State, env: Env)
    requires s.solve.Some? && s.solve.value.kind == OperationKind.ScanSolveExecute && s.execute.None?
    requires AdvanceSolve(s, env).execute.Some?
    ensures var r := AdvanceSolve(s, env);
            && r.execute == Some(ActivePlan(s.solve.value.id, OperationKind.ScanSolveExecute,
                                            MotionSteps(MP.ExecuteSteps(r.status.solution.moves)), None, None))
            && r.status.solution.id.Some? && r.scan == s.scan && r.motion == s.motion && r.solve.None?
  {
    hide MP.ExecuteSteps;
  }

  /** The first step of a solution's plan moves something. */
  lemma {:induction false} FirstMoves(q: Request)
    requires q.kind != OperationKind.ExecuteMoves
    ensures Full(q) != [] && (Full(q)[0].SetRails? || Full(q)[0].SetGrippers?)
  {
    if q.moves == [] {
      NothingPlanned();
      assert Full(q)[0] == MP.OPEN_STEPS[0];
    } else {
      FirstStep(q);
    }
  }

  /** In the tick in which the solver answers, the first step is commanded. */
  lemma {:induction false} FirstCommanded(q: Request, s: State, now: nat)
    requires q.kind == OperationKind.ScanSolveExecute && Underway(AdvanceExecute(s, now), q)
    requires s.execute == Some(ActivePlan(q.id, q.kind, MotionSteps(Full(q)), None, None))
    ensures var r := AdvanceExecute(s, now);
            && Full(q) != [] && Rest(r.execute.value) == MotionSteps(Full(q)) && Pending(r) == Some(Full(q)[0])
            && r.status.solution == s.status.solution && r.status.stand.pose.kind == MovePose
  {
    hide StartRails, StopRails, StartGrippers, StopGrippers, EnterFault, CommandStep, FinishPending, AdvanceExecute,
         Full, Turning;
    FirstMoves(q);
    hide Full, CommandStep, AdvanceExecute, EnterFault, StepDuration, MotionSteps, Outcome;
    var step := Full(q)[0];
    StepsAgain(Full(q));
    var posed := SetPose(s, StandPose(MovePose, Some(Front)));
    ExecuteCommandLeaves(s, now, step, CommandStep(posed, step));
    FaultStops(CommandStep(posed, step), q.id);
    BeginGoes(posed, step);
  }

  lemma {:induction false} StepsAgain(steps: seq<MP.Step>)
    requires steps != []
    ensures MotionSteps(steps)[0] == SP.Motion(steps[0])
    ensures [SP.Motion(steps[0])] + MotionSteps(steps)[1..] == MotionSteps(steps)
  {
  }

  lemma {:induction false} FaultStops(s: State, id: nat)
    ensures EnterFault(s, id).execute.None?
  {
  }

  /** The tick in which the solver answers. */
  predicate CycleBegun(q: Request, r: State) {
    && Underway(r, q) && Full(q) != [] && Rest(r.execute.value) == MotionSteps(Full(q)) && Pending(r) == Some(Full(q)[0])
    && r.status.stand.pose.kind == MovePose && r.status.solution.moves == q.moves && r.status.solution.id.Some?
  }

  lemma {:induction false} AnswerTick(q: Request, s: State, w: World, now: nat, env: Env, inserted: Cube)
    requires s.motion.None? && s.scan.None? && s.execute.None? && Preparing(s, q.id) && q.kind == OperationKind.ScanSolveExecute
    requires Underway(Tick(s, now, env).0, q) && q.moves == Tick(s, now, env).0.status.solution.moves
    ensures CycleBegun(q, Tick(s, now, env).0)
    ensures WorldAfterTick(s, w, now, env, inserted).cube == w.cube
  {
    hide AdvanceScan, AdvanceSolve, AdvanceExecute, MP.ExecuteSteps, MP.OptimizedHeldSteps;
    assert AdvanceMotion(s, now) == s;
    ScanIdle(s, now, env);
    var solved := AdvanceSolve(s, env);
    if solved.execute.None? {
      ExecuteIdle(solved, now);
    } else {
      SolveBegins(s, env);
      var asked := q.(moves := solved.status.solution.moves);
      assert Full(asked) == MP.ExecuteSteps(solved.status.solution.moves);
      FirstCommanded(asked, solved, now);
    }
  }

  /** The automatic cycle executes the published solution. */
  lemma {:induction false} CycleExecutes(q: Request, s: State, w: World, x: Experience)
    requires Resting(s) && Mechanical(s, w) && Preparing(s, q.id) && s.solve.Some? && q.kind == OperationKind.ScanSolveExecute
    requires Underway(Step(s, x.input), q) && q.moves == Step(s, x.input).status.solution.moves
    ensures CycleBegun(q, Step(s, x.input)) && Executing(q, w.cube, Step(s, x.input), WorldStep(s, w, x))
    ensures Done(q, Step(s, x.input)) == 0
  {
    hide Inv, Resting, Mechanical, AdvanceScan, AdvanceSolve, AdvanceMotion, Obey, HandlePacket, Full, Turning;
    PreparingFacts(s, w, q.id);
    CycleSteps(q, s, w, x);
    hide Resting, Mechanical, Shows, Full, Step, WorldStep, Preparing;
    StepKeeps(s, x.input);
    StepMechanical(s, w, x);
  }

  lemma {:induction false} CycleSteps(q: Request, s: State, w: World, x: Experience)
    requires s.motion.None? && s.scan.None? && s.execute.None? && Preparing(s, q.id) && q.kind == OperationKind.ScanSolveExecute
    requires Underway(Step(s, x.input), q) && q.moves == Step(s, x.input).status.solution.moves
    ensures CycleBegun(q, Step(s, x.input)) && WorldStep(s, w, x).cube == w.cube
  {
    hide AdvanceScan, AdvanceSolve, AdvanceMotion, Obey, HandlePacket, Full, Turning;
    if x.input.TimePasses? {
      hide Tick, WorldAfterTick, CycleBegun;
      AnswerTick(q, s, w, x.input.now, x.input.env, x.inserted);
    } else {
      hide Step, WorldStep;
      RequestGoes(s, w, x);
    }
  }

  /** The status that publishes the solution also shows the first step, and is read as if
      the moves had been known before. */
  lemma {:induction false} CycleIsTaken(q: Request, s: State, r: State, u: World, v: View, cube: Cube)
    requires Executing(q, cube, r, u) && CycleBegun(q, r) && Done(q, r) == 0 && q.kind == OperationKind.ScanSolveExecute
    requires Awaiting(v, q.id) && v.frame == MP.Canonical
    ensures Tracked(q, cube, r, See(Sight(v, []), r.status))
  {
    hide Counted, Ids, PendingMoves, PhaseFits, DataBelongs, OneOwner, Mechanical, Look, Looked, Full, Turning;
    PlaceInPlan(q, cube, r, u);
    hide Executing, See, Full, FrameSeen, Look, MachineAfter, SightAfter, Rest, Turning, AllShown, Done, Still,
         Shows, Run;
    SightFacts(q, cube, 0);
    LastTurnReads(q, cube, 0);
    if q.moves == [] {
      StillAfterTurning(q, cube, r, u);
      NothingIsTaken(q, v, r.status);
    } else {
      MovesAreTaken(q, v, r.status);
      FirstStepSeen(q, cube);
      ShownStand(r.status.stand, u.machine, Pending(r));
      StandsAlike(Sight(RestView(q, MP.Canonical, 0).(previous := AllSides(None)), []), r.status.stand,
                  StandOf(u.machine, Pending(r)), q.id);
      SameLook(q, StandOf(u.machine, Pending(r)));
    }
  }

  lemma {:induction false} SameLook(q: Request, stand: StandState)
    requires var view := RestView(q, MP.Canonical, 0); Looked(view.(previous := AllSides(None)), stand, q.id) == Looked(view, stand, q.id)
    ensures Look(Sight(RestView(q, MP.Canonical, 0).(previous := AllSides(None)), []), stand, q.id)
         == Look(RestSight(q, MP.Canonical, 0), stand, q.id)
  {
    hide Looked, AllRendered, Visuals;
    assert AllRendered(q.moves)[..0] == [];
  }

  /** The status of an accepted automatic cycle clears what the view expected. */
  lemma {:induction false} CycleIsKnown(s: State, w: World, v: View, r: State, u: World, id: nat)
    requires Resting(s) && Filled(s) == 0 && Resting(r) && Mechanical(r, u) && Preparing(r, id) && r.scan.Some?
    ensures r.status.solution.moves == [] && Waits(id, r, See(See(Sight(v, []), s.status), r.status))
  {
    hide Counted, Ids, PendingMoves, PhaseFits, DataBelongs, Mechanical;
    QuietOperation(s);
    PreparingFacts(r, u, id);
    hide Resting, Mechanical, AxesSeen, FrameSeen, StartedFrom;
    var ready := See(Sight(v, []), s.status);
    assert ready.shown == [] && ready.view.operation.None? && ready.view.active.None?;
    var begun := Begun(ready.view, r.status.operation.value, r.status.solution);
    assert See(ready, r.status) == See(Sight(begun, []), r.status);
    hide See, Begun;
    AwaitingSee(Sight(begun, []), r.status, Request([], id, OperationKind.ScanSolveExecute));
  }

  /** A whole preparation. */
  lemma {:induction false} RunIsAwaited(id: nat, s: State, w: World, sight: Sight, ys: seq<Experience>)
    requires Resting(s) && Mechanical(s, w) && s.status.solution.moves == [] && Waits(id, s, sight)
    requires PreparingUntil(s, w, ys, id) && Preparing(RunBoth(s, w, ys).0, id)
    ensures var (t, u) := RunBoth(s, w, ys);
            && Resting(t) && Mechanical(t, u) && t.status.solution.moves == [] && u.cube == w.cube
            && Waits(id, t, Observe(sight, s, w, ys))
  {
    hide Step, WorldStep, RunBoth, Resting, Mechanical, Preparing, PreparingUntil, Waits, SeeChange;
    if ys == [] {
      RunNothing(s, w);
    } else {
      var k := |ys| - 1;
      var (t, u) := RunBoth(s, w, ys[..k]);
      PreparingBefore(s, w, ys, id);
      RunIsAwaited(id, s, w, sight, ys[..k]);
      WaitsOn(id, t, u, Observe(sight, s, w, ys[..k]), ys[k]);
    }
  }

  lemma {:induction false} PreparingBefore(s: State, w: World, ys: seq<Experience>, id: nat)
    requires ys != [] && PreparingUntil(s, w, ys, id)
    ensures var before, last := ys[..|ys| - 1], ys[|ys| - 1];
            var (t, u) := RunBoth(s, w, before);
            && PreparingUntil(s, w, before, id) && Preparing(t, id)
            && RunBoth(s, w, ys) == (Step(t, last.input), WorldStep(t, u, last))
  {
    hide Step, WorldStep, Preparing;
    var before := ys[..|ys| - 1];
    forall j | 0 <= j < |before|
      ensures Preparing(RunBoth(s, w, before[..j]).0, id)
    {
      assert before[..j] == ys[..j];
    }
  }

  /** An automatic cycle is accepted in `s0`; it prepares its solution through the inputs
      `ys`, up to a state in which the solver is at work. */
  ghost predicate CyclePrepared(s0: State, w0: World, x0: Experience, id: nat, ys: seq<Experience>) {
    hide Step, WorldStep, RunBoth, Preparing, PreparingUntil;
    var s1, w1 := Step(s0, x0.input), WorldStep(s0, w0, x0);
    && s0.status.operation.None? && s1.scan.Some? && Preparing(s1, id)
    && PreparingUntil(s1, w1, ys, id) && Preparing(RunBoth(s1, w1, ys).0, id) && RunBoth(s1, w1, ys).0.solve.Some?
  }

  ghost function Prepared(s0: State, w0: World, x0: Experience, ys: seq<Experience>): (State, World) {
    hide Step, WorldStep, RunBoth;
    RunBoth(Step(s0, x0.input), WorldStep(s0, w0, x0), ys)
  }

  ghost function SeenPreparing(s0: State, w0: World, x0: Experience, v: View, ys: seq<Experience>): Sight {
    hide Step, WorldStep, RunBoth, See, Observe;
    var s1, w1 := Step(s0, x0.input), WorldStep(s0, w0, x0);
    Observe(See(See(Sight(v, []), s0.status), s1.status), s1, w1, ys)
  }

  /** For every reachable state without an operation, every input that begins an automatic
      cycle there, and every run of inputs up to a state in which the solver is at work:
      nothing is shown. If the next input publishes a solution, then in every run after it
      the published moves are animated in order without a violation; and when the cycle
      completes all of them have been, so that the simulator displays the cube that the
      robot has let go. */
  lemma {:induction false} CycleIsReplayed(times: Calibration, script: seq<bool>, w: World, zs: seq<Experience>, x0: Experience,
                                           q: Request, v: View, ys: seq<Experience>, x1: Experience, xs: seq<Experience>)
    requires q.kind == OperationKind.ScanSolveExecute
    requires var (s0, w0) := RunBoth(Initial(times, script), w, zs); CyclePrepared(s0, w0, x0, q.id, ys)
    ensures var (s0, w0) := RunBoth(Initial(times, script), w, zs); SeenPreparing(s0, w0, x0, v, ys).shown == []
    ensures var (s0, w0) := RunBoth(Initial(times, script), w, zs);
            var (s2, w2) := Prepared(s0, w0, x0, ys);
            var s3, w3 := Step(s2, x1.input), WorldStep(s2, w2, x1);
            Underway(s3, q) && q.moves == s3.status.solution.moves && UnderwayUntil(s3, w3, xs, q) ==>
              Replayed(q, w2.cube, Observe(See(SeenPreparing(s0, w0, x0, v, ys), s3.status), s3, w3, xs),
                       RunBoth(s3, w3, xs).0, RunBoth(s3, w3, xs).1)
  {
    hide Step, WorldStep, RunBoth, UnderwayUntil, See, Resting, Mechanical, Observe, Done, Underway, Replayed,
         Tracked, Executing, Preparing, PreparingUntil, CycleBegun, Awaiting, MP.OptimizedHeldSteps, MP.ExecuteSteps;
    var (s0, w0) := RunBoth(Initial(times, script), w, zs);
    RunsAreMechanical(times, script, w, zs);
    NothingFilled(s0);
    var s1, w1 := Step(s0, x0.input), WorldStep(s0, w0, x0);
    StepKeeps(s0, x0.input);
    StepMechanical(s0, w0, x0);
    CycleIsKnown(s0, w0, v, s1, w1, q.id);
    var ready := See(See(Sight(v, []), s0.status), s1.status);
    RunIsAwaited(q.id, s1, w1, ready, ys);
    var (s2, w2) := RunBoth(s1, w1, ys);
    var s3, w3 := Step(s2, x1.input), WorldStep(s2, w2, x1);
    if Underway(s3, q) && q.moves == s3.status.solution.moves && UnderwayUntil(s3, w3, xs, q) {
      var waiting := SeenPreparing(s0, w0, x0, v, ys);
      CycleExecutes(q, s2, w2, x1);
      CycleIsTaken(q, s2, s3, w3, waiting.view, w2.cube);
      assert waiting == Sight(waiting.view, []);
      FollowedToTheEnd(q, w2.cube, s3, w3, See(waiting, s3.status), xs);
    }
  }

  /** Had the solver answered in the tick that ends the scan, the view would not have seen
      the cube canonical again: it would still have it in the frame of the last photograph,
      and the turn of a left layer that starts in that tick would be a violation. */
  lemma {:induction false} AnsweredAtOnceIsMisread(q: Request, v: View, m: Machine)
    requires q.moves != [] && q.moves[0].face == LogicalFace.Left && m.closed == AllSides(true)
    requires v == RestView(q, MP.RotatedFb, 0)
    ensures Looked(v, StandOf(m, Some(MP.SetGrippers([MP.Pose(Side.Left, MP.R)]))), q.id).0.violation
         == Some(WrongFace(LogicalFace.Left, LogicalFace.Back))
  {
    var pose := MP.Pose(Side.Left, MP.R);
    var stand := StandOf(m, Some(MP.SetGrippers([pose])));
    OnePoseShown(m, pose);
    OneFresh(m.grippers, pose, STABLE);
    FrameKept(MP.RotatedFb, m);
    PairFrame(m, [pose], MP.RotatedFb);
    FourAxes(v, stand, q.id, [Side.Left]);
    MisfitSeen(v, stand, q.id, LogicalFace.Left, LogicalFace.Back);
    hide AxisSeen, TurnStart;
    AxisAtRest(AxisSeen(v, stand, q.id, [Side.Left], Side.Left).0, stand, q.id, Side.Left, Side.Right);
  }
}

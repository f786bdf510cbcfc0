/** What the diagnostic executor guarantees over any sequence of calls: its memory tells
    where everything stands, the cube stays in custody, the camera sees the named face, a
    fault stops all motion, and probes do what the baseline plan does. */
module RuntimeSafety {
  import opened Geometry
  import opened Stand
  import opened MovePlanner
  import opened Mechanics
  import opened Options
  import opened RobotService
  import opened StandRuntime
  import PM = PlanMeaning
  import PS = PlanSafety
  import SP = ScanPlan

  // ---- the memory tells the posture -----------------------------------------------

  /** The positions that were commanded last, as far as any were. */
  datatype Posture = Posture(rails: Four<Option<RailPosition>>, grippers: Four<Option<GripperOrientation>>)

  const NOTHING_COMMANDED := Posture(AllSides(None), AllSides(None))

  function RailsAfter(rails: Four<Option<RailPosition>>, target: RailTarget, position: RailPosition): Four<Option<RailPosition>> {
    match target
    case Pair(group) => rails.SetGroup(group, Some(position))
    case Single(side) => rails.Set(side, Some(position))
  }

  function GrippersAfter(grippers: Four<Option<GripperOrientation>>, poses: seq<Pose>): Four<Option<GripperOrientation>>
    decreases |poses|
  {
    if poses == [] then grippers
    else GrippersAfter(grippers.Set(poses[0].side, Some(poses[0].orientation)), poses[1..])
  }

  function AfterCommand(p: Posture, command: PwmCommand): Posture {
    match command
    case SetRailChannels(target, position) => p.(rails := RailsAfter(p.rails, target, position))
    case SetAllRails(position) => p.(rails := AllSides(Some(position)))
    case SetGripperChannels(poses) => p.(grippers := GrippersAfter(p.grippers, poses))
    case _ => p
  }

  /** The posture that a log of commands and outcomes leaves. */
  function PostureOf(log: seq<(PwmCommand, bool)>): Posture {
    if log == [] then NOTHING_COMMANDED
    else
      var before, (command, ok) := PostureOf(log[..|log| - 1]), log[|log| - 1];
      if ok then AfterCommand(before, command) else before
  }

  function AfterCommands(p: Posture, commands: seq<PwmCommand>): Posture
    decreases |commands|
  {
    if commands == [] then p else AfterCommands(AfterCommand(p, commands[0]), commands[1..])
  }

  lemma {:induction false} OneMore(log: seq<(PwmCommand, bool)>, command: PwmCommand, ok: bool)
    ensures PostureOf(log + [(command, ok)]) == if ok then AfterCommand(PostureOf(log), command) else PostureOf(log)
  {
    var entry := (command, ok);
    assert (log + [entry])[..|log + [entry]| - 1] == log;
  }

  /** Commands that all succeed leave the posture that they command. */
  lemma {:induction false} PlayedPosture(out: Output, commands: seq<PwmCommand>)
    requires Played(out, commands).1
    ensures PostureOf(Played(out, commands).0.log) == AfterCommands(PostureOf(out.log), commands)
    decreases |commands|
  {
    hide AfterCommand;
    if commands != [] {
      OneMore(out.log, commands[0], true);
      PlayedPosture(Commanded(out, commands[0]), commands[1..]);
    }
  }

  lemma {:induction false} AfterSplits(p: Posture, a: seq<PwmCommand>, b: seq<PwmCommand>)
    ensures AfterCommands(p, a + b) == AfterCommands(AfterCommands(p, a), b)
    decreases |a|
  {
    hide AfterCommand;
    if a == [] {
      assert a + b == b;
    } else {
      assert (a + b)[1..] == a[1..] + b;
      AfterSplits(AfterCommand(p, a[0]), a[1..], b);
    }
  }

  /** A machine that has been commanded completely. */
  function PostureOfMachine(m: Machine): Posture {
    Posture(Four(Some(PositionOf(m.closed.left)), Some(PositionOf(m.closed.right)),
                 Some(PositionOf(m.closed.top)), Some(PositionOf(m.closed.bottom))),
            Four(Some(m.grippers.left), Some(m.grippers.right), Some(m.grippers.top), Some(m.grippers.bottom)))
  }

  function PositionOf(closed: bool): RailPosition {
    if closed then NearGrip else FarOpen
  }

  lemma {:induction false} GrippersFollow(g: Four<GripperOrientation>, poses: seq<Pose>)
    ensures GrippersAfter(Four(Some(g.left), Some(g.right), Some(g.top), Some(g.bottom)), poses)
         == var s := SetPoses(g, poses); Four(Some(s.left), Some(s.right), Some(s.top), Some(s.bottom))
    decreases |poses|
  {
    if poses != [] {
      GrippersFollow(g.Set(poses[0].side, poses[0].orientation), poses[1..]);
    }
  }

  /** The servo commands of a step put the posture where the step puts the machine. */
  lemma {:induction false} StepFollows(m: Machine, step: Step)
    requires Exec(m, step).Some?
    ensures AfterCommands(PostureOfMachine(m), StepCommands(step)) == PostureOfMachine(Exec(m, step).value)
  {
    match step {
      case SetRails(target, position) =>
        var first := AfterCommand(PostureOfMachine(m), SetRailChannels(target, position));
        assert AfterCommands(PostureOfMachine(m), StepCommands(step)) == first by {
          assert StepCommands(step)[1..] == [DisableRails(target)] && [DisableRails(target)][1..] == [];
          assert AfterCommands(first, [DisableRails(target)]) == AfterCommands(first, []);
        }
      case SetGrippers(poses) =>
        GrippersFollow(m.grippers, poses);
        assert StepCommands(step)[1..] == [];
      case _ =>
    }
  }

  lemma {:induction false} MotionFollows(m: Machine, steps: seq<Step>)
    requires Run(m, steps).Some?
    ensures AfterCommands(PostureOfMachine(m), Commands(steps)) == PostureOfMachine(Run(m, steps).value)
    decreases |steps|
  {
    hide Exec, StepCommands;
    if steps != [] {
      var n := |steps| - 1;
      MotionFollows(m, steps[..n]);
      AfterSplits(PostureOfMachine(m), Commands(steps[..n]), StepCommands(steps[n]));
      StepFollows(Run(m, steps[..n]).value, steps[n]);
    }
  }

  // ---- the machine in every scan pose ---------------------------------------------

  function FirstPose(face: LogicalFace, pair: AxisGroup): GripperOrientation {
    match face
    case Front => P
    case Left => P
    case Right => R
    case Up => if pair == LeftRight then R else P
    case Down => P
    case Back => R
  }

  /** The stand in a scan pose, with the cube turned so that its named face looks into the
      camera. */
  function ScanMachine(cube: Cube, face: LogicalFace, pair: AxisGroup): Machine {
    var first := FirstPose(face, pair);
    Machine(AllSides(true).SetGroup(Other(pair), false),
            if pair == LeftRight then Four(first, Mirrored(first), X, X) else Four(X, X, first, Mirrored(first)),
            RotateCube(cube, SP.TowardCamera(face).0, SP.TowardCamera(face).1))
  }

  // ---- motions stay safe ----------------------------------------------------------

  lemma {:induction false} GrowOpen(start: Machine, steps: seq<Step>, m: Machine, pair: AxisGroup) returns (r: Machine)
    requires PM.Reaches(start, steps, m) && m.closed == AllSides(true) && ClearAt(m)
    ensures PM.Reaches(start, steps + [OpenOf(pair)], r) && r == m.(closed := AllSides(true).SetGroup(pair, false))
  {
    hide PM.Reaches;
    PM.Extend(start, steps, m, OpenOf(pair));
    r := m.(closed := AllSides(true).SetGroup(pair, false));
  }

  lemma {:induction false} GrowClose(start: Machine, steps: seq<Step>, m: Machine, pair: AxisGroup) returns (r: Machine)
    requires PM.Reaches(start, steps, m) && m.closed == AllSides(true).SetGroup(pair, false)
    requires CollisionFree(AllSides(true), Parallel(m.grippers))
    ensures PM.Reaches(start, steps + [CloseOf(pair)], r) && r == m.(closed := AllSides(true)) && ClearAt(r)
  {
    hide PM.Reaches;
    PM.Extend(start, steps, m, CloseOf(pair));
    r := m.(closed := AllSides(true));
  }

  /** The grippers after a twist. */
  function Twisted(g: Four<GripperOrientation>, pair: AxisGroup, first: GripperOrientation): Four<GripperOrientation> {
    if pair == LeftRight then Four(first, Mirrored(first), g.top, g.bottom) else Four(g.left, g.right, first, Mirrored(first))
  }

  lemma {:induction false} TwistPoses(g: Four<GripperOrientation>, pair: AxisGroup, first: GripperOrientation)
    ensures SetPoses(g, Twist(pair, first).poses) == Twisted(g, pair, first)
    ensures PosedSides(Twist(pair, first).poses) == AllSides(false).SetGroup(pair, true)
  {
    PM.TwoPoses(g, Twist(pair, first).poses[0], Twist(pair, first).poses[1]);
  }

  /** A twist of a pair whose rails are away leaves the cube alone. */
  lemma {:induction false} GrowFree(start: Machine, steps: seq<Step>, m: Machine, pair: AxisGroup, first: GripperOrientation)
    returns (r: Machine)
    requires PM.Reaches(start, steps, m) && m.closed == AllSides(true).SetGroup(pair, false)
    ensures PM.Reaches(start, steps + [Twist(pair, first)], r)
    ensures r == Machine(m.closed, Twisted(m.grippers, pair, first), m.cube)
  {
    hide PM.Reaches;
    TwistPoses(m.grippers, pair, first);
    PM.Extend(start, steps, m, Twist(pair, first));
    r := Machine(m.closed, Twisted(m.grippers, pair, first), m.cube);
  }

  function AxisOf(pair: AxisGroup): LogicalFace {
    if pair == TopBottom then Up else LogicalFace.Left
  }

  function FirstOf(g: Four<GripperOrientation>, pair: AxisGroup): GripperOrientation {
    if pair == LeftRight then g.left else g.top
  }

  predicate IsMirrored(g: Four<GripperOrientation>, pair: AxisGroup) {
    if pair == LeftRight then g.right == Mirrored(g.left) else g.bottom == Mirrored(g.top)
  }

  /** A twist of the holding pair while the other rails are away turns the whole cube. */
  lemma {:induction false} GrowTurn(start: Machine, steps: seq<Step>, m: Machine, pair: AxisGroup, first: GripperOrientation)
    returns (r: Machine)
    requires PM.Reaches(start, steps, m) && m.closed == AllSides(true).SetGroup(Other(pair), false)
    requires IsMirrored(m.grippers, pair)
    ensures PM.Reaches(start, steps + [Twist(pair, first)], r)
    ensures r == Machine(m.closed, Twisted(m.grippers, pair, first),
                         RotateCube(m.cube, AxisOf(pair), FirstOf(m.grippers, pair).Index() - first.Index()))
  {
    hide PM.Reaches, RotateCube;
    TwistPoses(m.grippers, pair, first);
    RotateCubeZero(m.cube, AxisOf(pair));
    r := Machine(m.closed, Twisted(m.grippers, pair, first),
                 RotateCube(m.cube, AxisOf(pair), FirstOf(m.grippers, pair).Index() - first.Index()));
    PM.Extend(start, steps, m, Twist(pair, first));
  }

  lemma {:induction false} StartsHere(m: Machine)
    ensures PM.Reaches(m, [], m)
  {
  }

  // ---- from canonical grip to every scan pose -------------------------------------

  /** Opening left/right and twisting the holding vertical pair shows a side. */
  lemma {:induction false} SidePose(cube: Cube, face: LogicalFace)
    requires face == LogicalFace.Left || face == LogicalFace.Right
    ensures PM.Reaches(CanonicalGrip(cube), ScanPoseMotion(face), ScanMachine(cube, face, TopBottom))
  {
    hide PM.Reaches, RotateCube;
    var start := CanonicalGrip(cube);
    StartsHere(start);
    var m := GrowOpen(start, [], start, LeftRight);
    m := GrowTurn(start, [] + [OpenOf(LeftRight)], m, TopBottom, FirstPose(face, TopBottom));
    assert [] + [OpenOf(LeftRight)] + [Twist(TopBottom, FirstPose(face, TopBottom))] == ScanPoseMotion(face);
  }

  lemma {:induction false} FrontPose(cube: Cube)
    ensures PM.Reaches(CanonicalGrip(cube), ScanPoseMotion(Front), ScanMachine(cube, Front, LeftRight))
  {
    hide PM.Reaches, RotateCube;
    var start := CanonicalGrip(cube);
    StartsHere(start);
    var m := GrowOpen(start, [], start, LeftRight);
    m := GrowFree(start, [] + [OpenOf(LeftRight)], m, LeftRight, P);
    m := GrowClose(start, [] + [OpenOf(LeftRight)] + [Twist(LeftRight, P)], m, LeftRight);
    m := GrowOpen(start, [] + [OpenOf(LeftRight)] + [Twist(LeftRight, P)] + [CloseOf(LeftRight)], m, TopBottom);
    RotateCubeZero(cube, Up);
    assert [] + [OpenOf(LeftRight)] + [Twist(LeftRight, P)] + [CloseOf(LeftRight)] + [OpenOf(TopBottom)] == ScanPoseMotion(Front);
  }

  /** From a cube held by perpendicular left/right grippers, the vertical pair takes over
      in parallel and the left/right rails open. */
  lemma {:induction false} RegripVertical(start: Machine, steps: seq<Step>, m: Machine) returns (r: Machine)
    requires PM.Reaches(start, steps, m) && m.closed == AllSides(true).SetGroup(TopBottom, false) && m.grippers == AllSides(X)
    ensures PM.Reaches(start, steps + REGRIP_TOP_BOTTOM, r)
    ensures r == Machine(AllSides(true).SetGroup(LeftRight, false), Four(X, X, P, R), m.cube)
  {
    hide PM.Reaches;
    r := GrowFree(start, steps, m, TopBottom, P);
    r := GrowClose(start, steps + [Twist(TopBottom, P)], r, TopBottom);
    r := GrowOpen(start, steps + [Twist(TopBottom, P)] + [CloseOf(TopBottom)], r, LeftRight);
    assert steps + [Twist(TopBottom, P)] + [CloseOf(TopBottom)] + [OpenOf(LeftRight)] == steps + REGRIP_TOP_BOTTOM;
  }

  lemma {:induction false} TiltPose(cube: Cube, face: LogicalFace)
    requires face == Up || face == Down
    ensures PM.Reaches(CanonicalGrip(cube), ScanPoseMotion(face), ScanMachine(cube, face, TopBottom))
  {
    hide PM.Reaches, RotateCube;
    var start, first := CanonicalGrip(cube), if face == Up then P else R;
    var s1 := [] + [OpenOf(LeftRight)];
    var s2 := s1 + [Twist(LeftRight, first)];
    var s3 := s2 + [CloseOf(LeftRight)];
    var s4 := s3 + [OpenOf(TopBottom)];
    StartsHere(start);
    var m := GrowOpen(start, [], start, LeftRight);
    m := GrowFree(start, s1, m, LeftRight, first);
    m := GrowClose(start, s2, m, LeftRight);
    m := GrowOpen(start, s3, m, TopBottom);
    m := GrowTurn(start, s4, m, LeftRight, X);
    m := RegripVertical(start, s4 + [Twist(LeftRight, X)], m);
    assert s4 + [Twist(LeftRight, X)] + REGRIP_TOP_BOTTOM == ScanPoseMotion(face);
  }

  lemma {:induction false} BackPose(cube: Cube)
    ensures PM.Reaches(CanonicalGrip(cube), ScanPoseMotion(Back), ScanMachine(cube, Back, TopBottom))
  {
    hide PM.Reaches, RotateCube;
    var start := CanonicalGrip(cube);
    var s1 := [] + [OpenOf(TopBottom)];
    var s2 := s1 + [Twist(TopBottom, P)];
    var s3 := s2 + [CloseOf(TopBottom)];
    var s4 := s3 + [OpenOf(LeftRight)];
    var s5 := s4 + [Twist(TopBottom, X)];
    StartsHere(start);
    var m := GrowOpen(start, [], start, TopBottom);
    m := GrowFree(start, s1, m, TopBottom, P);
    m := GrowClose(start, s2, m, TopBottom);
    m := GrowOpen(start, s3, m, LeftRight);
    m := GrowTurn(start, s4, m, TopBottom, X);
    m := GrowTurn(start, s5, m, TopBottom, R);
    RotateCubeAdds(cube, Up, -1, -1);
    assert s5 + [Twist(TopBottom, R)] == ScanPoseMotion(Back);
  }

  /** Every scan pose is reached from canonical grip without losing or pinching the cube,
      and shows the named face. */
  lemma {:induction false} ScanPoseReaches(cube: Cube, face: LogicalFace)
    ensures PM.Reaches(CanonicalGrip(cube), ScanPoseMotion(face), ScanMachine(cube, face, ScanPoseHolder(face)))
  {
    hide PM.Reaches, ScanPoseMotion, ScanMachine;
    match face {
      case Front => FrontPose(cube);
      case Left => SidePose(cube, face);
      case Right => SidePose(cube, face);
      case Up => TiltPose(cube, face);
      case Down => TiltPose(cube, face);
      case Back => BackPose(cube);
    }
  }

  // ---- from scan pose to scan pose ------------------------------------------------

  lemma {:induction false} TurnedBack(cube: Cube, axis: LogicalFace, turns: int)
    ensures RotateCube(RotateCube(cube, axis, turns), axis, -turns) == cube
  {
    RotateCubeAdds(cube, axis, turns, -turns);
    RotateCubeZero(cube, axis);
  }

  lemma {:induction false} FrontToUp(cube: Cube)
    ensures PM.Reaches(ScanMachine(cube, Front, LeftRight), ScanNextMotion(Front, Up), ScanMachine(cube, Up, TopBottom))
  {
    hide PM.Reaches, RotateCube;
    var start := ScanMachine(cube, Front, LeftRight);
    RotateCubeZero(cube, Up);
    StartsHere(start);
    var m := GrowTurn(start, [], start, LeftRight, X);
    m := RegripVertical(start, [] + [Twist(LeftRight, X)], m);
    assert [] + [Twist(LeftRight, X)] + REGRIP_TOP_BOTTOM == ScanNextMotion(Front, Up);
  }

  /** Turning back to the reference and on to the next face, without letting go. */
  lemma {:induction false} SwingOver(cube: Cube, face: LogicalFace, pair: AxisGroup, next: LogicalFace)
    requires (face == LogicalFace.Left && pair == TopBottom && next == LogicalFace.Right) || (face == Down && pair == LeftRight && next == Up)
    ensures PM.Reaches(ScanMachine(cube, face, pair), ScanNextMotion(face, next), ScanMachine(cube, next, pair))
  {
    hide PM.Reaches, RotateCube;
    var start := ScanMachine(cube, face, pair);
    StartsHere(start);
    var m := GrowTurn(start, [], start, pair, X);
    TurnedBack(cube, AxisOf(pair), SP.TowardCamera(face).1);
    m := GrowTurn(start, [] + [Twist(pair, X)], m, pair, R);
    assert [] + [Twist(pair, X)] + [Twist(pair, R)] == ScanNextMotion(face, next);
  }

  lemma {:induction false} RightToDown(cube: Cube)
    ensures PM.Reaches(ScanMachine(cube, LogicalFace.Right, TopBottom), ScanNextMotion(LogicalFace.Right, Down),
                       ScanMachine(cube, Down, LeftRight))
  {
    hide PM.Reaches, RotateCube;
    var start := ScanMachine(cube, LogicalFace.Right, TopBottom);
    var s1 := [] + [Twist(TopBottom, X)];
    var s2 := s1 + [CloseOf(LeftRight)];
    var s3 := s2 + [OpenOf(TopBottom)];
    StartsHere(start);
    var m := GrowTurn(start, [], start, TopBottom, X);
    TurnedBack(cube, Up, -1);
    m := GrowClose(start, s1, m, LeftRight);
    m := GrowOpen(start, s2, m, TopBottom);
    m := GrowTurn(start, s3, m, LeftRight, P);
    assert s3 + [Twist(LeftRight, P)] == ScanNextMotion(LogicalFace.Right, Down);
  }

  lemma {:induction false} UpToFront(cube: Cube)
    ensures PM.Reaches(ScanMachine(cube, Up, LeftRight), ScanNextMotion(Up, Front), ScanMachine(cube, Front, TopBottom))
  {
    hide PM.Reaches, RotateCube;
    var start := ScanMachine(cube, Up, LeftRight);
    StartsHere(start);
    var m := GrowTurn(start, [], start, LeftRight, X);
    TurnedBack(cube, LogicalFace.Left, -1);
    m := RegripVertical(start, [] + [Twist(LeftRight, X)], m);
    RotateCubeZero(cube, Up);
    assert [] + [Twist(LeftRight, X)] + REGRIP_TOP_BOTTOM == ScanNextMotion(Up, Front);
  }

  lemma {:induction false} FrontToBack(cube: Cube)
    ensures PM.Reaches(ScanMachine(cube, Front, TopBottom), ScanNextMotion(Front, Back), ScanMachine(cube, Back, TopBottom))
  {
    hide PM.Reaches, RotateCube;
    var start := ScanMachine(cube, Front, TopBottom);
    RotateCubeZero(cube, Up);
    StartsHere(start);
    var m := GrowTurn(start, [], start, TopBottom, R);
    assert [] + [Twist(TopBottom, R)] == ScanNextMotion(Front, Back);
  }

  /** Every direct transition keeps the cube in custody, clears all neighbours, and ends in
      the next scan pose. */
  lemma {:induction false} ScanNextReaches(cube: Cube, face: LogicalFace, pair: AxisGroup, next: LogicalFace)
    requires Transition(face, pair, next)
    ensures PM.Reaches(ScanMachine(cube, face, pair), ScanNextMotion(face, next),
                       ScanMachine(cube, next, ScanNextHolder(face, next)))
  {
    hide PM.Reaches, ScanNextMotion, ScanMachine;
    match face {
      case Front => if next == Up { FrontToUp(cube); } else { FrontToBack(cube); }
      case Left => SwingOver(cube, face, pair, next);
      case Right => RightToDown(cube);
      case Down => SwingOver(cube, face, pair, next);
      case Up => UpToFront(cube);
      case Back =>
    }
  }

  /** The end of a scan hands the cube back to canonical grip, as it was. */
  lemma {:induction false} ReturnReaches(cube: Cube)
    ensures PM.Reaches(ScanMachine(cube, Back, TopBottom), RETURN_FRONT, CanonicalGrip(cube))
  {
    hide PM.Reaches, RotateCube;
    var start := ScanMachine(cube, Back, TopBottom);
    var s1 := [] + [Twist(TopBottom, P)];
    var s2 := s1 + [CloseOf(LeftRight)];
    var s3 := s2 + [OpenOf(TopBottom)];
    var s4 := s3 + [Twist(TopBottom, X)];
    StartsHere(start);
    var m := GrowTurn(start, [], start, TopBottom, P);
    TurnedBack(cube, Up, -2);
    m := GrowClose(start, s1, m, LeftRight);
    m := GrowOpen(start, s2, m, TopBottom);
    m := GrowFree(start, s3, m, TopBottom, X);
    m := GrowClose(start, s4, m, TopBottom);
    assert s4 + [CloseOf(TopBottom)] == RETURN_FRONT;
  }

  // ---- every sequence of calls ----------------------------------------------------

  function Calls(script: seq<bool>, calls: seq<Call>): Runtime {
    if calls == [] then Runtime(Unknown, NoPair, Output(script, []))
    else Called(Calls(script, calls[..|calls| - 1]), calls[|calls| - 1])
  }

  /** Where the remembered state says everything stands. */
  function Remembered(state: Belief, holder: Holder, cube: Cube): Machine
    requires state == SafeOpen || state == Gripped || (state.ScanHold? && holder.HeldBy?)
  {
    match state
    case SafeOpen => Machine(AllSides(false), AllSides(X), cube)
    case ScanHold(face) => ScanMachine(cube, face, holder.pair)
    case _ => CanonicalGrip(cube)
  }

  /** In every state that claims a posture, the commands so far put the servos there. */
  ghost predicate Believes(r: Runtime) {
    && (r.state.ScanHold? ==> r.holder.HeldBy?)
    && (r.state == SafeOpen || r.state == Gripped ==> r.holder == NoPair)
    && (r.state == SafeOpen || r.state == Gripped || r.state.ScanHold? ==>
          forall cube: Cube :: PostureOf(r.out.log) == PostureOfMachine(Remembered(r.state, r.holder, cube)))
  }

  lemma {:induction false} PostureForgetsCube(state: Belief, holder: Holder, a: Cube, b: Cube)
    requires state == SafeOpen || state == Gripped || (state.ScanHold? && holder.HeldBy?)
    ensures PostureOfMachine(Remembered(state, holder, a)) == PostureOfMachine(Remembered(state, holder, b))
  {
  }

  lemma {:induction false} BelievesFrom(r: Runtime, cube: Cube)
    requires r.state == SafeOpen || r.state == Gripped || (r.state.ScanHold? && r.holder.HeldBy?)
    requires r.state == SafeOpen || r.state == Gripped ==> r.holder == NoPair
    requires PostureOf(r.out.log) == PostureOfMachine(Remembered(r.state, r.holder, cube))
    ensures Believes(r)
  {
    forall other: Cube
      ensures PostureOf(r.out.log) == PostureOfMachine(Remembered(r.state, r.holder, other))
    {
      PostureForgetsCube(r.state, r.holder, cube, other);
    }
  }

  /** A motion from one remembered state to another keeps the memory right. */
  lemma {:induction false} MotionKeepsMemory(r: Runtime, motion: seq<Step>, state: Belief, holder: Holder, cube: Cube, after: Cube)
    requires Believes(r) && (r.state == Gripped || r.state.ScanHold?)
    requires state == SafeOpen || state == Gripped || (state.ScanHold? && holder.HeldBy?)
    requires state == SafeOpen || state == Gripped ==> holder == NoPair
    requires Run(Remembered(r.state, r.holder, cube), motion) == Some(Remembered(state, holder, after))
    ensures Believes(Finished(Perform(r, Commands(motion)), state, holder))
  {
    hide Commands, Played, Run, PostureOf, AfterCommands, Remembered;
    if Played(r.out, Commands(motion)).1 {
      PlayedPosture(r.out, Commands(motion));
      MotionFollows(Remembered(r.state, r.holder, cube), motion);
      BelievesFrom(Finished(Perform(r, Commands(motion)), state, holder), after);
    }
  }

  /** Opening safely forgets whatever was before. */
  lemma {:induction false} SafeOpenPosture(p: Posture, cube: Cube)
    ensures AfterCommands(p, Commands(SAFE_OPEN_MOTION)) == PostureOfMachine(Machine(AllSides(false), AllSides(X), cube))
  {
    var a, b, c := OpenOf(LeftRight), OpenOf(TopBottom), SetGrippers(SAFE_POSES);
    CommandsOfOne(a);
    CommandsOfOne(b);
    CommandsOfOne(c);
    CommandsSplit([a], [b]);
    CommandsSplit([a] + [b], [c]);
    assert SAFE_OPEN_MOTION == [a] + [b] + [c];
    var p1 := p.(rails := RailsAfter(p.rails, Pair(LeftRight), FarOpen));
    var p2 := p.(rails := AllSides(Some(FarOpen)));
    AfterSplits(p, StepCommands(a) + StepCommands(b), StepCommands(c));
    AfterSplits(p, StepCommands(a), StepCommands(b));
    RailStepPosture(p, Pair(LeftRight), FarOpen);
    RailStepPosture(p1, Pair(TopBottom), FarOpen);
    GripperStepPosture(p2, SAFE_POSES);
    SafePosesAll(p2.grippers);
  }

  lemma {:induction false} RailStepPosture(p: Posture, target: RailTarget, position: RailPosition)
    ensures AfterCommands(p, StepCommands(SetRails(target, position))) == p.(rails := RailsAfter(p.rails, target, position))
  {
    var first := p.(rails := RailsAfter(p.rails, target, position));
    assert [SetRailChannels(target, position), DisableRails(target)][1..] == [DisableRails(target)];
    assert [DisableRails(target)][1..] == [];
    assert AfterCommands(first, [DisableRails(target)]) == AfterCommands(first, []);
  }

  lemma {:induction false} GripperStepPosture(p: Posture, poses: seq<Pose>)
    ensures AfterCommands(p, StepCommands(SetGrippers(poses))) == p.(grippers := GrippersAfter(p.grippers, poses))
  {
    assert [SetGripperChannels(poses)][1..] == [];
  }

  lemma {:induction false} SafePosesAll(g: Four<Option<GripperOrientation>>)
    ensures GrippersAfter(g, SAFE_POSES) == AllSides(Some(X))
  {
    var a := [Pose(Bottom, X), Pose(Top, X), Pose(Side.Left, X)];
    var b := [Pose(Top, X), Pose(Side.Left, X)];
    var c := [Pose(Side.Left, X)];
    assert SAFE_POSES[1..] == a && a[1..] == b && b[1..] == c && c[1..] == [];
    var g1 := g.Set(Side.Right, Some(X));
    var g2 := g1.Set(Bottom, Some(X));
    var g3 := g2.Set(Top, Some(X));
    assert GrippersAfter(g, SAFE_POSES) == GrippersAfter(g1, a);
    assert GrippersAfter(g1, a) == GrippersAfter(g2, b);
    assert GrippersAfter(g2, b) == GrippersAfter(g3, c);
    assert GrippersAfter(g3, c) == g3.Set(Side.Left, Some(X));
  }

  lemma {:induction false} SafeOpenKeepsMemory(r: Runtime)
    requires Believes(r)
    ensures Believes(SafelyOpened(r))
  {
    hide Commands, Played, PostureOf, AfterCommands;
    if Operational(r.state) && Played(r.out, Commands(SAFE_OPEN_MOTION)).1 {
      PlayedPosture(r.out, Commands(SAFE_OPEN_MOTION));
      SafeOpenPosture(PostureOf(r.out.log), []);
      BelievesFrom(SafelyOpened(r), []);
    }
  }

  lemma {:induction false} CloseAllPosture(p: Posture)
    ensures AfterCommands(p, CLOSE_ALL) == p.(rails := AllSides(Some(NearGrip)))
  {
    var first := p.(rails := AllSides(Some(NearGrip)));
    assert CLOSE_ALL[1..] == [DisableAllRails] && [DisableAllRails][1..] == [];
    assert AfterCommands(first, [DisableAllRails]) == AfterCommands(first, []);
  }

  lemma {:induction false} GripKeepsMemory(r: Runtime)
    requires Believes(r)
    ensures Believes(GripDone(r))
  {
    hide Commands, Played, PostureOf, AfterCommands;
    if !r.state.ScanHold? {
      var ready := if r.state == SafeOpen then r else SafelyOpened(r);
      SafeOpenKeepsMemory(r);
      if ready.state == SafeOpen && Played(ready.out, CLOSE_ALL).1 {
        PlayedPosture(ready.out, CLOSE_ALL);
        CloseAllPosture(PostureOf(ready.out.log));
        assert PostureOf(ready.out.log) == PostureOfMachine(Remembered(SafeOpen, ready.holder, []));
        BelievesFrom(GripDone(r), []);
      }
    }
  }

  lemma {:induction false} ScanPoseKeepsMemory(r: Runtime, face: LogicalFace)
    requires Believes(r)
    ensures Believes(ScanPosed(r, face))
  {
    hide Commands, Played, PostureOf, AfterCommands, ScanPoseMotion, ScanMachine;
    if r.state == Gripped {
      ScanPoseReaches([], face);
      MotionKeepsMemory(r, ScanPoseMotion(face), ScanHold(face), HeldBy(ScanPoseHolder(face)), [], []);
    }
  }

  lemma {:induction false} ScanNextKeepsMemory(r: Runtime, next: LogicalFace)
    requires Believes(r)
    ensures Believes(ScannedNext(r, next))
  {
    hide Commands, Played, PostureOf, AfterCommands, ScanNextMotion, ScanMachine;
    if r.state.ScanHold? && r.holder.HeldBy? && Transition(r.state.face, r.holder.pair, next) {
      ScanNextReaches([], r.state.face, r.holder.pair, next);
      MotionKeepsMemory(r, ScanNextMotion(r.state.face, next), ScanHold(next), HeldBy(ScanNextHolder(r.state.face, next)), [], []);
    }
  }

  lemma {:induction false} OpenAllRuns(start: Machine, steps: seq<Step>, cube: Cube)
    requires Run(start, steps) == Some(CanonicalGrip(cube))
    ensures Run(start, steps + OPEN_ALL) == Some(Machine(AllSides(false), AllSides(X), cube))
  {
    PS.RunLast(start, steps, OpenOf(LeftRight));
    PS.RunLast(start, steps + [OpenOf(LeftRight)], OpenOf(TopBottom));
    assert steps + [OpenOf(LeftRight)] + [OpenOf(TopBottom)] == steps + OPEN_ALL;
  }

  lemma {:induction false} ScanEndKeepsMemory(r: Runtime)
    requires Believes(r)
    ensures Believes(ScanFinished(r)) && Believes(ScanHandedOver(r))
  {
    hide Commands, Played, PostureOf, AfterCommands, ScanMachine, Run;
    if AtScanEnd(r) {
      ReturnReaches([]);
      OpenAllRuns(ScanMachine([], Back, TopBottom), RETURN_FRONT, []);
      MotionKeepsMemory(r, RETURN_FRONT, Gripped, NoPair, [], []);
      MotionKeepsMemory(r, RETURN_FRONT + OPEN_ALL, SafeOpen, NoPair, [], []);
    }
  }

  /** The plan of one move, from and to canonical grip. */
  lemma {:induction false} ProbeReaches(cube: Cube, move: CubeMove)
    ensures PM.Reaches(CanonicalGrip(cube), BaselineMove(EMPTY_PLAN, move).steps, CanonicalGrip(PM.ApplyMove(cube, move)))
  {
    StartsHere(CanonicalGrip(cube));
    hide PM.Reaches, BaselineMove;
    var m := PM.BaselineMoveReaches(CanonicalGrip(cube), EMPTY_PLAN, CanonicalGrip(cube), cube, move);
  }

  lemma {:induction false} ProbeKeepsMemory(r: Runtime, move: CubeMove)
    requires Believes(r)
    ensures Believes(Probed(r, move))
  {
    hide Commands, Played, PostureOf, AfterCommands, BaselineMove;
    if r.state == Gripped {
      ProbeReaches([], move);
      MotionKeepsMemory(r, BaselineMove(EMPTY_PLAN, move).steps, Gripped, NoPair, [], PM.ApplyMove([], move));
    }
  }

  /** Over every sequence of calls, with the driver failing at any point: what the runtime
      remembers determines where every rail and gripper was commanded. */
  lemma {:induction false} MemoryTellsPosture(script: seq<bool>, calls: seq<Call>)
    ensures Believes(Calls(script, calls))
  {
    hide Believes;
    if calls == [] {
      UnknownBelieves(script);
    } else {
      var n := |calls| - 1;
      var r := Calls(script, calls[..n]);
      MemoryTellsPosture(script, calls[..n]);
      match calls[n] {
        case Reset => ResetBelieves(r);
        case SafeOpenCall => SafeOpenKeepsMemory(r);
        case Grip => GripKeepsMemory(r);
        case ScanPose(face) => ScanPoseKeepsMemory(r, face);
        case ScanNext(next) => ScanNextKeepsMemory(r, next);
        case FinishScan => ScanEndKeepsMemory(r);
        case FinishScanForExecution => ScanEndKeepsMemory(r);
        case ProbeMove(move) => ProbeKeepsMemory(r, move);
      }
    }
  }

  lemma {:induction false} UnknownBelieves(script: seq<bool>)
    ensures Believes(Runtime(Unknown, NoPair, Output(script, [])))
  {
  }

  lemma {:induction false} ResetBelieves(r: Runtime)
    ensures Believes(Resetted(r))
  {
  }

  // ---- custody and camera ---------------------------------------------------------

  /** The motion that a call performs in a state that holds the cube without giving it up. */
  function HoldingMotion(r: Runtime, call: Call): seq<Step> {
    match call
    case ScanPose(face) => if r.state == Gripped then ScanPoseMotion(face) else []
    case ScanNext(next) =>
      if r.state.ScanHold? && r.holder.HeldBy? && Transition(r.state.face, r.holder.pair, next)
      then ScanNextMotion(r.state.face, next) else []
    case FinishScanForExecution => if AtScanEnd(r) then RETURN_FRONT else []
    case ProbeMove(move) => if r.state == Gripped then BaselineMove(EMPTY_PLAN, move).steps else []
    case _ => []
  }

  predicate KeepsHolding(call: Call) {
    call.ScanPose? || call.ScanNext? || call.FinishScanForExecution? || call.ProbeMove?
  }

  function CubeAfter(r: Runtime, call: Call, cube: Cube): Cube {
    if call.ProbeMove? && r.state == Gripped then PM.ApplyMove(cube, call.move) else cube
  }

  /** Scan poses, transitions, the hand-over and probe moves perform safe motions: the cube
      is held and no grippers meet, before, during and after every step, so also wherever a
      failure stops them; when they succeed, everything stands where the new state says,
      with the cube turned only by a probe's own move. */
  lemma {:induction false} HoldingCallsAreSafe(r: Runtime, call: Call, cube: Cube)
    requires (r.state == Gripped || (r.state.ScanHold? && r.holder.HeldBy?)) && KeepsHolding(call)
    ensures var after := Called(r, call);
            && after == (if HoldingMotion(r, call) == [] then r
                         else Finished(Perform(r, Commands(HoldingMotion(r, call))), after.state, after.holder))
            && (after.state != Faulted ==>
                  (after.state == Gripped || (after.state.ScanHold? && after.holder.HeldBy?))
                  && PM.Reaches(Remembered(r.state, r.holder, cube), HoldingMotion(r, call),
                                Remembered(after.state, after.holder, CubeAfter(r, call, cube))))
    ensures PM.SafeRun(Remembered(r.state, r.holder, cube), HoldingMotion(r, call))
  {
    hide Commands, Played, PM.Reaches, PM.SafeRun, ScanPoseMotion, ScanNextMotion, ScanMachine, BaselineMove, PM.ApplyMove;
    StartsHere(Remembered(r.state, r.holder, cube));
    match call {
      case ScanPose(face) =>
        if r.state == Gripped {
          ScanPoseReaches(cube, face);
        }
      case ScanNext(next) =>
        if r.state.ScanHold? && Transition(r.state.face, r.holder.pair, next) {
          ScanNextReaches(cube, r.state.face, r.holder.pair, next);
        }
      case FinishScanForExecution =>
        if AtScanEnd(r) {
          ReturnReaches(cube);
        }
      case ProbeMove(move) =>
        if r.state == Gripped {
          ProbeReaches(cube, move);
        }
      case _ =>
    }
    ReachesIsSafe(Remembered(r.state, r.holder, cube), HoldingMotion(r, call));
    MotionsAreNotEmpty();
  }

  lemma {:induction false} ReachesIsSafe(start: Machine, steps: seq<Step>)
    ensures (exists m :: PM.Reaches(start, steps, m)) ==> PM.SafeRun(start, steps)
  {
  }

  lemma {:induction false} MotionsAreNotEmpty()
    ensures forall face: LogicalFace :: ScanPoseMotion(face) != []
    ensures forall face: LogicalFace, next: LogicalFace :: ScanNextMotion(face, next) != []
    ensures forall move: CubeMove :: BaselineMove(EMPTY_PLAN, move).steps != []
  {
    forall move: CubeMove
      ensures BaselineMove(EMPTY_PLAN, move).steps != []
    {
      BaselineShape(move);
    }
  }

  /** Scan poses by the pair that holds them: a side is never scanned by its own pair. */
  predicate Reached(face: LogicalFace, pair: AxisGroup) {
    face in {LogicalFace.Left, LogicalFace.Right, Back} ==> pair == TopBottom
  }

  predicate HoldsReached(r: Runtime) {
    r.state.ScanHold? ==> r.holder.HeldBy? && Reached(r.state.face, r.holder.pair)
  }

  lemma {:induction false} CallStaysReached(r: Runtime, call: Call)
    requires HoldsReached(r)
    ensures HoldsReached(Called(r, call))
  {
    hide Commands, Played, ScanPoseMotion, ScanNextMotion, BaselineMove;
  }

  /** Over every sequence of calls, in every scan pose: the pair that holds the cube is not
      in the camera's way, and the camera sees the named face upright. */
  lemma {:induction false} ScanHoldShowsFace(script: seq<bool>, calls: seq<Call>, cube: Cube)
    ensures HoldsReached(Calls(script, calls))
    ensures var r := Calls(script, calls);
            r.state.ScanHold? ==>
              SP.FaceImage(Remembered(r.state, r.holder, cube).cube, Front) == SP.FaceImage(cube, r.state.face)
  {
    hide Called;
    if calls != [] {
      var n := |calls| - 1;
      ScanHoldShowsFace(script, calls[..n], cube);
      CallStaysReached(Calls(script, calls[..n]), calls[n]);
    }
    var r := Calls(script, calls);
    if r.state.ScanHold? {
      SP.UprightImage(cube, r.state.face);
    }
  }

  /** Over every sequence of calls: from a state that holds the cube, every call that is to
      keep hold of it starts with the servos commanded where the machine stands, and moves
      it safely, wherever a failure stops the motion. */
  lemma {:induction false} CallsKeepCustody(script: seq<bool>, calls: seq<Call>, call: Call, cube: Cube)
    requires var r := Calls(script, calls); (r.state == Gripped || r.state.ScanHold?) && KeepsHolding(call)
    ensures var r := Calls(script, calls);
            && Believes(r) && (r.state.ScanHold? ==> r.holder.HeldBy?)
            && PM.SafeRun(Remembered(r.state, r.holder, cube), HoldingMotion(r, call))
            && (HoldingMotion(r, call) != [] ==>
                  Calls(script, calls + [call]).out == Played(r.out, Commands(HoldingMotion(r, call))).0)
  {
    hide Commands, Played, HoldingMotion, Remembered, PostureOf, PM.SafeRun, Called;
    var r := Calls(script, calls);
    MemoryTellsPosture(script, calls);
    HoldingCallsAreSafe(r, call, cube);
    assert (calls + [call])[..|calls + [call]| - 1] == calls;
  }

  // ---- calls that go through ------------------------------------------------------

  /** The driver has no failure ahead. */
  predicate Sound(out: Output) {
    forall i :: 0 <= i < |out.script| ==> out.script[i]
  }

  lemma {:induction false} SoundPlays(out: Output, commands: seq<PwmCommand>)
    requires Sound(out)
    ensures Played(out, commands).1 && Sound(Played(out, commands).0)
    decreases |commands|
  {
    if commands != [] {
      SoundPlays(Commanded(out, commands[0]), commands[1..]);
    }
  }

  /** Where a call is meant to lead. */
  function Aim(call: Call): Belief {
    match call
    case Reset => OutputsOff
    case SafeOpenCall => SafeOpen
    case Grip => Gripped
    case ScanPose(face) => ScanHold(face)
    case ScanNext(next) => ScanHold(next)
    case FinishScan => SafeOpen
    case FinishScanForExecution => Gripped
    case ProbeMove(_) => Gripped
  }

  /** The states that a call is meant for: nothing but a reset helps a stand that is unknown
      or has faulted; a scan starts from the grip, goes on by the direct ways between two
      poses, and ends after the face at the back. */
  predicate MeantFor(call: Call, state: Belief, holder: Holder) {
    match call
    case Reset => true
    case SafeOpenCall => state in {OutputsOff, SafeOpen, Gripped} || state.ScanHold?
    case Grip => state in {OutputsOff, SafeOpen, Gripped}
    case ScanPose(_) => state == Gripped
    case ScanNext(next) =>
      && state.ScanHold? && holder.HeldBy?
      && (state.face, holder.pair, next) in {(LogicalFace.Left, TopBottom, LogicalFace.Right), (LogicalFace.Right, TopBottom, Down),
                                             (Down, LeftRight, Up), (Up, LeftRight, Front), (Front, TopBottom, Back),
                                             (Front, LeftRight, Up)}
    case FinishScan => state == ScanHold(Back) && holder == HeldBy(TopBottom)
    case FinishScanForExecution => state == ScanHold(Back) && holder == HeldBy(TopBottom)
    case ProbeMove(_) => state == Gripped
  }

  /** As long as the driver does not fail, a call that is meant for the state leads where it
      is meant to; any other call commands nothing and changes nothing. */
  lemma {:induction false} CallsGoThrough(r: Runtime, call: Call)
    requires Sound(r.out)
    ensures var after := Called(r, call);
            Sound(after.out) && if MeantFor(call, r.state, r.holder) then after.state == Aim(call) else after == r
  {
    hide Commands, Played, ScanPoseMotion, ScanNextMotion, BaselineMove, Sound;
    match call {
      case Reset => SoundOff(r.out);
      case SafeOpenCall => SoundPlays(r.out, Commands(SAFE_OPEN_MOTION));
      case Grip =>
        SoundPlays(r.out, Commands(SAFE_OPEN_MOTION));
        SoundPlays(r.out, CLOSE_ALL);
        SoundPlays(SafelyOpened(r).out, CLOSE_ALL);
      case ScanPose(face) => SoundPlays(r.out, Commands(ScanPoseMotion(face)));
      case ScanNext(next) =>
        if r.state.ScanHold? {
          SoundPlays(r.out, Commands(ScanNextMotion(r.state.face, next)));
        }
      case FinishScan => SoundPlays(r.out, Commands(RETURN_FRONT + OPEN_ALL));
      case FinishScanForExecution => SoundPlays(r.out, Commands(RETURN_FRONT));
      case ProbeMove(move) => SoundPlays(r.out, Commands(BaselineMove(EMPTY_PLAN, move).steps));
    }
  }

  lemma {:induction false} SoundOff(out: Output)
    requires Sound(out)
    ensures Outcome(out) && Sound(Commanded(out, PwmCommand.AllOff))
  {
  }

  /** A whole scan. */
  const WHOLE_SCAN: seq<Call> :=
    [Reset, Grip, ScanPose(LogicalFace.Left), ScanNext(LogicalFace.Right), ScanNext(Down), ScanNext(Up), ScanNext(Front),
     ScanNext(Back), FinishScanForExecution]

  /** From power-up, with a driver that does not fail, the whole scan goes through: every
      call leads where it is meant to, so that the camera is shown all six faces, and the
      stand ends with the cube in its grip. */
  lemma {:induction false} WholeScanGoesThrough(script: seq<bool>, k: nat)
    requires Sound(Output(script, [])) && 0 < k <= |WHOLE_SCAN|
    ensures Calls(script, WHOLE_SCAN[..k]).state == Aim(WHOLE_SCAN[k - 1])
    ensures Sound(Calls(script, WHOLE_SCAN[..k]).out)
    ensures 3 <= k < 9 ==> Calls(script, WHOLE_SCAN[..k]).holder == HeldBy(if k in {5, 6} then LeftRight else TopBottom)
  {
    hide Commands, Played, ScanPoseMotion, ScanNextMotion, BaselineMove, Sound;
    var n := k - 1;
    assert WHOLE_SCAN[..k][..n] == WHOLE_SCAN[..n];
    if n > 0 {
      WholeScanGoesThrough(script, n);
    }
    CallsGoThrough(Calls(script, WHOLE_SCAN[..n]), WHOLE_SCAN[n]);
  }

  // ---- faults ---------------------------------------------------------------------

  lemma {:induction false} FaultedCall(r: Runtime, call: Call)
    requires r.state == Faulted
    ensures call != Reset ==> Called(r, call) == r
    ensures call == Reset ==>
              Called(r, call).state == (if Outcome(r.out) then OutputsOff else Faulted)
              && r.out.log <= Called(r, call).out.log && OnlyOff(r.out.log, Called(r, call).out.log)
  {
  }

  /** Over every sequence of calls: once a fault has happened, nothing is commanded at all
      until a reset is called. */
  lemma {:induction false} FaultStopsMotion(script: seq<bool>, calls: seq<Call>, i: nat)
    requires i <= |calls| && Calls(script, calls[..i]).state == Faulted
    requires forall j :: i <= j < |calls| ==> calls[j] != Reset
    ensures Calls(script, calls) == Calls(script, calls[..i])
    decreases |calls|
  {
    hide Called;
    if i == |calls| {
      assert calls[..i] == calls;
    } else {
      var n := |calls| - 1;
      assert calls[..n][..i] == calls[..i];
      FaultStopsMotion(script, calls[..n], i);
      FaultedCall(Calls(script, calls[..n]), calls[n]);
    }
  }

  /** Everything commanded since then switches the outputs off. */
  predicate OnlyOff(before: seq<(PwmCommand, bool)>, after: seq<(PwmCommand, bool)>) {
    |before| <= |after| && forall k :: |before| <= k < |after| ==> after[k].0 == PwmCommand.AllOff
  }

  /** Until a reset succeeds, resets command nothing but to switch everything off; and only
      a reset that succeeds ends the fault. */
  lemma {:induction false} ResetsOnlySwitchOff(script: seq<bool>, calls: seq<Call>, i: nat)
    requires i < |calls|
    requires forall j :: i <= j < |calls| ==> Calls(script, calls[..j]).state == Faulted
    ensures var log := Calls(script, calls[..i]).out.log;
            log <= Calls(script, calls).out.log && OnlyOff(log, Calls(script, calls).out.log)
    ensures Calls(script, calls).state != Faulted ==>
              calls[|calls| - 1] == Reset && Calls(script, calls).state == OutputsOff
    decreases |calls|
  {
    hide Called;
    var n := |calls| - 1;
    var r := Calls(script, calls[..n]);
    FaultedCall(r, calls[n]);
    if i < n {
      assert forall j :: 0 <= j <= n ==> calls[..n][..j] == calls[..j];
      ResetsOnlySwitchOff(script, calls[..n], i);
    }
  }

  /** A performance either succeeds throughout, or ends with its first failure and one
      attempt to switch everything off. */
  lemma {:induction false} FailureEndsPerformance(out: Output, commands: seq<PwmCommand>) returns (k: nat)
    ensures var (after, ok) := Played(out, commands);
            && k <= |commands|
            && (ok ==> k == |commands| && after.log == out.log + seq(k, i requires 0 <= i < k => (commands[i], true)))
            && (!ok ==> k < |commands| && |after.log| == |out.log| + k + 2
                        && after.log[..|out.log| + k] == out.log + seq(k, i requires 0 <= i < k => (commands[i], true))
                        && after.log[|out.log| + k] == (commands[k], false) && after.log[|out.log| + k + 1].0 == PwmCommand.AllOff)
    decreases |commands|
  {
    k := 0;
    if commands != [] && Outcome(out) {
      var rest := commands[1..];
      var j := FailureEndsPerformance(Commanded(out, commands[0]), rest);
      k := j + 1;
      assert out.log + [(commands[0], true)] + seq(j, i requires 0 <= i < j => (rest[i], true))
          == out.log + seq(k, i requires 0 <= i < k => (commands[i], true));
    }
  }

  // ---- probes and the baseline plan -----------------------------------------------

  function Probes(r: Runtime, moves: seq<CubeMove>): Runtime {
    if moves == [] then r else Probed(Probes(r, moves[..|moves| - 1]), moves[|moves| - 1])
  }

  lemma {:induction false} BaselineMoveAppends(plan: Plan, move: CubeMove)
    ensures BaselineMove(plan, move).steps == plan.steps + BaselineMove(EMPTY_PLAN, move).steps
  {
    hide TurnSteps, ReorientSteps;
    var side := DirectSide(move.face);
    BaselineShape(move);
    BaselineTurnShape(plan, side, move.turn);
    BaselineTurnShape(Append(plan, ReorientSteps(P, R)), side, move.turn);
  }

  /** Probing the moves one after another commands the servos exactly as the baseline plan
      of the whole list: the same sets and releases in the same order. */
  lemma {:induction false} ProbesFollowBaseline(r: Runtime, moves: seq<CubeMove>)
    requires r.state == Gripped && r.holder == NoPair
    ensures Probes(r, moves).state == Gripped <==> Played(r.out, Commands(BaselineHeldSteps(moves))).1
    ensures Probes(r, moves).state == Gripped || Probes(r, moves).state == Faulted
    ensures Probes(r, moves).out == Played(r.out, Commands(BaselineHeldSteps(moves))).0
    decreases |moves|
  {
    hide Commands, Played, BaselineMove;
    if moves == [] {
      StartsUnchanged(r);
    } else {
      var n := |moves| - 1;
      var before, steps := Probes(r, moves[..n]), BaselineHeldSteps(moves[..n]);
      var more := BaselineMove(EMPTY_PLAN, moves[n]).steps;
      ProbesFollowBaseline(r, moves[..n]);
      BaselineMoveAppends(BaselinePlan(moves[..n]), moves[n]);
      CommandsSplit(steps, more);
      PlayedSplits(r.out, Commands(steps), Commands(more));
    }
  }
}

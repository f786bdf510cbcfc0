/** The diagnostic executor of the stand: a second implementation of the motions, which
    commands the servos directly and remembers only what it commanded last. */
module StandRuntime {
  import opened Geometry
  import opened Stand
  import opened MovePlanner
  import opened RobotService

  /** What the runtime believes about the stand. */
  datatype Belief = Unknown | OutputsOff | SafeOpen | Gripped | ScanHold(face: LogicalFace) | Faulted

  datatype Holder = NoPair | HeldBy(pair: AxisGroup)

  datatype Runtime = Runtime(state: Belief, holder: Holder, out: Output)

  // ---- commands -------------------------------------------------------------------

  /** The servo commands of one mechanical step. */
  function StepCommands(step: Step): seq<PwmCommand> {
    match step
    case SetRails(target, position) => [SetRailChannels(target, position), DisableRails(target)]
    case SetGrippers(poses) => [SetGripperChannels(poses)]
    case MoveCompleted => []
    case AllOff => []
  }

  function Commands(steps: seq<Step>): seq<PwmCommand> {
    if steps == [] then [] else Commands(steps[..|steps| - 1]) + StepCommands(steps[|steps| - 1])
  }

  lemma {:induction false} CommandsSplit(a: seq<Step>, b: seq<Step>)
    ensures Commands(a + b) == Commands(a) + Commands(b)
    decreases |b|
  {
    if b == [] {
      assert a + b == a;
    } else {
      assert (a + b)[..|a + b| - 1] == a + b[..|b| - 1];
      CommandsSplit(a, b[..|b| - 1]);
    }
  }

  lemma {:induction false} CommandsOfOne(step: Step)
    ensures Commands([step]) == StepCommands(step)
  {
    assert [step][..0] == [];
  }

  /** Commands in order until one fails; a failure is followed by switching everything off
      as well as that goes. */
  function Played(out: Output, commands: seq<PwmCommand>): (r: (Output, bool))
    decreases |commands|
  {
    if commands == [] then (out, true)
    else if !Outcome(out) then (Commanded(Commanded(out, commands[0]), PwmCommand.AllOff), false)
    else Played(Commanded(out, commands[0]), commands[1..])
  }

  lemma {:induction false} PlayedSplits(out: Output, a: seq<PwmCommand>, b: seq<PwmCommand>)
    ensures Played(out, a + b) == if Played(out, a).1 then Played(Played(out, a).0, b) else Played(out, a)
    decreases |a|
  {
    if a == [] {
      assert a + b == b;
    } else {
      assert (a + b)[1..] == a[1..] + b;
      if Outcome(out) {
        PlayedSplits(Commanded(out, a[0]), a[1..], b);
      }
    }
  }

  lemma {:induction false} PlayedOne(out: Output, command: PwmCommand)
    ensures Played(out, [command]) ==
              if Outcome(out) then (Commanded(out, command), true)
              else (Commanded(Commanded(out, command), PwmCommand.AllOff), false)
  {
    assert [command][1..] == [];
    assert Played(Commanded(out, command), []) == (Commanded(out, command), true);
  }

  /** The runtime after some commands. */
  function Perform(r: Runtime, commands: seq<PwmCommand>): Runtime {
    var (out, ok) := Played(r.out, commands);
    if ok then r.(out := out) else r.(out := out, state := Faulted)
  }

  // ---- motions --------------------------------------------------------------------

  function OpenOf(pair: AxisGroup): Step {
    SetRails(Pair(pair), FarOpen)
  }

  function CloseOf(pair: AxisGroup): Step {
    SetRails(Pair(pair), NearGrip)
  }

  function Mirrored(orientation: GripperOrientation): GripperOrientation {
    match orientation
    case FrameParallel => R
    case FramePerpendicular => X
    case FrameParallelReversed => P
  }

  /** Both grippers of a pair to mirrored orientations. */
  function Twist(pair: AxisGroup, first: GripperOrientation): Step {
    SetGrippers([Pose(GroupSides(pair)[0], first), Pose(GroupSides(pair)[1], Mirrored(first))])
  }

  const SAFE_POSES := [Pose(Side.Right, X), Pose(Bottom, X), Pose(Top, X), Pose(Side.Left, X)]

  const OPEN_ALL := [OpenOf(LeftRight), OpenOf(TopBottom)]
  const SAFE_OPEN_MOTION := OPEN_ALL + [SetGrippers(SAFE_POSES)]
  const REGRIP_TOP_BOTTOM := [Twist(TopBottom, P), CloseOf(TopBottom), OpenOf(LeftRight)]
  const RETURN_FRONT :=
    [Twist(TopBottom, P), CloseOf(LeftRight), OpenOf(TopBottom), Twist(TopBottom, X), CloseOf(TopBottom)]

  function ScanPoseMotion(face: LogicalFace): seq<Step> {
    match face
    case Front => [OpenOf(LeftRight), Twist(LeftRight, P), CloseOf(LeftRight), OpenOf(TopBottom)]
    case Left => [OpenOf(LeftRight), Twist(TopBottom, P)]
    case Right => [OpenOf(LeftRight), Twist(TopBottom, R)]
    case Up => [OpenOf(LeftRight), Twist(LeftRight, P), CloseOf(LeftRight), OpenOf(TopBottom), Twist(LeftRight, X)]
               + REGRIP_TOP_BOTTOM
    case Down => [OpenOf(LeftRight), Twist(LeftRight, R), CloseOf(LeftRight), OpenOf(TopBottom), Twist(LeftRight, X)]
                 + REGRIP_TOP_BOTTOM
    case Back => [OpenOf(TopBottom), Twist(TopBottom, P), CloseOf(TopBottom), OpenOf(LeftRight), Twist(TopBottom, X),
                  Twist(TopBottom, R)]
  }

  function ScanPoseHolder(face: LogicalFace): AxisGroup {
    if face == Front then LeftRight else TopBottom
  }

  /** The verified direct transitions between scan poses. */
  predicate Transition(face: LogicalFace, pair: AxisGroup, next: LogicalFace) {
    || (face == Front && pair == LeftRight && next == Up)
    || (face == LogicalFace.Left && pair == TopBottom && next == LogicalFace.Right)
    || (face == LogicalFace.Right && pair == TopBottom && next == Down)
    || (face == Down && pair == LeftRight && next == Up)
    || (face == Up && pair == LeftRight && next == Front)
    || (face == Front && pair == TopBottom && next == Back)
  }

  function ScanNextMotion(face: LogicalFace, next: LogicalFace): seq<Step> {
    if face == Front && next == Up then [Twist(LeftRight, X)] + REGRIP_TOP_BOTTOM
    else if face == LogicalFace.Left then [Twist(TopBottom, X), Twist(TopBottom, R)]
    else if face == LogicalFace.Right then
      [Twist(TopBottom, X), CloseOf(LeftRight), OpenOf(TopBottom), Twist(LeftRight, P)]
    else if face == Down then [Twist(LeftRight, X), Twist(LeftRight, R)]
    else if face == Up then [Twist(LeftRight, X), Twist(TopBottom, P), CloseOf(TopBottom), OpenOf(LeftRight)]
    else [Twist(TopBottom, R)]
  }

  function ScanNextHolder(face: LogicalFace, next: LogicalFace): AxisGroup {
    if face == LogicalFace.Right || face == Down then LeftRight else TopBottom
  }

  // ---- operations -----------------------------------------------------------------

  datatype Call =
    | Reset
    | SafeOpenCall
    | Grip
    | ScanPose(face: LogicalFace)
    | ScanNext(next: LogicalFace)
    | FinishScan
    | FinishScanForExecution
    | ProbeMove(move: CubeMove)

  predicate Operational(state: Belief) {
    state != Unknown && state != Faulted
  }

  function Finished(r: Runtime, state: Belief, holder: Holder): Runtime {
    if r.state == Faulted then r else r.(state := state, holder := holder)
  }

  function Resetted(r: Runtime): Runtime {
    if Outcome(r.out) then Runtime(OutputsOff, NoPair, Commanded(r.out, PwmCommand.AllOff))
    else r.(state := Faulted, out := Commanded(Commanded(r.out, PwmCommand.AllOff), PwmCommand.AllOff))
  }

  function SafelyOpened(r: Runtime): Runtime {
    if !Operational(r.state) then r
    else Finished(Perform(r, Commands(SAFE_OPEN_MOTION)), SafeOpen, NoPair)
  }

  const CLOSE_ALL := [SetAllRails(NearGrip), DisableAllRails]

  function GripDone(r: Runtime): Runtime {
    if r.state.ScanHold? then r
    else
      var ready := if r.state == SafeOpen then r else SafelyOpened(r);
      if ready.state != SafeOpen then ready else Finished(Perform(ready, CLOSE_ALL), Gripped, NoPair)
  }

  function ScanPosed(r: Runtime, face: LogicalFace): Runtime {
    if r.state != Gripped then r
    else Finished(Perform(r, Commands(ScanPoseMotion(face))), ScanHold(face), HeldBy(ScanPoseHolder(face)))
  }

  function ScannedNext(r: Runtime, next: LogicalFace): Runtime {
    if r.state.ScanHold? && r.holder.HeldBy? && Transition(r.state.face, r.holder.pair, next) then
      Finished(Perform(r, Commands(ScanNextMotion(r.state.face, next))), ScanHold(next), HeldBy(ScanNextHolder(r.state.face, next)))
    else r
  }

  predicate AtScanEnd(r: Runtime) {
    r.state == ScanHold(Back) && r.holder == HeldBy(TopBottom)
  }

  function ScanFinished(r: Runtime): Runtime {
    if !AtScanEnd(r) then r else Finished(Perform(r, Commands(RETURN_FRONT + OPEN_ALL)), SafeOpen, NoPair)
  }

  function ScanHandedOver(r: Runtime): Runtime {
    if !AtScanEnd(r) then r else Finished(Perform(r, Commands(RETURN_FRONT)), Gripped, NoPair)
  }

  function Probed(r: Runtime, move: CubeMove): Runtime {
    if r.state != Gripped then r
    else Finished(Perform(r, Commands(BaselineMove(EMPTY_PLAN, move).steps)), Gripped, NoPair)
  }

  function Called(r: Runtime, call: Call): Runtime {
    match call
    case Reset => Resetted(r)
    case SafeOpenCall => SafelyOpened(r)
    case Grip => GripDone(r)
    case ScanPose(face) => ScanPosed(r, face)
    case ScanNext(next) => ScannedNext(r, next)
    case FinishScan => ScanFinished(r)
    case FinishScanForExecution => ScanHandedOver(r)
    case ProbeMove(move) => Probed(r, move)
  }

  /** The states from which a call is let through. */
  predicate Admits(r: Runtime, call: Call) {
    match call
    case Reset => true
    case SafeOpenCall => Operational(r.state)
    case Grip => Operational(r.state) && !r.state.ScanHold?
    case ScanPose(_) => r.state == Gripped
    case ScanNext(next) => r.state.ScanHold? && r.holder.HeldBy? && Transition(r.state.face, r.holder.pair, next)
    case FinishScan => AtScanEnd(r)
    case FinishScanForExecution => AtScanEnd(r)
    case ProbeMove(_) => r.state == Gripped
  }

  /** A call succeeds if it is let through and does not fault. */
  predicate Succeeds(r: Runtime, call: Call) {
    Admits(r, call) && Called(r, call).state != Faulted
  }

  // ---- the class ------------------------------------------------------------------

  class StandRuntime {
    var state: Belief
    var holder: Holder
    var out: Output

    ghost function Value(): Runtime
      reads this
    {
      Runtime(state, holder, out)
    }

    constructor (script: seq<bool>)
      ensures Value() == Runtime(Unknown, NoPair, Output(script, []))
    {
      state := Unknown;
      holder := NoPair;
      out := Output(script, []);
    }

    /** Sends one command; the driver may refuse it. */
    method Send(command: PwmCommand) returns (ok: bool)
      modifies this`out
      ensures ok == Outcome(old(out)) && out == Commanded(old(out), command)
    {
      ok := Outcome(out);
      out := Commanded(out, command);
    }

    method Fault()
      modifies this`state, this`out
      ensures Value() == old(Value()).(state := Faulted, out := Commanded(old(out), PwmCommand.AllOff))
    {
      state := Faulted;
      var off := Send(PwmCommand.AllOff);
    }

    method Apply(command: PwmCommand) returns (ok: bool)
      modifies this`state, this`out
      ensures Value() == Perform(old(Value()), [command]) && ok == Played(old(out), [command]).1
    {
      PlayedOne(out, command);
      ok := Send(command);
      if !ok {
        Fault();
      }
    }

    /** Rails are driven, given time, and released. */
    method MoveRails(target: RailTarget, position: RailPosition) returns (ok: bool)
      modifies this`state, this`out
      ensures Value() == Perform(old(Value()), Commands([SetRails(target, position)]))
      ensures ok == Played(old(out), Commands([SetRails(target, position)])).1
    {
      CommandsOfOne(SetRails(target, position));
      PlayedSplits(out, [SetRailChannels(target, position)], [DisableRails(target)]);
      assert [SetRailChannels(target, position)] + [DisableRails(target)] == [SetRailChannels(target, position), DisableRails(target)];
      ok := Apply(SetRailChannels(target, position));
      if ok {
        ok := Apply(DisableRails(target));
      }
    }

    method PoseGrippers(poses: seq<Pose>) returns (ok: bool)
      modifies this`state, this`out
      ensures Value() == Perform(old(Value()), Commands([SetGrippers(poses)]))
      ensures ok == Played(old(out), Commands([SetGrippers(poses)])).1
    {
      CommandsOfOne(SetGrippers(poses));
      ok := Apply(SetGripperChannels(poses));
    }

    /** One more step of a motion, unless an earlier one has failed. */
    method Do(before: bool, step: Step, ghost start: Runtime, ghost done: seq<Step>) returns (ok: bool, ghost after: seq<Step>)
      requires step.SetRails? || step.SetGrippers?
      requires Value() == Perform(start, Commands(done)) && before == Played(start.out, Commands(done)).1
      modifies this`state, this`out
      ensures after == done + [step]
      ensures Value() == Perform(start, Commands(after)) && ok == Played(start.out, Commands(after)).1
    {
      hide Commands, Played;
      after := done + [step];
      CommandsSplit(done, [step]);
      PlayedSplits(start.out, Commands(done), Commands([step]));
      ok := false;
      if before {
        match step
        case SetRails(target, position) => ok := MoveRails(target, position);
        case SetGrippers(poses) => ok := PoseGrippers(poses);
      }
    }

    method ResetRuntime() returns (ok: bool)
      modifies this
      ensures Value() == Resetted(old(Value())) && ok == Succeeds(old(Value()), Reset)
    {
      ok := Send(PwmCommand.AllOff);
      if ok {
        state := OutputsOff;
        holder := NoPair;
      } else {
        Fault();
      }
    }

    method OpenSafely() returns (ok: bool)
      modifies this
      ensures Value() == SafelyOpened(old(Value())) && ok == Succeeds(old(Value()), SafeOpenCall)
      ensures ok ==> state == SafeOpen
      ensures !ok ==> state == Faulted || Value() == old(Value())
    {
      hide Commands, Played;
      if state == Unknown || state == Faulted {
        return false;
      }
      ghost var start, done := Value(), [];
      StartsUnchanged(start);
      ok, done := Do(true, OpenOf(LeftRight), start, done);
      ok, done := Do(ok, OpenOf(TopBottom), start, done);
      ok, done := Do(ok, SetGrippers(SAFE_POSES), start, done);
      assert done == SAFE_OPEN_MOTION;
      PerformKeepsState(start, Commands(SAFE_OPEN_MOTION));
      if ok {
        state := SafeOpen;
        holder := NoPair;
      }
    }

    method CloseAllRails() returns (ok: bool)
      modifies this`state, this`out
      ensures Value() == Perform(old(Value()), CLOSE_ALL) && ok == Played(old(out), CLOSE_ALL).1
    {
      PlayedSplits(out, [SetAllRails(NearGrip)], [DisableAllRails]);
      assert [SetAllRails(NearGrip)] + [DisableAllRails] == CLOSE_ALL;
      ok := Apply(SetAllRails(NearGrip));
      if ok {
        ok := Apply(DisableAllRails);
      }
    }

    /** From a scan pose gripping is refused: it would open the only rails that hold. */
    method GripCube() returns (ok: bool)
      modifies this
      ensures Value() == GripDone(old(Value())) && ok == Succeeds(old(Value()), Grip)
    {
      hide Commands, Played;
      if state.ScanHold? {
        return false;
      }
      if state != SafeOpen {
        ok := OpenSafely();
        if !ok {
          return;
        }
      }
      PerformKeepsState(Value(), CLOSE_ALL);
      ok := CloseAllRails();
      if ok {
        state := Gripped;
        holder := NoPair;
      }
    }

    method SideScan(first: GripperOrientation) returns (ok: bool)
      modifies this`state, this`out
      ensures var motion := [OpenOf(LeftRight), Twist(TopBottom, first)];
              Value() == Perform(old(Value()), Commands(motion)) && ok == Played(old(out), Commands(motion)).1
    {
      hide Commands, Played;
      ghost var start, done := Value(), [];
      StartsUnchanged(start);
      ok, done := Do(true, OpenOf(LeftRight), start, done);
      ok, done := Do(ok, Twist(TopBottom, first), start, done);
      assert done == [OpenOf(LeftRight), Twist(TopBottom, first)];
    }

    method RegripLeftRight() returns (ok: bool)
      modifies this`state, this`out
      ensures Value() == Perform(old(Value()), Commands(ScanPoseMotion(Front)))
      ensures ok == Played(old(out), Commands(ScanPoseMotion(Front))).1
    {
      hide Commands, Played;
      ghost var start, done := Value(), [];
      StartsUnchanged(start);
      ok, done := Do(true, OpenOf(LeftRight), start, done);
      ok, done := Do(ok, Twist(LeftRight, P), start, done);
      ok, done := Do(ok, CloseOf(LeftRight), start, done);
      ok, done := Do(ok, OpenOf(TopBottom), start, done);
      assert done == ScanPoseMotion(Front);
    }

    method HorizontalTurn(first: GripperOrientation) returns (ok: bool)
      modifies this`state, this`out
      ensures var motion := [OpenOf(LeftRight), Twist(LeftRight, first), CloseOf(LeftRight), OpenOf(TopBottom), Twist(LeftRight, X)]
                            + REGRIP_TOP_BOTTOM;
              Value() == Perform(old(Value()), Commands(motion)) && ok == Played(old(out), Commands(motion)).1
    {
      hide Commands, Played;
      ghost var start, done := Value(), [];
      StartsUnchanged(start);
      ok, done := Do(true, OpenOf(LeftRight), start, done);
      ok, done := Do(ok, Twist(LeftRight, first), start, done);
      ok, done := Do(ok, CloseOf(LeftRight), start, done);
      ok, done := Do(ok, OpenOf(TopBottom), start, done);
      ok, done := Do(ok, Twist(LeftRight, X), start, done);
      ok, done := Do(ok, Twist(TopBottom, P), start, done);
      ok, done := Do(ok, CloseOf(TopBottom), start, done);
      ok, done := Do(ok, OpenOf(LeftRight), start, done);
      assert done == [OpenOf(LeftRight), Twist(LeftRight, first), CloseOf(LeftRight), OpenOf(TopBottom), Twist(LeftRight, X)]
                     + REGRIP_TOP_BOTTOM;
    }

    method VerticalTurnToBack() returns (ok: bool)
      modifies this`state, this`out
      ensures Value() == Perform(old(Value()), Commands(ScanPoseMotion(Back)))
      ensures ok == Played(old(out), Commands(ScanPoseMotion(Back))).1
    {
      hide Commands, Played;
      ghost var start, done := Value(), [];
      StartsUnchanged(start);
      ok, done := Do(true, OpenOf(TopBottom), start, done);
      ok, done := Do(ok, Twist(TopBottom, P), start, done);
      ok, done := Do(ok, CloseOf(TopBottom), start, done);
      ok, done := Do(ok, OpenOf(LeftRight), start, done);
      ok, done := Do(ok, Twist(TopBottom, X), start, done);
      ok, done := Do(ok, Twist(TopBottom, R), start, done);
      assert done == ScanPoseMotion(Back);
    }

    method EnterScanPose(face: LogicalFace) returns (ok: bool)
      modifies this
      ensures Value() == ScanPosed(old(Value()), face) && ok == Succeeds(old(Value()), ScanPose(face))
    {
      hide Commands, Played;
      if state != Gripped {
        return false;
      }
      ghost var start := Value();
      match face {
        case Front => ok := RegripLeftRight();
        case Left => ok := SideScan(P);
        case Right => ok := SideScan(R);
        case Up => ok := HorizontalTurn(P);
        case Down => ok := HorizontalTurn(R);
        case Back => ok := VerticalTurnToBack();
      }
      PerformKeepsState(start, Commands(ScanPoseMotion(face)));
      if ok {
        state := ScanHold(face);
        holder := HeldBy(if face == Front then LeftRight else TopBottom);
      }
    }

    method NextScanPose(next: LogicalFace) returns (ok: bool)
      modifies this
      ensures Value() == ScannedNext(old(Value()), next) && ok == Succeeds(old(Value()), ScanNext(next))
    {
      hide Commands, Played;
      ghost var start, done := Value(), [];
      StartsUnchanged(start);
      var pair;
      match (state, holder, next) {
        case (ScanHold(Front), HeldBy(LeftRight), Up) =>
          ok, done := Do(true, Twist(LeftRight, X), start, done);
          ok, done := Do(ok, Twist(TopBottom, P), start, done);
          ok, done := Do(ok, CloseOf(TopBottom), start, done);
          ok, done := Do(ok, OpenOf(LeftRight), start, done);
          pair := TopBottom;
        case (ScanHold(Left), HeldBy(TopBottom), Right) =>
          ok, done := Do(true, Twist(TopBottom, X), start, done);
          ok, done := Do(ok, Twist(TopBottom, R), start, done);
          pair := TopBottom;
        case (ScanHold(Right), HeldBy(TopBottom), Down) =>
          ok, done := Do(true, Twist(TopBottom, X), start, done);
          ok, done := Do(ok, CloseOf(LeftRight), start, done);
          ok, done := Do(ok, OpenOf(TopBottom), start, done);
          ok, done := Do(ok, Twist(LeftRight, P), start, done);
          pair := LeftRight;
        case (ScanHold(Down), HeldBy(LeftRight), Up) =>
          ok, done := Do(true, Twist(LeftRight, X), start, done);
          ok, done := Do(ok, Twist(LeftRight, R), start, done);
          pair := LeftRight;
        case (ScanHold(Up), HeldBy(LeftRight), Front) =>
          ok, done := Do(true, Twist(LeftRight, X), start, done);
          ok, done := Do(ok, Twist(TopBottom, P), start, done);
          ok, done := Do(ok, CloseOf(TopBottom), start, done);
          ok, done := Do(ok, OpenOf(LeftRight), start, done);
          pair := TopBottom;
        case (ScanHold(Front), HeldBy(TopBottom), Back) =>
          ok, done := Do(true, Twist(TopBottom, R), start, done);
          pair := TopBottom;
        case _ =>
          return false;
      }
      assert done == ScanNextMotion(start.state.face, next);
      PerformKeepsState(start, Commands(done));
      if ok {
        state := ScanHold(next);
        holder := HeldBy(pair);
      }
    }

    method ReturnFront() returns (ok: bool)
      modifies this`state, this`out
      ensures Value() == Perform(old(Value()), Commands(RETURN_FRONT)) && ok == Played(old(out), Commands(RETURN_FRONT)).1
    {
      hide Commands, Played;
      ghost var start, done := Value(), [];
      StartsUnchanged(start);
      ok, done := Do(true, Twist(TopBottom, P), start, done);
      ok, done := Do(ok, CloseOf(LeftRight), start, done);
      ok, done := Do(ok, OpenOf(TopBottom), start, done);
      ok, done := Do(ok, Twist(TopBottom, X), start, done);
      ok, done := Do(ok, CloseOf(TopBottom), start, done);
      assert done == RETURN_FRONT;
    }

    method FinishScanOpen() returns (ok: bool)
      modifies this
      ensures Value() == ScanFinished(old(Value())) && ok == Succeeds(old(Value()), FinishScan)
    {
      hide Commands, Played;
      if state != ScanHold(Back) || holder != HeldBy(TopBottom) {
        return false;
      }
      ghost var start, done := Value(), RETURN_FRONT;
      ok := ReturnFront();
      ok, done := Do(ok, OpenOf(LeftRight), start, done);
      ok, done := Do(ok, OpenOf(TopBottom), start, done);
      assert done == RETURN_FRONT + OPEN_ALL;
      PerformKeepsState(start, Commands(done));
      if ok {
        state := SafeOpen;
        holder := NoPair;
      }
    }

    method FinishScanHeld() returns (ok: bool)
      modifies this
      ensures Value() == ScanHandedOver(old(Value())) && ok == Succeeds(old(Value()), FinishScanForExecution)
    {
      hide Commands, Played;
      if state != ScanHold(Back) || holder != HeldBy(TopBottom) {
        return false;
      }
      PerformKeepsState(Value(), Commands(RETURN_FRONT));
      ok := ReturnFront();
      if ok {
        state := Gripped;
        holder := NoPair;
      }
    }

    /** Turns one side and regrips it perpendicular; a half turn starts from parallel. */
    method DirectFaceTurn(before: bool, side: Side, turn: MoveTurn, ghost start: Runtime, ghost begun: seq<Step>)
      returns (ok: bool, ghost done: seq<Step>)
      requires Value() == Perform(start, Commands(begun)) && before == Played(start.out, Commands(begun)).1
      modifies this`state, this`out
      ensures done == begun + DirectTurnMotion(side, turn)
      ensures Value() == Perform(start, Commands(done)) && ok == Played(start.out, Commands(done)).1
    {
      hide Commands, Played;
      ok, done := before, begun;
      match turn {
        case Clockwise => ok, done := Do(ok, SetGrippers([Pose(side, R)]), start, done);
        case CounterClockwise => ok, done := Do(ok, SetGrippers([Pose(side, P)]), start, done);
        case Half =>
          ok, done := Do(ok, SetRails(Single(side), FarOpen), start, done);
          ok, done := Do(ok, SetGrippers([Pose(side, P)]), start, done);
          ok, done := Do(ok, SetRails(Single(side), NearGrip), start, done);
          ok, done := Do(ok, SetGrippers([Pose(side, R)]), start, done);
      }
      ok, done := Do(ok, SetRails(Single(side), FarOpen), start, done);
      ok, done := Do(ok, SetGrippers([Pose(side, X)]), start, done);
      ok, done := Do(ok, SetRails(Single(side), NearGrip), start, done);
      assert done == begun + DirectTurnMotion(side, turn);
    }

    /** Turns the whole cube with the vertical pair and regrips it. */
    method Reorientation(before: bool, first: GripperOrientation, ghost start: Runtime, ghost begun: seq<Step>)
      returns (ok: bool, ghost done: seq<Step>)
      requires Value() == Perform(start, Commands(begun)) && before == Played(start.out, Commands(begun)).1
      modifies this`state, this`out
      ensures done == begun + ReorientSteps(first, Mirrored(first))
      ensures Value() == Perform(start, Commands(done)) && ok == Played(start.out, Commands(done)).1
    {
      hide Commands, Played;
      ok, done := Do(before, OpenOf(LeftRight), start, begun);
      ok, done := Do(ok, Twist(TopBottom, first), start, done);
      ok, done := Do(ok, CloseOf(LeftRight), start, done);
      ok, done := Do(ok, OpenOf(TopBottom), start, done);
      ok, done := Do(ok, Twist(TopBottom, X), start, done);
      ok, done := Do(ok, CloseOf(TopBottom), start, done);
      assert done == begun + ReorientSteps(first, Mirrored(first));
    }

    /** One diagnostic move from canonical grip back to canonical grip. */
    method ExecuteProbeMove(move: CubeMove) returns (ok: bool)
      modifies this
      ensures Value() == Probed(old(Value()), move) && ok == Succeeds(old(Value()), ProbeMove(move))
    {
      hide Commands, Played, DirectTurnMotion, ReorientSteps, BaselineMove;
      if state != Gripped {
        return false;
      }
      ghost var start, done := Value(), [];
      StartsUnchanged(start);
      match move.face {
        case Left => ok, done := DirectFaceTurn(true, Side.Left, move.turn, start, done);
        case Right => ok, done := DirectFaceTurn(true, Side.Right, move.turn, start, done);
        case Up => ok, done := DirectFaceTurn(true, Top, move.turn, start, done);
        case Down => ok, done := DirectFaceTurn(true, Bottom, move.turn, start, done);
        case Front =>
          ok, done := Reorientation(true, P, start, done);
          ok, done := DirectFaceTurn(ok, Side.Right, move.turn, start, done);
          ok, done := Reorientation(ok, R, start, done);
        case Back =>
          ok, done := Reorientation(true, P, start, done);
          ok, done := DirectFaceTurn(ok, Side.Left, move.turn, start, done);
          ok, done := Reorientation(ok, R, start, done);
      }
      assert done == ProbeMotion(move);
      ProbeIsBaseline(move, done);
      PerformKeepsState(start, Commands(done));
      if ok {
        state := Gripped;
        holder := NoPair;
      }
    }
  }

  lemma {:induction false} StartsUnchanged(r: Runtime)
    ensures Perform(r, Commands([])) == r && Played(r.out, Commands([])).1
  {
  }

  /** A performance that succeeds leaves the state to its caller; one that fails faults. */
  lemma {:induction false} PerformKeepsState(r: Runtime, commands: seq<PwmCommand>)
    ensures Perform(r, commands).holder == r.holder
    ensures Perform(r, commands).state == if Played(r.out, commands).1 then r.state else Faulted
  {
  }

  /** The probe's own motion for a side. */
  function DirectTurnMotion(side: Side, turn: MoveTurn): seq<Step> {
    TurnSteps(side, turn)
    + [SetRails(Single(side), FarOpen), SetGrippers([Pose(side, X)]), SetRails(Single(side), NearGrip)]
  }

  function ProbeMotion(move: CubeMove): seq<Step> {
    var turn := DirectTurnMotion(DirectSide(move.face), move.turn);
    if move.face in {Front, Back} then ReorientSteps(P, R) + turn + ReorientSteps(R, P) else turn
  }

  /** The probe drives the servos exactly as the baseline plan of the move does. */
  lemma {:induction false} ProbeIsBaseline(move: CubeMove, done: seq<Step>)
    requires done == ProbeMotion(move)
    ensures Commands(done) == Commands(BaselineMove(EMPTY_PLAN, move).steps)
  {
    MarkerCommandsNothing();
    hide Commands, ProbeMotion, BaselineMove;
    BaselineShape(move);
    CommandsSplit(done, [MoveCompleted]);
    assert Commands(done) + [] == Commands(done);
  }

  lemma {:induction false} MarkerCommandsNothing()
    ensures Commands([MoveCompleted]) == []
  {
    CommandsOfOne(MoveCompleted);
  }

  lemma {:induction false} BaselineShape(move: CubeMove)
    ensures BaselineMove(EMPTY_PLAN, move).steps == ProbeMotion(move) + [MoveCompleted]
  {
    hide ReorientSteps, TurnSteps;
    var side := DirectSide(move.face);
    CleanedSingle(EMPTY_PLAN.dirty, side);
    if move.face in {Front, Back} {
      BaselineTurnShape(Append(EMPTY_PLAN, ReorientSteps(P, R)), side, move.turn);
      assert [] + ReorientSteps(P, R) == ReorientSteps(P, R);
    } else {
      BaselineTurnShape(EMPTY_PLAN, side, move.turn);
    }
  }

  lemma {:induction false} BaselineTurnShape(plan: Plan, side: Side, turn: MoveTurn)
    ensures BaselineTurn(plan, side, turn).steps == plan.steps + DirectTurnMotion(side, turn)
  {
    hide TurnSteps;
    assert Perpendicular([side]) == [Pose(side, X)];
  }
}

/** Watched from start to end, every plan shows exactly the requested moves. */
module ReplayRuns {
  import opened Geometry
  import opened Stand
  import opened Mechanics
  import opened Options
  import opened Protocol
  import opened ServiceWorld
  import opened Replay
  import opened MP = MovePlanner
  import opened PlanMeaning
  import PM = PlanMeaning
  import PS = PlanSafety

  /** What is watched for: the requested moves, and the operation that executes them. */
  datatype Request = Request(moves: seq<CubeMove>, id: nat, kind: OperationKind)

  /** The simulator's view, and the moves it has animated. */
  datatype Sight = Sight(view: View, shown: seq<VisualMove>)

  const STABLE: Four<Option<AxisMotion>> := AllSides(Some(Stable))

  /** The rotation animated for a move: the layer follows the gripper, so a half turn
      always runs backwards. */
  function Rendered(move: CubeMove): VisualMove {
    VisualMove(move.face, if move.turn == Half then -2 else Turns(move.turn))
  }

  function AllRendered(moves: seq<CubeMove>): (r: seq<VisualMove>)
    ensures |r| == |moves|
  {
    seq(|moves|, i requires 0 <= i < |moves| => Rendered(moves[i]))
  }

  /** The view between steps. */
  function RestView(q: Request, frame: Frame, index: nat): View {
    View(frame, STABLE, Visuals(q.moves), index, None, None, Some(q.id), None)
  }

  function RestSight(q: Request, frame: Frame, index: nat): Sight
    requires index <= |q.moves|
  {
    Sight(RestView(q, frame, index), AllRendered(q.moves)[..index])
  }

  predicate AtRest(q: Request, sight: Sight) {
    sight.view.index <= |q.moves| && sight == RestSight(q, sight.view.frame, sight.view.index)
  }

  // ---- one status -----------------------------------------------------------------

  /** A stand as it is published while a step is in motion, or at rest. */
  function StandOf(m: Machine, pending: Option<Step>): StandState {
    StandState(StandPose(MovePose, Some(Front)), ShownRails(m, pending), ShownGrippers(m, pending), true)
  }

  /** A status seen in the middle of the operation. */
  function Looked(v: View, stand: StandState, id: nat): (View, Option<VisualMove>) {
    var framed := v.(frame := FrameSeen(v.frame, stand));
    AxesSeen(framed, stand, id, StartedFrom(framed.previous, stand.grippers, SIDES), SIDES)
  }

  function Look(sight: Sight, stand: StandState, id: nat): Sight {
    var (view, done) := Looked(sight.view, stand, id);
    Sight(view, if done.Some? then sight.shown + [done.value] else sight.shown)
  }

  /** The beginning of a step; a marker or a switched-off output shows no motion. */
  function LookBegin(q: Request, sight: Sight, m: Machine, step: Step): Sight {
    Look(sight, StandOf(m, Some(step)), q.id)
  }

  function LookStep(q: Request, sight: Sight, m: Machine, step: Step): Sight {
    Look(LookBegin(q, sight, m, step), StandOf(Ended(m, step), None), q.id)
  }

  function Watch(q: Request, start: Machine, steps: seq<Step>): Sight {
    if steps == [] then RestSight(q, Canonical, 0)
    else
      var before, m := Watch(q, start, steps[..|steps| - 1]), Run(start, steps[..|steps| - 1]);
      if m.None? then before else LookStep(q, before, m.value, steps[|steps| - 1])
  }

  /** A step is legible when it begins and ends without a violation, when seeing its
      beginning twice changes nothing, and when moves are animated only as it ends. */
  predicate LegibleStep(q: Request, sight: Sight, m: Machine, step: Step) {
    var begun := LookBegin(q, sight, m, step);
    && AtRest(q, sight) && AtRest(q, LookStep(q, sight, m, step))
    && begun.shown == sight.shown && begun.view.violation.None?
    && begun.view.index == sight.view.index && begun.view.expected == sight.view.expected
    && Look(begun, StandOf(m, Some(step)), q.id) == begun
    && Look(sight, StandOf(m, None), q.id) == sight
  }

  predicate Legible(q: Request, start: Machine, steps: seq<Step>) {
    steps == []
    || (var before, m := steps[..|steps| - 1], Run(start, steps[..|steps| - 1]);
        Legible(q, start, before) && m.Some? && LegibleStep(q, Watch(q, start, before), m.value, steps[|steps| - 1]))
  }

  // ---- the axes -------------------------------------------------------------------

  lemma {:induction false} FourAxes(v: View, stand: StandState, id: nat, started: seq<Side>)
    ensures var (v1, d1) := AxisSeen(v, stand, id, started, Side.Left);
            var (v2, d2) := AxisSeen(v1, stand, id, started, Side.Right);
            var (v3, d3) := AxisSeen(v2, stand, id, started, Top);
            var (v4, d4) := AxisSeen(v3, stand, id, started, Bottom);
            AxesSeen(v, stand, id, started, SIDES) == (v4, Later(Later(Later(d1, d2), d3), d4))
  {
    hide AxisSeen;
    SidesInOrder();
    assert AxesSeen(v, stand, id, started, []) == (v, None);
    var one := AxesSeen(v, stand, id, started, [Side.Left]);
    assert one == AxisSeen(v, stand, id, started, Side.Left);
    var two := AxesSeen(v, stand, id, started, [Side.Left, Side.Right]);
    assert two.0 == AxisSeen(one.0, stand, id, started, Side.Right).0;
    var three := AxesSeen(v, stand, id, started, [Side.Left, Side.Right, Top]);
    assert three.0 == AxisSeen(two.0, stand, id, started, Top).0;
  }

  lemma {:induction false} SidesInOrder()
    ensures [Side.Left][..0] == []
    ensures [Side.Left, Side.Right][..1] == [Side.Left]
    ensures [Side.Left, Side.Right, Top][..2] == [Side.Left, Side.Right]
    ensures SIDES[..3] == [Side.Left, Side.Right, Top]
  {
  }

  predicate Starts(previous: Four<Option<AxisMotion>>, grippers: Four<GripperStatus>, side: Side) {
    grippers.Get(side).motion.Moving? && previous.Get(side) != Some(Moving)
  }

  function Only(side: Side, included: bool): seq<Side> {
    if included then [side] else []
  }

  /** Which axes have begun to move. */
  lemma {:induction false} FourStarted(previous: Four<Option<AxisMotion>>, grippers: Four<GripperStatus>)
    ensures StartedFrom(previous, grippers, SIDES) ==
              Only(Side.Left, Starts(previous, grippers, Side.Left)) + Only(Side.Right, Starts(previous, grippers, Side.Right))
              + Only(Top, Starts(previous, grippers, Top)) + Only(Bottom, Starts(previous, grippers, Bottom))
  {
    SidesInOrder();
    assert StartedFrom(previous, grippers, []) == [];
    var one := StartedFrom(previous, grippers, [Side.Left]);
    assert one == Only(Side.Left, Starts(previous, grippers, Side.Left));
    var two := StartedFrom(previous, grippers, [Side.Left, Side.Right]);
    assert two == one + Only(Side.Right, Starts(previous, grippers, Side.Right));
    var three := StartedFrom(previous, grippers, [Side.Left, Side.Right, Top]);
    assert three == two + Only(Top, Starts(previous, grippers, Top));
  }

  predicate Still(grippers: Four<GripperStatus>) {
    grippers.left.motion == grippers.right.motion == grippers.top.motion == grippers.bottom.motion == Stable
  }

  /** A status in which no gripper moves. */
  lemma {:induction false} StillLooked(v: View, stand: StandState, id: nat)
    requires Still(stand.grippers) && v.active.None?
    ensures Looked(v, stand, id) == (v.(frame := FrameSeen(v.frame, stand), previous := STABLE), None)
  {
    hide FrameSeen;
    FourStarted(v.previous, stand.grippers);
    FourAxes(v.(frame := FrameSeen(v.frame, stand)), stand, id, []);
  }

  // ---- one step -------------------------------------------------------------------

  function FrameOn(frame: Frame, m: Machine): Frame {
    FrameSeen(frame, StandOf(m, None))
  }

  /** The frame read off a machine changes only with open left/right rails and parallel
      vertical grippers. */
  lemma {:induction false} FrameKept(frame: Frame, m: Machine)
    requires m.closed.left || m.closed.right || m.grippers.top == X || m.grippers.bottom == X
    ensures FrameOn(frame, m) == frame
  {
  }

  predicate Reads(q: Request, m: Machine, step: Step, frame: Frame, i: nat, frame': Frame, i': nat) {
    && i <= |q.moves| && i' <= |q.moves|
    && LegibleStep(q, RestSight(q, frame, i), m, step)
    && LookStep(q, RestSight(q, frame, i), m, step) == RestSight(q, frame', i')
  }

  lemma {:induction false} FrameSeenTwice(frame: Frame, stand: StandState)
    ensures FrameSeen(FrameSeen(frame, stand), stand) == FrameSeen(frame, stand)
  {
  }

  lemma {:induction false} RestIsLooked(q: Request, m: Machine, frame: Frame, i: nat)
    requires i <= |q.moves| && FrameOn(frame, m) == frame
    ensures Look(RestSight(q, frame, i), StandOf(m, None), q.id) == RestSight(q, frame, i)
  {
    StillLooked(RestView(q, frame, i), StandOf(m, None), q.id);
  }

  /** Rails, markers and outputs leave the moves alone. */
  lemma {:induction false} QuietReads(q: Request, m: Machine, step: Step, frame: Frame, i: nat)
    requires i <= |q.moves| && FrameOn(frame, m) == frame && !step.SetGrippers?
    ensures Reads(q, m, step, frame, i, FrameOn(frame, Ended(m, step)), i)
  {
    var view := RestView(q, frame, i);
    var stand := StandOf(m, Some(step));
    assert FrameSeen(frame, stand) == frame;
    RestIsLooked(q, m, frame, i);
    StillLooked(view, stand, q.id);
    StillLooked(view, StandOf(Ended(m, step), None), q.id);
    assert LookBegin(q, RestSight(q, frame, i), m, step) == RestSight(q, frame, i);
  }

  function OneMoving(g: Four<GripperOrientation>, pose: Pose): Four<GripperStatus> {
    GrippersOf(g).Set(pose.side, GripperStatus(Moving, Some(g.Get(pose.side)), Some(pose.orientation)))
  }

  lemma {:induction false} OnePoseShown(m: Machine, pose: Pose)
    ensures ShownGrippers(m, Some(SetGrippers([pose]))) == OneMoving(m.grippers, pose)
  {
    assert [pose][1..] == [];
    var stable := GrippersOf(m.grippers);
    assert stable.Get(pose.side) == StableGripper(m.grippers.Get(pose.side));
    var one := stable.Set(pose.side, StartGripper(stable.Get(pose.side), pose.orientation));
    assert StartGrippers(stable, [pose]) == StartGrippers(one, []);
  }

  lemma {:induction false} TwoPosesShown(m: Machine, a: Pose, b: Pose)
    requires a.side != b.side
    ensures ShownGrippers(m, Some(SetGrippers([a, b]))) ==
              OneMoving(m.grippers, a).Set(b.side, GripperStatus(Moving, Some(m.grippers.Get(b.side)), Some(b.orientation)))
  {
    assert [a, b][1..] == [b] && [b][1..] == [];
    var stable := GrippersOf(m.grippers);
    assert stable.Get(a.side) == StableGripper(m.grippers.Get(a.side));
    assert stable.Get(b.side) == StableGripper(m.grippers.Get(b.side));
    var one := stable.Set(a.side, StartGripper(stable.Get(a.side), a.orientation));
    var two := one.Set(b.side, StartGripper(one.Get(b.side), b.orientation));
    assert StartGrippers(stable, [a, b]) == StartGrippers(one, [b]);
    assert StartGrippers(one, [b]) == StartGrippers(two, []);
  }

  /** The view has just been told its moves, or has last seen every gripper at rest. */
  predicate Rested(previous: Four<Option<AxisMotion>>) {
    previous == STABLE || previous == AllSides(None)
  }

  lemma {:induction false} OneFresh(g: Four<GripperOrientation>, pose: Pose, previous: Four<Option<AxisMotion>>)
    requires Rested(previous)
    ensures StartedFrom(previous, OneMoving(g, pose), SIDES) == [pose.side]
    ensures Motions(OneMoving(g, pose)) == STABLE.Set(pose.side, Some(Moving))
  {
    FourStarted(previous, OneMoving(g, pose));
    match pose.side {
      case Left =>
      case Right =>
      case Top =>
      case Bottom =>
    }
  }

  /** A gripper at rest is only noted. */
  lemma {:induction false} AxisAtRest(v: View, stand: StandState, id: nat, side: Side, axis: Side)
    requires !stand.grippers.Get(axis).motion.Moving? && side != axis
    requires v.active.Some? ==> v.active.value.axis != axis
    ensures AxisSeen(v, stand, id, [side], axis) == (v.(previous := v.previous.Set(axis, Some(stand.grippers.Get(axis).motion))), None)
  {
  }

  /** The gripper that begins to move. */
  lemma {:induction false} AxisBegins(v: View, previous: Four<Option<AxisMotion>>, stand: StandState, id: nat, axis: Side)
    requires stand.grippers.Get(axis).motion.Moving? && v.active.None?
    ensures var start := TurnStart(v, stand, [axis], axis);
            var before, noted := v.(previous := previous), v.(previous := previous.Set(axis, Some(Moving)));
            && (start.NotStarting? ==> AxisSeen(before, stand, id, [axis], axis) == (noted, None))
            && (start.Starting? ==> AxisSeen(before, stand, id, [axis], axis)
                                      == (noted.(active := Some(ActiveTurn(id, v.index, axis, start.move))), None))
  {
    assert TurnStart(v.(previous := previous), stand, [axis], axis) == TurnStart(v, stand, [axis], axis);
    hide TurnStart;
  }

  lemma {:induction false} OneAxis(v: View, previous: Four<Option<AxisMotion>>, active: Option<ActiveTurn>, stand: StandState, id: nat,
                                   side: Side, axis: Side)
    requires stand.grippers.Get(side).motion.Moving? && v.active.None?
    requires axis != side ==> stand.grippers.Get(axis).motion == Stable
    requires axis == side ==> active.None? && !TurnStart(v, stand, [side], side).Misfit?
    requires active.Some? ==> active.value.axis == side
    ensures var start := TurnStart(v, stand, [side], side);
            AxisSeen(v.(previous := previous, active := active), stand, id, [side], axis)
              == (v.(previous := previous.Set(axis, Some(stand.grippers.Get(axis).motion)),
                     active := if axis == side && start.Starting? then Some(ActiveTurn(id, v.index, side, start.move)) else active), None)
  {
    hide TurnStart, AxisSeen;
    if axis == side {
      AxisBegins(v, previous, stand, id, side);
    } else {
      AxisAtRest(v.(previous := previous, active := active), stand, id, side, axis);
    }
  }

  /** One gripper begins to move. */
  lemma {:induction false} OneBegins(v: View, stand: StandState, id: nat, g: Four<GripperOrientation>, pose: Pose)
    requires stand.grippers == OneMoving(g, pose) && v.active.None? && Rested(v.previous)
    ensures var framed := v.(frame := FrameSeen(v.frame, stand));
            var start := TurnStart(framed, stand, [pose.side], pose.side);
            var moving := framed.(previous := STABLE.Set(pose.side, Some(Moving)));
            && (start.NotStarting? ==> Looked(v, stand, id) == (moving, None))
            && (start.Starting? ==>
                  Looked(v, stand, id) == (moving.(active := Some(ActiveTurn(id, v.index, pose.side, start.move))), None))
  {
    hide FrameSeen, PhysicalFace, TurnStart, AxisSeen;
    var f, side := v.(frame := FrameSeen(v.frame, stand)), pose.side;
    OneFresh(g, pose, v.previous);
    FourAxes(f, stand, id, [side]);
    if !TurnStart(f, stand, [side], side).Misfit? {
      var start := TurnStart(f, stand, [side], side);
      var active := if start.Starting? then Some(ActiveTurn(id, v.index, side, start.move)) else None;
      var p1 := v.previous.Set(Side.Left, Some(stand.grippers.left.motion));
      var p2 := p1.Set(Side.Right, Some(stand.grippers.right.motion));
      var p3 := p2.Set(Top, Some(stand.grippers.top.motion));
      OneAxis(f, v.previous, None, stand, id, side, Side.Left);
      OneAxis(f, p1, if side == Side.Left then active else None, stand, id, side, Side.Right);
      OneAxis(f, p2, if side in {Side.Left, Side.Right} then active else None, stand, id, side, Top);
      OneAxis(f, p3, if side != Bottom then active else None, stand, id, side, Bottom);
      assert p3.Set(Bottom, Some(stand.grippers.bottom.motion)) == STABLE.Set(side, Some(Moving));
    }
  }

  /** A status in which grippers that were seen moving still move tells nothing new. */
  lemma {:induction false} StillMoving(v: View, stand: StandState, id: nat)
    requires v.previous == Motions(stand.grippers) && FrameSeen(v.frame, stand) == v.frame
    ensures Looked(v, stand, id) == (v, None)
  {
    hide FrameSeen, PhysicalFace;
    FourStarted(v.previous, stand.grippers);
    FourAxes(v, stand, id, []);
  }

  /** Two grippers that begin to move together turn no layer. */
  lemma {:induction false} TwoBegin(v: View, stand: StandState, id: nat, m: Machine, a: Pose, b: Pose)
    requires stand.grippers == ShownGrippers(m, Some(SetGrippers([a, b]))) && a.side != b.side
    requires v.active.None? && v.previous == STABLE
    ensures Looked(v, stand, id) == (v.(frame := FrameSeen(v.frame, stand), previous := Motions(stand.grippers)), None)
  {
    hide FrameSeen, PhysicalFace;
    TwoPosesShown(m, a, b);
    FourStarted(v.previous, stand.grippers);
    var started := StartedFrom(v.previous, stand.grippers, SIDES);
    assert |started| == 2;
    FourAxes(v.(frame := FrameSeen(v.frame, stand)), stand, id, started);
  }

  /** Grippers that straighten, reposition away from the cube or move in pairs turn no
      layer. */
  lemma {:induction false} RegripReads(q: Request, m: Machine, poses: seq<Pose>, frame: Frame, i: nat)
    requires i <= |q.moves| && FrameOn(frame, m) == frame
    requires |poses| == 1 || (|poses| == 2 && poses[0].side != poses[1].side)
    requires |poses| == 2 || poses[0].orientation == X || !m.closed.Get(poses[0].side)
    ensures Reads(q, m, SetGrippers(poses), frame, i, FrameOn(frame, Ended(m, SetGrippers(poses))), i)
  {
    var step := SetGrippers(poses);
    var view := RestView(q, frame, i);
    var stand := StandOf(m, Some(step));
    RestIsLooked(q, m, frame, i);
    PairFrame(m, poses, frame);
    if |poses| == 1 {
      assert poses == [poses[0]];
      OnePoseShown(m, poses[0]);
      OneBegins(view, stand, q.id, m.grippers, poses[0]);
    } else {
      assert poses == [poses[0], poses[1]];
      TwoBegin(view, stand, q.id, m, poses[0], poses[1]);
      TwoPosesShown(m, poses[0], poses[1]);
    }
    var begun := view.(previous := Motions(stand.grippers));
    assert Looked(view, stand, q.id) == (begun, None);
    StillMoving(begun, stand, q.id);
    StillLooked(begun, StandOf(Ended(m, step), None), q.id);
  }

  /** Moving grippers do not change the frame before they stop. */
  lemma {:induction false} PairFrame(m: Machine, poses: seq<Pose>, frame: Frame)
    requires FrameOn(frame, m) == frame
    requires |poses| == 1 || (|poses| == 2 && poses[0].side != poses[1].side)
    ensures FrameSeen(frame, StandOf(m, Some(SetGrippers(poses)))) == frame
  {
    if |poses| == 1 {
      assert poses == [poses[0]];
      OnePoseShown(m, poses[0]);
    } else {
      assert poses == [poses[0], poses[1]];
      TwoPosesShown(m, poses[0], poses[1]);
    }
  }

  /** A closed gripper that begins to turn the next requested layer is understood. */
  lemma {:induction false} TurnUnderstood(q: Request, m: Machine, pose: Pose, frame: Frame, i: nat)
    requires i < |q.moves| && m.closed.Get(pose.side) && pose.orientation.IsFrameParallel()
    requires PhysicalFace(frame, pose.side) == q.moves[i].face
    requires q.moves[i].turn == Half ==> m.grippers.Get(pose.side) == P && pose.orientation == R
    ensures StandOf(m, Some(SetGrippers([pose]))).grippers == OneMoving(m.grippers, pose)
    ensures TurnStart(RestView(q, frame, i), StandOf(m, Some(SetGrippers([pose]))), [pose.side], pose.side) == Starting(Rendered(q.moves[i]))
  {
    hide PhysicalFace;
    OnePoseShown(m, pose);
    var stand := StandOf(m, Some(SetGrippers([pose])));
    assert stand.rails.Get(pose.side).current == Some(NearGrip);
  }

  /** The gripper that owns the next requested face turns its layer: the move is animated
      once, as the gripper stops. */
  lemma {:induction false} TurnReads(q: Request, m: Machine, pose: Pose, frame: Frame, i: nat)
    requires i < |q.moves| && FrameOn(frame, m) == frame
    requires m.closed.Get(pose.side) && pose.orientation.IsFrameParallel()
    requires PhysicalFace(frame, pose.side) == q.moves[i].face
    requires q.moves[i].turn == Half ==> m.grippers.Get(pose.side) == P && pose.orientation == R
    ensures Reads(q, m, SetGrippers([pose]), frame, i, FrameOn(frame, Ended(m, SetGrippers([pose]))), i + 1)
  {
    hide TurnStart, FrameSeen, PhysicalFace, Looked, ShownGrippers, ShownRails;
    var step := SetGrippers([pose]);
    var view := RestView(q, frame, i);
    var stand := StandOf(m, Some(step));
    var shown := Rendered(q.moves[i]);
    RestIsLooked(q, m, frame, i);
    PairFrame(m, [pose], frame);
    TurnUnderstood(q, m, pose, frame, i);
    OneBegins(view, stand, q.id, m.grippers, pose);
    OneFresh(m.grippers, pose, STABLE);
    var begun := view.(previous := STABLE.Set(pose.side, Some(Moving)), active := Some(ActiveTurn(q.id, i, pose.side, shown)));
    assert begun.previous == Motions(stand.grippers);
    StillMoving(begun, stand, q.id);
    EndedIsStill(m, step);
    TurnEnds(begun, StandOf(Ended(m, step), None), q.id);
    assert AllRendered(q.moves)[..i + 1] == AllRendered(q.moves)[..i] + [shown];
  }

  lemma {:induction false} EndedIsStill(m: Machine, step: Step)
    ensures Still(StandOf(Ended(m, step), None).grippers)
  {
  }

  lemma {:induction false} TurnEnds(v: View, stand: StandState, id: nat)
    requires Still(stand.grippers) && v.active.Some? && v.previous == STABLE.Set(v.active.value.axis, Some(Moving))
    ensures Looked(v, stand, id) ==
              (v.(frame := FrameSeen(v.frame, stand), previous := STABLE, index := v.index + 1, active := None),
               Some(v.active.value.move))
  {
    hide FrameSeen, PhysicalFace;
    FourStarted(v.previous, stand.grippers);
    FourAxes(v.(frame := FrameSeen(v.frame, stand)), stand, id, []);
  }

  // ---- plans ----------------------------------------------------------------------

  /** The plan has been run to `m` and watched: `i` moves are animated, nothing amiss. */
  ghost predicate Tracks(q: Request, start: Machine, steps: seq<Step>, m: Machine, frame: Frame, i: nat) {
    && Reaches(start, steps, m) && Legible(q, start, steps)
    && i <= |q.moves| && Watch(q, start, steps) == RestSight(q, frame, i)
    && FrameOn(frame, m) == frame
  }

  lemma {:induction false} ExtendTracks(q: Request, start: Machine, steps: seq<Step>, m: Machine, frame: Frame, i: nat,
                                        step: Step, m': Machine, frame': Frame, i': nat)
    requires Tracks(q, start, steps, m, frame, i)
    requires SafeStep(m, step) && Exec(m, step) == Some(m') && Reads(q, m, step, frame, i, frame', i')
    requires FrameOn(frame', m') == frame'
    ensures Tracks(q, start, steps + [step], m', frame', i')
  {
    hide Exec, SafeStep, LegibleStep, LookStep, RestSight, FrameOn;
    Extend(start, steps, m, step);
    assert (steps + [step])[..|steps + [step]| - 1] == steps;
  }

  /** A step that does not turn a layer. */
  lemma {:induction false} QuietTracks(q: Request, start: Machine, steps: seq<Step>, m: Machine, frame: Frame, i: nat,
                                       step: Step, m': Machine)
    requires Tracks(q, start, steps, m, frame, i) && SafeStep(m, step) && Exec(m, step) == Some(m')
    requires step.SetGrippers? ==>
               (|step.poses| == 1 && (step.poses[0].orientation == X || !m.closed.Get(step.poses[0].side)))
               || (|step.poses| == 2 && step.poses[0].side != step.poses[1].side)
    ensures Tracks(q, start, steps + [step], m', FrameOn(frame, m'), i)
  {
    hide Exec, SafeStep, LegibleStep, LookStep, Reaches, Legible, Watch;
    if step.SetGrippers? {
      RegripReads(q, m, step.poses, frame, i);
    } else {
      QuietReads(q, m, step, frame, i);
    }
    FrameSeenTwice(frame, StandOf(m', None));
    ExtendTracks(q, start, steps, m, frame, i, step, m', FrameOn(frame, m'), i);
  }

  /** Three quiet steps. */
  lemma {:induction false} QuietTracks3(q: Request, start: Machine, steps: seq<Step>, m: Machine, frame: Frame, i: nat,
                                        s1: Step, s2: Step, s3: Step, m1: Machine, m2: Machine, m3: Machine)
    requires Tracks(q, start, steps, m, frame, i)
    requires SafeStep(m, s1) && Exec(m, s1) == Some(m1) && s1.SetRails?
    requires SafeStep(m1, s2) && Exec(m1, s2) == Some(m2)
    requires SafeStep(m2, s3) && Exec(m2, s3) == Some(m3) && s3.SetRails?
    requires s2.SetGrippers?
    requires (|s2.poses| == 1 && (s2.poses[0].orientation == X || !m1.closed.Get(s2.poses[0].side)))
             || (|s2.poses| == 2 && s2.poses[0].side != s2.poses[1].side)
    ensures Tracks(q, start, steps + [s1, s2, s3], m3, FrameOn(FrameOn(FrameOn(frame, m1), m2), m3), i)
  {
    hide Exec, SafeStep, Tracks, FrameOn;
    QuietTracks(q, start, steps, m, frame, i, s1, m1);
    QuietTracks(q, start, steps + [s1], m1, FrameOn(frame, m1), i, s2, m2);
    QuietTracks(q, start, steps + [s1] + [s2], m2, FrameOn(FrameOn(frame, m1), m2), i, s3, m3);
    assert steps + [s1, s2, s3] == steps + [s1] + [s2] + [s3];
  }

  // ---- flushing -------------------------------------------------------------------

  lemma {:induction false} FlushOneTracks(q: Request, start: Machine, plan: Plan, m: Machine, cube: Cube, side: Side, i: nat)
      returns (r: Machine)
    requires Good(start, plan, m, cube) && plan.dirty.Get(side) && Tracks(q, start, plan.steps, m, plan.frame, i)
    ensures Good(start, FlushGrippers(plan, [side]), r, cube)
    ensures Tracks(q, start, FlushGrippers(plan, [side]).steps, r, plan.frame, i)
    ensures FlushGrippers(plan, [side]).dirty == plan.dirty.Set(side, false)
    ensures FlushGrippers(plan, [side]).frame == plan.frame
  {
    hide Run, Reaches, Legible, Watch, Tracks, FrameOn;
    r := FlushOneReaches(start, plan, m, cube, side);
    SettledIsClear(m, plan.dirty, plan.frame, cube);
    CleanedSingle(plan.dirty, side);
    var m1, m2, m3 := FlushSingle(m, side);
    QuietTracks3(q, start, plan.steps, m, plan.frame, i, SetRails(Single(side), FarOpen), SetGrippers([Pose(side, X)]),
                 SetRails(Single(side), NearGrip), m1, m2, m3);
    OneRailAway(m, side, m1, m2, m3, plan.frame);
    SameEnd(q, start, FlushGrippers(plan, [side]), r, m3, cube, plan.frame, i);
  }

  /** One rail away never shows a change of frame. */
  lemma {:induction false} OneRailAway(m: Machine, side: Side, m1: Machine, m2: Machine, m3: Machine, frame: Frame)
    requires m.closed == AllSides(true)
    requires Exec(m, SetRails(Single(side), FarOpen)) == Some(m1)
    requires m2.closed == m1.closed && Exec(m2, SetRails(Single(side), NearGrip)) == Some(m3)
    ensures FrameOn(FrameOn(FrameOn(frame, m1), m2), m3) == frame
  {
    FrameKept(frame, m1);
    FrameKept(frame, m2);
    FrameKept(frame, m3);
  }

  lemma {:induction false} SameEnd(q: Request, start: Machine, plan: Plan, r: Machine, m: Machine, cube: Cube, frame: Frame, i: nat)
    requires Good(start, plan, r, cube) && Tracks(q, start, plan.steps, m, frame, i)
    ensures r == m
  {
    hide Settled;
  }

  lemma {:induction false} FlushGroupTracks(q: Request, start: Machine, plan: Plan, m: Machine, cube: Cube, group: AxisGroup, i: nat)
      returns (r: Machine)
    requires Good(start, plan, m, cube) && Tracks(q, start, plan.steps, m, plan.frame, i)
    ensures Good(start, FlushGroup(plan, group), r, cube)
    ensures Tracks(q, start, FlushGroup(plan, group).steps, r, plan.frame, i)
    ensures FlushGroup(plan, group).dirty == plan.dirty.SetGroup(group, false)
    ensures FlushGroup(plan, group).frame == plan.frame
  {
    hide Run, Reaches, Legible, Watch, Tracks, FrameOn;
    var sides := GroupSides(group);
    var dirty := DirtyGrippers(plan.dirty, group);
    r := FlushGroupReaches(start, plan, m, cube, group);
    if dirty == [] {
      r := m;
    } else if |dirty| == 2 {
      assert dirty == [sides[0], sides[1]];
      SettledIsClear(m, plan.dirty, plan.frame, cube);
      CleanedDouble(plan.dirty, sides[0], sides[1]);
      var poses := [Pose(sides[0], X), Pose(sides[1], X)];
      var m1, m2, m3 := FlushDouble(m, group, poses);
      QuietTracks3(q, start, plan.steps, m, plan.frame, i, SetRails(Pair(group), FarOpen), SetGrippers(poses),
                   SetRails(Pair(group), NearGrip), m1, m2, m3);
      GroupAway(m, group, m1, m2, m3, poses, plan.frame);
      SameEnd(q, start, FlushGroup(plan, group), r, m3, cube, plan.frame, i);
    } else {
      assert dirty == [dirty[0]];
      r := FlushOneTracks(q, start, plan, m, cube, dirty[0], i);
    }
  }

  /** A pair of rails away, with the crossing grippers perpendicular, shows no change of
      frame. */
  lemma {:induction false} GroupAway(m: Machine, group: AxisGroup, m1: Machine, m2: Machine, m3: Machine, poses: seq<Pose>, frame: Frame)
    requires m.closed == AllSides(true)
    requires forall other: Side :: GroupOf(other) != group ==> !Parallel(m.grippers).Get(other)
    requires Exec(m, SetRails(Pair(group), FarOpen)) == Some(m1)
    requires m3 == m.(grippers := m.grippers.SetGroup(group, X))
    requires m2.closed == m1.closed && m2.grippers == m3.grippers
    ensures FrameOn(FrameOn(FrameOn(frame, m1), m2), m3) == frame
  {
    assert group == LeftRight ==> !Parallel(m.grippers).Get(Top) && !Parallel(m.grippers).Get(Bottom);
    FrameKept(frame, m1);
    FrameKept(frame, m2);
    FrameKept(frame, m3);
  }

  // ---- turning --------------------------------------------------------------------

  /** The last of these steps begins when `i` moves are animated. */
  ghost predicate LastBegins(q: Request, start: Machine, steps: seq<Step>, i: nat) {
    steps != [] && Watch(q, start, steps[..|steps| - 1]).view.index == i
  }

  /** A gripper on a settled machine that turns the next requested layer. */
  lemma {:induction false} TurnTracks(q: Request, start: Machine, steps: seq<Step>, m: Machine, frame: Frame, i: nat, pose: Pose,
                                      r: Machine)
    requires Tracks(q, start, steps, m, frame, i) && i < |q.moves|
    requires SafeStep(m, SetGrippers([pose])) && Exec(m, SetGrippers([pose])) == Some(r)
    requires m.closed == AllSides(true) && r.closed == m.closed && pose.orientation.IsFrameParallel()
    requires PhysicalFace(frame, pose.side) == q.moves[i].face
    requires q.moves[i].turn == Half ==> m.grippers.Get(pose.side) == P && pose.orientation == R
    ensures Tracks(q, start, steps + [SetGrippers([pose])], r, frame, i + 1)
    ensures LastBegins(q, start, steps + [SetGrippers([pose])], i)
  {
    hide Exec, SafeStep, LegibleStep, LookStep, Reaches, Legible, Watch, FrameOn;
    assert (steps + [SetGrippers([pose])])[..|steps|] == steps;
    TurnReads(q, m, pose, frame, i);
    FrameKept(frame, r);
    ExtendTracks(q, start, steps, m, frame, i, SetGrippers([pose]), r, frame, i + 1);
  }

  lemma {:induction false} TurnStepsTrack(q: Request, start: Machine, steps: seq<Step>, m: Machine, frame: Frame, i: nat, side: Side)
      returns (r: Machine)
    requires Tracks(q, start, steps, m, frame, i) && i < |q.moves| && PhysicalFace(frame, side) == q.moves[i].face
    requires m.closed == AllSides(true) && ClearAt(m) && m.grippers.Get(side) == X
    requires forall other: Side :: GroupOf(other) != GroupOf(side) ==> !Parallel(m.grippers).Get(other)
    ensures Tracks(q, start, steps + TurnSteps(side, q.moves[i].turn), r, frame, i + 1)
    ensures LastBegins(q, start, steps + TurnSteps(side, q.moves[i].turn), i)
  {
    hide Exec, SafeStep, Tracks, ClearAt, Parallel, FrameOn, PhysicalFace, LastBegins;
    var turn := q.moves[i].turn;
    if turn == Half {
      var m1, m2, m3 := RegripParallel(m, side);
      var s1, s2, s3 := SetRails(Single(side), FarOpen), SetGrippers([Pose(side, P)]), SetRails(Single(side), NearGrip);
      SingleOpens(m, m1, m2, m3, side);
      QuietTracks3(q, start, steps, m, frame, i, s1, s2, s3, m1, m2, m3);
      OneRailAway(m, side, m1, m2, m3, frame);
      OtherSidesKept(m, m3, side);
      r := TurnExec(m3, side, R);
      TurnTracks(q, start, steps + [s1, s2, s3], m3, frame, i, Pose(side, R), r);
      assert steps + TurnSteps(side, turn) == steps + [s1, s2, s3] + [SetGrippers([Pose(side, R)])];
    } else {
      r := TurnExec(m, side, if turn == CounterClockwise then P else R);
      TurnTracks(q, start, steps, m, frame, i, Pose(side, if turn == CounterClockwise then P else R), r);
    }
  }

  lemma {:induction false} SingleOpens(m: Machine, m1: Machine, m2: Machine, m3: Machine, side: Side)
    requires m.closed == AllSides(true)
    requires Exec(m, SetRails(Single(side), FarOpen)) == Some(m1) && Exec(m1, SetGrippers([Pose(side, P)])) == Some(m2)
    requires m3 == m.(grippers := m.grippers.Set(side, P))
    ensures !m1.closed.Get(side) && m2.closed == m1.closed && m3.closed == AllSides(true)
  {
  }

  lemma {:induction false} OwnedFace(frame: Frame, face: LogicalFace)
    requires frame == NeededFrame(frame, face)
    ensures PhysicalFace(frame, DirectSide(face)) == face
  {
  }

  lemma {:induction false} LazyTurnTracks(q: Request, start: Machine, plan: Plan, m: Machine, cube: Cube, i: nat) returns (r: Machine)
    requires i < |q.moves| && Good(start, plan, m, cube) && Tracks(q, start, plan.steps, m, plan.frame, i)
    requires plan.frame == NeededFrame(plan.frame, q.moves[i].face)
    requires forall other: Side :: GroupOf(other) != GroupOf(DirectSide(q.moves[i].face)) ==> !plan.dirty.Get(other)
    ensures Good(start, LazyDirectTurn(plan, DirectSide(q.moves[i].face), q.moves[i].turn), r, ApplyMove(cube, q.moves[i]))
    ensures Tracks(q, start, LazyDirectTurn(plan, DirectSide(q.moves[i].face), q.moves[i].turn).steps, r, plan.frame, i + 1)
    ensures LastBegins(q, start, LazyDirectTurn(plan, DirectSide(q.moves[i].face), q.moves[i].turn).steps, i)
  {
    hide Run, Reaches, Legible, Watch, Tracks, FrameOn, PhysicalFace, ApplyMove, TurnSteps, LastBegins;
    var move := q.moves[i];
    var side := DirectSide(move.face);
    r := LazyTurnReaches(start, plan, m, cube, move);
    var clean, mc := plan, m;
    if plan.dirty.Get(side) {
      clean := FlushGrippers(plan, [side]);
      mc := FlushOneTracks(q, start, plan, m, cube, side, i);
    }
    SettledIsClear(mc, clean.dirty, clean.frame, cube);
    CleanIsPerpendicular(mc, clean.dirty, clean.frame, cube, side);
    OwnedFace(plan.frame, move.face);
    var turned := TurnStepsTrack(q, start, clean.steps, mc, plan.frame, i, side);
    SameEnd(q, start, LazyDirectTurn(plan, side, move.turn), r, turned, ApplyMove(cube, move), plan.frame, i + 1);
  }

  // ---- reorienting ----------------------------------------------------------------

  /** Parallel vertical grippers with the left/right rails away show the new frame. */
  lemma {:induction false} YawShows(frame: Frame, m: Machine, target: Frame)
    requires !m.closed.left && !m.closed.right
    requires m.grippers.top == TopPose(target) && m.grippers.bottom == BottomPose(target)
    ensures FrameOn(frame, m) == target
  {
  }

  lemma {:induction false} RegripTracks(q: Request, start: Machine, steps: seq<Step>, m: Machine, target: Frame, i: nat)
      returns (r: Machine)
    requires Tracks(q, start, steps, m, target, i)
    requires m.closed == AllSides(true) && m.grippers == Four(X, X, TopPose(target), BottomPose(target))
    ensures Tracks(q, start, steps + [SetRails(Pair(TopBottom), FarOpen), SetGrippers([Pose(Top, X), Pose(Bottom, X)]),
                                      SetRails(Pair(TopBottom), NearGrip)], r, target, i)
  {
    hide Exec, SafeStep, Tracks, FrameOn;
    var poses := [Pose(Top, X), Pose(Bottom, X)];
    var m1, m2, m3 := FlushDouble(m, TopBottom, poses);
    QuietTracks3(q, start, steps, m, target, i, SetRails(Pair(TopBottom), FarOpen), SetGrippers(poses),
                 SetRails(Pair(TopBottom), NearGrip), m1, m2, m3);
    PairOpens(m, m1, m2, poses);
    GroupAway(m, TopBottom, m1, m2, m3, poses, target);
    r := m3;
  }

  lemma {:induction false} PairOpens(m: Machine, m1: Machine, m2: Machine, poses: seq<Pose>)
    requires m.closed == AllSides(true) && poses == [Pose(Top, X), Pose(Bottom, X)]
    requires Exec(m, SetRails(Pair(TopBottom), FarOpen)) == Some(m1) && Exec(m1, SetGrippers(poses)) == Some(m2)
    ensures m2.closed == m1.closed && m2.grippers == m.grippers.SetGroup(TopBottom, X)
  {
    TwoPoses(m.grippers, poses[0], poses[1]);
  }

  /** The turn of the whole cube, from a stand whose left/right rails are away. */
  lemma {:induction false} YawTracks(q: Request, start: Machine, steps: seq<Step>, m: Machine, frame: Frame, target: Frame, i: nat)
      returns (r: Machine)
    requires Tracks(q, start, steps, m, frame, i)
    requires m.closed == AllSides(true).SetGroup(LeftRight, false) && m.grippers == AllSides(X)
    ensures Tracks(q, start, steps + ([SetGrippers([Pose(Top, TopPose(target)), Pose(Bottom, BottomPose(target))]),
                                       SetRails(Pair(LeftRight), NearGrip)]
                                      + [SetRails(Pair(TopBottom), FarOpen), SetGrippers([Pose(Top, X), Pose(Bottom, X)]),
                                         SetRails(Pair(TopBottom), NearGrip)]), r, target, i)
  {
    hide Tracks, FrameOn, RotateCube;
    var s2, s3 := SetGrippers([Pose(Top, TopPose(target)), Pose(Bottom, BottomPose(target))]), SetRails(Pair(LeftRight), NearGrip);
    var m2 := YawTurn(m, target);
    var m3 := m2.(closed := AllSides(true));
    QuietTracks(q, start, steps, m, frame, i, s2, m2);
    YawShows(frame, m2, target);
    QuietTracks(q, start, steps + [s2], m2, target, i, s3, m3);
    FrameKept(target, m3);
    r := RegripTracks(q, start, steps + [s2] + [s3], m3, target, i);
    assert steps + ([s2, s3] + [SetRails(Pair(TopBottom), FarOpen), SetGrippers([Pose(Top, X), Pose(Bottom, X)]),
                                SetRails(Pair(TopBottom), NearGrip)])
        == steps + [s2] + [s3] + [SetRails(Pair(TopBottom), FarOpen), SetGrippers([Pose(Top, X), Pose(Bottom, X)]),
                                  SetRails(Pair(TopBottom), NearGrip)];
  }

  lemma {:induction false} LeftRightAway(q: Request, start: Machine, steps: seq<Step>, m: Machine, frame: Frame, i: nat)
      returns (r: Machine)
    requires Tracks(q, start, steps, m, frame, i) && m.closed == AllSides(true)
    requires m.grippers.top == m.grippers.bottom == X
    ensures r == m.(closed := AllSides(true).SetGroup(LeftRight, false))
    ensures Tracks(q, start, steps + [SetRails(Pair(LeftRight), FarOpen)], r, frame, i)
  {
    hide Tracks, FrameOn;
    r := m.(closed := AllSides(true).SetGroup(LeftRight, false));
    QuietTracks(q, start, steps, m, frame, i, SetRails(Pair(LeftRight), FarOpen), r);
    FrameKept(frame, r);
  }

  lemma {:induction false} ReorientTracks(q: Request, start: Machine, plan: Plan, m: Machine, cube: Cube, target: Frame, i: nat)
      returns (r: Machine)
    requires Good(start, plan, m, cube) && plan.frame != target && !plan.dirty.top && !plan.dirty.bottom
    requires Tracks(q, start, plan.steps, m, plan.frame, i)
    ensures Good(start, Reorient(plan, target), r, cube)
    ensures Tracks(q, start, Reorient(plan, target).steps, r, target, i)
    ensures Reorient(plan, target).dirty == AllSides(false) && Reorient(plan, target).frame == target
  {
    hide Run, Reaches, Legible, Watch, Tracks, FrameOn, RotateCube, InFrame, Exec, SafeStep;
    var grippers := DirtyGrippers(plan.dirty, LeftRight);
    r := ReorientReaches(start, plan, m, cube, target);
    var away := LeftRightAway(q, start, plan.steps, m, plan.frame, i);
    var s1 := SetRails(Pair(LeftRight), FarOpen);
    var tail := [SetGrippers([Pose(Top, TopPose(target)), Pose(Bottom, BottomPose(target))]), SetRails(Pair(LeftRight), NearGrip)]
                + [SetRails(Pair(TopBottom), FarOpen), SetGrippers([Pose(Top, X), Pose(Bottom, X)]), SetRails(Pair(TopBottom), NearGrip)];
    var turned: Machine;
    if grippers == [] {
      assert Side.Left !in grippers && Side.Right !in grippers;
      turned := YawTracks(q, start, plan.steps + [s1], away, plan.frame, target, i);
      assert Reorient(plan, target).steps == plan.steps + [s1] + tail;
    } else {
      var straight := StraightenTracks(q, start, plan.steps + [s1], away, plan.dirty, grippers, plan.frame, i);
      turned := YawTracks(q, start, plan.steps + [s1] + [SetGrippers(Perpendicular(grippers))], straight, plan.frame, target, i);
      assert Reorient(plan, target).steps == plan.steps + [s1] + [SetGrippers(Perpendicular(grippers))] + tail;
    }
    SameEnd(q, start, Reorient(plan, target), r, turned, cube, target, i);
  }

  lemma {:induction false} StraightenTracks(q: Request, start: Machine, steps: seq<Step>, m: Machine, dirty: Four<bool>,
                                            grippers: seq<Side>, frame: Frame, i: nat) returns (r: Machine)
    requires Tracks(q, start, steps, m, frame, i)
    requires m.closed == AllSides(true).SetGroup(LeftRight, false) && Parallel(m.grippers) == dirty
    requires !dirty.top && !dirty.bottom && grippers == DirtyGrippers(dirty, LeftRight) && grippers != []
    ensures r == m.(grippers := AllSides(X))
    ensures Tracks(q, start, steps + [SetGrippers(Perpendicular(grippers))], r, frame, i)
  {
    hide Tracks, FrameOn, Exec, SafeStep;
    r := StraightenLeftRight(m, dirty, grippers);
    assert |grippers| == 2 ==> grippers == [Side.Left, Side.Right];
    QuietTracks(q, start, steps, m, frame, i, SetGrippers(Perpendicular(grippers)), r);
    FrameKept(frame, r);
  }

  // ---- whole plans ----------------------------------------------------------------

  /** The steps end with a turn, begun when `i` moves are animated, and its marker. */
  ghost predicate TurnIsLast(q: Request, start: Machine, steps: seq<Step>, i: nat) {
    steps != [] && steps[|steps| - 1] == MoveCompleted && LastBegins(q, start, steps[..|steps| - 1], i)
  }

  lemma {:induction false} EnterFrameTracks(q: Request, start: Machine, plan: Plan, m: Machine, cube: Cube, face: LogicalFace, i: nat)
      returns (r: Machine)
    requires Good(start, plan, m, cube) && Tracks(q, start, plan.steps, m, plan.frame, i)
    ensures Good(start, EnterFrame(plan, face), r, cube)
    ensures Tracks(q, start, EnterFrame(plan, face).steps, r, EnterFrame(plan, face).frame, i)
    ensures EnterFrame(plan, face).frame == NeededFrame(plan.frame, face)
  {
    hide Good, Tracks, Reorient, FlushGroup;
    var needed := NeededFrame(plan.frame, face);
    if needed == plan.frame {
      r := m;
    } else {
      var flushed := FlushGroupTracks(q, start, plan, m, cube, TopBottom, i);
      r := ReorientTracks(q, start, FlushGroup(plan, TopBottom), flushed, cube, needed, i);
    }
  }

  lemma {:induction false} PlanMoveTracks(q: Request, start: Machine, plan: Plan, m: Machine, cube: Cube, i: nat) returns (r: Machine)
    requires i < |q.moves| && Good(start, plan, m, cube) && Tracks(q, start, plan.steps, m, plan.frame, i)
    ensures Good(start, PlanMove(plan, q.moves[i]), r, ApplyMove(cube, q.moves[i]))
    ensures Tracks(q, start, PlanMove(plan, q.moves[i]).steps, r, PlanMove(plan, q.moves[i]).frame, i + 1)
    ensures TurnIsLast(q, start, PlanMove(plan, q.moves[i]).steps, i)
  {
    hide Good, Tracks, EnterFrame, FlushGroup, FlushGrippers, LastBegins, LazyDirectTurn;
    var move := q.moves[i];
    var side := DirectSide(move.face);
    var entered := EnterFrame(plan, move.face);
    var m1 := EnterFrameTracks(q, start, plan, m, cube, move.face, i);
    var ready := FlushGroup(entered, Other(GroupOf(side)));
    var m2 := FlushGroupTracks(q, start, entered, m1, cube, Other(GroupOf(side)), i);
    CrossingIsClean(entered.dirty, side);
    r := LazyTurnTracks(q, start, ready, m2, cube, i);
    var turned := LazyDirectTurn(ready, side, move.turn);
    LazyFrame(ready, side, move.turn);
    MarkTracks(q, start, turned, r, ApplyMove(cube, move), i + 1);
    assert (turned.steps + [MoveCompleted])[..|turned.steps|] == turned.steps;
  }

  lemma {:induction false} LazyFrame(plan: Plan, side: Side, turn: MoveTurn)
    ensures LazyDirectTurn(plan, side, turn).frame == plan.frame
  {
  }

  lemma {:induction false} MarkTracks(q: Request, start: Machine, plan: Plan, m: Machine, cube: Cube, i: nat)
    requires Good(start, plan, m, cube) && Tracks(q, start, plan.steps, m, plan.frame, i)
    ensures Good(start, Append(plan, [MoveCompleted]), m, cube)
    ensures Tracks(q, start, Append(plan, [MoveCompleted]).steps, m, plan.frame, i)
  {
    hide Run, Reaches, Legible, Watch, FrameOn;
    MarkReaches(start, plan, m, cube);
    SettledIsClear(m, plan.dirty, plan.frame, cube);
    QuietTracks(q, start, plan.steps, m, plan.frame, i, MoveCompleted, m);
  }

  lemma {:induction false} NothingTracked(q: Request, cube: Cube)
    ensures Good(CanonicalGrip(cube), EMPTY_PLAN, CanonicalGrip(cube), cube)
    ensures Tracks(q, CanonicalGrip(cube), [], CanonicalGrip(cube), Canonical, 0)
  {
    FrameKept(Canonical, CanonicalGrip(cube));
  }

  lemma {:induction false} PlanMovesTrack(q: Request, start: Machine, cube: Cube, i: nat) returns (r: Machine)
    requires start == CanonicalGrip(cube) && i <= |q.moves|
    ensures Good(start, PlanMoves(EMPTY_PLAN, q.moves[..i]), r, ApplyMoves(cube, q.moves[..i]))
    ensures Tracks(q, start, PlanMoves(EMPTY_PLAN, q.moves[..i]).steps, r, PlanMoves(EMPTY_PLAN, q.moves[..i]).frame, i)
    ensures i > 0 ==> TurnIsLast(q, start, PlanMoves(EMPTY_PLAN, q.moves[..i]).steps, i - 1)
  {
    hide PlanMove, TurnIsLast, Good, Tracks;
    if i == 0 {
      r := start;
      NothingTracked(q, cube);
      assert q.moves[..0] == [];
    } else {
      var before := PlanMovesTrack(q, start, cube, i - 1);
      assert q.moves[..i][..i - 1] == q.moves[..i - 1];
      r := PlanMoveTracks(q, start, PlanMoves(EMPTY_PLAN, q.moves[..i - 1]), before, ApplyMoves(cube, q.moves[..i - 1]), i - 1);
    }
  }

  /** Watching the whole held plan shows every requested move once, in order and without a
      violation, and leaves the view in the canonical frame. */
  lemma {:induction false} HeldPlanIsRead(q: Request, cube: Cube)
    ensures Legible(q, CanonicalGrip(cube), OptimizedHeldSteps(q.moves))
    ensures Watch(q, CanonicalGrip(cube), OptimizedHeldSteps(q.moves)) == RestSight(q, Canonical, |q.moves|)
  {
    hide PlanMoves, Good, FlushGroup, Reorient, Legible, Watch;
    var n, start, after := |q.moves|, CanonicalGrip(cube), ApplyMoves(cube, q.moves);
    assert q.moves[..n] == q.moves;
    var plan := PlanMoves(EMPTY_PLAN, q.moves);
    var m := PlanMovesTrack(q, start, cube, n);
    if plan.frame == RotatedFb {
      m := FlushGroupTracks(q, start, plan, m, after, TopBottom, n);
      m := ReorientTracks(q, start, FlushGroup(plan, TopBottom), m, after, Canonical, n);
      plan := Reorient(FlushGroup(plan, TopBottom), Canonical);
    }
    m := FlushGroupTracks(q, start, plan, m, after, LeftRight, n);
    m := FlushGroupTracks(q, start, FlushGroup(plan, LeftRight), m, after, TopBottom, n);
  }

  // ---- release --------------------------------------------------------------------

  /** A step without turning grippers, safe or not. */
  lemma {:induction false} ReleaseReads(q: Request, start: Machine, steps: seq<Step>, m: Machine, frame: Frame, i: nat,
                                        step: Step, m': Machine)
    requires Run(start, steps) == Some(m) && Legible(q, start, steps)
    requires i <= |q.moves| && Watch(q, start, steps) == RestSight(q, frame, i) && FrameOn(frame, m) == frame && !step.SetGrippers? && Exec(m, step) == Some(m')
    ensures Run(start, steps + [step]) == Some(m') && Legible(q, start, steps + [step])
    ensures Watch(q, start, steps + [step]) == RestSight(q, FrameOn(frame, m'), i)
    ensures FrameOn(FrameOn(frame, m'), m') == FrameOn(frame, m')
  {
    hide Exec, LegibleStep, LookStep, RestSight, FrameOn, FrameSeen;
    assert (steps + [step])[..|steps + [step]| - 1] == steps;
    QuietReads(q, m, step, frame, i);
    FrameIsKnown(frame, m');
  }

  lemma {:induction false} FrameIsKnown(frame: Frame, m: Machine)
    ensures FrameOn(FrameOn(frame, m), m) == FrameOn(frame, m)
  {
    FrameSeenTwice(frame, StandOf(m, None));
  }

  lemma {:induction false} ReleaseTracks(q: Request, start: Machine, plan: Plan, m: Machine, cube: Cube)
      returns (r: Machine, frame: Frame)
    requires Good(start, plan, m, cube) && Tracks(q, start, plan.steps, m, plan.frame, |q.moves|)
    ensures Run(start, plan.steps + OPEN_STEPS) == Some(r) && FrameOn(frame, r) == frame
    ensures Legible(q, start, plan.steps + OPEN_STEPS)
    ensures Watch(q, start, plan.steps + OPEN_STEPS) == RestSight(q, frame, |q.moves|)
  {
    hide Run, Legible, Watch, Exec, FrameOn, Settled, RestSight;
    var n, steps := |q.moves|, plan.steps;
    PS.OpenSteps(m, plan.dirty, plan.frame, cube);
    var m1, m2 := PS.LeftRightOpen(m), PS.AllOpen(m);
    var f1 := FrameOn(plan.frame, m1);
    var f2 := FrameOn(f1, m2);
    ReleaseReads(q, start, steps, m, plan.frame, n, OPEN_STEPS[0], m1);
    ReleaseReads(q, start, steps + [OPEN_STEPS[0]], m1, f1, n, OPEN_STEPS[1], m2);
    ReleaseReads(q, start, steps + [OPEN_STEPS[0]] + [OPEN_STEPS[1]], m2, f2, n, OPEN_STEPS[2], m2);
    r, frame := m2, FrameOn(f2, m2);
    assert steps + OPEN_STEPS == steps + [OPEN_STEPS[0]] + [OPEN_STEPS[1]] + [OPEN_STEPS[2]];
  }

  /** Watching the plan that ends in the release shows every requested move once, in order
      and without a violation; the last of them is turned just before the last marker. */
  lemma {:induction false} ExecutePlanIsRead(q: Request, cube: Cube) returns (r: Machine, frame: Frame)
    ensures Run(CanonicalGrip(cube), ExecuteSteps(q.moves)) == Some(r) && FrameOn(frame, r) == frame
    ensures Legible(q, CanonicalGrip(cube), ExecuteSteps(q.moves))
    ensures Watch(q, CanonicalGrip(cube), ExecuteSteps(q.moves)) == RestSight(q, frame, |q.moves|)
    ensures q.moves != [] ==>
              var turning := PlanMoves(EMPTY_PLAN, q.moves).steps;
              ExecuteSteps(q.moves) == turning + OPEN_STEPS && TurnIsLast(q, CanonicalGrip(cube), turning, |q.moves| - 1)
  {
    hide PlanMoves, Good, Tracks, Legible, Watch, Exec, FrameOn, TurnIsLast, Run;
    var n, start := |q.moves|, CanonicalGrip(cube);
    assert q.moves[..n] == q.moves;
    var plan := PlanMoves(EMPTY_PLAN, q.moves);
    var m := PlanMovesTrack(q, start, cube, n);
    r, frame := ReleaseTracks(q, start, plan, m, ApplyMoves(cube, q.moves));
  }

  // ---- the position in a plan -----------------------------------------------------

  /** The plan of a request: held for a move sequence, and ending in the release for a
      solution. */
  function Full(q: Request): seq<Step> {
    if q.kind == ExecuteMoves then OptimizedHeldSteps(q.moves) else ExecuteSteps(q.moves)
  }

  /** The machine after the first steps of the plan. */
  function MachineAfter(q: Request, cube: Cube, k: nat): Machine {
    if k <= |Full(q)| && Run(CanonicalGrip(cube), Full(q)[..k]).Some? then Run(CanonicalGrip(cube), Full(q)[..k]).value
    else CanonicalGrip(cube)
  }

  /** What watching them comes to. */
  ghost function SightAfter(q: Request, cube: Cube, k: nat): Sight {
    if k <= |Full(q)| then Watch(q, CanonicalGrip(cube), Full(q)[..k]) else RestSight(q, Canonical, 0)
  }

  lemma {:induction false} LegiblePrefix(q: Request, start: Machine, steps: seq<Step>, k: nat)
    requires Legible(q, start, steps) && k < |steps|
    ensures Run(start, steps[..k]).Some?
    ensures LegibleStep(q, Watch(q, start, steps[..k]), Run(start, steps[..k]).value, steps[k])
    ensures Watch(q, start, steps[..k + 1])
         == LookStep(q, Watch(q, start, steps[..k]), Run(start, steps[..k]).value, steps[k])
    decreases |steps|
  {
    hide LegibleStep, LookStep, Run;
    var n := |steps| - 1;
    assert steps[..k + 1][..k] == steps[..k];
    if k < n {
      LegiblePrefix(q, start, steps[..n], k);
      assert steps[..n][..k] == steps[..k] && steps[..n][..k + 1] == steps[..k + 1];
    } else {
      assert steps[..n + 1] == steps;
    }
  }

  lemma {:induction false} FullIsRead(q: Request, cube: Cube) returns (r: Machine, frame: Frame)
    ensures Run(CanonicalGrip(cube), Full(q)) == Some(r) && FrameOn(frame, r) == frame
    ensures Legible(q, CanonicalGrip(cube), Full(q))
    ensures Watch(q, CanonicalGrip(cube), Full(q)) == RestSight(q, frame, |q.moves|)
  {
    hide Legible, Watch, Run, OptimizedHeldSteps, ExecuteSteps, RestSight;
    if q.kind == ExecuteMoves {
      HeldPlanIsRead(q, cube);
      OptimizedHeldMeaning(q.moves, cube);
      r, frame := CanonicalGrip(ApplyMoves(cube, q.moves)), Canonical;
      FrameKept(frame, r);
    } else {
      r, frame := ExecutePlanIsRead(q, cube);
    }
  }

  /** What watching the first steps of the plan has come to. */
  ghost predicate Reading(q: Request, cube: Cube, k: nat) {
    var m, sight := MachineAfter(q, cube, k), SightAfter(q, cube, k);
    && k <= |Full(q)| && Run(CanonicalGrip(cube), Full(q)[..k]) == Some(m)
    && AtRest(q, sight) && Look(sight, StandOf(m, None), q.id) == sight
    && (k == 0 ==> sight == RestSight(q, Canonical, 0) && m == CanonicalGrip(cube))
    && (k == |Full(q)| ==> sight == RestSight(q, sight.view.frame, |q.moves|))
    && (k < |Full(q)| ==>
          && LegibleStep(q, sight, m, Full(q)[k])
          && SightAfter(q, cube, k + 1) == LookStep(q, sight, m, Full(q)[k])
          && MachineAfter(q, cube, k + 1) == Ended(m, Full(q)[k]))
  }

  lemma {:induction false} SightFacts(q: Request, cube: Cube, k: nat)
    requires k <= |Full(q)|
    ensures Reading(q, cube, k)
  {
    hide Look, LookStep, LookBegin, Watch, Legible, Full, Exec;
    var start, steps := CanonicalGrip(cube), Full(q);
    var r, frame := FullIsRead(q, cube);
    WatchNothing(q, start);
    assert steps[..0] == [] && steps[..|steps|] == steps;
    if k < |steps| {
      LegiblePrefix(q, start, steps, k);
      PS.RunAdvances(start, steps, k);
      if k + 1 < |steps| {
        LegiblePrefix(q, start, steps, k + 1);
      } else {
        assert steps[..k + 1] == steps;
      }
    } else {
      RestIsLooked(q, r, frame, |q.moves|);
    }
  }

  lemma {:induction false} WatchNothing(q: Request, start: Machine)
    ensures Watch(q, start, []) == RestSight(q, Canonical, 0) && Run(start, []) == Some(start)
  {
  }

  // ---- the last turn --------------------------------------------------------------

  /** How many steps of a solution's plan end with its last turn; a move sequence is read to
      its end. */
  function Turning(q: Request): nat {
    if q.kind == ExecuteMoves then |Full(q)| + 1
    else if q.moves == [] || PlanMoves(EMPTY_PLAN, q.moves).steps == [] then 0
    else |PlanMoves(EMPTY_PLAN, q.moves).steps| - 1
  }

  /** Seeing a step never loses a move. */
  lemma {:induction false} ShownGrows(q: Request, cube: Cube, j: nat, k: nat)
    requires j <= k <= |Full(q)|
    ensures SightAfter(q, cube, j).view.index <= SightAfter(q, cube, k).view.index
    decreases k - j
  {
    hide Watch, Full, MachineAfter, SightAfter, StandOf, Looked;
    if j < k {
      ShownGrows(q, cube, j, k - 1);
      SightFacts(q, cube, k - 1);
      SightFacts(q, cube, k);
    }
  }

  /** Until the last turn has ended a move is left to be read, and after it nothing turns. */
  lemma {:induction false} LastTurnReads(q: Request, cube: Cube, k: nat)
    requires q.kind != ExecuteMoves && k <= |Full(q)|
    ensures k < Turning(q) ==> SightAfter(q, cube, k).view.index < |q.moves|
    ensures Turning(q) <= k < |Full(q)| ==> !Full(q)[k].SetGrippers?
    ensures Turning(q) <= |Full(q)| && (q.moves != [] <==> Turning(q) > 0)
  {
    hide PlanMoves, Watch, Legible, Run, LookStep;
    var r, frame := ExecutePlanIsRead(q, cube);
    if q.moves == [] {
      NothingPlanned();
      assert Full(q) == OPEN_STEPS;
    } else {
      var steps, t := PlanMoves(EMPTY_PLAN, q.moves).steps, Turning(q);
      assert Full(q)[..t - 1] == steps[..|steps| - 1][..t - 1];
      if k < t {
        ShownGrows(q, cube, k, t - 1);
      }
    }
  }

  lemma {:induction false} NothingPlanned()
    ensures PlanMoves(EMPTY_PLAN, []).steps == []
  {
  }

  lemma {:induction false} TailIsRead(q: Request, cube: Cube, k: nat)
    requires q.kind != ExecuteMoves && Turning(q) <= k <= |Full(q)|
    ensures SightAfter(q, cube, k) == RestSight(q, SightAfter(q, cube, k).view.frame, |q.moves|)
    decreases |Full(q)| - k
  {
    hide Full, Turning, Watch, MachineAfter, SightAfter, LookStep, LegibleStep, FrameSeen;
    SightFacts(q, cube, k);
    if k < |Full(q)| {
      TailIsRead(q, cube, k + 1);
      LastTurnReads(q, cube, k);
      var sight, m := SightAfter(q, cube, k), MachineAfter(q, cube, k);
      StillLooked(sight.view, StandOf(m, None), q.id);
      QuietReads(q, m, Full(q)[k], sight.view.frame, sight.view.index);
    }
  }

  // ---- the first step -------------------------------------------------------------

  /** The plan of a solution begins with rails, or with the turn of its first move. */
  lemma {:induction false} FirstStep(q: Request)
    requires q.kind != ExecuteMoves && q.moves != []
    ensures Full(q) != []
    ensures var move, step := q.moves[0], Full(q)[0];
            || step.SetRails?
            || (&& step == SetGrippers([Pose(DirectSide(move.face), if move.turn == CounterClockwise then P else R)])
                && move.turn != Half && PhysicalFace(Canonical, DirectSide(move.face)) == move.face)
  {
    hide ExecuteSteps;
    PS.FirstStepMoves(q.moves);
    if NeededFrame(Canonical, q.moves[0].face) == Canonical {
      OwnedFace(Canonical, q.moves[0].face);
    }
  }

  /** A view that is told its moves by the same status that shows the first step reads it
      as if it had rested before. */
  lemma {:induction false} FirstStepSeen(q: Request, cube: Cube)
    requires q.kind != ExecuteMoves && q.moves != [] && Full(q) != []
    ensures var stand, view := StandOf(CanonicalGrip(cube), Some(Full(q)[0])), RestView(q, Canonical, 0);
            Looked(view.(previous := AllSides(None)), stand, q.id) == Looked(view, stand, q.id)
  {
    hide FrameSeen, Looked, Full, TurnStart, ShownRails, PhysicalFace;
    var m, step, view := CanonicalGrip(cube), Full(q)[0], RestView(q, Canonical, 0);
    var stand, told := StandOf(m, Some(step)), view.(previous := AllSides(None));
    FirstStep(q);
    if step.SetRails? {
      StillLooked(view, stand, q.id);
      StillLooked(told, stand, q.id);
    } else {
      var pose := step.poses[0];
      FrameKept(Canonical, m);
      PairFrame(m, [pose], Canonical);
      TurnUnderstood(q, m, pose, Canonical, 0);
      PreviousAside(view, told, stand, pose.side);
      OneBegins(view, stand, q.id, m.grippers, pose);
      OneBegins(told, stand, q.id, m.grippers, pose);
    }
  }

  lemma {:induction false} PreviousAside(v: View, u: View, stand: StandState, side: Side)
    requires u == v.(previous := u.previous)
    ensures TurnStart(u, stand, [side], side) == TurnStart(v, stand, [side], side)
  {
  }
}

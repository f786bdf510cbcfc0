/** The fixed scan plan: what the camera sees at every capture, and where the plan ends. */
module ScanPlan {
  import opened Geometry
  import opened Stand
  import opened MovePlanner
  import opened Mechanics
  import opened Options
  import opened PlanMeaning
  import opened Facelets
  import opened Simulator

  datatype MotionStep = Motion(step: Step) | Capture(face: LogicalFace)

  function Pair2(a: Side, p: GripperOrientation, b: Side, q: GripperOrientation): MotionStep {
    Motion(SetGrippers([Pose(a, p), Pose(b, q)]))
  }

  const OPEN_LR := Motion(SetRails(Pair(LeftRight), FarOpen))
  const GRIP_LR := Motion(SetRails(Pair(LeftRight), NearGrip))
  const OPEN_TB := Motion(SetRails(Pair(TopBottom), FarOpen))
  const GRIP_TB := Motion(SetRails(Pair(TopBottom), NearGrip))

  /** Turns a face to the camera with one pair, photographs it, and turns back. */
  function Show(group: AxisGroup, first: GripperOrientation, face: LogicalFace): seq<MotionStep> {
    var sides := GroupSides(group);
    [Pair2(sides[0], first, sides[1], if first == P then R else P), Capture(face), Pair2(sides[0], X, sides[1], X)]
  }

  /** Left and right between the top and bottom grippers, down and up between the left and
      right ones, front and back between parallel top and bottom grippers, and then the
      hand-over back to canonical grip. */
  const SCAN_STEPS: seq<MotionStep> :=
    [OPEN_LR] + Show(TopBottom, P, LogicalFace.Left) + Show(TopBottom, R, LogicalFace.Right) + [GRIP_LR, OPEN_TB]
    + Show(LeftRight, P, Down) + Show(LeftRight, R, Up)
    + [Pair2(Top, P, Bottom, R), GRIP_TB, OPEN_LR] + [Capture(Front)]
    + [Pair2(Top, R, Bottom, P), Capture(Back), Pair2(Top, P, Bottom, R)]
    + [GRIP_LR, OPEN_TB, Pair2(Top, X, Bottom, X)] + [GRIP_TB]

  /** One photograph: the nine facelets, row by row, and the face it is filed under. */
  datatype Photo = Photo(face: LogicalFace, image: seq<Option<LogicalFace>>)

  /** What shows on one side of a cube. */
  function FaceImage(cube: Cube, face: LogicalFace): seq<Option<LogicalFace>> {
    seq(9, j requires 0 <= j < 9 => FaceletAt(cube, FacePlace(face, j)))
  }

  /** A scan under way: the machine, the photographs so far, and whether every step so far
      was safe. The camera looks at the physical front. */
  datatype ScanRun = ScanRun(machine: Machine, photos: seq<Photo>, safe: bool)

  function ExecScan(run: ScanRun, step: MotionStep): Option<ScanRun> {
    match step
    case Capture(face) => Some(run.(photos := run.photos + [Photo(face, FaceImage(run.machine.cube, Front))]))
    case Motion(step) =>
      var after := Exec(run.machine, step);
      if after.None? then None else Some(ScanRun(after.value, run.photos, run.safe && SafeStep(run.machine, step)))
  }

  function RunScan(run: ScanRun, steps: seq<MotionStep>): Option<ScanRun>
    decreases |steps|
  {
    if steps == [] then Some(run)
    else
      var next := ExecScan(run, steps[0]);
      if next.None? then None else RunScan(next.value, steps[1..])
  }

  lemma {:induction false} Then(run: ScanRun, a: seq<MotionStep>, mid: ScanRun, b: seq<MotionStep>, end: ScanRun)
    requires RunScan(run, a) == Some(mid) && RunScan(mid, b) == Some(end)
    ensures RunScan(run, a + b) == Some(end)
    decreases |a|
  {
    if a == [] {
      assert a + b == b;
    } else {
      assert (a + b)[1..] == a[1..] + b;
      Then(ExecScan(run, a[0]).value, a[1..], mid, b, end);
    }
  }

  lemma {:induction false} RunScan1(run: ScanRun, a: MotionStep, r1: ScanRun)
    requires ExecScan(run, a) == Some(r1)
    ensures RunScan(run, [a]) == Some(r1)
  {
    assert [a][1..] == [];
  }

  lemma {:induction false} RunScan3(run: ScanRun, a: MotionStep, b: MotionStep, c: MotionStep, r1: ScanRun, r2: ScanRun, r3: ScanRun)
    requires ExecScan(run, a) == Some(r1) && ExecScan(r1, b) == Some(r2) && ExecScan(r2, c) == Some(r3)
    ensures RunScan(run, [a, b, c]) == Some(r3)
  {
    RunScan1(run, a, r1);
    RunScan1(r1, b, r2);
    RunScan1(r2, c, r3);
    Then(run, [a], r1, [b], r2);
    assert [a] + [b] == [a, b];
    Then(run, [a, b], r2, [c], r3);
    assert [a, b] + [c] == [a, b, c];
  }

  /** The rotation that brings a face before the camera. */
  function TowardCamera(face: LogicalFace): (LogicalFace, int) {
    match face
    case Front => (Up, 0)
    case Left => (Up, 1)
    case Right => (Up, -1)
    case Back => (Up, -2)
    case Down => (LogicalFace.Left, 1)
    case Up => (LogicalFace.Left, -1)
  }

  /** It brings the face there upright: every view coordinate is kept. */
  lemma {:induction false} UprightPosition(face: LogicalFace, h: int, v: int)
    ensures Rotate(FacePosition(face, h, v), TowardCamera(face).0, TowardCamera(face).1) == FacePosition(Front, h, v)
    ensures Rotate(Normal(face), TowardCamera(face).0, TowardCamera(face).1) == Normal(Front)
  {
    var p := FacePosition(face, h, v);
    assert (-1) % 4 == 3 && (-2) % 4 == 2;
    match face {
      case Front => assert Rotate(p, Up, 0) == p;
      case Left => assert Rotate(p, Up, 1) == Quarter(p, Up);
      case Right => assert Rotate(p, Up, -1) == Quarter(Quarter(Quarter(p, Up), Up), Up);
      case Back => assert Rotate(p, Up, -2) == Quarter(Quarter(p, Up), Up);
      case Down => assert Rotate(p, LogicalFace.Left, 1) == Quarter(p, LogicalFace.Left);
      case Up =>
        var q := Quarter(Quarter(p, LogicalFace.Left), LogicalFace.Left);
        assert Rotate(p, LogicalFace.Left, -1) == Quarter(q, LogicalFace.Left);
    }
  }

  lemma {:induction false} UprightImage(cube: Cube, face: LogicalFace)
    ensures FaceImage(RotateCube(cube, TowardCamera(face).0, TowardCamera(face).1), Front) == FaceImage(cube, face)
  {
    hide Rotate, RotateCube, StickerAt, FacePosition, TowardCamera;
    var (axis, turns) := TowardCamera(face);
    forall j | 0 <= j < 9
      ensures FaceImage(RotateCube(cube, axis, turns), Front)[j] == FaceImage(cube, face)[j]
    {
      var place := FacePlace(face, j);
      UprightPosition(face, j % 3 - 1, 1 - j / 3);
      RotationCarriesStickers(cube, axis, turns, place.position, place.normal);
    }
  }

  /** Turning the cube with one pair while the crossing rails are away. */
  lemma {:induction false} PairTurn(run: ScanRun, group: AxisGroup, first: GripperOrientation, second: GripperOrientation)
    returns (r: ScanRun)
    requires run.machine.closed == AllSides(true).SetGroup(Other(group), false)
    requires var sides := GroupSides(group);
             first.Index() - run.machine.grippers.Get(sides[0]).Index()
             == run.machine.grippers.Get(sides[1]).Index() - second.Index()
    requires run.safe
    ensures var sides := GroupSides(group);
            && ExecScan(run, Pair2(sides[0], first, sides[1], second)) == Some(r)
            && r == ScanRun(Machine(run.machine.closed,
                                    run.machine.grippers.Set(sides[0], first).Set(sides[1], second),
                                    RotateCube(run.machine.cube, if group == TopBottom then Up else LogicalFace.Left,
                                               run.machine.grippers.Get(sides[0]).Index() - first.Index())),
                            run.photos, true)
  {
    var sides := GroupSides(group);
    TwoPoses(run.machine.grippers, Pose(sides[0], first), Pose(sides[1], second));
    RotateCubeZero(run.machine.cube, if group == TopBottom then Up else LogicalFace.Left);
    r := ScanRun(Machine(run.machine.closed,
                         run.machine.grippers.Set(sides[0], first).Set(sides[1], second),
                         RotateCube(run.machine.cube, if group == TopBottom then Up else LogicalFace.Left,
                                    run.machine.grippers.Get(sides[0]).Index() - first.Index())),
                 run.photos, true);
  }

  /** Turn a face to the camera, photograph it, turn back. */
  lemma {:induction false} ShowFace(run: ScanRun, group: AxisGroup, first: GripperOrientation, face: LogicalFace) returns (r: ScanRun)
    requires run.machine.closed == AllSides(true).SetGroup(Other(group), false) && run.machine.grippers == AllSides(X)
    requires run.safe && first.IsFrameParallel()
    requires face == if group == TopBottom then (if first == P then LogicalFace.Left else LogicalFace.Right)
                     else (if first == P then Down else Up)
    ensures RunScan(run, Show(group, first, face)) == Some(r)
    ensures r == ScanRun(run.machine, run.photos + [Photo(face, FaceImage(run.machine.cube, face))], true)
  {
    var sides := GroupSides(group);
    var axis := if group == TopBottom then Up else LogicalFace.Left;
    var turns := 1 - first.Index();
    var cube := run.machine.cube;
    var r1 := PairTurn(run, group, first, if first == P then R else P);
    UprightImage(cube, face);
    assert TowardCamera(face) == (axis, turns);
    var r2 := r1.(photos := run.photos + [Photo(face, FaceImage(cube, face))]);
    var r3 := PairTurn(r2, group, X, X);
    RotateCubeAdds(cube, axis, turns, -turns);
    RotateCubeZero(cube, axis);
    RunScan3(run, Pair2(sides[0], first, sides[1], if first == P then R else P), Capture(face),
             Pair2(sides[0], X, sides[1], X), r1, r2, r3);
    r := r3;
  }

  lemma {:induction false} FirstTwo(cube: Cube) returns (r: ScanRun)
    ensures RunScan(ScanRun(CanonicalGrip(cube), [], true),
                    [OPEN_LR] + Show(TopBottom, P, LogicalFace.Left) + Show(TopBottom, R, LogicalFace.Right)) == Some(r)
    ensures r == ScanRun(CanonicalGrip(cube).(closed := AllSides(true).SetGroup(LeftRight, false)),
                         [Photo(LogicalFace.Left, FaceImage(cube, LogicalFace.Left))]
                         + [Photo(LogicalFace.Right, FaceImage(cube, LogicalFace.Right))], true)
  {
    var start := ScanRun(CanonicalGrip(cube), [], true);
    var open := start.(machine := start.machine.(closed := AllSides(true).SetGroup(LeftRight, false)));
    RunScan1(start, OPEN_LR, open);
    var left := ShowFace(open, TopBottom, P, LogicalFace.Left);
    r := ShowFace(left, TopBottom, R, LogicalFace.Right);
    Then(start, [OPEN_LR], open, Show(TopBottom, P, LogicalFace.Left), left);
    Then(start, [OPEN_LR] + Show(TopBottom, P, LogicalFace.Left), left, Show(TopBottom, R, LogicalFace.Right), r);
  }

  /** The hand-over from the top and bottom grippers to the left and right ones. */
  lemma {:induction false} HandOver(start: ScanRun, cube: Cube) returns (r: ScanRun)
    requires start.machine == CanonicalGrip(cube).(closed := AllSides(true).SetGroup(LeftRight, false)) && start.safe
    ensures RunScan(start, [GRIP_LR, OPEN_TB]) == Some(r)
    ensures r == start.(machine := CanonicalGrip(cube).(closed := AllSides(true).SetGroup(TopBottom, false)))
  {
    var closed := start.(machine := CanonicalGrip(cube));
    r := start.(machine := CanonicalGrip(cube).(closed := AllSides(true).SetGroup(TopBottom, false)));
    RunScan1(start, GRIP_LR, closed);
    RunScan1(closed, OPEN_TB, r);
    Then(start, [GRIP_LR], closed, [OPEN_TB], r);
    assert [GRIP_LR] + [OPEN_TB] == [GRIP_LR, OPEN_TB];
  }

  /** Left, right, down and up. */
  lemma {:induction false} FirstFour(cube: Cube) returns (r: ScanRun)
    ensures RunScan(ScanRun(CanonicalGrip(cube), [], true),
                    [OPEN_LR] + Show(TopBottom, P, LogicalFace.Left) + Show(TopBottom, R, LogicalFace.Right)
                    + [GRIP_LR, OPEN_TB] + Show(LeftRight, P, Down) + Show(LeftRight, R, Up)) == Some(r)
    ensures r == ScanRun(CanonicalGrip(cube).(closed := AllSides(true).SetGroup(TopBottom, false)),
                         [Photo(LogicalFace.Left, FaceImage(cube, LogicalFace.Left))]
                         + [Photo(LogicalFace.Right, FaceImage(cube, LogicalFace.Right))]
                         + [Photo(Down, FaceImage(cube, Down))] + [Photo(Up, FaceImage(cube, Up))], true)
  {
    var start := ScanRun(CanonicalGrip(cube), [], true);
    var s2 := [OPEN_LR] + Show(TopBottom, P, LogicalFace.Left) + Show(TopBottom, R, LogicalFace.Right);
    var r2 := FirstTwo(cube);
    var r3 := HandOver(r2, cube);
    var r4 := ShowFace(r3, LeftRight, P, Down);
    r := ShowFace(r4, LeftRight, R, Up);
    Then(start, s2, r2, [GRIP_LR, OPEN_TB], r3);
    Then(start, s2 + [GRIP_LR, OPEN_TB], r3, Show(LeftRight, P, Down), r4);
    Then(start, s2 + [GRIP_LR, OPEN_TB] + Show(LeftRight, P, Down), r4, Show(LeftRight, R, Up), r);
  }

  /** Top and bottom regripped in parallel, the front open to the camera. */
  lemma {:induction false} EnterFront(start: ScanRun, cube: Cube) returns (r: ScanRun)
    requires start.machine == CanonicalGrip(cube).(closed := AllSides(true).SetGroup(TopBottom, false)) && start.safe
    ensures RunScan(start, [Pair2(Top, P, Bottom, R), GRIP_TB, OPEN_LR]) == Some(r)
    ensures r == ScanRun(Machine(AllSides(true).SetGroup(LeftRight, false), Four(X, X, P, R), cube), start.photos, true)
  {
    var grippers := Four(X, X, P, R);
    TwoPoses(start.machine.grippers, Pose(Top, P), Pose(Bottom, R));
    var r1 := start.(machine := start.machine.(grippers := grippers));
    var r2 := start.(machine := Machine(AllSides(true), grippers, cube));
    r := start.(machine := Machine(AllSides(true).SetGroup(LeftRight, false), grippers, cube));
    RunScan3(start, Pair2(Top, P, Bottom, R), GRIP_TB, OPEN_LR, r1, r2, r);
  }

  /** A half turn shows the back, another one undoes it. */
  lemma {:induction false} ShowBack(start: ScanRun, cube: Cube) returns (r: ScanRun)
    requires start.machine == Machine(AllSides(true).SetGroup(LeftRight, false), Four(X, X, P, R), cube) && start.safe
    ensures RunScan(start, [Pair2(Top, R, Bottom, P), Capture(Back), Pair2(Top, P, Bottom, R)]) == Some(r)
    ensures r == ScanRun(start.machine, start.photos + [Photo(Back, FaceImage(cube, Back))], true)
  {
    var r1 := PairTurn(start, TopBottom, R, P);
    UprightImage(cube, Back);
    var r2 := r1.(photos := start.photos + [Photo(Back, FaceImage(cube, Back))]);
    r := PairTurn(r2, TopBottom, P, R);
    RotateCubeAdds(cube, Up, -2, 2);
    RotateCubeZero(cube, Up);
    RunScan3(start, Pair2(Top, R, Bottom, P), Capture(Back), Pair2(Top, P, Bottom, R), r1, r2, r);
  }

  lemma {:induction false} LeaveFront(start: ScanRun, cube: Cube) returns (r: ScanRun)
    requires start.machine == Machine(AllSides(true).SetGroup(LeftRight, false), Four(X, X, P, R), cube) && start.safe
    ensures RunScan(start, [GRIP_LR, OPEN_TB, Pair2(Top, X, Bottom, X)] + [GRIP_TB]) == Some(r)
    ensures r == ScanRun(CanonicalGrip(cube), start.photos, true)
  {
    var r1 := start.(machine := Machine(AllSides(true), Four(X, X, P, R), cube));
    var r2 := start.(machine := Machine(AllSides(true).SetGroup(TopBottom, false), Four(X, X, P, R), cube));
    TwoPoses(r2.machine.grippers, Pose(Top, X), Pose(Bottom, X));
    var r3 := start.(machine := Machine(AllSides(true).SetGroup(TopBottom, false), AllSides(X), cube));
    r := start.(machine := CanonicalGrip(cube));
    RunScan3(start, GRIP_LR, OPEN_TB, Pair2(Top, X, Bottom, X), r1, r2, r3);
    RunScan1(r3, GRIP_TB, r);
    Then(start, [GRIP_LR, OPEN_TB, Pair2(Top, X, Bottom, X)], r3, [GRIP_TB], r);
  }

  /** The order in which the faces are photographed. */
  const SCAN_ORDER := [LogicalFace.Left, LogicalFace.Right, Down, Up, Front, Back]

  /** The whole scan, for any cube: every step is safe, the machine ends as it began, and
      every photograph shows the face it is filed under, upright. */
  lemma {:induction false} ScanShowsEveryFace(cube: Cube)
    ensures RunScan(ScanRun(CanonicalGrip(cube), [], true), SCAN_STEPS)
         == Some(ScanRun(CanonicalGrip(cube),
                         seq(6, i requires 0 <= i < 6 => Photo(SCAN_ORDER[i], FaceImage(cube, SCAN_ORDER[i]))), true))
  {
    hide RunScan, FaceImage, Turned, SafeStep;
    var start := ScanRun(CanonicalGrip(cube), [], true);
    var r1 := FirstFour(cube);
    var r2 := EnterFront(r1, cube);
    var r3 := r2.(photos := r2.photos + [Photo(Front, FaceImage(cube, Front))]);
    RunScan1(r2, Capture(Front), r3);
    var r4 := ShowBack(r3, cube);
    var r5 := LeaveFront(r4, cube);
    var s1 := [OPEN_LR] + Show(TopBottom, P, LogicalFace.Left) + Show(TopBottom, R, LogicalFace.Right)
              + [GRIP_LR, OPEN_TB] + Show(LeftRight, P, Down) + Show(LeftRight, R, Up);
    var s2 := s1 + [Pair2(Top, P, Bottom, R), GRIP_TB, OPEN_LR];
    var s3 := s2 + [Capture(Front)];
    var s4 := s3 + [Pair2(Top, R, Bottom, P), Capture(Back), Pair2(Top, P, Bottom, R)];
    var leave := [GRIP_LR, OPEN_TB, Pair2(Top, X, Bottom, X)] + [GRIP_TB];
    Then(start, s1, r1, [Pair2(Top, P, Bottom, R), GRIP_TB, OPEN_LR], r2);
    Then(start, s2, r2, [Capture(Front)], r3);
    Then(start, s3, r3, [Pair2(Top, R, Bottom, P), Capture(Back), Pair2(Top, P, Bottom, R)], r4);
    Then(start, s4, r4, leave, r5);
    assert SCAN_STEPS == s4 + leave;
    assert r5.photos == seq(6, i requires 0 <= i < 6 => Photo(SCAN_ORDER[i], FaceImage(cube, SCAN_ORDER[i])));
  }

  /** A finished run can be cut anywhere: up to the cut it had not failed, was safe, and its
      photographs are the first of the final ones. */
  lemma {:induction false} CutScan(run: ScanRun, a: seq<MotionStep>, b: seq<MotionStep>, end: ScanRun) returns (mid: ScanRun)
    requires RunScan(run, a + b) == Some(end) && end.safe
    ensures RunScan(run, a) == Some(mid) && RunScan(mid, b) == Some(end)
    ensures mid.safe && run.safe && mid.photos <= end.photos && run.photos <= mid.photos
    decreases |a| + |b|, |a|
  {
    if a == [] {
      assert a + b == b;
      mid := run;
      if b != [] {
        var next := ExecScan(run, b[0]).value;
        assert [] + b[1..] == b[1..];
        var last := CutScan(next, [], b[1..], end);
      }
    } else {
      assert (a + b)[1..] == a[1..] + b;
      mid := CutScan(ExecScan(run, a[0]).value, a[1..], b, end);
    }
  }

  /** The scan after its first `k` steps. */
  lemma {:induction false} ScanPrefix(cube: Cube, k: nat) returns (r: ScanRun)
    requires k <= |SCAN_STEPS|
    ensures RunScan(ScanRun(CanonicalGrip(cube), [], true), SCAN_STEPS[..k]) == Some(r) && r.safe
    ensures k == |SCAN_STEPS| ==> r.machine == CanonicalGrip(cube)
    ensures k < |SCAN_STEPS| && SCAN_STEPS[k].Capture? ==>
              FaceImage(r.machine.cube, Front) == FaceImage(cube, SCAN_STEPS[k].face)
    ensures k < |SCAN_STEPS| && SCAN_STEPS[k].Motion? ==>
              SafeStep(r.machine, SCAN_STEPS[k].step) && Exec(r.machine, SCAN_STEPS[k].step).Some?
  {
    var start := ScanRun(CanonicalGrip(cube), [], true);
    ScanShowsEveryFace(cube);
    var end := RunScan(start, SCAN_STEPS).value;
    assert SCAN_STEPS == SCAN_STEPS[..k] + SCAN_STEPS[k..];
    r := CutScan(start, SCAN_STEPS[..k], SCAN_STEPS[k..], end);
    if k < |SCAN_STEPS| {
      var rest := SCAN_STEPS[k + 1..];
      assert SCAN_STEPS[k..] == [SCAN_STEPS[k]] + rest;
      var next := CutScan(r, [SCAN_STEPS[k]], rest, end);
      assert [SCAN_STEPS[k]][1..] == [];
      assert ExecScan(r, SCAN_STEPS[k]) == Some(next);
      if SCAN_STEPS[k].Capture? {
        assert next.photos[|r.photos|] == Photo(SCAN_STEPS[k].face, FaceImage(r.machine.cube, Front));
        assert end.photos[|r.photos|] == next.photos[|r.photos|];
      }
    } else {
      assert SCAN_STEPS[..k] == SCAN_STEPS;
    }
  }

  /** One more step of the scan. */
  lemma {:induction false} ScanAdvances(cube: Cube, k: nat, r: ScanRun)
    requires k < |SCAN_STEPS| && RunScan(ScanRun(CanonicalGrip(cube), [], true), SCAN_STEPS[..k]) == Some(r)
    requires ExecScan(r, SCAN_STEPS[k]).Some?
    ensures RunScan(ScanRun(CanonicalGrip(cube), [], true), SCAN_STEPS[..k + 1]) == ExecScan(r, SCAN_STEPS[k])
  {
    RunScan1(r, SCAN_STEPS[k], ExecScan(r, SCAN_STEPS[k]).value);
    Then(ScanRun(CanonicalGrip(cube), [], true), SCAN_STEPS[..k], r, [SCAN_STEPS[k]], ExecScan(r, SCAN_STEPS[k]).value);
    assert SCAN_STEPS[..k + 1] == SCAN_STEPS[..k] + [SCAN_STEPS[k]];
  }
}

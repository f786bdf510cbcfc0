/** The simulator's cube as it runs: 26 cubies turned in place, and the facelet array read
    off them. */
module Simulator {
  import opened Geometry
  import opened MovePlanner
  import opened PlanMeaning
  import opened Facelets
  import opened Options

  function SolvedHome(i: nat): Vec3 {
    var n := if i < 13 then i else i + 1;
    Vec3(n / 9 - 1, n / 3 % 3 - 1, n % 3 - 1)
  }

  function SolvedCubie(i: nat): Cubie {
    Cubie(SolvedHome(i), SolvedHome(i), Vec3(1, 0, 0), Vec3(0, 1, 0), Vec3(0, 0, 1))
  }

  function SolvedCube(): Cube {
    seq(26, i requires 0 <= i < 26 => SolvedCubie(i))
  }

  predicate OnGrid(v: Vec3) {
    InGrid(v) && v != Vec3(0, 0, 0)
  }

  /** Cross product of a face normal with a vector. */
  function CrossNormal(n: Vec3, v: Vec3): Vec3 {
    if n.x == 1 then Vec3(0, -v.z, v.y)
    else if n.x == -1 then Vec3(0, v.z, -v.y)
    else if n.y == 1 then Vec3(v.z, 0, -v.x)
    else if n.y == -1 then Vec3(-v.z, 0, v.x)
    else if n.z == 1 then Vec3(-v.y, v.x, 0)
    else Vec3(v.y, -v.x, 0)
  }

  predicate Orthogonal(a: Vec3, b: Vec3) {
    (a.x == 0 || b.x == 0) && (a.y == 0 || b.y == 0) && (a.z == 0 || b.z == 0)
  }

  /** A right-handed triple of face normals: one of the 24 rotations of a cube. */
  predicate ProperBasis(ex: Vec3, ey: Vec3, ez: Vec3) {
    IsUnit(ex) && IsUnit(ey) && Orthogonal(ex, ey) && ez == CrossNormal(ex, ey)
  }

  /** `k` times `v`, for a grid coordinate `k`. */
  function Scale(v: Vec3, k: int): Vec3 {
    if k > 0 then v else if k < 0 then Neg(v) else Vec3(0, 0, 0)
  }

  function Plus(a: Vec3, b: Vec3): Vec3 {
    Vec3(a.x + b.x, a.y + b.y, a.z + b.z)
  }

  /** The image of a grid vector under a cubie's orientation. */
  function Image(c: Cubie, local: Vec3): Vec3 {
    Combine(c.ex, c.ey, c.ez, local)
  }

  predicate Aligned(c: Cubie) {
    OnGrid(c.home) && OnGrid(c.position) && ProperBasis(c.ex, c.ey, c.ez) && c.position == Image(c, c.home)
  }

  ghost predicate Occupied(cube: Cube, v: Vec3) {
    exists i :: 0 <= i < |cube| && cube[i].position == v
  }

  /** A cube that is put together from the 26 cubies: one at every position, each carried
      there from its home by a proper rotation. */
  ghost predicate Arrangement(cube: Cube) {
    && |cube| == 26
    && (forall i :: 0 <= i < |cube| ==> Aligned(cube[i]))
    && (forall i, j :: 0 <= i < j < |cube| ==> cube[i].position != cube[j].position)
    && (forall v :: OnGrid(v) ==> Occupied(cube, v))
    && (forall i :: 0 <= i < |cube| ==> cube[i].home == SolvedHome(i))
  }

  predicate IsAxis(n: Vec3) {
    || n == Vec3(1, 0, 0) || n == Vec3(-1, 0, 0) || n == Vec3(0, 1, 0)
    || n == Vec3(0, -1, 0) || n == Vec3(0, 0, 1) || n == Vec3(0, 0, -1)
  }

  lemma {:induction false} UnitCases(n: Vec3)
    requires IsUnit(n)
    ensures IsAxis(n)
  {
  }

  lemma {:induction false} CrossFromQuarter(n: Vec3, v: Vec3, face: LogicalFace)
    requires n == Normal(face) && Along(v, face) == 0
    ensures CrossNormal(n, v) == Quarter(v, face)
  {
  }

  lemma {:induction false} AxisFace(n: Vec3) returns (face: LogicalFace)
    requires IsAxis(n)
    ensures n == Normal(face)
  {
    face := if n.y == 1 then Up else if n.x == 1 then LogicalFace.Right else if n.z == 1 then Front
            else if n.y == -1 then Down else if n.x == -1 then LogicalFace.Left else Back;
  }

  /** Where a quarter turn about `axis` sends a face. */
  function TurnedFace(face: LogicalFace, axis: LogicalFace): LogicalFace {
    match axis
    case Up => YawFace(face)
    case Down =>
      (match face
       case Up => Up
       case Down => Down
       case Right => Front
       case Back => LogicalFace.Right
       case Left => Back
       case Front => LogicalFace.Left)
    case Right =>
      (match face
       case Up => Front
       case Front => Down
       case Down => Back
       case Back => Up
       case Right => LogicalFace.Right
       case Left => LogicalFace.Left)
    case Left =>
      (match face
       case Front => Up
       case Down => Front
       case Back => Down
       case Up => Back
       case Right => LogicalFace.Right
       case Left => LogicalFace.Left)
    case Front =>
      (match face
       case Right => Up
       case Up => LogicalFace.Left
       case Left => Down
       case Down => LogicalFace.Right
       case Front => Front
       case Back => Back)
    case Back =>
      (match face
       case Up => LogicalFace.Right
       case Left => Up
       case Down => LogicalFace.Left
       case Right => Down
       case Front => Front
       case Back => Back)
  }

  lemma {:induction false} TurnedFaceNormal(face: LogicalFace, axis: LogicalFace)
    ensures Quarter(Normal(face), axis) == Normal(TurnedFace(face, axis))
  {
  }

  /** A quarter turn about one normal carries a quarter turn about another along. */
  lemma {:induction false} QuarterConjugates(v: Vec3, face: LogicalFace, axis: LogicalFace)
    ensures Quarter(Quarter(v, face), axis) == Quarter(Quarter(v, axis), TurnedFace(face, axis))
    ensures Along(Quarter(v, axis), TurnedFace(face, axis)) == Along(v, face)
  {
  }

  lemma {:induction false} OrthogonalMeansFlat(n: Vec3, v: Vec3, face: LogicalFace)
    requires n == Normal(face) && Orthogonal(n, v)
    ensures Along(v, face) == 0
  {
  }

  lemma {:induction false} QuarterOfCross(n: Vec3, v: Vec3, axis: LogicalFace)
    requires IsAxis(n) && IsAxis(Quarter(n, axis)) && Orthogonal(n, v)
    ensures Quarter(CrossNormal(n, v), axis) == CrossNormal(Quarter(n, axis), Quarter(v, axis))
  {
    var face := AxisFace(n);
    var image := TurnedFace(face, axis);
    TurnedFaceNormal(face, axis);
    OrthogonalMeansFlat(n, v, face);
    CrossFromQuarter(n, v, face);
    QuarterConjugates(v, face, axis);
    CrossFromQuarter(Quarter(n, axis), Quarter(v, axis), image);
  }

  lemma {:induction false} QuarterKeepsUnit(n: Vec3, axis: LogicalFace)
    requires IsUnit(n)
    ensures IsUnit(Quarter(n, axis))
  {
  }

  lemma {:induction false} QuarterKeepsOrthogonal(a: Vec3, b: Vec3, axis: LogicalFace)
    requires Orthogonal(a, b)
    ensures Orthogonal(Quarter(a, axis), Quarter(b, axis))
  {
  }

  function Combine(a: Vec3, b: Vec3, c: Vec3, k: Vec3): Vec3 {
    Plus(Plus(Scale(a, k.x), Scale(b, k.y)), Scale(c, k.z))
  }

  lemma {:induction false} QuarterOfScale(v: Vec3, k: int, axis: LogicalFace)
    ensures Quarter(Scale(v, k), axis) == Scale(Quarter(v, axis), k)
  {
  }

  lemma {:induction false} QuarterOfSum(a: Vec3, b: Vec3, axis: LogicalFace)
    ensures Quarter(Plus(a, b), axis) == Plus(Quarter(a, axis), Quarter(b, axis))
  {
  }

  lemma {:induction false} QuarterOfImage(ex: Vec3, ey: Vec3, ez: Vec3, k: Vec3, axis: LogicalFace)
    ensures Quarter(Combine(ex, ey, ez, k), axis) == Combine(Quarter(ex, axis), Quarter(ey, axis), Quarter(ez, axis), k)
  {
    var a, b, c := Scale(ex, k.x), Scale(ey, k.y), Scale(ez, k.z);
    QuarterOfSum(Plus(a, b), c, axis);
    QuarterOfSum(a, b, axis);
    QuarterOfScale(ex, k.x, axis);
    QuarterOfScale(ey, k.y, axis);
    QuarterOfScale(ez, k.z, axis);
  }

  function QuarterCubie(c: Cubie, axis: LogicalFace): Cubie {
    Cubie(c.home, Quarter(c.position, axis), Quarter(c.ex, axis), Quarter(c.ey, axis), Quarter(c.ez, axis))
  }

  lemma {:induction false} QuarterOnGrid(v: Vec3, axis: LogicalFace)
    requires OnGrid(v)
    ensures OnGrid(Quarter(v, axis))
  {
  }

  /** What a quarter turn keeps, any number of quarter turns keeps. */
  lemma {:induction false} TurnKeeps(keeps: Cubie -> bool, c: Cubie, axis: LogicalFace, turns: int)
    requires keeps(c) && forall d :: keeps(d) ==> keeps(QuarterCubie(d, axis))
    ensures keeps(TurnCubie(c, axis, turns))
  {
    var c1 := QuarterCubie(c, axis);
    var c2 := QuarterCubie(c1, axis);
    var c3 := QuarterCubie(c2, axis);
    assert TurnCubie(c, axis, turns) in {c, c1, c2, c3};
  }

  function SpinPosition(v: Vec3, axis: LogicalFace, turns: int): Vec3 {
    if Along(v, axis) <= 0 then v else Rotate(v, axis, turns)
  }

  lemma {:induction false} SpinPositionInverts(v: Vec3, axis: LogicalFace, turns: int, back: int)
    requires back == -turns
    ensures SpinPosition(SpinPosition(v, axis, turns), axis, back) == v
  {
    RotateKeepsAlong(v, axis, turns);
    RotateBack(v, axis, turns);
  }

  lemma {:induction false} SpinPositionOnGrid(v: Vec3, axis: LogicalFace, turns: int)
    requires OnGrid(v)
    ensures OnGrid(SpinPosition(v, axis, turns))
  {
    QuarterOnGrid(v, axis);
    QuarterOnGrid(Quarter(v, axis), axis);
    QuarterOnGrid(Quarter(Quarter(v, axis), axis), axis);
  }

  lemma {:induction false} SpinKeepsAligned(c: Cubie, axis: LogicalFace, turns: int)
    requires Aligned(c)
    ensures Aligned(SpinCubie(c, axis, turns))
    ensures SpinCubie(c, axis, turns).position == SpinPosition(c.position, axis, turns)
    ensures SpinCubie(c, axis, turns).home == c.home
  {
    var keeps := (d: Cubie) => Aligned(d);
    forall d | keeps(d)
      ensures keeps(QuarterCubie(d, axis))
    {
      assert ProperBasis(Quarter(d.ex, axis), Quarter(d.ey, axis), Quarter(d.ez, axis)) by {
        QuarterKeepsUnit(d.ex, axis);
        UnitCases(d.ex);
        UnitCases(Quarter(d.ex, axis));
        QuarterOfCross(d.ex, d.ey, axis);
        QuarterKeepsUnit(d.ey, axis);
        QuarterKeepsOrthogonal(d.ex, d.ey, axis);
      }
      assert Quarter(d.position, axis) == Image(QuarterCubie(d, axis), d.home) by {
        QuarterOfImage(d.ex, d.ey, d.ez, d.home, axis);
      }
      QuarterOnGrid(d.position, axis);
    }
    assert Aligned(TurnCubie(c, axis, turns)) by {
      hide Aligned, Quarter;
      TurnKeeps(keeps, c, axis, turns);
    }
  }

  lemma {:induction false} SpinPositionInjective(a: Vec3, b: Vec3, axis: LogicalFace, turns: int)
    requires SpinPosition(a, axis, turns) == SpinPosition(b, axis, turns)
    ensures a == b
  {
    SpinPositionInverts(a, axis, turns, -turns);
    SpinPositionInverts(b, axis, turns, -turns);
  }

  lemma {:induction false} SpinPositionSource(axis: LogicalFace, turns: int, v: Vec3) returns (source: Vec3)
    requires OnGrid(v)
    ensures OnGrid(source) && SpinPosition(source, axis, turns) == v
  {
    source := SpinPosition(v, axis, -turns);
    SpinPositionOnGrid(v, axis, -turns);
    SpinPositionInverts(v, axis, -turns, turns);
  }

  /** A layer turn moves every cubie to the spun position and keeps the arrangement. */
  lemma {:induction false} SpinKeepsArrangement(cube: Cube, axis: LogicalFace, turns: int)
    requires Arrangement(cube)
    ensures Arrangement(SpinLayer(cube, axis, turns))
  {
    var spun := SpinLayer(cube, axis, turns);
    forall i | 0 <= i < |spun|
      ensures Aligned(spun[i]) && spun[i].position == SpinPosition(cube[i].position, axis, turns)
      ensures spun[i].home == SolvedHome(i)
    {
      SpinKeepsAligned(cube[i], axis, turns);
    }
    forall i, j | 0 <= i < j < |spun|
      ensures spun[i].position != spun[j].position
    {
      if spun[i].position == spun[j].position {
        SpinPositionInjective(cube[i].position, cube[j].position, axis, turns);
      }
    }
    forall v | OnGrid(v)
      ensures Occupied(spun, v)
    {
      var source := SpinPositionSource(axis, turns, v);
      assert Occupied(cube, source);
      var i :| 0 <= i < |cube| && cube[i].position == source;
      assert spun[i].position == v;
    }
  }

  lemma {:induction false} SolvedHomeOnGrid(i: nat)
    requires i < 26
    ensures OnGrid(SolvedHome(i))
  {
    var n := if i < 13 then i else i + 1;
    assert n == 9 * (n / 9) + 3 * (n / 3 % 3) + n % 3;
  }

  lemma {:induction false} ScaleCoordinates(k: int)
    requires -1 <= k <= 1
    ensures Scale(Vec3(1, 0, 0), k) == Vec3(k, 0, 0)
    ensures Scale(Vec3(0, 1, 0), k) == Vec3(0, k, 0)
    ensures Scale(Vec3(0, 0, 1), k) == Vec3(0, 0, k)
  {
  }

  lemma {:induction false} IdentityImage(v: Vec3)
    requires InGrid(v)
    ensures Combine(Vec3(1, 0, 0), Vec3(0, 1, 0), Vec3(0, 0, 1), v) == v
  {
    ScaleCoordinates(v.x);
    ScaleCoordinates(v.y);
    ScaleCoordinates(v.z);
    assert Plus(Vec3(v.x, 0, 0), Vec3(0, v.y, 0)) == Vec3(v.x, v.y, 0);
    assert Plus(Vec3(v.x, v.y, 0), Vec3(0, 0, v.z)) == v;
  }

  lemma {:induction false} SolvedCubieAligned(i: nat)
    requires i < 26
    ensures Aligned(SolvedCubie(i))
  {
    SolvedHomeOnGrid(i);
    IdentityImage(SolvedHome(i));
  }

  lemma {:induction false} SolvedHomeInjective(i: nat, j: nat)
    requires i < j < 26
    ensures SolvedHome(i) != SolvedHome(j)
  {
  }

  lemma {:induction false} SolvedIndex(v: Vec3) returns (i: nat)
    requires OnGrid(v)
    ensures i < 26 && SolvedHome(i) == v
  {
    var n := 9 * (v.x + 1) + 3 * (v.y + 1) + v.z + 1;
    i := if n < 13 then n else n - 1;
  }

  lemma {:induction false} SolvedPositionsDiffer()
    ensures forall i, j :: 0 <= i < j < |SolvedCube()| ==> SolvedCube()[i].position != SolvedCube()[j].position
  {
    forall i, j | 0 <= i < j < 26
      ensures SolvedCube()[i].position != SolvedCube()[j].position
    {
      SolvedHomeInjective(i, j);
    }
  }

  lemma {:induction false} SolvedArrangement()
    ensures Arrangement(SolvedCube())
  {
    var cube := SolvedCube();
    forall i | 0 <= i < 26
      ensures Aligned(cube[i])
    {
      SolvedCubieAligned(i);
    }
    SolvedPositionsDiffer();
    forall v | OnGrid(v)
      ensures Occupied(cube, v)
    {
      var i := SolvedIndex(v);
      assert cube[i].position == v;
    }
  }

  /** At most one cubie can claim a place of an arrangement. */
  lemma {:induction false} StickerAtUnique(cube: Cube, i: nat, position: Vec3, normal: Vec3)
    requires i < |cube| && cube[i].position == position && StickerToward(cube[i], normal).Some?
    requires forall j, k :: 0 <= j < k < |cube| ==> cube[j].position != cube[k].position
    ensures StickerAt(cube, position, normal) == StickerToward(cube[i], normal)
  {
    var n := |cube| - 1;
    if i < n {
      StickerAtUnique(cube[..n], i, position, normal);
    }
  }

  lemma {:induction false} SolvedSticker(c: Cubie, place: Place, face: LogicalFace)
    requires IsPlace(place) && place.normal == Normal(face)
    requires c == Cubie(place.position, place.position, Vec3(1, 0, 0), Vec3(0, 1, 0), Vec3(0, 0, 1))
    ensures StickerToward(c, place.normal) == Some(face)
  {
  }

  lemma {:induction false} SolvedShows(place: Place, face: LogicalFace)
    requires IsPlace(place) && place.normal == Normal(face)
    ensures FaceletAt(SolvedCube(), place) == Some(face)
  {
    var i := SolvedIndex(place.position);
    SolvedSticker(SolvedCube()[i], place, face);
    SolvedPositionsDiffer();
    StickerAtUnique(SolvedCube(), i, place.position, place.normal);
  }

  /** After any moves the cube is still an arrangement of the 26 cubies. */
  lemma {:induction false} MovesKeepArrangement(cube: Cube, moves: seq<CubeMove>)
    requires Arrangement(cube)
    ensures Arrangement(ApplyMoves(cube, moves))
  {
    if moves != [] {
      var k := |moves| - 1;
      MovesKeepArrangement(cube, moves[..k]);
      SpinKeepsArrangement(ApplyMoves(cube, moves[..k]), moves[k].face, Turns(moves[k].turn));
    }
  }

  /** The grid position with the given view coordinates on a face. */
  function FacePosition(face: LogicalFace, h: int, v: int): Vec3 {
    match face
    case Up => Vec3(h, 1, -v)
    case Right => Vec3(1, v, -h)
    case Front => Vec3(h, v, 1)
    case Down => Vec3(h, -1, v)
    case Left => Vec3(-1, v, h)
    case Back => Vec3(-h, v, -1)
  }

  /** The nine places of a face, row by row as someone looking at the face reads them. */
  function FacePlace(face: LogicalFace, k: nat): Place
    requires k < 9
  {
    Place(FacePosition(face, k % 3 - 1, 1 - k / 3), Normal(face))
  }

  /** Grid coordinates along the horizontal and vertical of a face's view. */
  function Horizontal(v: Vec3, face: LogicalFace): int {
    match face
    case Up => v.x
    case Right => -v.z
    case Front => v.x
    case Down => v.x
    case Left => v.z
    case Back => -v.x
  }

  function Vertical(v: Vec3, face: LogicalFace): int {
    match face
    case Up => -v.z
    case Right => v.y
    case Front => v.y
    case Down => v.z
    case Left => v.y
    case Back => v.y
  }

  lemma {:induction false} FacePlaceIsPlace(face: LogicalFace, k: nat)
    requires k < 9
    ensures IsPlace(FacePlace(face, k))
    ensures Horizontal(FacePlace(face, k).position, face) == k % 3 - 1
    ensures Vertical(FacePlace(face, k).position, face) == 1 - k / 3
  {
  }

  function Cell(place: Place, face: LogicalFace): (k: nat)
    requires IsPlace(place) && place.normal == Normal(face)
    ensures k < 9
  {
    (1 - Vertical(place.position, face)) * 3 + Horizontal(place.position, face) + 1
  }

  lemma {:induction false} CellOfFacePlace(place: Place, face: LogicalFace)
    requires IsPlace(place) && place.normal == Normal(face)
    ensures FacePlace(face, Cell(place, face)) == place
  {
  }

  lemma {:induction false} ImageCard(n: nat, f: nat -> Place, image: set<Place>)
    requires forall j, k :: 0 <= j < k < n ==> f(j) != f(k)
    requires forall k: nat :: k < n ==> f(k) in image
    requires forall p :: p in image ==> exists k: nat :: k < n && f(k) == p
    ensures |image| == n
  {
    if n > 0 {
      ImageCard(n - 1, f, image - {f(n - 1)});
    }
  }

  lemma {:induction false} NinePlaces(face: LogicalFace, places: set<Place>)
    requires forall place :: place in places <==> IsPlace(place) && place.normal == Normal(face)
    ensures |places| == 9
  {
    var f := FacePlaces(face);
    forall k: nat | k < 9
      ensures f(k) in places
    {
      FacePlaceIsPlace(face, k);
    }
    forall j, k | 0 <= j < k < 9
      ensures f(j) != f(k)
    {
      FacePlaceIsPlace(face, j);
      FacePlaceIsPlace(face, k);
    }
    forall p | p in places
      ensures exists k: nat :: k < 9 && f(k) == p
    {
      CellOfFacePlace(p, face);
      assert f(Cell(p, face)) == p;
    }
    ImageCard(9, f, places);
  }

  function FacePlaces(face: LogicalFace): nat -> Place {
    (k: nat) => if k < 9 then FacePlace(face, k) else FacePlace(face, 0)
  }

  lemma {:induction false} ShowsOwnFace(place: Place)
    requires IsPlace(place)
    ensures exists f: LogicalFace :: place.normal == Normal(f) && FaceletAt(SolvedCube(), place) == Some(f)
  {
    UnitCases(place.normal);
    var f := AxisFace(place.normal);
    SolvedShows(place, f);
  }

  lemma {:induction false} SolvedIsBalanced()
    ensures Balanced(ViewOf(SolvedCube()))
  {
    var view := ViewOf(SolvedCube());
    forall place | place in Places()
      ensures view[place].Some?
    {
      ShowsOwnFace(place);
    }
    forall face: LogicalFace
      ensures |Showing(view, face)| == 9
      ensures view[Centre(face)] == Some(face)
    {
      forall place
        ensures place in Showing(view, face) <==> IsPlace(place) && place.normal == Normal(face)
      {
        if IsPlace(place) {
          ShowsOwnFace(place);
          if place.normal == Normal(face) {
            SolvedShows(place, face);
          }
        }
      }
      NinePlaces(face, Showing(view, face));
      SolvedShows(Centre(face), face);
    }
  }

  /** Whatever has been turned, all 54 places show a sticker, nine of every kind, and every
      centre is at home. */
  lemma {:induction false} EveryCubeIsBalanced(moves: seq<CubeMove>)
    ensures Arrangement(ApplyMoves(SolvedCube(), moves))
    ensures Balanced(ViewOf(ApplyMoves(SolvedCube(), moves)))
  {
    SolvedArrangement();
    MovesKeepArrangement(SolvedCube(), moves);
    SolvedIsBalanced();
    MovesKeepBalance(ViewOf(SolvedCube()), moves);
    MovesPermuteView(SolvedCube(), moves);
  }

  // ---- the group action -----------------------------------------------------------

  function Undo(move: CubeMove): CubeMove {
    CubeMove(move.face, match move.turn
                        case Clockwise => CounterClockwise
                        case CounterClockwise => Clockwise
                        case Half => Half)
  }

  function Inverse(moves: seq<CubeMove>): (r: seq<CubeMove>)
    ensures |r| == |moves|
  {
    seq(|moves|, i requires 0 <= i < |moves| => Undo(moves[|moves| - 1 - i]))
  }

  lemma {:induction false} MovesCompose(cube: Cube, a: seq<CubeMove>, b: seq<CubeMove>)
    ensures ApplyMoves(cube, a + b) == ApplyMoves(ApplyMoves(cube, a), b)
    decreases |b|
  {
    if b == [] {
      assert a + b == a;
    } else {
      var n := |b| - 1;
      assert (a + b)[..|a + b| - 1] == a + b[..n];
      MovesCompose(cube, a, b[..n]);
    }
  }

  lemma {:induction false} MoveUndone(cube: Cube, move: CubeMove)
    ensures ApplyMove(ApplyMove(cube, move), Undo(move)) == cube
  {
    hide SpinLayer;
    var j, k := Turns(move.turn), Turns(Undo(move).turn);
    SpinLayerAdds(cube, move.face, j, k);
    SpinLayerMod(cube, move.face, j + k, 0);
    SpinLayerZero(cube, move.face);
  }

  /** Undoing every move in reverse order restores any cube. */
  lemma {:induction false} InverseRestores(cube: Cube, moves: seq<CubeMove>)
    ensures ApplyMoves(ApplyMoves(cube, moves), Inverse(moves)) == cube
    decreases |moves|
  {
    hide ApplyMove;
    if moves != [] {
      var n := |moves| - 1;
      var turned := ApplyMoves(cube, moves);
      assert Inverse(moves) == [Undo(moves[n])] + Inverse(moves[..n]);
      MovesCompose(turned, [Undo(moves[n])], Inverse(moves[..n]));
      assert [Undo(moves[n])][..0] == [];
      assert ApplyMoves(turned, [Undo(moves[n])]) == ApplyMove(turned, Undo(moves[n]));
      MoveUndone(ApplyMoves(cube, moves[..n]), moves[n]);
      InverseRestores(cube, moves[..n]);
    }
  }

  /** Places in the solver's facelet order. */
  function PlaceAt(index: nat): Place
    requires index < 54
  {
    FacePlace(FACES[index / 9], index % 9)
  }

  /** A view as the simulator publishes it: 54 entries in facelet order. */
  function FaceletArray(view: View): (r: seq<Option<LogicalFace>>)
    ensures |r| == 54
  {
    seq(54, k requires 0 <= k < 54 => (FacePlaceIsPlace(FACES[k / 9], k % 9); view[PlaceAt(k)]))
  }

  lemma {:induction false} IndexOfPlace(place: Place, face: LogicalFace)
    requires IsPlace(place) && place.normal == Normal(face)
    ensures FaceOrder(face) * 9 + Cell(place, face) < 54
    ensures PlaceAt(FaceOrder(face) * 9 + Cell(place, face)) == place
  {
    var index := FaceOrder(face) * 9 + Cell(place, face);
    assert index / 9 == FaceOrder(face) && index % 9 == Cell(place, face);
    CellOfFacePlace(place, face);
  }

  /** Every facelet index has one place and every place one index. */
  lemma {:induction false} PlaceAtInjective(j: nat, k: nat)
    requires j < 54 && k < 54 && PlaceAt(j) == PlaceAt(k)
    ensures j == k
  {
    FacePlaceIsPlace(FACES[j / 9], j % 9);
    FacePlaceIsPlace(FACES[k / 9], k % 9);
    assert FACES[j / 9] == FACES[k / 9];
    assert j / 9 == k / 9;
  }

  lemma {:induction false} CrossIsOrthogonal(a: Vec3, b: Vec3)
    requires IsAxis(a) && IsAxis(b) && Orthogonal(a, b)
    ensures IsUnit(CrossNormal(a, b)) && Orthogonal(a, CrossNormal(a, b)) && Orthogonal(b, CrossNormal(a, b))
  {
  }

  lemma {:induction false} SumTouches(a: Vec3, b: Vec3, c: Vec3)
    requires Orthogonal(a, b) && Orthogonal(a, c)
    ensures Touches(Plus(Plus(a, b), c), a) && Touches(Plus(Plus(b, a), c), a) && Touches(Plus(Plus(b, c), a), a)
  {
  }

  lemma {:induction false} ScaleOrthogonal(a: Vec3, b: Vec3, j: int)
    requires Orthogonal(a, b)
    ensures Orthogonal(Scale(a, j), b) && Orthogonal(b, Scale(a, j))
  {
  }

  lemma {:induction false} ScaleUnit(a: Vec3, j: int)
    requires IsUnit(a) && j != 0
    ensures IsUnit(Scale(a, j))
  {
  }

  lemma {:induction false} ScaleKeeps(a: Vec3, b: Vec3, j: int, k: int)
    requires Orthogonal(a, b)
    ensures Orthogonal(Scale(a, j), Scale(b, k)) && Orthogonal(Scale(b, k), Scale(a, j))
  {
    ScaleOrthogonal(a, b, j);
    ScaleOrthogonal(b, Scale(a, j), k);
  }

  lemma {:induction false} SideFacesOutward(a: Vec3, b: Vec3, c: Vec3, j: int, k: int, l: int)
    requires IsUnit(a) && Orthogonal(a, b) && Orthogonal(a, c) && j != 0
    ensures IsUnit(Scale(a, j))
    ensures Touches(Plus(Plus(Scale(a, j), Scale(b, k)), Scale(c, l)), Scale(a, j))
    ensures Touches(Plus(Plus(Scale(b, k), Scale(a, j)), Scale(c, l)), Scale(a, j))
    ensures Touches(Plus(Plus(Scale(b, k), Scale(c, l)), Scale(a, j)), Scale(a, j))
  {
    ScaleUnit(a, j);
    ScaleKeeps(a, b, j, k);
    ScaleKeeps(a, c, j, l);
    SumTouches(Scale(a, j), Scale(b, k), Scale(c, l));
  }

  lemma {:induction false} BasisIsOrthogonal(ex: Vec3, ey: Vec3, ez: Vec3)
    requires ProperBasis(ex, ey, ez)
    ensures IsUnit(ez) && Orthogonal(ex, ez) && Orthogonal(ey, ez)
    ensures Orthogonal(ey, ex) && Orthogonal(ez, ex) && Orthogonal(ez, ey)
  {
    UnitCases(ex);
    UnitCases(ey);
    CrossIsOrthogonal(ex, ey);
  }

  /** The simulator's cube: 26 cubies, turned in place. */
  class ServerCube {
    const cubies: array<Cubie>
    var revision: nat

    function Value(): Cube
      reads cubies
    {
      cubies[..]
    }

    constructor ()
      ensures fresh(cubies) && Value() == SolvedCube() && revision == 0
    {
      var solved := SolvedLoop();
      cubies := new Cubie[26](i requires 0 <= i < 26 => solved[i]);
      revision := 0;
    }

    /** Turns one layer: every cubie on the outer side of the face's plane is rotated. */
    method ApplyMove(face: LogicalFace, turns: int)
      modifies this, cubies
      ensures Value() == SpinLayer(old(Value()), face, turns)
      ensures revision == (old(revision) + 1) % 0x1_0000_0000_0000_0000
    {
      for i := 0 to cubies.Length
        invariant forall k :: 0 <= k < i ==> cubies[k] == SpinCubie(old(cubies[k]), face, turns)
        invariant forall k :: i <= k < cubies.Length ==> cubies[k] == old(cubies[k])
        invariant revision == old(revision)
      {
        cubies[i] := SpinLoop(cubies[i], face, turns);
      }
      revision := (revision + 1) % 0x1_0000_0000_0000_0000;
    }

    /** Writes every sticker of every cubie to its cell. */
    method Facelets() returns (facelets: array<Option<LogicalFace>>)
      requires Arrangement(Value())
      ensures fresh(facelets) && facelets[..] == FaceletArray(ViewOf(Value()))
    {
      facelets := new Option<LogicalFace>[54](_ => None);
      ghost var cube := Value();
      for i := 0 to cubies.Length
        invariant Value() == cube
        invariant CellsShow(facelets[..], cube[..i])
      {
        WriteCubie(facelets, cubies[i], cube[..i]);
        assert cube[..i] + [cube[i]] == cube[..i + 1];
      }
      assert cube[..cubies.Length] == cube;
      CellsAreView(facelets[..], cube);
    }
  }

  /** Every cell shows what the given cubies show there. */
  ghost predicate CellsShow(facelets: seq<Option<LogicalFace>>, cube: Cube) {
    |facelets| == 54
    && forall k: nat :: k < 54 ==> facelets[k] == FaceletAt(cube, PlaceAt(k))
  }

  lemma {:induction false} CellsAreView(facelets: seq<Option<LogicalFace>>, cube: Cube)
    requires CellsShow(facelets, cube)
    ensures facelets == FaceletArray(ViewOf(cube))
  {
    forall k: nat | k < 54
      ensures facelets[k] == FaceletArray(ViewOf(cube))[k]
    {
      FacePlaceIsPlace(FACES[k / 9], k % 9);
    }
  }

  lemma {:induction false} HomeAt(x: int, y: int, z: int, i: nat)
    requires -1 <= x <= 1 && -1 <= y <= 1 && -1 <= z <= 1 && (x != 0 || y != 0 || z != 0)
    requires var n := 9 * (x + 1) + 3 * (y + 1) + z + 1; i == if n <= 13 then n else n - 1
    ensures SolvedHome(i) == Vec3(x, y, z)
  {
  }

  method SolvedLoop() returns (cubies: seq<Cubie>)
    ensures cubies == SolvedCube()
  {
    hide SolvedHome;
    cubies := [];
    for x := -1 to 2
      invariant |cubies| == if x <= 0 then 9 * (x + 1) else 9 * (x + 1) - 1
      invariant forall i :: 0 <= i < |cubies| ==> cubies[i] == SolvedCubie(i)
    {
      for y := -1 to 2
        invariant |cubies| == var n := 9 * (x + 1) + 3 * (y + 1); if n <= 13 then n else n - 1
        invariant forall i :: 0 <= i < |cubies| ==> cubies[i] == SolvedCubie(i)
      {
        for z := -1 to 2
          invariant |cubies| == var n := 9 * (x + 1) + 3 * (y + 1) + z + 1; if n <= 13 then n else n - 1
          invariant forall i :: 0 <= i < |cubies| ==> cubies[i] == SolvedCubie(i)
        {
          if x != 0 || y != 0 || z != 0 {
            var home := Vec3(x, y, z);
            HomeAt(x, y, z, |cubies|);
            cubies := cubies + [Cubie(home, home, Vec3(1, 0, 0), Vec3(0, 1, 0), Vec3(0, 0, 1))];
          }
        }
      }
    }
  }

  method SpinLoop(c: Cubie, face: LogicalFace, turns: int) returns (r: Cubie)
    ensures r == SpinCubie(c, face, turns)
  {
    RotateQuarterIsQuarter(c.position, face);
    if Dot(c.position, Normal(face)) <= 0 {
      return c;
    }
    var position := RotateLoop(c.position, face, turns);
    var ex := RotateLoop(c.ex, face, turns);
    var ey := RotateLoop(c.ey, face, turns);
    var ez := RotateLoop(c.ez, face, turns);
    r := Cubie(c.home, position, ex, ey, ez);
  }

  type Cells = seq<Option<LogicalFace>>

  function Written(cells: Cells, present: bool, place: Place, sticker: LogicalFace): (r: Cells)
    requires |cells| == 54
    ensures |r| == 54
  {
    seq(54, k requires 0 <= k < 54 => if present && PlaceAt(k) == place then Some(sticker) else cells[k])
  }

  function WrittenX(cells: Cells, c: Cubie): (r: Cells)
    requires |cells| == 54
    ensures |r| == 54
  {
    Written(cells, c.home.x != 0, Place(c.position, Scale(c.ex, c.home.x)),
            if c.home.x > 0 then LogicalFace.Right else LogicalFace.Left)
  }

  function WrittenY(cells: Cells, c: Cubie): (r: Cells)
    requires |cells| == 54
    ensures |r| == 54
  {
    Written(cells, c.home.y != 0, Place(c.position, Scale(c.ey, c.home.y)), if c.home.y > 0 then Up else Down)
  }

  function WrittenZ(cells: Cells, c: Cubie): (r: Cells)
    requires |cells| == 54
    ensures |r| == 54
  {
    Written(cells, c.home.z != 0, Place(c.position, Scale(c.ez, c.home.z)), if c.home.z > 0 then Front else Back)
  }

  /** One sticker per axis on which the cubie's home lies off-centre. */
  method WriteAxis(facelets: array<Option<LogicalFace>>, c: Cubie, axis: nat)
    requires facelets.Length == 54 && Aligned(c) && axis < 3
    modifies facelets
    ensures axis == 0 ==> facelets[..] == WrittenX(old(facelets[..]), c)
    ensures axis == 1 ==> facelets[..] == WrittenY(old(facelets[..]), c)
    ensures axis == 2 ==> facelets[..] == WrittenZ(old(facelets[..]), c)
  {
    if axis == 0 {
      if c.home.x != 0 {
        assert IsPlace(Place(c.position, Scale(c.ex, c.home.x))) by {
          BasisIsOrthogonal(c.ex, c.ey, c.ez);
          SideFacesOutward(c.ex, c.ey, c.ez, c.home.x, c.home.y, c.home.z);
        }
      }
      WriteSticker(facelets, c.home.x != 0, Place(c.position, Scale(c.ex, c.home.x)),
                   if c.home.x > 0 then LogicalFace.Right else LogicalFace.Left);
    } else if axis == 1 {
      if c.home.y != 0 {
        assert IsPlace(Place(c.position, Scale(c.ey, c.home.y))) by {
          BasisIsOrthogonal(c.ex, c.ey, c.ez);
          SideFacesOutward(c.ey, c.ex, c.ez, c.home.y, c.home.x, c.home.z);
        }
      }
      WriteSticker(facelets, c.home.y != 0, Place(c.position, Scale(c.ey, c.home.y)), if c.home.y > 0 then Up else Down);
    } else {
      if c.home.z != 0 {
        assert IsPlace(Place(c.position, Scale(c.ez, c.home.z))) by {
          BasisIsOrthogonal(c.ex, c.ey, c.ez);
          SideFacesOutward(c.ez, c.ex, c.ey, c.home.z, c.home.x, c.home.y);
        }
      }
      WriteSticker(facelets, c.home.z != 0, Place(c.position, Scale(c.ez, c.home.z)), if c.home.z > 0 then Front else Back);
    }
  }

  method WriteCubie(facelets: array<Option<LogicalFace>>, c: Cubie, ghost done: Cube)
    requires CellsShow(facelets[..], done) && Aligned(c)
    modifies facelets
    ensures CellsShow(facelets[..], done + [c])
  {
    CellsAfter(facelets[..], done, c);
    WriteAxis(facelets, c, 0);
    WriteAxis(facelets, c, 1);
    WriteAxis(facelets, c, 2);
  }

  lemma {:induction false} CellsAfter(before: Cells, done: Cube, c: Cubie)
    requires CellsShow(before, done)
    ensures CellsShow(WrittenZ(WrittenY(WrittenX(before, c), c), c), done + [c])
  {
    var after := WrittenZ(WrittenY(WrittenX(before, c), c), c);
    forall k: nat | k < 54
      ensures after[k] == FaceletAt(done + [c], PlaceAt(k))
    {
      CellAfter(done, c, PlaceAt(k), before[k], after[k]);
    }
  }

  /** Writing a cubie's three stickers in turn leaves each cell as the longer list shows it. */
  lemma {:induction false} CellAfter(done: Cube, c: Cubie, place: Place, before: Option<LogicalFace>, after: Option<LogicalFace>)
    requires before == FaceletAt(done, place)
    requires after ==
             if c.home.z != 0 && place == Place(c.position, Scale(c.ez, c.home.z)) then Some(if c.home.z > 0 then Front else Back)
             else if c.home.y != 0 && place == Place(c.position, Scale(c.ey, c.home.y)) then Some(if c.home.y > 0 then Up else Down)
             else if c.home.x != 0 && place == Place(c.position, Scale(c.ex, c.home.x)) then
               Some(if c.home.x > 0 then LogicalFace.Right else LogicalFace.Left)
             else before
    ensures after == FaceletAt(done + [c], place)
  {
    assert (done + [c])[..|done + [c]| - 1] == done;
    ScaleIsDirection(c);
    hide Scale, Direction;
  }

  /** A scaled basis vector is the direction of the cubie's sticker on that axis. */
  lemma {:induction false} ScaleIsDirection(c: Cubie)
    ensures c.home.x != 0 ==> Scale(c.ex, c.home.x) == Direction(c, if c.home.x > 0 then LogicalFace.Right else LogicalFace.Left)
    ensures c.home.y != 0 ==> Scale(c.ey, c.home.y) == Direction(c, if c.home.y > 0 then Up else Down)
    ensures c.home.z != 0 ==> Scale(c.ez, c.home.z) == Direction(c, if c.home.z > 0 then Front else Back)
  {
  }

  method RotateLoop(vector: Vec3, axis: LogicalFace, turns: int) returns (result: Vec3)
    ensures result == Rotate(vector, axis, turns)
  {
    result := vector;
    for i := 0 to turns % 4
      invariant result == Rotate(vector, axis, i)
    {
      RotateQuarterIsQuarter(result, axis);
      result := RotateQuarter(result, Normal(axis));
    }
  }

  /** Writes a sticker to the cell of its place, if the cubie has that sticker at all. */
  method WriteSticker(facelets: array<Option<LogicalFace>>, present: bool, place: Place, sticker: LogicalFace)
    requires facelets.Length == 54 && (present ==> IsPlace(place))
    modifies facelets
    ensures facelets[..] == Written(old(facelets[..]), present, place, sticker)
  {
    if !present {
      return;
    }
    UnitCases(place.normal);
    var face := AxisFaceOf(place.normal);
    var column := Horizontal(place.position, face) + 1;
    var row := 1 - Vertical(place.position, face);
    IndexOfPlace(place, face);
    var index := FaceOrder(face) * 9 + row * 3 + column;
    facelets[index] := Some(sticker);
    forall k: nat | k < 54 && PlaceAt(k) == place
      ensures k == index
    {
      PlaceAtInjective(k, index);
    }
  }

  function AxisFaceOf(n: Vec3): (face: LogicalFace)
    requires IsAxis(n)
    ensures Normal(face) == n
  {
    if n.y == 1 then Up else if n.x == 1 then LogicalFace.Right else if n.z == 1 then Front
    else if n.y == -1 then Down else if n.x == -1 then LogicalFace.Left else Back
  }
}

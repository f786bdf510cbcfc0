/** Integer geometry of the simulator's cube: quarter turns about the six outward
    face normals, and the cubies they carry. */
module Geometry {

  datatype Vec3 = Vec3(x: int, y: int, z: int)

  /** Logical faces. */
  datatype LogicalFace = Up | Right | Front | Down | Left | Back

  /** The solver's facelet order. */
  const FACES := [Up, Right, Front, Down, Left, Back]

  function FaceOrder(face: LogicalFace): (r: nat)
    ensures r < 6 && FACES[r] == face
  {
    match face
    case Up => 0
    case Right => 1
    case Front => 2
    case Down => 3
    case Left => 4
    case Back => 5
  }

  function Normal(face: LogicalFace): Vec3 {
    match face
    case Up => Vec3(0, 1, 0)
    case Right => Vec3(1, 0, 0)
    case Front => Vec3(0, 0, 1)
    case Down => Vec3(0, -1, 0)
    case Left => Vec3(-1, 0, 0)
    case Back => Vec3(0, 0, -1)
  }

  /** The component of `v` along a face's outward normal. */
  function Along(v: Vec3, face: LogicalFace): int {
    match face
    case Up => v.y
    case Right => v.x
    case Front => v.z
    case Down => -v.y
    case Left => -v.x
    case Back => -v.z
  }

  /** One positive (counter-clockwise from outside) quarter turn about a face normal. */
  function Quarter(v: Vec3, face: LogicalFace): Vec3 {
    match face
    case Up => Vec3(v.z, v.y, -v.x)
    case Right => Vec3(v.x, -v.z, v.y)
    case Front => Vec3(-v.y, v.x, v.z)
    case Down => Vec3(-v.z, v.y, v.x)
    case Left => Vec3(v.x, v.z, -v.y)
    case Back => Vec3(v.y, -v.x, v.z)
  }

  /** Rotation by any signed number of quarter turns. */
  function Rotate(v: Vec3, face: LogicalFace, turns: int): Vec3 {
    match turns % 4
    case 0 => v
    case 1 => Quarter(v, face)
    case 2 => Quarter(Quarter(v, face), face)
    case _ => Quarter(Quarter(Quarter(v, face), face), face)
  }

  function Dot(a: Vec3, b: Vec3): int {
    a.x * b.x + a.y * b.y + a.z * b.z
  }

  function Cross(a: Vec3, b: Vec3): Vec3 {
    Vec3(a.y * b.z - a.z * b.y, a.z * b.x - a.x * b.z, a.x * b.y - a.y * b.x)
  }

  /** The simulator's own formula for a quarter turn about a unit axis. */
  function RotateQuarter(v: Vec3, axis: Vec3): Vec3 {
    var cross, parallel := Cross(axis, v), Dot(axis, v);
    Vec3(cross.x + axis.x * parallel, cross.y + axis.y * parallel, cross.z + axis.z * parallel)
  }

  /** Cross product plus parallel part is the coordinate permutation `Quarter`. */
  lemma {:induction false} RotateQuarterIsQuarter(v: Vec3, face: LogicalFace)
    ensures RotateQuarter(v, Normal(face)) == Quarter(v, face)
    ensures Dot(v, Normal(face)) == Along(v, face)
  {
  }

  lemma {:induction false} QuarterHasOrderFour(v: Vec3, face: LogicalFace)
    ensures Quarter(Quarter(Quarter(Quarter(v, face), face), face), face) == v
  {
  }

  /** Turns about one normal add up, whatever their signs. */
  lemma {:induction false} RotateAdds(v: Vec3, face: LogicalFace, j: int, k: int)
    ensures Rotate(Rotate(v, face, j), face, k) == Rotate(v, face, j + k)
  {
    QuarterHasOrderFour(v, face);
    assert (j + k) % 4 == (j % 4 + k % 4) % 4;
  }

  lemma {:induction false} RotateKeepsAlong(v: Vec3, face: LogicalFace, turns: int)
    ensures Along(Rotate(v, face, turns), face) == Along(v, face)
  {
  }

  /** The face position that a quarter turn about the vertical axis sends `face` to. */
  function YawFace(face: LogicalFace): LogicalFace {
    match face
    case Up => Up
    case Down => Down
    case Front => Right
    case Right => Back
    case Back => Left
    case Left => Front
  }

  lemma {:induction false} YawConjugates(v: Vec3, face: LogicalFace, turns: int)
    ensures Along(Quarter(v, Up), YawFace(face)) == Along(v, face)
    ensures Quarter(Rotate(v, face, turns), Up) == Rotate(Quarter(v, Up), YawFace(face), turns)
  {
  }

  /** One cubie of the simulator: where it started, where it is, and the images of
      its own x, y and z directions. */
  datatype Cubie = Cubie(home: Vec3, position: Vec3, ex: Vec3, ey: Vec3, ez: Vec3)

  type Cube = seq<Cubie>

  function TurnCubie(c: Cubie, face: LogicalFace, turns: int): Cubie {
    Cubie(c.home, Rotate(c.position, face, turns), Rotate(c.ex, face, turns),
          Rotate(c.ey, face, turns), Rotate(c.ez, face, turns))
  }

  /** What turning the layer on side `face` does to one cubie. */
  function SpinCubie(c: Cubie, face: LogicalFace, turns: int): Cubie {
    if Along(c.position, face) <= 0 then c else TurnCubie(c, face, turns)
  }

  function SpinLayer(cube: Cube, face: LogicalFace, turns: int): (r: Cube)
    ensures |r| == |cube|
  {
    seq(|cube|, i requires 0 <= i < |cube| => SpinCubie(cube[i], face, turns))
  }

  /** Rotation of the complete cube about a face normal. */
  function RotateCube(cube: Cube, face: LogicalFace, turns: int): (r: Cube)
    ensures |r| == |cube|
  {
    seq(|cube|, i requires 0 <= i < |cube| => TurnCubie(cube[i], face, turns))
  }

  lemma {:induction false} TurnCubieAdds(c: Cubie, face: LogicalFace, j: int, k: int)
    ensures TurnCubie(TurnCubie(c, face, j), face, k) == TurnCubie(c, face, j + k)
  {
    RotateAdds(c.position, face, j, k);
    RotateAdds(c.ex, face, j, k);
    RotateAdds(c.ey, face, j, k);
    RotateAdds(c.ez, face, j, k);
  }

  /** Successive turns of one layer add up. */
  lemma {:induction false} SpinLayerAdds(cube: Cube, face: LogicalFace, j: int, k: int)
    ensures SpinLayer(SpinLayer(cube, face, j), face, k) == SpinLayer(cube, face, j + k)
  {
    forall i | 0 <= i < |cube|
      ensures SpinCubie(SpinCubie(cube[i], face, j), face, k) == SpinCubie(cube[i], face, j + k)
    {
      RotateKeepsAlong(cube[i].position, face, j);
      TurnCubieAdds(cube[i], face, j, k);
    }
  }

  /** A layer turn depends on the number of quarters modulo four only. */
  lemma {:induction false} SpinLayerMod(cube: Cube, face: LogicalFace, j: int, k: int)
    requires j % 4 == k % 4
    ensures SpinLayer(cube, face, j) == SpinLayer(cube, face, k)
  {
  }

  lemma {:induction false} RotateCubeAdds(cube: Cube, face: LogicalFace, j: int, k: int)
    ensures RotateCube(RotateCube(cube, face, j), face, k) == RotateCube(cube, face, j + k)
  {
    forall i | 0 <= i < |cube|
      ensures TurnCubie(TurnCubie(cube[i], face, j), face, k) == TurnCubie(cube[i], face, j + k)
    {
      TurnCubieAdds(cube[i], face, j, k);
    }
  }

  lemma {:induction false} RotateCubeZero(cube: Cube, face: LogicalFace)
    ensures RotateCube(cube, face, 0) == cube
  {
  }

  lemma {:induction false} OneTurn(v: Vec3, face: LogicalFace)
    ensures Rotate(v, face, 1) == Quarter(v, face)
  {
  }

  lemma {:induction false} CubieThroughYaw(c: Cubie, face: LogicalFace, turns: int)
    ensures TurnCubie(SpinCubie(c, face, turns), Up, 1) == SpinCubie(TurnCubie(c, Up, 1), YawFace(face), turns)
  {
    hide Rotate, Quarter, Along, YawFace;
    forall v: Vec3
      ensures Rotate(Rotate(v, face, turns), Up, 1) == Rotate(Rotate(v, Up, 1), YawFace(face), turns)
      ensures Along(Rotate(v, Up, 1), YawFace(face)) == Along(v, face)
    {
      OneTurn(v, Up);
      OneTurn(Rotate(v, face, turns), Up);
      YawConjugates(v, face, turns);
    }
  }

  /** Turning a layer and then the whole cube is turning the whole cube and then
      the layer that the old one has become. */
  lemma {:induction false} SpinThroughYaw(cube: Cube, face: LogicalFace, turns: int)
    ensures RotateCube(SpinLayer(cube, face, turns), Up, 1)
         == SpinLayer(RotateCube(cube, Up, 1), YawFace(face), turns)
  {
    hide TurnCubie, SpinCubie;
    forall i | 0 <= i < |cube|
      ensures TurnCubie(SpinCubie(cube[i], face, turns), Up, 1)
           == SpinCubie(TurnCubie(cube[i], Up, 1), YawFace(face), turns)
    {
      CubieThroughYaw(cube[i], face, turns);
    }
  }
}

/** The cube seen from outside: which sticker shows at which place, and how turning a
    layer of cubies permutes the 54 facelets. */
module Facelets {
  import opened Geometry
  import opened PlanMeaning
  import opened MovePlanner
  import opened Options

  /** A facelet by its place: the cubie position it sits on and the direction it faces. */
  datatype Place = Place(position: Vec3, normal: Vec3)

  predicate InGrid(v: Vec3) {
    -1 <= v.x <= 1 && -1 <= v.y <= 1 && -1 <= v.z <= 1
  }

  /** The six face normals. */
  predicate IsUnit(n: Vec3) {
    && InGrid(n)
    && (n.x != 0 || n.y != 0 || n.z != 0)
    && (n.x == 0 || n.y == 0) && (n.y == 0 || n.z == 0) && (n.x == 0 || n.z == 0)
  }

  /** A position lies on the outer layer that a normal points out of. */
  predicate Touches(position: Vec3, n: Vec3) {
    (n.x != 0 ==> position.x == n.x) && (n.y != 0 ==> position.y == n.y) && (n.z != 0 ==> position.z == n.z)
  }

  predicate IsPlace(place: Place) {
    InGrid(place.position) && IsUnit(place.normal) && Touches(place.position, place.normal)
  }

  /** All 54 places. */
  function Places(): (r: set<Place>)
    ensures forall place :: place in r <==> IsPlace(place)
  {
    var grid := set x: int, y: int, z: int | -1 <= x <= 1 && -1 <= y <= 1 && -1 <= z <= 1 :: Vec3(x, y, z);
    assert forall v: Vec3 :: InGrid(v) ==> v == Vec3(v.x, v.y, v.z) && v in grid;
    set v, n | v in grid && n in grid && IsPlace(Place(v, n)) :: Place(v, n)
  }

  function RotatePlace(place: Place, axis: LogicalFace, turns: int): Place {
    Place(Rotate(place.position, axis, turns), Rotate(place.normal, axis, turns))
  }

  /** Turning a layer moves the facelets on it, positions and directions alike. */
  function SpinPlace(place: Place, axis: LogicalFace, turns: int): Place {
    if Along(place.position, axis) <= 0 then place else RotatePlace(place, axis, turns)
  }

  lemma {:induction false} QuarterKeepsPlaces(position: Vec3, normal: Vec3, axis: LogicalFace)
    requires IsPlace(Place(position, normal))
    ensures IsPlace(Place(Quarter(position, axis), Quarter(normal, axis)))
  {
  }

  lemma {:induction false} RotateKeepsPlaces(place: Place, axis: LogicalFace, turns: int)
    requires IsPlace(place)
    ensures IsPlace(RotatePlace(place, axis, turns))
  {
    var p1, n1 := Quarter(place.position, axis), Quarter(place.normal, axis);
    var p2, n2 := Quarter(p1, axis), Quarter(n1, axis);
    QuarterKeepsPlaces(place.position, place.normal, axis);
    QuarterKeepsPlaces(p1, n1, axis);
    QuarterKeepsPlaces(p2, n2, axis);
  }

  lemma {:induction false} RotateBack(v: Vec3, axis: LogicalFace, turns: int)
    ensures Rotate(Rotate(v, axis, turns), axis, -turns) == v
  {
    RotateAdds(v, axis, turns, -turns);
  }

  lemma {:induction false} SpinStaysPlace(place: Place, axis: LogicalFace, turns: int)
    requires IsPlace(place)
    ensures IsPlace(SpinPlace(place, axis, turns))
  {
    RotateKeepsPlaces(place, axis, turns);
  }

  lemma {:induction false} SpinBack(place: Place, axis: LogicalFace, turns: int)
    ensures SpinPlace(SpinPlace(place, axis, turns), axis, -turns) == place
  {
    RotateKeepsAlong(place.position, axis, turns);
    RotateBack(place.position, axis, turns);
    RotateBack(place.normal, axis, turns);
  }

  function Neg(v: Vec3): Vec3 {
    Vec3(-v.x, -v.y, -v.z)
  }

  /** World direction of the sticker on a cubie's own side `face`. */
  function Direction(c: Cubie, face: LogicalFace): Vec3 {
    match face
    case Up => c.ey
    case Right => c.ex
    case Front => c.ez
    case Down => Neg(c.ey)
    case Left => Neg(c.ex)
    case Back => Neg(c.ez)
  }

  /** A cubie has stickers where its home touches a face of the solved cube; a sticker is
      named by that face. */
  function StickerToward(c: Cubie, normal: Vec3): Option<LogicalFace> {
    var x := if c.home.x > 0 then LogicalFace.Right else LogicalFace.Left;
    var y := if c.home.y > 0 then Up else Down;
    var z := if c.home.z > 0 then Front else Back;
    if c.home.z != 0 && Direction(c, z) == normal then Some(z)
    else if c.home.y != 0 && Direction(c, y) == normal then Some(y)
    else if c.home.x != 0 && Direction(c, x) == normal then Some(x)
    else None
  }

  /** The sticker that a cube shows at a place; a later cubie of the list hides an earlier
      one that claims the same place. */
  function StickerAt(cube: Cube, position: Vec3, normal: Vec3): Option<LogicalFace> {
    if cube == [] then None
    else
      var c := cube[|cube| - 1];
      if c.position == position && StickerToward(c, normal).Some? then StickerToward(c, normal)
      else StickerAt(cube[..|cube| - 1], position, normal)
  }

  function FaceletAt(cube: Cube, place: Place): Option<LogicalFace> {
    StickerAt(cube, place.position, place.normal)
  }

  /** What all 54 places show. */
  type View = v: map<Place, Option<LogicalFace>> | v.Keys == Places()
    witness map place | place in Places() :: None

  function ViewOf(cube: Cube): View {
    map place | place in Places() :: FaceletAt(cube, place)
  }

  lemma {:induction false} RotateInjective(a: Vec3, b: Vec3, face: LogicalFace, turns: int)
    requires Rotate(a, face, turns) == Rotate(b, face, turns)
    ensures a == b
  {
    RotateAdds(a, face, turns, -turns);
    RotateAdds(b, face, turns, -turns);
  }

  lemma {:induction false} TurnCarriesStickers(c: Cubie, face: LogicalFace, turns: int, normal: Vec3)
    ensures StickerToward(TurnCubie(c, face, turns), Rotate(normal, face, turns)) == StickerToward(c, normal)
  {
    var t := TurnCubie(c, face, turns);
    forall f: LogicalFace
      ensures Direction(t, f) == Rotate(normal, face, turns) <==> Direction(c, f) == normal
    {
      NegRotates(c.ex, face, turns);
      NegRotates(c.ey, face, turns);
      NegRotates(c.ez, face, turns);
      assert Direction(t, f) == Rotate(Direction(c, f), face, turns);
      if Direction(t, f) == Rotate(normal, face, turns) {
        RotateInjective(Direction(c, f), normal, face, turns);
      }
    }
  }

  lemma {:induction false} NegRotates(v: Vec3, face: LogicalFace, turns: int)
    ensures Rotate(Neg(v), face, turns) == Neg(Rotate(v, face, turns))
  {
  }

  /** Rotating the cube carries every sticker along. */
  lemma {:induction false} RotationCarriesStickers(cube: Cube, face: LogicalFace, turns: int, position: Vec3, normal: Vec3)
    ensures StickerAt(RotateCube(cube, face, turns), Rotate(position, face, turns), Rotate(normal, face, turns))
         == StickerAt(cube, position, normal)
  {
    if cube != [] {
      var k := |cube| - 1;
      assert RotateCube(cube, face, turns)[..k] == RotateCube(cube[..k], face, turns);
      RotationCarriesStickers(cube[..k], face, turns, position, normal);
      TurnCarriesStickers(cube[k], face, turns, normal);
      if Rotate(cube[k].position, face, turns) == Rotate(position, face, turns) {
        RotateInjective(cube[k].position, position, face, turns);
      }
    }
  }

  /** Turning a layer carries exactly the stickers on it. */
  lemma {:induction false} SpinCarriesStickers(cube: Cube, face: LogicalFace, turns: int, place: Place)
    ensures FaceletAt(SpinLayer(cube, face, turns), SpinPlace(place, face, turns)) == FaceletAt(cube, place)
  {
    if cube != [] {
      var k := |cube| - 1;
      var c := cube[k];
      assert SpinLayer(cube, face, turns)[..k] == SpinLayer(cube[..k], face, turns);
      SpinCarriesStickers(cube[..k], face, turns, place);
      TurnCarriesStickers(c, face, turns, place.normal);
      RotateKeepsAlong(c.position, face, turns);
      RotateKeepsAlong(place.position, face, turns);
      if Rotate(c.position, face, turns) == Rotate(place.position, face, turns) {
        RotateInjective(c.position, place.position, face, turns);
      }
    }
  }

  /** The place that a layer turn moves to `place`. */
  function Source(place: Place, axis: LogicalFace, turns: int): Place {
    SpinPlace(place, axis, -turns)
  }

  lemma {:induction false} SourceReaches(place: Place, axis: LogicalFace, turns: int)
    requires IsPlace(place)
    ensures IsPlace(Source(place, axis, turns)) && SpinPlace(Source(place, axis, turns), axis, turns) == place
  {
    hide SpinPlace, IsPlace;
    SpinStaysPlace(place, axis, -turns);
    SpinBack(place, axis, -turns);
  }

  function Entry(view: View, place: Place): Option<LogicalFace> {
    if place in view then view[place] else None
  }

  /** A move on a view is a permutation of its 54 entries. */
  function TurnView(view: View, axis: LogicalFace, turns: int): View {
    map place | place in Places() :: Entry(view, Source(place, axis, turns))
  }

  /** The cubie model refines the facelet permutation: turning a layer of cubies and then
      looking is looking and then permuting facelets. */
  lemma {:induction false} LayerTurnPermutesView(cube: Cube, axis: LogicalFace, turns: int)
    ensures ViewOf(SpinLayer(cube, axis, turns)) == TurnView(ViewOf(cube), axis, turns)
  {
    hide SpinPlace, IsPlace, SpinLayer, FaceletAt;
    forall place | place in Places()
      ensures ViewOf(SpinLayer(cube, axis, turns))[place] == TurnView(ViewOf(cube), axis, turns)[place]
    {
      SourceReaches(place, axis, turns);
      SpinCarriesStickers(cube, axis, turns, Source(place, axis, turns));
    }
  }

  function MoveView(view: View, moves: seq<CubeMove>): View {
    if moves == [] then view
    else
      var last := moves[|moves| - 1];
      TurnView(MoveView(view, moves[..|moves| - 1]), last.face, Turns(last.turn))
  }

  /** The same for every move list. */
  lemma {:induction false} MovesPermuteView(cube: Cube, moves: seq<CubeMove>)
    ensures ViewOf(ApplyMoves(cube, moves)) == MoveView(ViewOf(cube), moves)
  {
    if moves != [] {
      var k := |moves| - 1;
      MovesPermuteView(cube, moves[..k]);
      LayerTurnPermutesView(ApplyMoves(cube, moves[..k]), moves[k].face, Turns(moves[k].turn));
    }
  }

  /** The places that show a given sticker face. */
  function Showing(view: map<Place, Option<LogicalFace>>, shown: LogicalFace): set<Place> {
    set place | place in view && view[place] == Some(shown)
  }

  lemma {:induction false} InjectionBoundsCard(a: set<Place>, b: set<Place>, f: Place -> Place)
    requires forall x :: x in a ==> f(x) in b
    requires forall x, y :: x in a && y in a && f(x) == f(y) ==> x == y
    ensures |a| <= |b|
  {
    if a != {} {
      var x :| x in a;
      InjectionBoundsCard(a - {x}, b - {f(x)}, f);
    }
  }

  /** A permutation of the entries of a map keeps the number of each entry. */
  lemma {:induction false} PermutationKeepsCount(view: map<Place, Option<LogicalFace>>, permuted: map<Place, Option<LogicalFace>>,
                              back: Place -> Place, forward: Place -> Place, shown: LogicalFace)
    requires forall p :: p in permuted ==> back(p) in view && forward(back(p)) == p && permuted[p] == view[back(p)]
    requires forall p :: p in view ==> forward(p) in permuted && back(forward(p)) == p
    ensures |Showing(permuted, shown)| == |Showing(view, shown)|
  {
    InjectionBoundsCard(Showing(permuted, shown), Showing(view, shown), back);
    InjectionBoundsCard(Showing(view, shown), Showing(permuted, shown), forward);
  }

  function Forward(axis: LogicalFace, turns: int): Place -> Place {
    p => SpinPlace(p, axis, turns)
  }

  function Backward(axis: LogicalFace, turns: int): Place -> Place {
    p => if IsPlace(p) then Source(p, axis, turns) else p
  }

  lemma {:induction false} BackwardThenForward(view: View, axis: LogicalFace, turns: int, p: Place)
    requires IsPlace(p)
    ensures IsPlace(Backward(axis, turns)(p)) && Forward(axis, turns)(Backward(axis, turns)(p)) == p
    ensures TurnView(view, axis, turns)[p] == view[Backward(axis, turns)(p)]
  {
    hide SpinPlace, IsPlace;
    SourceReaches(p, axis, turns);
  }

  lemma {:induction false} ForwardThenBackward(axis: LogicalFace, turns: int, p: Place)
    requires IsPlace(p)
    ensures IsPlace(Forward(axis, turns)(p)) && Backward(axis, turns)(Forward(axis, turns)(p)) == p
  {
    hide SpinPlace, IsPlace;
    SourceReaches(p, axis, -turns);
  }

  /** The two directions of a layer turn, as maps of places that undo each other. */
  lemma {:induction false} TurnIsPermutation(view: View, turned: View, axis: LogicalFace, turns: int)
    returns (back: Place -> Place, forward: Place -> Place)
    requires turned == TurnView(view, axis, turns)
    ensures forall p :: p in turned ==> back(p) in view && forward(back(p)) == p && turned[p] == view[back(p)]
    ensures forall p :: p in view ==> forward(p) in turned && back(forward(p)) == p
  {
    back, forward := Backward(axis, turns), Forward(axis, turns);
    forall p | p in turned
      ensures back(p) in view && forward(back(p)) == p && turned[p] == view[back(p)]
    {
      BackwardThenForward(view, axis, turns, p);
    }
    forall p | p in view
      ensures forward(p) in turned && back(forward(p)) == p
    {
      ForwardThenBackward(axis, turns, p);
    }
  }

  lemma {:induction false} TurnKeepsCount(view: View, axis: LogicalFace, turns: int, shown: LogicalFace)
    ensures |Showing(TurnView(view, axis, turns), shown)| == |Showing(view, shown)|
  {
    var turned := TurnView(view, axis, turns);
    var back, forward := TurnIsPermutation(view, turned, axis, turns);
    PermutationKeepsCount(view, turned, back, forward, shown);
  }

  function Centre(face: LogicalFace): (r: Place)
    ensures r in Places()
  {
    Place(Normal(face), Normal(face))
  }

  lemma {:induction false} TurnKeepsCentres(view: View, axis: LogicalFace, turns: int, face: LogicalFace)
    ensures TurnView(view, axis, turns)[Centre(face)] == view[Centre(face)]
  {
    hide SpinPlace, IsPlace, Centre;
    CentreStays(face, axis, -turns);
  }

  lemma {:induction false} OwnNormalStays(face: LogicalFace, turns: int)
    ensures Rotate(Normal(face), face, turns) == Normal(face)
  {
    assert Quarter(Normal(face), face) == Normal(face);
  }

  lemma {:induction false} CentreStays(face: LogicalFace, axis: LogicalFace, turns: int)
    ensures SpinPlace(Centre(face), axis, turns) == Centre(face)
  {
    if Along(Normal(face), axis) > 0 {
      assert face == axis;
      OwnNormalStays(face, turns);
    }
  }

  /** A view with nine facelets of every kind, each kind with its own centre. */
  ghost predicate Balanced(view: View) {
    && (forall place :: place in Places() ==> view[place].Some?)
    && (forall face: LogicalFace :: |Showing(view, face)| == 9)
    && (forall face: LogicalFace :: view[Centre(face)] == Some(face))
  }

  lemma {:induction false} TurnKeepsBalance(view: View, axis: LogicalFace, turns: int)
    requires Balanced(view)
    ensures Balanced(TurnView(view, axis, turns))
  {
    hide SpinPlace, IsPlace, Showing, Centre;
    forall place | place in Places()
      ensures TurnView(view, axis, turns)[place].Some?
    {
      SourceReaches(place, axis, turns);
    }
    forall face: LogicalFace
      ensures |Showing(TurnView(view, axis, turns), face)| == 9
      ensures TurnView(view, axis, turns)[Centre(face)] == Some(face)
    {
      TurnKeepsCount(view, axis, turns, face);
      TurnKeepsCentres(view, axis, turns, face);
    }
  }

  lemma {:induction false} MovesKeepBalance(view: View, moves: seq<CubeMove>)
    requires Balanced(view)
    ensures Balanced(MoveView(view, moves))
  {
    if moves != [] {
      var k := |moves| - 1;
      MovesKeepBalance(view, moves[..k]);
      TurnKeepsBalance(MoveView(view, moves[..k]), moves[k].face, Turns(moves[k].turn));
    }
  }
}

/** Six scanned faces and the solver string built from them. */
module CubeScan {
  import opened Geometry
  import opened MovePlanner
  import opened PlanMeaning
  import opened Options
  import opened Facelets
  import opened Simulator

  datatype StickerColor = White | Yellow | Red | Orange | Green | Blue

  const COLORS := [White, Yellow, Red, Orange, Green, Blue]

  function ColorIndex(color: StickerColor): (r: nat)
    ensures r < 6 && COLORS[r] == color
  {
    match color
    case White => 0
    case Yellow => 1
    case Red => 2
    case Orange => 3
    case Green => 4
    case Blue => 5
  }

  type Face = s: seq<StickerColor> | |s| == 9 witness seq(9, _ => White)

  /** Turns a camera image clockwise. */
  function RotatedOnce(face: Face): Face {
    [face[6], face[3], face[0], face[7], face[4], face[1], face[8], face[5], face[2]]
  }

  function Rotated(face: Face, quarterTurns: nat): Face {
    if quarterTurns == 0 then face else RotatedOnce(Rotated(face, quarterTurns - 1))
  }

  datatype ScanError =
    | AlreadyScanned(face: LogicalFace)
    | MissingScan(face: LogicalFace)
    | DuplicateCentre(color: StickerColor)
    | WrongCount(color: StickerColor)

  datatype Result<+T, +E> = Ok(value: T) | Err(error: E)

  /** One slot per face, in facelet order. */
  type Slots = s: seq<Option<Face>> | |s| == 6 witness seq(6, _ => None)

  predicate Complete(slots: Slots) {
    forall i :: 0 <= i < 6 ==> slots[i].Some?
  }

  /** The 54 sticker colours in facelet order. */
  function ColorsOf(slots: Slots): (r: seq<StickerColor>)
    requires Complete(slots)
    ensures |r| == 54
  {
    seq(54, k requires 0 <= k < 54 => slots[k / 9].value[k % 9])
  }

  /** The colour of the centre of face `i`. */
  function CentreColor(colors: seq<StickerColor>, i: nat): StickerColor
    requires |colors| == 54 && i < 6
  {
    colors[9 * i + 4]
  }

  ghost predicate DistinctCentres(colors: seq<StickerColor>)
    requires |colors| == 54
  {
    forall i, j :: 0 <= i < j < 6 ==> CentreColor(colors, i) != CentreColor(colors, j)
  }

  ghost predicate NineOfEach(colors: seq<StickerColor>) {
    forall color: StickerColor :: multiset(colors)[color] == 9
  }

  /** What the solver accepts. */
  ghost predicate Acceptable(slots: Slots) {
    Complete(slots) && DistinctCentres(ColorsOf(slots)) && NineOfEach(ColorsOf(slots))
  }

  /** The first face in facelet order that has no scan. */
  ghost predicate FirstMissing(slots: Slots, face: LogicalFace) {
    slots[FaceOrder(face)].None? && forall j :: 0 <= j < FaceOrder(face) ==> slots[j].Some?
  }

  /** Centre `j` repeats an earlier one. */
  ghost predicate RepeatsCentre(colors: seq<StickerColor>, j: nat)
    requires |colors| == 54 && j < 6
  {
    exists i :: 0 <= i < j && CentreColor(colors, i) == CentreColor(colors, j)
  }

  /** The colour of the first centre in facelet order that repeats an earlier one. */
  ghost predicate FirstRepeated(colors: seq<StickerColor>, color: StickerColor)
    requires |colors| == 54
  {
    exists j :: 0 <= j < 6 && RepeatsCentre(colors, j) && CentreColor(colors, j) == color
                && forall k :: 0 <= k < j ==> !RepeatsCentre(colors, k)
  }

  /** The first colour in colour order that does not occur nine times. */
  ghost predicate FirstMiscounted(colors: seq<StickerColor>, color: StickerColor) {
    multiset(colors)[color] != 9 && forall j :: 0 <= j < ColorIndex(color) ==> multiset(colors)[COLORS[j]] == 9
  }

  /** Letter `k` names the face whose centre has the colour of sticker `k`. */
  ghost predicate Names(colors: seq<StickerColor>, letters: seq<LogicalFace>)
    requires |colors| == 54
  {
    |letters| == 54 && forall k :: 0 <= k < 54 ==> CentreColor(colors, FaceOrder(letters[k])) == colors[k]
  }

  /** There is at most one string that names the stickers. */
  lemma {:induction false} NamesUnique(colors: seq<StickerColor>, a: seq<LogicalFace>, b: seq<LogicalFace>)
    requires |colors| == 54 && DistinctCentres(colors) && Names(colors, a) && Names(colors, b)
    ensures a == b
  {
    forall k | 0 <= k < 54
      ensures a[k] == b[k]
    {
      var i, j := FaceOrder(a[k]), FaceOrder(b[k]);
      assert CentreColor(colors, i) == colors[k] == CentreColor(colors, j);
      assert i == j;
    }
  }

  class CubeState {
    var faces: Slots

    constructor ()
      ensures faces == seq(6, _ => None)
    {
      faces := seq(6, _ => None);
    }

    method RecordScan(face: LogicalFace, cameraToFace: nat, image: Face) returns (r: Result<(), ScanError>)
      requires cameraToFace < 4
      modifies this
      ensures r == if old(faces[FaceOrder(face)]).Some? then Err(AlreadyScanned(face)) else Ok(())
      ensures faces == if r.Ok? then old(faces)[FaceOrder(face) := Some(Rotated(image, cameraToFace))] else old(faces)
    {
      if faces[FaceOrder(face)].Some? {
        return Err(AlreadyScanned(face));
      }
      var turned := image;
      for i := 0 to cameraToFace
        invariant turned == Rotated(image, i) && faces == old(faces)
      {
        turned := RotatedOnce(turned);
      }
      faces := faces[FaceOrder(face) := Some(turned)];
      r := Ok(());
    }
  }

  /** Centre colours to faces, or the first colour that two centres share. */
  method CentreMap(colors: seq<StickerColor>) returns (r: Result<map<StickerColor, nat>, StickerColor>)
    requires |colors| == 54
    ensures r.Ok? <==> DistinctCentres(colors)
    ensures r.Ok? ==> forall color :: color in r.value ==> r.value[color] < 6 && CentreColor(colors, r.value[color]) == color
    ensures r.Ok? ==> forall i :: 0 <= i < 6 ==> CentreColor(colors, i) in r.value
    ensures r.Err? ==> FirstRepeated(colors, r.error)
  {
    var centres: map<StickerColor, nat> := map[];
    for i := 0 to 6
      invariant forall color :: color in centres ==> centres[color] < i && CentreColor(colors, centres[color]) == color
      invariant forall j :: 0 <= j < i ==> CentreColor(colors, j) in centres && centres[CentreColor(colors, j)] == j
      invariant forall j :: 0 <= j < i ==> !RepeatsCentre(colors, j)
    {
      var centre := CentreColor(colors, i);
      if centre in centres {
        assert CentreColor(colors, centres[centre]) == CentreColor(colors, i) == centre;
        assert RepeatsCentre(colors, i);
        return Err(centre);
      }
      centres := centres[centre := i];
    }
    r := Ok(centres);
  }

  /** Counts every colour and returns the first that does not occur nine times, if there is
      any. */
  method WrongColor(colors: seq<StickerColor>) returns (r: Option<StickerColor>)
    ensures r.None? <==> NineOfEach(colors)
    ensures r.Some? ==> FirstMiscounted(colors, r.value)
  {
    var counts := new nat[6](_ => 0);
    for k := 0 to |colors|
      invariant forall c :: 0 <= c < 6 ==> counts[c] == multiset(colors[..k])[COLORS[c]]
    {
      assert colors[..k + 1] == colors[..k] + [colors[k]];
      counts[ColorIndex(colors[k])] := counts[ColorIndex(colors[k])] + 1;
    }
    assert colors[..|colors|] == colors;
    for c := 0 to 6
      invariant forall j :: 0 <= j < c ==> multiset(colors)[COLORS[j]] == 9
    {
      if counts[c] != 9 {
        assert ColorIndex(COLORS[c]) == c;
        return Some(COLORS[c]);
      }
    }
    forall color: StickerColor
      ensures multiset(colors)[color] == 9
    {
      assert COLORS[ColorIndex(color)] == color;
    }
    r := None;
  }

  /** Six distinct centres use all six colours. */
  lemma {:induction false} AllColorsAreCentres(colors: seq<StickerColor>, centres: set<StickerColor>)
    requires |colors| == 54 && DistinctCentres(colors)
    requires forall i :: 0 <= i < 6 ==> CentreColor(colors, i) in centres
    ensures forall color: StickerColor :: color in centres
  {
    var six := {CentreColor(colors, 0), CentreColor(colors, 1), CentreColor(colors, 2),
                CentreColor(colors, 3), CentreColor(colors, 4), CentreColor(colors, 5)};
    assert |six| == 6;
    SixIsAll(six);
    assert six <= centres;
  }

  lemma {:induction false} IsAColor(color: StickerColor)
    ensures color in {White, Yellow, Red, Orange, Green, Blue}
  {
    assert color.White? || color.Yellow? || color.Red? || color.Orange? || color.Green? || color.Blue?;
  }

  /** Six colours are all colours. */
  lemma {:induction false} SixIsAll(six: set<StickerColor>)
    requires |six| == 6
    ensures forall color: StickerColor :: color in six
  {
    forall color: StickerColor
      ensures color in six
    {
      if color !in six {
        var all := {White, Yellow, Red, Orange, Green, Blue};
        IsAColor(color);
        forall c | c in six
          ensures c in all - {color}
        {
          IsAColor(c);
        }
        assert all - {color} + {color} == all;
        SubsetCard(six, all - {color});
      }
    }
  }

  lemma {:induction false} SubsetCard(a: set<StickerColor>, b: set<StickerColor>)
    requires a <= b
    ensures |a| <= |b|
  {
    if a != {} {
      var x :| x in a;
      SubsetCard(a - {x}, b - {x});
    }
  }

  /** One letter per sticker, looked up by colour. */
  method LettersOf(colors: seq<StickerColor>, centres: map<StickerColor, nat>) returns (letters: seq<LogicalFace>)
    requires |colors| == 54 && forall color: StickerColor :: color in centres
    requires forall color :: color in centres ==> centres[color] < 6 && CentreColor(colors, centres[color]) == color
    ensures Names(colors, letters)
  {
    letters := [];
    for k := 0 to 54
      invariant |letters| == k
      invariant forall j :: 0 <= j < k ==> CentreColor(colors, FaceOrder(letters[j])) == colors[j]
    {
      var face := centres[colors[k]];
      assert FaceOrder(FACES[face]) == face;
      letters := letters + [FACES[face]];
    }
  }

  /** Builds the solver string: letters come from the centres, not from a colour scheme. */
  method FaceletString(slots: Slots) returns (r: Result<seq<LogicalFace>, ScanError>)
    ensures r.Ok? <==> Acceptable(slots)
    ensures r.Ok? ==> Names(ColorsOf(slots), r.value)
    ensures r.Err? && r.error.MissingScan? <==> !Complete(slots)
    ensures r.Err? && r.error.DuplicateCentre? <==> Complete(slots) && !DistinctCentres(ColorsOf(slots))
    ensures r.Err? ==>
              match r.error
              case MissingScan(face) => FirstMissing(slots, face)
              case DuplicateCentre(color) => Complete(slots) && FirstRepeated(ColorsOf(slots), color)
              case WrongCount(color) => Complete(slots) && FirstMiscounted(ColorsOf(slots), color)
              case AlreadyScanned(_) => false
  {
    for i := 0 to 6
      invariant forall j :: 0 <= j < i ==> slots[j].Some?
    {
      if slots[i].None? {
        assert FaceOrder(FACES[i]) == i;
        return Err(MissingScan(FACES[i]));
      }
    }
    var colors := ColorsOf(slots);
    var centres := CentreMap(colors);
    if centres.Err? {
      return Err(DuplicateCentre(centres.error));
    }
    AllColorsAreCentres(colors, centres.value.Keys);
    var letters := LettersOf(colors, centres.value);
    var wrong := WrongColor(colors);
    if wrong.Some? {
      return Err(WrongCount(wrong.value));
    }
    r := Ok(letters);
  }

  /** What six truthful camera images of a view record, for a colouring of the stickers. */
  function Painted(view: View, paint: LogicalFace -> StickerColor): Slots
    requires forall place :: place in Places() ==> view[place].Some?
  {
    seq(6, i requires 0 <= i < 6 => Some(Photo(view, FACES[i], paint)))
  }

  function PhotoColor(view: View, face: LogicalFace, paint: LogicalFace -> StickerColor, j: nat): StickerColor
    requires j < 9 && forall place :: place in Places() ==> view[place].Some?
  {
    FacePlaceIsPlace(face, j);
    paint(view[FacePlace(face, j)].value)
  }

  function Photo(view: View, face: LogicalFace, paint: LogicalFace -> StickerColor): Face
    requires forall place :: place in Places() ==> view[place].Some?
  {
    var colors: seq<StickerColor> := seq(9, j requires 0 <= j < 9 => PhotoColor(view, face, paint, j));
    colors
  }

  /** The letters of a view, in facelet order. */
  function Letters(view: View): (r: seq<LogicalFace>)
    requires forall place :: place in Places() ==> view[place].Some?
    ensures |r| == 54
  {
    seq(54, k requires 0 <= k < 54 => (PlaceAtIsPlace(k); view[PlaceAt(k)].value))
  }

  lemma {:induction false} PlaceAtIsPlace(k: nat)
    requires k < 54
    ensures IsPlace(PlaceAt(k))
  {
    FacePlaceIsPlace(FACES[k / 9], k % 9);
  }

  ghost predicate Injective(paint: LogicalFace -> StickerColor) {
    forall a, b :: paint(a) == paint(b) ==> a == b
  }

  lemma {:induction false} PaintedColors(view: View, paint: LogicalFace -> StickerColor, k: nat)
    requires forall place :: place in Places() ==> view[place].Some?
    requires k < 54
    ensures ColorsOf(Painted(view, paint))[k] == paint(Letters(view)[k])
  {
  }

  lemma {:induction false} CentreLetter(view: View, face: LogicalFace)
    requires Balanced(view)
    ensures Letters(view)[9 * FaceOrder(face) + 4] == face
  {
    var k := 9 * FaceOrder(face) + 4;
    assert k / 9 == FaceOrder(face) && k % 9 == 4;
    assert FacePlace(face, 4) == Centre(face);
  }

  function Occurrences<T(==)>(s: seq<T>, x: T): set<nat> {
    set k: nat | k < |s| && s[k] == x
  }

  lemma {:induction false} CountOccurrences(s: seq<StickerColor>, x: StickerColor)
    ensures multiset(s)[x] == |Occurrences(s, x)|
  {
    if s != [] {
      var n := |s| - 1;
      CountOccurrences(s[..n], x);
      assert s == s[..n] + [s[n]];
      assert Occurrences(s, x) == Occurrences(s[..n], x) + if s[n] == x then {n} else {};
    }
  }

  lemma {:induction false} SameCard(a: set<nat>, b: set<Place>, f: nat -> Place)
    requires forall k :: k in a ==> f(k) in b
    requires forall j, k :: j in a && k in a && f(j) == f(k) ==> j == k
    requires forall p :: p in b ==> exists k :: k in a && f(k) == p
    ensures |a| == |b|
  {
    if a == {} {
      assert b == {};
    } else {
      var k :| k in a;
      SameCard(a - {k}, b - {f(k)}, f);
    }
  }

  function PlaceFunction(): nat -> Place {
    (k: nat) => if k < 54 then PlaceAt(k) else PlaceAt(0)
  }

  lemma {:induction false} PaintedNine(view: View, paint: LogicalFace -> StickerColor, face: LogicalFace)
    requires Balanced(view) && Injective(paint)
    ensures multiset(ColorsOf(Painted(view, paint)))[paint(face)] == 9
  {
    var colors := ColorsOf(Painted(view, paint));
    var indices := Occurrences(colors, paint(face));
    CountOccurrences(colors, paint(face));
    var f := PlaceFunction();
    forall k | k in indices
      ensures f(k) in Showing(view, face)
    {
      PaintedColors(view, paint, k);
      PlaceAtIsPlace(k);
    }
    forall j, k | j in indices && k in indices && f(j) == f(k)
      ensures j == k
    {
      PlaceAtInjective(j, k);
    }
    forall p | p in Showing(view, face)
      ensures exists k :: k in indices && f(k) == p
    {
      UnitCases(p.normal);
      var side := AxisFaceOf(p.normal);
      IndexOfPlace(p, side);
      var k := FaceOrder(side) * 9 + Cell(p, side);
      PaintedColors(view, paint, k);
      assert k in indices && f(k) == p;
    }
    SameCard(indices, Showing(view, face), f);
  }

  lemma {:induction false} EveryColorIsPaint(paint: LogicalFace -> StickerColor, color: StickerColor)
    returns (face: LogicalFace)
    requires Injective(paint)
    ensures paint(face) == color
  {
    var six := {paint(Up), paint(LogicalFace.Right), paint(Front), paint(Down), paint(LogicalFace.Left), paint(Back)};
    assert |six| == 6;
    SixIsAll(six);
    face :| paint(face) == color;
  }

  lemma {:induction false} PaintedCentres(view: View, paint: LogicalFace -> StickerColor, i: nat)
    requires Balanced(view) && i < 6
    ensures CentreColor(ColorsOf(Painted(view, paint)), i) == paint(FACES[i])
  {
    PaintedColors(view, paint, 9 * i + 4);
    CentreLetter(view, FACES[i]);
    assert FaceOrder(FACES[i]) == i;
  }

  lemma {:induction false} PaintedNames(view: View, paint: LogicalFace -> StickerColor)
    requires Balanced(view)
    ensures Names(ColorsOf(Painted(view, paint)), Letters(view))
  {
    var colors := ColorsOf(Painted(view, paint));
    forall k | 0 <= k < 54
      ensures CentreColor(colors, FaceOrder(Letters(view)[k])) == colors[k]
    {
      PaintedColors(view, paint, k);
      PaintedCentres(view, paint, FaceOrder(Letters(view)[k]));
    }
  }

  lemma {:induction false} PaintedCentresDiffer(view: View, paint: LogicalFace -> StickerColor)
    requires Balanced(view) && Injective(paint)
    ensures DistinctCentres(ColorsOf(Painted(view, paint)))
  {
    var colors := ColorsOf(Painted(view, paint));
    forall i, j | 0 <= i < j < 6
      ensures CentreColor(colors, i) != CentreColor(colors, j)
    {
      PaintedCentres(view, paint, i);
      PaintedCentres(view, paint, j);
      assert FACES[i] != FACES[j];
    }
  }

  lemma {:induction false} PaintedNineOfEach(view: View, paint: LogicalFace -> StickerColor)
    requires Balanced(view) && Injective(paint)
    ensures NineOfEach(ColorsOf(Painted(view, paint)))
  {
    forall color: StickerColor
      ensures multiset(ColorsOf(Painted(view, paint)))[color] == 9
    {
      var face := EveryColorIsPaint(paint, color);
      PaintedNine(view, paint, face);
    }
  }

  /** A truthful scan of a balanced cube is accepted, and the solver string is the cube's
      own facelets, whatever the colour scheme. */
  lemma {:induction false} ScanReadsCube(view: View, paint: LogicalFace -> StickerColor)
    requires Balanced(view) && Injective(paint)
    ensures Acceptable(Painted(view, paint))
    ensures Names(ColorsOf(Painted(view, paint)), Letters(view))
  {
    PaintedNames(view, paint);
    PaintedCentresDiffer(view, paint);
    PaintedNineOfEach(view, paint);
  }

  /** For every move list the simulator's cube passes the scan, and the string read off it
      is the solved string with the moves' facelet permutations applied. */
  lemma {:induction false} SimulatorScanAccepted(moves: seq<CubeMove>, paint: LogicalFace -> StickerColor)
    requires Injective(paint)
    ensures var view := ViewOf(ApplyMoves(SolvedCube(), moves));
            Balanced(view) && Acceptable(Painted(view, paint)) && view == MoveView(ViewOf(SolvedCube()), moves)
            && Names(ColorsOf(Painted(view, paint)), Letters(view))
  {
    EveryCubeIsBalanced(moves);
    MovesPermuteView(SolvedCube(), moves);
    ScanReadsCube(ViewOf(ApplyMoves(SolvedCube(), moves)), paint);
  }
}

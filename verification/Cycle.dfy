/** Scan, solve and execute as one cycle on the physical stand: with a truthful camera and
    a solver that solves the string it is given, the cube ends solved. */
module Cycle {
  import opened Geometry
  import opened Stand
  import opened MovePlanner
  import opened Mechanics
  import opened Options
  import opened PlanMeaning
  import opened PlanSafety
  import opened Facelets
  import opened Simulator
  import opened CubeScan
  import SP = ScanPlan

  /** The view that a solver string describes. */
  function ViewFromLetters(letters: seq<LogicalFace>): View
    requires |letters| == 54
  {
    map place | place in Places() :: Some(letters[IndexOf(place)])
  }

  function IndexOf(place: Place): (k: nat)
    requires IsPlace(place)
    ensures k < 54 && PlaceAt(k) == place
  {
    UnitCases(place.normal);
    var face := AxisFaceOf(place.normal);
    IndexOfPlace(place, face);
    FaceOrder(face) * 9 + Cell(place, face)
  }

  lemma {:induction false} LettersDescribeView(view: View)
    requires forall place :: place in Places() ==> view[place].Some?
    ensures ViewFromLetters(Letters(view)) == view
  {
    forall place | place in Places()
      ensures Letters(view)[IndexOf(place)] == view[place].value
    {
    }
  }

  /** The solver's promise, on the string alone: the moves take it to the solved string. */
  ghost predicate Solves(letters: seq<LogicalFace>, moves: seq<CubeMove>)
    requires |letters| == 54
  {
    MoveView(ViewFromLetters(letters), moves) == ViewOf(SolvedCube())
  }

  /** The six slots a scan fills when the camera reports each photograph in true colours. */
  function Recorded(photos: seq<SP.Photo>, paint: LogicalFace -> StickerColor): Slots {
    seq(6, i requires 0 <= i < 6 => FiledUnder(photos, FACES[i], paint))
  }

  function FiledUnder(photos: seq<SP.Photo>, face: LogicalFace, paint: LogicalFace -> StickerColor): Option<Face> {
    if photos == [] then None
    else if photos[0].face == face && |photos[0].image| == 9
            && (forall j :: 0 <= j < 9 ==> photos[0].image[j].Some?) then
      var colors: seq<StickerColor> := seq(9, j requires 0 <= j < 9 => paint(photos[0].image[j].value));
      Some(colors)
    else FiledUnder(photos[1..], face, paint)
  }

  lemma {:induction false} FiledPhoto(photos: seq<SP.Photo>, i: nat, view: View, paint: LogicalFace -> StickerColor)
    requires i < |photos| && forall place :: place in Places() ==> view[place].Some?
    requires forall j :: 0 <= j < i ==> photos[j].face != photos[i].face
    requires |photos[i].image| == 9
    requires forall j :: 0 <= j < 9 ==> IsPlace(FacePlace(photos[i].face, j)) && photos[i].image[j] == view[FacePlace(photos[i].face, j)]
    ensures FiledUnder(photos, photos[i].face, paint) == Some(Photo(view, photos[i].face, paint))
    decreases |photos|
  {
    if i == 0 {
      var colors: seq<StickerColor> := seq(9, j requires 0 <= j < 9 => paint(photos[0].image[j].value));
      assert colors == Photo(view, photos[0].face, paint);
    } else {
      FiledPhoto(photos[1..], i - 1, view, paint);
    }
  }

  lemma {:induction false} ScanRecordsView(cube: Cube, paint: LogicalFace -> StickerColor, photos: seq<SP.Photo>)
    requires Balanced(ViewOf(cube))
    requires photos == seq(6, i requires 0 <= i < 6 => SP.Photo(SP.SCAN_ORDER[i], SP.FaceImage(cube, SP.SCAN_ORDER[i])))
    ensures Recorded(photos, paint) == Painted(ViewOf(cube), paint)
  {
    var view := ViewOf(cube);
    forall i | 0 <= i < 6
      ensures FiledUnder(photos, FACES[i], paint) == Some(Photo(view, FACES[i], paint))
    {
      var k := if FACES[i] == LogicalFace.Left then 0 else if FACES[i] == LogicalFace.Right then 1
               else if FACES[i] == Down then 2 else if FACES[i] == Up then 3 else if FACES[i] == Front then 4 else 5;
      assert photos[k].face == FACES[i];
      forall j | 0 <= j < 9
        ensures IsPlace(FacePlace(FACES[i], j)) && photos[k].image[j] == view[FacePlace(FACES[i], j)]
      {
        FacePlaceIsPlace(FACES[i], j);
      }
      FiledPhoto(photos, k, view, paint);
    }
  }

  /** The cycle: the scan is safe, ends in canonical grip with the cube untouched, and is
      accepted; whatever moves solve its string, executing their plan opens the stand with
      the cube solved, up to a rotation of the whole cube. */
  lemma {:induction false} CycleSolves(cube: Cube, paint: LogicalFace -> StickerColor, letters: seq<LogicalFace>, moves: seq<CubeMove>)
    returns (photos: seq<SP.Photo>, solved: Cube, frame: Frame)
    requires Balanced(ViewOf(cube)) && Injective(paint)
    ensures SP.RunScan(SP.ScanRun(CanonicalGrip(cube), [], true), SP.SCAN_STEPS)
         == Some(SP.ScanRun(CanonicalGrip(cube), photos, true))
    ensures Acceptable(Recorded(photos, paint))
    ensures |letters| == 54 && Names(ColorsOf(Recorded(photos, paint)), letters) && Solves(letters, moves) ==>
              var m := Run(CanonicalGrip(cube), ExecuteSteps(moves));
              && m.Some? && m.value.closed == AllSides(false) && m.value.cube == InFrame(frame, solved)
              && ViewOf(solved) == ViewOf(SolvedCube())
  {
    var view := ViewOf(cube);
    SP.ScanShowsEveryFace(cube);
    photos := seq(6, i requires 0 <= i < 6 => SP.Photo(SP.SCAN_ORDER[i], SP.FaceImage(cube, SP.SCAN_ORDER[i])));
    ScanRecordsView(cube, paint, photos);
    ScanReadsCube(view, paint);
    solved, frame := ApplyMoves(cube, moves), OptimizedPlan(moves, Release).frame;
    if |letters| == 54 && Names(ColorsOf(Recorded(photos, paint)), letters) && Solves(letters, moves) {
      NamesUnique(ColorsOf(Recorded(photos, paint)), letters, Letters(view));
      LettersDescribeView(view);
      MovesPermuteView(cube, moves);
      ExecutePlanSafe(moves, cube, |ExecuteSteps(moves)|);
      assert ExecuteSteps(moves)[..|ExecuteSteps(moves)|] == ExecuteSteps(moves);
    }
  }
}

/**
 The camera-zoom state of the vector visualisation (components/ThreeViz.tsx): its start
 value, the clamped update, and the three overlay buttons. The three.js scene is not modelled.
 */
module ThreeViz {

  const InitialZoom: int := 20
  const MinZoom: int := 5
  const MaxZoom: int := 50
  const ZoomStep: int := 5

  predicate InRange(z: int) {
    MinZoom <= z <= MaxZoom
  }

  /** `handleZoom`: moves by `delta` and clamps into [5, 50]. */
  function HandleZoom(prev: int, delta: int): (z: int)
    ensures InRange(z)
    ensures InRange(prev + delta) ==> z == prev + delta
    ensures prev + delta < MinZoom ==> z == MinZoom
    ensures prev + delta > MaxZoom ==> z == MaxZoom
  {
    if prev + delta > MaxZoom then MaxZoom
    else if prev + delta < MinZoom then MinZoom
    else prev + delta
  }

  /** The zoom-in button brings the camera 5 closer; at the nearest position it does nothing. */
  function ZoomIn(z: int): (r: int)
    ensures InRange(z) ==> r == (if z - ZoomStep < MinZoom then MinZoom else z - ZoomStep)
    ensures z == MinZoom ==> r == z
  {
    HandleZoom(z, -ZoomStep)
  }

  /** The zoom-out button moves the camera 5 away; at the farthest position it does nothing. */
  function ZoomOut(z: int): (r: int)
    ensures InRange(z) ==> r == (if z + ZoomStep > MaxZoom then MaxZoom else z + ZoomStep)
    ensures z == MaxZoom ==> r == z
  {
    HandleZoom(z, ZoomStep)
  }

  /** Away from the bounds, zooming in and back out (or out and back in) restores the zoom. */
  lemma ZoomButtonsUndoEachOther(z: int)
    ensures MinZoom + ZoomStep <= z <= MaxZoom ==> ZoomOut(ZoomIn(z)) == z
    ensures MinZoom <= z <= MaxZoom - ZoomStep ==> ZoomIn(ZoomOut(z)) == z
  {
  }

  /** The reset button restores the start zoom, but only once the point cloud exists. */
  function Reset(z: int, hasPoints: bool): (r: int)
    ensures hasPoints ==> r == InitialZoom
    ensures !hasPoints ==> r == z
  {
    if hasPoints then InitialZoom else z
  }

  datatype Button = ZoomInButton | ZoomOutButton | ResetButton(hasPoints: bool)

  function Press(z: int, b: Button): int {
    match b
    case ZoomInButton => ZoomIn(z)
    case ZoomOutButton => ZoomOut(z)
    case ResetButton(p) => Reset(z, p)
  }

  function PressAll(z: int, bs: seq<Button>): int
    decreases |bs|
  {
    if bs == [] then z else PressAll(Press(z, bs[0]), bs[1..])
  }

  /** Whatever buttons are pressed, the zoom never leaves [5, 50]. */
  lemma {:induction false} ZoomStaysInRange(bs: seq<Button>)
    ensures InRange(PressAll(InitialZoom, bs))
  {
    PressAllKeepsRange(InitialZoom, bs);
  }

  lemma {:induction false} PressAllKeepsRange(z: int, bs: seq<Button>)
    requires InRange(z)
    ensures InRange(PressAll(z, bs))
    decreases |bs|
  {
    if bs != [] {
      PressAllKeepsRange(Press(z, bs[0]), bs[1..]);
    }
  }
}

/**
 The projection chosen per view mode (main.py, `set_projection`): a 45-degree
 perspective for view mode 0, and for every other mode an orthographic box
 whose shorter half-extent is the zoom (10 world units) and whose other
 half-extent follows the window's aspect ratio.
 */
module Projection {

  // Lens constants (main.py:168-175).
  const FieldOfView := 45.0
  const Zoom := 10.0
  const Near := 0.1
  const Far := 50.0

  /** The arguments of one orthographic projection call. */
  datatype OrthoBox = OrthoBox(left: real, right: real, bottom: real, top: real, near: real, far: real)

  /** The projection installed for a frame. */
  datatype Lens =
    | Perspective(fovy: real, aspect: real, near: real, far: real)
    | Orthographic(box: OrthoBox)

  function Min(a: real, b: real): real {
    if a <= b then a else b
  }

  /**
   The orthographic box for window aspect ratio `aspect` (width / height). The
   narrow-window branch divides by `aspect`, so it must not be zero.
   */
  function OrthoExtents(aspect: real): (r: OrthoBox)
    requires aspect != 0.0
    ensures r.left == -r.right && r.bottom == -r.top
    ensures r.right == aspect * r.top
    ensures aspect > 0.0 ==> 0.0 < r.right && 0.0 < r.top && Min(r.right, r.top) == Zoom
    ensures r.near == Near && r.far == Far
  {
    if aspect >= 1.0 then
      OrthoBox(-Zoom * aspect, Zoom * aspect, -Zoom, Zoom, Near, Far)
    else
      OrthoBox(-Zoom, Zoom, -Zoom / aspect, Zoom / aspect, Near, Far)
  }

  /**
   The orthographic box is the only symmetric box with the window's aspect
   ratio, the lens's near and far planes and shorter half-extent equal to the
   zoom: the contract of `OrthoExtents` pins it down.
   */
  lemma OrthoExtentsUnique(aspect: real, b: OrthoBox)
    requires aspect > 0.0
    requires b.left == -b.right && b.bottom == -b.top
    requires b.right == aspect * b.top
    requires Min(b.right, b.top) == Zoom
    requires b.near == Near && b.far == Far
    ensures b == OrthoExtents(aspect)
  {
  }

  /**
   The two branches: a wide window (aspect at least 1) keeps the vertical
   half-extent at the zoom and widens the horizontal one; a tall window keeps
   the horizontal half-extent and heightens the vertical one.
   */
  lemma OrthoBranches(aspect: real)
    requires aspect > 0.0
    ensures aspect >= 1.0 ==> OrthoExtents(aspect).right == Zoom * aspect && OrthoExtents(aspect).top == Zoom
    ensures aspect < 1.0 ==> OrthoExtents(aspect).right == Zoom && OrthoExtents(aspect).top == Zoom / aspect
    ensures OrthoExtents(aspect).right / OrthoExtents(aspect).top == aspect
  {
  }

  /** The projection for a view mode: perspective for 0, orthographic for any other value (main.py:161-178). */
  function LensFor(viewMode: int, aspect: real): (r: Lens)
    requires viewMode != 0 ==> aspect != 0.0
    ensures r.Perspective? <==> viewMode == 0
    ensures r.Perspective? ==> r.aspect == aspect && r.fovy == FieldOfView && r.near == Near && r.far == Far
    ensures r.Orthographic? ==> r.box.right == aspect * r.box.top && r.box.left == -r.box.right && r.box.bottom == -r.box.top
    ensures r.Orthographic? ==> r.box.near == Near && r.box.far == Far
    ensures r.Orthographic? && aspect > 0.0 ==> Min(r.box.right, r.box.top) == Zoom
  {
    if viewMode == 0 then Perspective(FieldOfView, aspect, Near, Far)
    else Orthographic(OrthoExtents(aspect))
  }

  /** The window is 1000 by 700 pixels (main.py:100). */
  const DisplayWidth := 1000
  const DisplayHeight := 700

  /** Width over height, as the source's true division computes it (main.py:165). */
  function DisplayAspect(): (a: real)
    ensures a * 700.0 == 1000.0
  {
    DisplayWidth as real / DisplayHeight as real
  }

  /**
   For the viewer's own window (aspect 10/7, about 1.43) every orthographic
   view spans 100/7 units either side horizontally and 10 vertically; for a
   hypothetical tall window of aspect 0.7 it would span 10 and 100/7.
   */
  lemma OrthoExamples()
    ensures OrthoExtents(DisplayAspect()) == OrthoBox(-100.0 / 7.0, 100.0 / 7.0, -10.0, 10.0, Near, Far)
    ensures OrthoExtents(0.7) == OrthoBox(-10.0, 10.0, -100.0 / 7.0, 100.0 / 7.0, Near, Far)
  {
    assert DisplayAspect() == 10.0 / 7.0;
  }
}

/*
 * Which wedges of a frame are near the camera.  The camera's nearest point on
 * the ring (a fraction of a turn) and its distance to the ring are inputs; the
 * frame sees the arc of half-width cameraRange around that point, shifted
 * into the frame's own coordinates by the frame's phase p.
 */
module Camera {
  import opened Windows

  /** JavaScript's `x % 1` on a number: the remainder keeps the sign of x. */
  function JsRemOne(x: real): real
  {
    if x >= 0.0 then x - x.Floor as real else x + (-x).Floor as real
  }

  /** The fractional part, in [0, 1). */
  function Frac(x: real): (r: real)
    ensures 0.0 <= r < 1.0
  {
    x - x.Floor as real
  }

  lemma FracShift(x: real, k: int)
    ensures Frac(x + k as real) == Frac(x)
  {
    assert (x + k as real).Floor == x.Floor + k;
  }

  lemma JsRemOneNonNegative(x: real)
    requires x >= 0.0
    ensures JsRemOne(x) == Frac(x)
  {
  }

  /** The wedge a position in [0, 1) of a frame falls in. */
  function WedgeAt(x: real, W: nat): int
  {
    (x * W as real).Floor
  }

  lemma WedgeAtBounds(x: real, W: nat)
    requires 0.0 <= x < 1.0 && W > 0
    ensures 0 <= WedgeAt(x, W) < W
  {
    assert x * W as real < W as real;
  }

  /**
   * The window of a frame with phase p: when the camera is within cameraRange
   * of the ring it runs from the wedge at `nearest - delta` to the wedge at
   * `nearest + delta`, both taken relative to p, where delta is cameraRange as
   * a fraction of the ring's circumference; otherwise it is empty (-1, -1).
   */
  function VisibleWindow(nearest: real, distance: real, cameraRange: real, circumference: real, p: real, W: nat): Window
    requires circumference > 0.0
  {
    if distance <= cameraRange then
      var delta := cameraRange / circumference;
      var rangeStart := JsRemOne(nearest - delta + 1.0);
      var rangeFinish := JsRemOne(nearest + delta + 1.0);
      Window(WedgeAt(JsRemOne(rangeStart - p + 1.0), W), WedgeAt(JsRemOne(rangeFinish - p + 1.0), W))
    else
      Window(-1, -1)
  }

  /** Shifting into the frame: the double `(+ 1) % 1` is the fractional part of the difference. */
  lemma ShiftedFrac(a: real, p: real)
    requires a >= -1.0 && 0.0 <= p <= 1.0
    ensures JsRemOne(JsRemOne(a + 1.0) - p + 1.0) == Frac(a - p)
  {
    var s := JsRemOne(a + 1.0);
    JsRemOneNonNegative(a + 1.0);
    assert s == Frac(a + 1.0);
    JsRemOneNonNegative(s - p + 1.0);
    var k := (a + 1.0).Floor;
    assert s - p + 1.0 == (a - p) + (2 - k) as real;
    FracShift(a - p, 2 - k);
  }

  lemma DivAtMostOne(a: real, b: real)
    requires 0.0 <= a <= b && b > 0.0
    ensures a / b <= 1.0
  {
    assert a / b * b == a;
  }

  /**
   * A camera out of range sees nothing; otherwise both ends of the window are
   * `floor(frac(x) * W)` for the two ends of the arc, and lie in [0, W).
   */
  lemma VisibleWindowBounds(nearest: real, distance: real, cameraRange: real, circumference: real, p: real, W: nat)
    requires circumference > 0.0 && W > 0
    requires 0.0 <= nearest < 1.0 && 0.0 <= p <= 1.0 && 0.0 <= cameraRange <= circumference
    ensures var w := VisibleWindow(nearest, distance, cameraRange, circumference, p, W);
      WellFormed(w, W)
      && (distance > cameraRange <==> w.start == -1)
      && (distance > cameraRange ==> w.finish == -1)
      && (distance <= cameraRange ==>
            var delta := cameraRange / circumference;
            w.start == WedgeAt(Frac(nearest - delta - p), W) && w.finish == WedgeAt(Frac(nearest + delta - p), W)
            && 0 <= w.start < W && 0 <= w.finish < W)
  {
    if distance <= cameraRange {
      var delta := cameraRange / circumference;
      DivAtMostOne(cameraRange, circumference);
      ShiftedFrac(nearest - delta, p);
      ShiftedFrac(nearest + delta, p);
      WedgeAtBounds(Frac(nearest - delta - p), W);
      WedgeAtBounds(Frac(nearest + delta - p), W);
    }
  }

  /**
   * An eight-wedge frame on a ring of circumference 8000 seen from the
   * nearest point 0 with camera range 1500: at phase 0 wedges 6..1 (wrapping)
   * are in view, and once the frame has turned by an eighth, wedges 5..0.
   */
  lemma WindowExample()
    ensures VisibleWindow(0.0, 0.0, 1500.0, 8000.0, 0.0, 8) == Window(6, 1)
    ensures VisibleWindow(0.0, 0.0, 1500.0, 8000.0, 0.125, 8) == Window(5, 0)
  {
    assert JsRemOne(0.0 - 0.1875 + 1.0) == 0.8125;
    assert JsRemOne(0.0 + 0.1875 + 1.0) == 0.1875;
    assert JsRemOne(0.8125 - 0.0 + 1.0) == 0.8125;
    assert JsRemOne(0.1875 - 0.0 + 1.0) == 0.1875;
    assert JsRemOne(0.8125 - 0.125 + 1.0) == 0.6875;
    assert JsRemOne(0.1875 - 0.125 + 1.0) == 0.0625;
    assert WedgeAt(0.8125, 8) == 6;
    assert WedgeAt(0.1875, 8) == 1;
    assert WedgeAt(0.6875, 8) == 5;
    assert WedgeAt(0.0625, 8) == 0;
  }

  lemma ExampleWalks()
    ensures Walk(5, 0, 8) == [5, 6, 7, 0] && Walk(6, 1, 8) == [6, 7, 0, 1]
  {
    assert Walk(7, 0, 8) == [7] + Walk(0, 0, 8);
    assert Walk(0, 1, 8) == [0] + Walk(1, 1, 8);
    assert Walk(7, 1, 8) == [7] + Walk(0, 1, 8);
  }

  lemma ExampleFlags()
    ensures var fl := Flags(Window(5, 0), Window(6, 1), 8);
      fl[5] == 1 && fl[6] == 3 && fl[7] == 3 && fl[0] == 3 && fl[1] == 2
  {
  }

  /**
   * What the frame's lists are when it turns from (6, 1) to (5, 0): wedge 5
   * comes into view, wedge 1 leaves it, and wedges 5, 6, 7, 0 are updated.
   */
  lemma AssignExample()
    ensures AssignList(Window(5, 0), Window(6, 1), 8) == [5]
  {
    ExampleWalks();
    ExampleFlags();
    var fl := Flags(Window(5, 0), Window(6, 1), 8);
    SelectSnoc([], 5, fl, ForAssign);
    SelectSnoc([5], 6, fl, ForAssign);
    SelectSnoc([5, 6], 7, fl, ForAssign);
    SelectSnoc([5, 6, 7], 0, fl, ForAssign);
    assert Wedges(Window(5, 0), 8) == [5, 6, 7, 0];
    assert [5, 6, 7] + [0] == [5, 6, 7, 0];
    assert Select([5, 6, 7, 0], fl, ForAssign) == [5];
  }

  lemma RemoveExample()
    ensures RemoveList(Window(5, 0), Window(6, 1), 8) == [1]
  {
    ExampleWalks();
    ExampleFlags();
    var fl := Flags(Window(5, 0), Window(6, 1), 8);
    SelectSnoc([], 6, fl, ForRemove);
    SelectSnoc([6], 7, fl, ForRemove);
    SelectSnoc([6, 7], 0, fl, ForRemove);
    SelectSnoc([6, 7, 0], 1, fl, ForRemove);
    assert Wedges(Window(6, 1), 8) == [6, 7, 0, 1];
    assert [6, 7, 0] + [1] == [6, 7, 0, 1];
    assert Select([6, 7, 0, 1], fl, ForRemove) == [1];
  }

  lemma UpdateExample()
    ensures UpdateList(Window(5, 0), Window(6, 1), 8) == [5, 6, 7, 0]
  {
    ExampleWalks();
    ExampleFlags();
    var fl := Flags(Window(5, 0), Window(6, 1), 8);
    SelectSnoc([], 5, fl, ForUpdate);
    SelectSnoc([5], 6, fl, ForUpdate);
    SelectSnoc([5, 6], 7, fl, ForUpdate);
    SelectSnoc([5, 6, 7], 0, fl, ForUpdate);
    assert Wedges(Window(5, 0), 8) == [5, 6, 7, 0];
    assert [5, 6, 7] + [0] == [5, 6, 7, 0];
    assert Select([5, 6, 7, 0], fl, ForUpdate) == [5, 6, 7, 0];
  }
}

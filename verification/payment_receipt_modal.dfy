/** The receipt viewer's zoom. The zoom moves in steps of 0.25, which binary
    floating point represents exactly, so it is kept as a whole number of
    quarters. */
module PaymentReceiptModal {

  /** A zoom of `q` quarters is the factor `q / 4`. */
  function Factor(q: int): real {
    q as real / 4.0
  }

  const InitialZoom := 4
  const MinZoom := 2
  const MaxZoom := 12

  predicate InRange(q: int) {
    MinZoom <= q <= MaxZoom
  }

  /** `Math.min(prev + 0.25, 3)`. */
  function ZoomIn(q: int): (r: int)
    ensures Factor(r) == if Factor(q) + 0.25 < 3.0 then Factor(q) + 0.25 else 3.0
  {
    if q + 1 < MaxZoom then q + 1 else MaxZoom
  }

  /** `Math.max(prev - 0.25, 0.5)`. */
  function ZoomOut(q: int): (r: int)
    ensures Factor(r) == if Factor(q) - 0.25 > 0.5 then Factor(q) - 0.25 else 0.5
  {
    if q - 1 > MinZoom then q - 1 else MinZoom
  }

  /** `Math.round(zoom * 100)`: exactly 25 per quarter. */
  function Percent(q: int): (r: int)
    ensures r as real == Factor(q) * 100.0
  {
    25 * q
  }

  /** The zoom-out button is disabled at 0.5, the zoom-in button at 3. */
  predicate ZoomOutDisabled(q: int) {
    Factor(q) <= 0.5
  }

  predicate ZoomInDisabled(q: int) {
    Factor(q) >= 3.0
  }

  /** Both buttons keep the zoom in range; at a bound the button that would
      leave it is disabled and its handler does nothing. */
  lemma ZoomStaysInRange(q: int)
    requires InRange(q)
    ensures InRange(ZoomIn(q)) && InRange(ZoomOut(q))
    ensures ZoomInDisabled(q) <==> q == MaxZoom
    ensures ZoomOutDisabled(q) <==> q == MinZoom
    ensures q == MaxZoom ==> ZoomIn(q) == q
    ensures q == MinZoom ==> ZoomOut(q) == q
  {
  }

  /** Away from the bounds, zooming in and out undo each other. */
  lemma ZoomInOutInverse(q: int)
    ensures MinZoom <= q < MaxZoom ==> ZoomOut(ZoomIn(q)) == q
    ensures MinZoom < q <= MaxZoom ==> ZoomIn(ZoomOut(q)) == q
  {
  }

  datatype ZoomButton = In | Out

  function Press(q: int, b: ZoomButton): int {
    match b
    case In => ZoomIn(q)
    case Out => ZoomOut(q)
  }

  function PressAll(q: int, bs: seq<ZoomButton>): int
    decreases |bs|
  {
    if bs == [] then q else PressAll(Press(q, bs[0]), bs[1..])
  }

  /** From the initial 100%, every sequence of presses keeps the zoom between
      50% and 300%, in steps of 25%. */
  lemma {:induction false} PressAllInRange(q: int, bs: seq<ZoomButton>)
    requires InRange(q)
    ensures InRange(PressAll(q, bs))
    ensures 50 <= Percent(PressAll(q, bs)) <= 300 && Percent(PressAll(q, bs)) % 25 == 0
    decreases |bs|
  {
    if bs != [] {
      ZoomStaysInRange(q);
      PressAllInRange(Press(q, bs[0]), bs[1..]);
    }
  }

  lemma InitialZoomIsHundredPercent()
    ensures InRange(InitialZoom) && Factor(InitialZoom) == 1.0 && Percent(InitialZoom) == 100
  {
  }
}

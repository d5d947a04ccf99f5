/**
 * The small rules of the map page: zoom steps and their bounds, the side a
 * tooltip opens on, which marker is highlighted, how many stars are filled
 * and the wording of the results count.
 */
module Display {
  import opened Wrappers
  import opened Catalog

  // ---------------------------------------------------------------------
  // Zoom, counted in quarter steps: zoom factor = q / 4
  // ---------------------------------------------------------------------

  /** 0.5, the smallest zoom factor. */
  const MinZoom: int := 2
  /** 2.5, the largest zoom factor. */
  const MaxZoom: int := 10
  /** 1.0, the initial zoom factor and the one Reset restores. */
  const DefaultZoom: int := 4

  /** The zoom factor that `q` quarter steps stand for. */
  function Scale(q: int): real {
    q as real / 4.0
  }

  function RealMin(a: real, b: real): real { if a <= b then a else b }
  function RealMax(a: real, b: real): real { if a >= b then a else b }

  predicate InZoomRange(q: int) {
    MinZoom <= q <= MaxZoom
  }

  /** Zoom in: one quarter step more, but never beyond the maximum. */
  function ZoomedIn(q: int): (r: int)
    ensures r <= MaxZoom && r <= q + 1
    ensures r == q + 1 || r == MaxZoom
  {
    if q + 1 <= MaxZoom then q + 1 else MaxZoom
  }

  /** Zoom out: one quarter step less, but never below the minimum. */
  function ZoomedOut(q: int): (r: int)
    ensures r >= MinZoom && r >= q - 1
    ensures r == q - 1 || r == MinZoom
  {
    if q - 1 >= MinZoom then q - 1 else MinZoom
  }

  /** In zoom factors, zooming in is `Math.min(prev + 0.25, 2.5)`. */
  lemma ZoomInScale(q: int)
    ensures Scale(ZoomedIn(q)) == RealMin(Scale(q) + 0.25, 2.5)
  {
  }

  /** In zoom factors, zooming out is `Math.max(prev - 0.25, 0.5)`. */
  lemma ZoomOutScale(q: int)
    ensures Scale(ZoomedOut(q)) == RealMax(Scale(q) - 0.25, 0.5)
  {
  }

  /** Zooming out undoes a zoom in that was not clamped, and the other way round. */
  lemma ZoomInverse(q: int)
    requires InZoomRange(q)
    ensures q < MaxZoom ==> ZoomedOut(ZoomedIn(q)) == q
    ensures q > MinZoom ==> ZoomedIn(ZoomedOut(q)) == q
  {
  }

  /** The three zoom buttons. */
  datatype ZoomControl = ZoomIn | ZoomOut | Reset

  function Press(q: int, control: ZoomControl): int {
    match control
    case ZoomIn => ZoomedIn(q)
    case ZoomOut => ZoomedOut(q)
    case Reset => DefaultZoom
  }

  /** The zoom after pressing the buttons `controls`, first to last. */
  function AfterPresses(q: int, controls: seq<ZoomControl>): int
    decreases |controls|
  {
    if controls == [] then q else AfterPresses(Press(q, controls[0]), controls[1..])
  }

  /** From the initial zoom, any sequence of button presses keeps the zoom within [0.5, 2.5]. */
  lemma {:induction false} PressesStayInRange(q: int, controls: seq<ZoomControl>)
    requires InZoomRange(q)
    ensures InZoomRange(AfterPresses(q, controls))
    decreases |controls|
  {
    if controls != [] {
      PressesStayInRange(Press(q, controls[0]), controls[1..]);
    }
  }

  /** The zoom after `n` presses of zoom-in. */
  function ZoomInTimes(q: int, n: nat): int
    decreases n
  {
    if n == 0 then q else ZoomInTimes(ZoomedIn(q), n - 1)
  }

  /** The zoom after `n` presses of zoom-out. */
  function ZoomOutTimes(q: int, n: nat): int
    decreases n
  {
    if n == 0 then q else ZoomOutTimes(ZoomedOut(q), n - 1)
  }

  /** One more zoom-in press after `n` presses. */
  lemma {:induction false} ZoomInStep(q: int, n: nat)
    ensures ZoomInTimes(q, n + 1) == ZoomedIn(ZoomInTimes(q, n))
    decreases n
  {
    if n > 0 {
      ZoomInStep(ZoomedIn(q), n - 1);
    }
  }

  /** Repeated zoom-ins climb one step at a time and saturate at the maximum. */
  lemma {:induction false} ZoomInSaturates(q: int, n: nat)
    requires q <= MaxZoom
    ensures ZoomInTimes(q, n) == if q + n <= MaxZoom then q + n else MaxZoom
    decreases n
  {
    if n > 0 {
      ZoomInSaturates(ZoomedIn(q), n - 1);
    }
  }

  /** Repeated zoom-outs descend one step at a time and saturate at the minimum. */
  lemma {:induction false} ZoomOutSaturates(q: int, n: nat)
    requires q >= MinZoom
    ensures ZoomOutTimes(q, n) == if q - n >= MinZoom then q - n else MinZoom
    decreases n
  {
    if n > 0 {
      ZoomOutSaturates(ZoomedOut(q), n - 1);
    }
  }

  /** Eight zoom-ins from 1.0 give 2.5, not 3.0; eight zoom-outs give 0.5, not -1.0. */
  lemma EightPresses()
    ensures Scale(ZoomInTimes(DefaultZoom, 8)) == 2.5
    ensures Scale(ZoomOutTimes(DefaultZoom, 8)) == 0.5
  {
    ZoomInSaturates(DefaultZoom, 8);
    ZoomOutSaturates(DefaultZoom, 8);
  }

  // ---------------------------------------------------------------------
  // Tooltip placement
  // ---------------------------------------------------------------------

  /** A CSS offset of the tooltip box: `"auto"` or `"100%"` of the marker. */
  datatype Offset = Auto | Full

  /** The tooltip's horizontal style: `left`, `right`, `marginLeft`, `marginRight` (pixels). */
  datatype TooltipStyle = TooltipStyle(left: Offset, right: Offset, marginLeft: nat, marginRight: nat)

  /**
   * Markers right of 70% of the map open their tooltip on their left, all
   * others on their right; the tooltip is pinned on exactly one side and
   * keeps a 10px gap on that side only.
   */
  function TooltipPlacement(x: real): (s: TooltipStyle)
    ensures s.right == Full <==> x > 70.0
    ensures (s.left == Full) != (s.right == Full)
    ensures s.left == Auto <==> s.right == Full
    ensures s.right == Full ==> s.marginRight == 10 && s.marginLeft == 0
    ensures s.left == Full ==> s.marginLeft == 10 && s.marginRight == 0
  {
    var onLeft := x > 70.0;
    TooltipStyle(
      if onLeft then Auto else Full,
      if onLeft then Full else Auto,
      if onLeft then 0 else 10,
      if onLeft then 10 else 0)
  }

  /** A marker at x = 75 opens its tooltip on the left; at exactly x = 70, on the right. */
  lemma TooltipBoundary()
    ensures TooltipPlacement(75.0).right == Full
    ensures TooltipPlacement(70.0).left == Full
  {
  }

  // ---------------------------------------------------------------------
  // Hover highlight
  // ---------------------------------------------------------------------

  /** `hoveredPlace?.key === place.key`: nothing is highlighted while nothing is hovered. */
  predicate IsHighlighted(hovered: Option<PlaceWithMeta>, p: PlaceWithMeta)
    ensures IsHighlighted(hovered, p) ==> hovered.Some?
    ensures hovered == Some(p) ==> IsHighlighted(hovered, p)
  {
    hovered.Some? && hovered.value.key == p.key
  }

  /** Among markers with distinct keys, at most one is highlighted at a time. */
  lemma HighlightUnique(places: seq<PlaceWithMeta>, hovered: Option<PlaceWithMeta>, i: nat, j: nat)
    requires DistinctKeys(places)
    requires i < |places| && j < |places|
    requires IsHighlighted(hovered, places[i]) && IsHighlighted(hovered, places[j])
    ensures i == j
  {
    assert places[i].key == hovered.value.key == places[j].key;
  }

  // ---------------------------------------------------------------------
  // Rating stars
  // ---------------------------------------------------------------------

  const StarCount: nat := 5

  /** Star `i` (counted from 0) is filled when `i < Math.floor(rating)`: when the rating reaches `i + 1`. */
  predicate StarFilled(i: nat, rating: real)
    ensures StarFilled(i, rating) <==> (i + 1) as real <= rating
  {
    i < rating.Floor
  }

  /** The five stars of `renderStars`, true where filled. */
  function Stars(rating: real): (r: seq<bool>)
    ensures |r| == StarCount
  {
    seq(StarCount, i requires 0 <= i < StarCount => StarFilled(i, rating))
  }

  function CountFilled(s: seq<bool>): nat
    decreases |s|
  {
    if s == [] then 0 else CountFilled(s[..|s| - 1]) + (if s[|s| - 1] then 1 else 0)
  }

  function Clamp(k: int, lo: int, hi: int): int {
    if k < lo then lo else if k > hi then hi else k
  }

  /** A row whose star `i` is filled exactly when `i < k` shows `k` filled stars, clamped to the row. */
  lemma {:induction false} CountFilledPrefix(s: seq<bool>, k: int)
    requires forall i :: 0 <= i < |s| ==> (s[i] <==> i < k)
    ensures CountFilled(s) == Clamp(k, 0, |s|)
    decreases |s|
  {
    if s != [] {
      CountFilledPrefix(s[..|s| - 1], k);
    }
  }

  /**
   * The filled stars come first, and there are `floor(rating)` of them
   * (none below 1, all five from 5 up).
   */
  lemma StarsFilled(rating: real)
    ensures forall i, j :: 0 <= i < j < StarCount && Stars(rating)[j] ==> Stars(rating)[i]
    ensures CountFilled(Stars(rating)) == Clamp(rating.Floor, 0, StarCount)
  {
    CountFilledPrefix(Stars(rating), rating.Floor);
  }

  // ---------------------------------------------------------------------
  // Results count
  // ---------------------------------------------------------------------

  /** The noun after the count in "Showing N places". */
  function PlacesNoun(n: nat): (w: string)
    ensures w == "place" <==> n == 1
    ensures w == "places" <==> n != 1
  {
    if n == 1 then "place" else "places"
  }
}

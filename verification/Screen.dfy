/** From a hand-off position to a pixel and back: entry point, warp, rounding and
    re-detection (crates/ms-input-windows/src/screen.rs and inject.rs). */
module Screen {
  import opened Messages
  import opened Layout
  import opened EdgeMachine

  const EDGE_MARGIN_PX: int := 1

  datatype VirtualScreen = VirtualScreen(x: int, y: int, width: int, height: int)

  datatype Touching = Touching(edge: ScreenEdge, position: real)

  function Clamp01(v: real): real {
    if v < 0.0 then 0.0 else if v > 1.0 then 1.0 else v
  }

  /** Where pixel `p` lies along `extent` pixels that start at `origin`. */
  function Normalized(p: int, origin: int, extent: int): real {
    Clamp01((p - origin) as real / (if extent - 1 > 1 then extent - 1 else 1) as real)
  }

  function DetectEdge(x: int, y: int, b: VirtualScreen): Option<Touching> {
    var right, bottom := b.x + b.width - 1, b.y + b.height - 1;
    if x <= b.x + EDGE_MARGIN_PX then Some(Touching(Left, Normalized(y, b.y, b.height)))
    else if x >= right - EDGE_MARGIN_PX then Some(Touching(Right, Normalized(y, b.y, b.height)))
    else if y <= b.y + EDGE_MARGIN_PX then Some(Touching(Top, Normalized(x, b.x, b.width)))
    else if y >= bottom - EDGE_MARGIN_PX then Some(Touching(Bottom, Normalized(x, b.x, b.width)))
    else None
  }

  /** `f64::round`: to the nearest integer, halves away from zero. */
  function Round(v: real): int {
    if v >= 0.0 then (v + 0.5).Floor else -((-v + 0.5).Floor)
  }

  /** The platform may keep the cursor on the screen, or not. */
  function Landed(clips: bool, p: int, origin: int, extent: int): int {
    if !clips then p
    else if p < origin then origin
    else if p > origin + extent - 1 then origin + extent - 1
    else p
  }

  /** One coordinate of a warp: scaled, rounded, set. */
  function WarpTo(clips: bool, origin: int, extent: int, fraction: real): int {
    Landed(clips, Round(origin as real + fraction * extent as real), origin, extent)
  }

  /** The edge touched where an EdgeEnter puts the cursor. */
  function Redetected(clips: bool, b: VirtualScreen, edge: ScreenEdge, position: real): Option<Touching> {
    DetectEdge(WarpTo(clips, b.x, b.width, EdgeEntryX(edge, position)),
               WarpTo(clips, b.y, b.height, EdgeEntryY(edge, position)), b)
  }

  /** `q` is within the rounding error of `p` along `extent` pixels. */
  predicate WithinDrift(q: real, p: real, extent: int)
    requires extent >= 2
  {
    -0.5 / (extent - 1) as real <= q - p <= 1.5 / (extent - 1) as real
  }

  /** How many pixels the edge itself has. */
  function EdgeLength(b: VirtualScreen, edge: ScreenEdge): int {
    if edge.Left? || edge.Right? then b.height else b.width
  }

  // ----- Detection -----

  /** A cursor two pixels or more inside on every side touches nothing; any other touches
      one edge, the left before the right, both before the top, that before the bottom,
      at its distance along that edge, from 0 at the first pixel to 1 at the last. */
  lemma DetectExactly(x: int, y: int, b: VirtualScreen)
    requires b.width >= 2 && b.height >= 2
    ensures var seen := DetectEdge(x, y, b);
            var along := (p: int, origin: int, extent: int) =>
                           if p <= origin then 0.0
                           else if p >= origin + extent - 1 then 1.0
                           else (p - origin) as real / (extent - 1) as real;
            && (seen == None <==> b.x + 1 < x < b.x + b.width - 2 && b.y + 1 < y < b.y + b.height - 2)
            && (seen.Some? ==>
                  seen.value ==
                  if x <= b.x + 1 then Touching(Left, along(y, b.y, b.height))
                  else if x >= b.x + b.width - 2 then Touching(Right, along(y, b.y, b.height))
                  else if y <= b.y + 1 then Touching(Top, along(x, b.x, b.width))
                  else Touching(Bottom, along(x, b.x, b.width)))
  {
    NormalizedIsAlong(x, b.x, b.width);
    NormalizedIsAlong(y, b.y, b.height);
  }

  lemma NormalizedIsAlong(p: int, origin: int, extent: int)
    requires extent >= 2
    ensures Normalized(p, origin, extent)
         == if p <= origin then 0.0 else if p >= origin + extent - 1 then 1.0
            else (p - origin) as real / (extent - 1) as real
  {
    var d := (extent - 1) as real;
    if p <= origin {
      OrderedQuotients((p - origin) as real, 0.0, d);
      assert 0.0 / d == 0.0;
    } else if p >= origin + extent - 1 {
      OrderedQuotients(d, (p - origin) as real, d);
      assert d / d == 1.0;
    } else {
      OrderedQuotients(0.0, (p - origin) as real, d);
      OrderedQuotients((p - origin) as real, d, d);
      assert 0.0 / d == 0.0 && d / d == 1.0;
    }
  }

  // ----- Rounding -----

  /** The nearest integer; halfway, the one further from zero. */
  lemma RoundExactly(v: real, n: int)
    ensures Round(v) == n <==> if v >= 0.0 then n as real - 0.5 <= v < n as real + 0.5
                               else n as real - 0.5 < v <= n as real + 0.5
  {
  }


  lemma RoundNear(v: real)
    ensures -0.5 <= Round(v) as real - v <= 0.5
  {
  }

  lemma RoundWhole(n: int)
    ensures Round(n as real) == n
  {
  }

  lemma Distance(v: real, p: real)
    requires 0.0 <= p <= 1.0
    ensures Clamp01(v) <= p ==> p - Clamp01(v) <= (if v <= p then p - v else 0.0)
    ensures Clamp01(v) >= p ==> Clamp01(v) - p <= (if v >= p then v - p else 0.0)
  {
  }

  /** Keeping the cursor on the screen does not change the position it reads as. */
  lemma ClippingIsInvisible(p: int, origin: int, extent: int)
    requires extent >= 2
    ensures Normalized(Landed(true, p, origin, extent), origin, extent) == Normalized(p, origin, extent)
  {
    var d := (extent - 1) as real;
    if p < origin {
      assert (p - origin) as real / d < 0.0;
      assert 0.0 / d == 0.0;
    } else if p > origin + extent - 1 {
      assert (p - origin) as real / d > 1.0 by {
        QuotientAbove((p - origin) as real, d);
      }
      assert (extent - 1) as real / d == 1.0;
    }
  }

  lemma QuotientAbove(n: real, d: real)
    requires n > d > 0.0
    ensures n / d > 1.0
  {
    assert n / d - d / d == (n - d) / d;
    assert (n - d) / d > 0.0;
  }

  /** Scaled by `extent`, rounded, and divided by `extent - 1`: within 1.5 / (extent - 1)
      of where it started, wherever the screen begins and whether or not it clips. */
  lemma PositionDrift(clips: bool, origin: int, extent: int, p: real)
    requires extent >= 2 && 0.0 <= p <= 1.0
    ensures var q := Normalized(WarpTo(clips, origin, extent, p), origin, extent);
            0.0 <= q <= 1.0 && WithinDrift(q, p, extent)
  {
    var v := origin as real + p * extent as real;
    RoundNear(v);
    ClippingIsInvisible(Round(v), origin, extent);
    var raw := (Round(v) - origin) as real / (extent - 1) as real;
    PixelDrift(origin, extent, p, Round(v));
    Distance(raw, p);
    OrderedQuotients(-0.5, 0.0, (extent - 1) as real);
    OrderedQuotients(0.0, 1.5, (extent - 1) as real);
  }

  /** A pixel within half of the scaled position, read back without clamping. */
  lemma PixelDrift(origin: int, extent: int, p: real, pixel: int)
    requires extent >= 2 && 0.0 <= p <= 1.0
    requires -0.5 <= pixel as real - (origin as real + p * extent as real) <= 0.5
    ensures var d := (extent - 1) as real;
            -0.5 / d <= (pixel - origin) as real / d - p <= 1.5 / d
  {
    var d := (extent - 1) as real;
    var error := pixel as real - (origin as real + p * extent as real);
    assert p * extent as real == p * d + p;
    assert (pixel - origin) as real == p * d + (p + error);
    DriftArithmetic(p, error, d);
  }

  lemma DriftArithmetic(p: real, error: real, d: real)
    requires d > 0.0 && 0.0 <= p <= 1.0 && -0.5 <= error <= 0.5
    ensures (p * d + (p + error)) / d - p == (p + error) / d
    ensures -0.5 / d <= (p + error) / d <= 1.5 / d
  {
    assert (p * d + (p + error)) / d == p * d / d + (p + error) / d;
    assert p * d / d == p;
    OrderedQuotients(-0.5, p + error, d);
    OrderedQuotients(p + error, 1.5, d);
  }

  lemma OrderedQuotients(a: real, b: real, d: real)
    requires a <= b && d > 0.0
    ensures a / d <= b / d
  {
    assert b / d - a / d == (b - a) / d;
  }

  // ----- Re-detection -----

  /** A warp to either end of an axis lands on the first pixel, or one past the last. */
  lemma WarpToEnd(clips: bool, origin: int, extent: int)
    requires extent >= 1
    ensures WarpTo(clips, origin, extent, 0.0) == origin
    ensures WarpTo(clips, origin, extent, 1.0) == if clips then origin + extent - 1 else origin + extent
  {
    RoundWhole(origin);
    RoundWhole(origin + extent);
    assert origin as real + 0.0 * extent as real == origin as real;
    assert origin as real + 1.0 * extent as real == (origin + extent) as real;
  }

  /** Entering on the left is always seen as the left edge; entering on the right as
      the right edge exactly on screens wide enough to have two sides. */
  lemma SideRedetected(clips: bool, b: VirtualScreen, edge: ScreenEdge, p: real)
    requires b.width >= 1 && (edge.Left? || edge.Right?)
    ensures var seen := Redetected(clips, b, edge, p);
            && (seen.Some? && seen.value.edge == edge
                <==> edge.Left? || b.width >= (if clips then 3 else 2))
            && (seen.Some? && seen.value.edge == edge ==>
                  seen.value.position == Normalized(WarpTo(clips, b.y, b.height, p), b.y, b.height))
  {
    WarpToEnd(clips, b.x, b.width);
  }

  /** Entering on the top or the bottom is seen as that edge exactly if the landing
      pixel is outside both side margins (and the bottom outside the top margin). */
  lemma CapRedetected(clips: bool, b: VirtualScreen, edge: ScreenEdge, p: real)
    requires b.height >= 1 && (edge.Top? || edge.Bottom?)
    ensures var seen := Redetected(clips, b, edge, p);
            var x := WarpTo(clips, b.x, b.width, p);
            && (seen.Some? && seen.value.edge == edge
                <==> b.x + 1 < x < b.x + b.width - 2
                     && (edge.Top? || b.height >= (if clips then 3 else 2)))
            && (seen.Some? && seen.value.edge == edge ==> seen.value.position == Normalized(x, b.x, b.width))
  {
    WarpToEnd(clips, b.y, b.height);
  }

  /** The position along the edge that the cursor was put at, as it reads back. */
  function ReadBack(clips: bool, b: VirtualScreen, edge: ScreenEdge, p: real): real {
    if edge.Left? || edge.Right? then Normalized(WarpTo(clips, b.y, b.height, p), b.y, b.height)
    else Normalized(WarpTo(clips, b.x, b.width, p), b.x, b.width)
  }

  /** Which edge an entry on `edge` is seen at. */
  function SeenEdge(clips: bool, b: VirtualScreen, edge: ScreenEdge, p: real): ScreenEdge {
    var twoSided := if clips then 3 else 2;
    match edge
    case Left => Left
    case Right => if b.width >= twoSided then Right else Left
    case _ =>
      var x := WarpTo(clips, b.x, b.width, p);
      if x <= b.x + EDGE_MARGIN_PX then Left
      else if x >= b.x + b.width - 1 - EDGE_MARGIN_PX then Right
      else if edge.Bottom? && b.height >= twoSided then Bottom
      else Top
  }

  /** And at which position: where it was put along the same axis, or, near a corner,
      at the end of the side it is next to. */
  function SeenAt(clips: bool, b: VirtualScreen, edge: ScreenEdge, p: real): real {
    var seen := SeenEdge(clips, b, edge, p);
    if (edge.Top? || edge.Bottom?) && (seen.Left? || seen.Right?) then (if edge.Top? then 0.0 else 1.0)
    else ReadBack(clips, b, edge, p)
  }

  lemma NormalizedEnds(clips: bool, origin: int, extent: int)
    requires extent >= 2
    ensures Normalized(WarpTo(clips, origin, extent, 0.0), origin, extent) == 0.0
    ensures Normalized(WarpTo(clips, origin, extent, 1.0), origin, extent) == 1.0
  {
    WarpToEnd(false, origin, extent);
    WarpToEnd(clips, origin, extent);
    ClippingIsInvisible(origin + extent, origin, extent);
    var d := (extent - 1) as real;
    assert 0.0 / d == 0.0;
    QuotientAbove(extent as real, d);
  }

  /** Every entry is seen, at that edge and position and no other. */
  lemma EntrySeen(clips: bool, b: VirtualScreen, edge: ScreenEdge, p: real)
    requires b.width >= 2 && b.height >= 2
    ensures Redetected(clips, b, edge, p) == Some(Touching(SeenEdge(clips, b, edge, p), SeenAt(clips, b, edge, p)))
  {
    WarpToEnd(clips, b.x, b.width);
    WarpToEnd(clips, b.y, b.height);
    NormalizedEnds(clips, b.y, b.height);
  }

  /** Along any edge the position reads back within the rounding error. */
  lemma ReadBackDrift(clips: bool, b: VirtualScreen, edge: ScreenEdge, p: real)
    requires b.width >= 2 && b.height >= 2 && 0.0 <= p <= 1.0
    ensures WithinDrift(ReadBack(clips, b, edge, p), p, EdgeLength(b, edge))
  {
    if edge.Left? || edge.Right? {
      PositionDrift(clips, b.y, b.height, p);
    } else {
      PositionDrift(clips, b.x, b.width, p);
    }
  }

  lemma {:induction false} EntrySees(clips: bool, b: VirtualScreen, edge: ScreenEdge, p: real)
    requires b.width >= 1 && b.height >= 1
    requires Redetected(clips, b, edge, p).Some? && Redetected(clips, b, edge, p).value.edge == edge
    ensures Redetected(clips, b, edge, p).value.position == ReadBack(clips, b, edge, p)
  {
    if edge.Left? || edge.Right? {
      SideRedetected(clips, b, edge, p);
    } else {
      CapRedetected(clips, b, edge, p);
    }
  }

  /** Wherever the entered edge is seen again, it is seen within the drift of where
      the hand-off put the cursor. */
  lemma {:induction false} EntryDrift(clips: bool, b: VirtualScreen, edge: ScreenEdge, p: real)
    requires b.width >= 2 && b.height >= 2 && 0.0 <= p <= 1.0
    requires Redetected(clips, b, edge, p).Some? && Redetected(clips, b, edge, p).value.edge == edge
    ensures WithinDrift(Redetected(clips, b, edge, p).value.position, p, EdgeLength(b, edge))
  {
    ReadBackDrift(clips, b, edge, p);
    EntrySees(clips, b, edge, p);
    SameDrift(ReadBack(clips, b, edge, p), Redetected(clips, b, edge, p).value.position, p, EdgeLength(b, edge));
  }

  lemma SameDrift(q: real, r: real, p: real, extent: int)
    requires extent >= 2 && q == r && WithinDrift(q, p, extent)
    ensures WithinDrift(r, p, extent)
  {
  }

  /** A cursor that enters at a position at least the drift inside the live boundary
      and is seen at the entered edge resolves back to where it came from. */
  lemma {:induction false} EntryResolvesBack(a: Arrangement, from: DeviceId, edge: ScreenEdge, p: real, clips: bool, b: VirtualScreen)
    requires WellFormed(a) && Resolve(a, from, edge, p).Some?
    requires b.width >= 2 && b.height >= 2
    requires var link := Resolve(a, from, edge, p).value;
             var span := (EdgeLength(b, link.toEdge) - 1) as real;
             var seen := Redetected(clips, b, link.toEdge, p);
             && link.boundaryStart <= p + -0.5 / span && p + 1.5 / span <= link.boundaryEnd
             && seen.Some? && seen.value.edge == link.toEdge
    ensures var link := Resolve(a, from, edge, p).value;
            Resolve(a, link.to, link.toEdge, Redetected(clips, b, link.toEdge, p).value.position) == Some(link.Mirror())
  {
    var link := Resolve(a, from, edge, p).value;
    ResolveIsLookup(a, from, edge, p, link);
    assert LinkSound(a, link);
    EntryDrift(clips, b, link.toEdge, p);
    ResolveInvolution(a, from, edge, p, Redetected(clips, b, link.toEdge, p).value.position);
  }
}

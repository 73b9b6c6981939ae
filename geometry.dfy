/**
 * The placement arithmetic of BackgroundBlurPopupWindow: the four edges of
 * the darkened region, the five anchor slots, how each setter derives edges
 * from an anchor's on-screen box, how `checkPosition` re-applies live
 * anchors with its zero-sentinel rule, and the two rectangles derived from
 * the edges (the blur clip and the dark window's layout).
 *
 * Naming follows the source: `rightOf` is the LEFT x-edge of the dark box
 * (the box lies right of an anchor), `leftOf` its right x-edge, `below` its
 * top y-edge and `above` its bottom y-edge.
 */
module Geometry {
  import opened JavaInt
  import opened Wrappers

  /** Identifies a host view that may serve as an anchor. */
  type AnchorId = nat

  /** What `getLocationInWindow`, `getWidth` and `getHeight` report for a live view. */
  datatype Box = Box(x: Int32, y: Int32, w: Int32, h: Int32)

  /**
   * The host's views as seen through weak references: an anchor that is
   * absent or maps to None has been collected.
   */
  type Host = map<AnchorId, Option<Box>>

  /** Dereferences an anchor slot: a box only for a recorded, still-live referent. */
  function Lookup(host: Host, slot: Option<AnchorId>): (r: Option<Box>)
    ensures r.Some? <==> slot.Some? && slot.value in host && host[slot.value].Some?
    ensures r.Some? ==> host[slot.value] == r
  {
    if slot.Some? && slot.value in host then host[slot.value] else None
  }

  /** The five placement roles, one anchor slot each. */
  datatype Role = RightOf | LeftOf | Above | Below | Fill {
    predicate Directional() { this != Fill }
  }

  /** The fields mRightOf, mLeftOf, mAbove, mBelow. */
  datatype Edges = Edges(rightOf: Int32, leftOf: Int32, above: Int32, below: Int32)

  /** The anchor slots mRightOfPositionView ... mFillPositionView; None is a null slot. */
  datatype Anchors = Anchors(
    rightOf: Option<AnchorId>,
    leftOf: Option<AnchorId>,
    above: Option<AnchorId>,
    below: Option<AnchorId>,
    fill: Option<AnchorId>)

  const NoAnchors: Anchors := Anchors(None, None, None, None, None)

  /** The edge a directional role owns. */
  function EdgeOf(e: Edges, role: Role): Int32
    requires role.Directional()
  {
    match role
    case RightOf => e.rightOf
    case LeftOf => e.leftOf
    case Above => e.above
    case Below => e.below
  }

  function SlotOf(an: Anchors, role: Role): Option<AnchorId> {
    match role
    case RightOf => an.rightOf
    case LeftOf => an.leftOf
    case Above => an.above
    case Below => an.below
    case Fill => an.fill
  }

  /** `darkFillScreen`: the dark region covers the whole screen. */
  function FullScreen(width: Int32, height: Int32): (r: Edges)
    ensures r.rightOf == 0 && r.below == 0
    ensures Claimable(r, Fill) <==> width == 0 || height == 0
  {
    Edges(0, width, height, 0)
  }

  /** The edge value a directional setter derives from its anchor's box. */
  function Derived(role: Role, b: Box): Int32
    requires role.Directional()
  {
    match role
    case RightOf => Add(b.x, b.w)
    case LeftOf => b.x
    case Above => b.y
    case Below => Add(b.y, b.h)
  }

  /**
   * The edge update of a placement setter (`darkRightOf`, `drakLeftOf`,
   * `darkAbove`, `darkBelow`, `drakFillView`) given the anchor's box.
   */
  function Place(e: Edges, role: Role, b: Box): (r: Edges)
    ensures role.Directional() ==> EdgeOf(r, role) == Derived(role, b)
    ensures role.Directional() ==>
      forall other: Role :: other.Directional() && other != role ==> EdgeOf(r, other) == EdgeOf(e, other)
    ensures role == Fill ==>
      r.rightOf == b.x && r.below == b.y && Add(b.x, b.w) == r.leftOf && Add(b.y, b.h) == r.above
  {
    match role
    case RightOf => e.(rightOf := Add(b.x, b.w))
    case LeftOf => e.(leftOf := b.x)
    case Above => e.(above := b.y)
    case Below => e.(below := Add(b.y, b.h))
    case Fill => Edges(b.x, Add(b.x, b.w), Add(b.y, b.h), b.y)
  }

  /** A setter records its anchor in its own slot and leaves the other four alone. */
  function Record(an: Anchors, role: Role, a: AnchorId): (r: Anchors)
    ensures SlotOf(r, role) == Some(a)
    ensures forall other: Role :: other != role ==> SlotOf(r, other) == SlotOf(an, other)
  {
    match role
    case RightOf => an.(rightOf := Some(a))
    case LeftOf => an.(leftOf := Some(a))
    case Above => an.(above := Some(a))
    case Below => an.(below := Some(a))
    case Fill => an.(fill := Some(a))
  }

  /**
   * The zero-sentinel rule of the `checkPosition*` helpers: a directional
   * edge is re-derived only while it equals 0; the fill box only while
   * leftOf OR above equals 0.
   */
  predicate Claimable(e: Edges, role: Role) {
    if role == Fill then e.leftOf == 0 || e.above == 0 else EdgeOf(e, role) == 0
  }

  /** One `checkPosition*` helper: re-apply a live anchor whose role is claimable. */
  function Reapply(e: Edges, role: Role, slot: Option<AnchorId>, host: Host): (r: Edges)
    ensures Lookup(host, slot).None? || !Claimable(e, role) ==> r == e
    ensures Lookup(host, slot).Some? && Claimable(e, role) ==> r == Place(e, role, Lookup(host, slot).value)
    ensures role.Directional() ==>
      forall other: Role :: other.Directional() && other != role ==> EdgeOf(r, other) == EdgeOf(e, other)
  {
    match Lookup(host, slot)
    case None => e
    case Some(b) => if Claimable(e, role) then Place(e, role, b) else e
  }

  /** `checkPosition`: the helpers in the order left, right, below, above, fill. */
  function Recheck(e: Edges, an: Anchors, host: Host): (r: Edges)
    ensures Lookup(host, an.fill).None? ==>
      forall role: Role :: role.Directional() ==> EdgeOf(r, role) == Redirected(e, role, an, host)
  {
    var afterLeft := Reapply(e, LeftOf, an.leftOf, host);
    var afterRight := Reapply(afterLeft, RightOf, an.rightOf, host);
    var afterBelow := Reapply(afterRight, Below, an.below, host);
    var afterAbove := Reapply(afterBelow, Above, an.above, host);
    Reapply(afterAbove, Fill, an.fill, host)
  }

  /**
   * Reference definition of one directional edge after `checkPosition`,
   * stated per edge: derived from the anchor when the anchor is live and
   * the edge is 0, otherwise the edge as it was.
   */
  function Redirected(e: Edges, role: Role, an: Anchors, host: Host): Int32
    requires role.Directional()
  {
    match Lookup(host, SlotOf(an, role))
    case Some(b) => if EdgeOf(e, role) == 0 then Derived(role, b) else EdgeOf(e, role)
    case None => EdgeOf(e, role)
  }

  /**
   * `checkPosition` edge by edge: the four directional helpers touch
   * disjoint edges, so each edge depends only on its own anchor; the fill
   * anchor then overwrites all four when it is live and leftOf or above is
   * still 0.
   */
  lemma RecheckByEdge(e: Edges, an: Anchors, host: Host)
    ensures var d := Edges(Redirected(e, RightOf, an, host), Redirected(e, LeftOf, an, host),
                           Redirected(e, Above, an, host), Redirected(e, Below, an, host));
            Recheck(e, an, host) ==
              match Lookup(host, an.fill)
              case Some(b) => if d.leftOf == 0 || d.above == 0 then Place(d, Fill, b) else d
              case None => d
  {
  }

  /** An edge that is not 0 is not re-derived, unless the fill anchor fires. */
  lemma RecheckKeepsSetEdges(e: Edges, an: Anchors, host: Host, role: Role)
    requires role.Directional() && EdgeOf(e, role) != 0
    requires Lookup(host, an.fill).None? || (e.leftOf != 0 && e.above != 0)
    ensures EdgeOf(Recheck(e, an, host), role) == EdgeOf(e, role)
  {
    RecheckByEdge(e, an, host);
  }

  /** With no live anchor, `checkPosition` changes nothing. */
  lemma RecheckDeadAnchors(e: Edges, an: Anchors, host: Host)
    requires forall role: Role :: Lookup(host, SlotOf(an, role)).None?
    ensures Recheck(e, an, host) == e
  {
    assert Lookup(host, SlotOf(an, LeftOf)).None? && Lookup(host, SlotOf(an, RightOf)).None?;
    assert Lookup(host, SlotOf(an, Above)).None? && Lookup(host, SlotOf(an, Below)).None?;
    assert Lookup(host, SlotOf(an, Fill)).None?;
  }

  /**
   * Directional setters for different roles commute: `darkRightOf(A)` then
   * `darkAbove(B)` gives the same edges as the other order.
   */
  lemma PlaceCommutes(e: Edges, r1: Role, b1: Box, r2: Role, b2: Box)
    requires r1.Directional() && r2.Directional() && r1 != r2
    ensures Place(Place(e, r1, b1), r2, b2) == Place(Place(e, r2, b2), r1, b1)
  {
  }

  /** A later setter for the same role wins; the earlier box leaves no trace. */
  lemma PlaceLastWins(e: Edges, role: Role, b1: Box, b2: Box)
    ensures Place(Place(e, role, b1), role, b2) == Place(e, role, b2)
  {
  }

  /** Java's `android.graphics.Rect` as set by `setBlurRect`. */
  datatype Rect = Rect(left: Int32, top: Int32, right: Int32, bottom: Int32)

  /** `Rect.width()` and `Rect.height()`, computed in Java ints. */
  function Width(r: Rect): Int32 { Sub(r.right, r.left) }
  function Height(r: Rect): Int32 { Sub(r.bottom, r.top) }

  /** The blur clip rectangle handed to the engine and the blur view's top padding. */
  datatype BlurClip = BlurClip(rect: Rect, padTop: Int32)

  /**
   * The status-bar correction at the end of `checkPosition`: the clip is
   * taken in content coordinates, `fix` below window coordinates. When the
   * dark box starts at or above the status bar, the clip starts at 0 and
   * the blur view is padded by `fix` instead.
   */
  function ClipOf(e: Edges, fix: Int32): (c: BlurClip)
    ensures c.rect.left == e.rightOf && c.rect.right == e.leftOf
    ensures 0 <= c.rect.top && 0 <= c.rect.bottom
    ensures Sub(e.below, fix) <= 0 ==> c.rect.top == 0 && c.padTop == fix
    ensures Sub(e.below, fix) > 0 ==> c.rect.top == Sub(e.below, fix) && c.padTop == 0
    ensures c.rect.bottom == Sub(e.above, fix) || (c.rect.bottom == 0 && Sub(e.above, fix) <= 0)
  {
    var top := Sub(e.below, fix);
    var bottom := Sub(e.above, fix);
    if top <= 0 then BlurClip(Rect(e.rightOf, 0, e.leftOf, if bottom > 0 then bottom else 0), fix)
    else BlurClip(Rect(e.rightOf, top, e.leftOf, if bottom > 0 then bottom else 0), 0)
  }

  function Max0(v: int): int { if v > 0 then v else 0 }

  /**
   * Without overflow the clip is the dark box shifted up by the inset and
   * cut at the content's top edge; the padding is exactly the part cut off
   * when the box reaches into the status bar.
   */
  lemma ClipShiftsByInset(e: Edges, fix: Int32)
    requires 0 <= fix
    requires MIN <= e.below - fix && MIN <= e.above - fix
    ensures ClipOf(e, fix).rect.top == Max0(e.below - fix)
    ensures ClipOf(e, fix).rect.bottom == Max0(e.above - fix)
    ensures ClipOf(e, fix).padTop == (if e.below <= fix then fix else 0)
  {
  }

  /** The x, y, width and height written into the dark window's layout params. */
  datatype DarkLayout = DarkLayout(x: Int32, y: Int32, width: Int32, height: Int32)

  /**
   * `computeDarkLayout`: the dark window starts at (rightOf, below) and
   * ends exactly at (leftOf, above), even where the width or height
   * overflows a Java int.
   */
  function LayoutOf(e: Edges): (l: DarkLayout)
    ensures l.x == e.rightOf && l.y == e.below
    ensures Add(l.x, l.width) == e.leftOf && Add(l.y, l.height) == e.above
  {
    AddSubCancel(e.rightOf, e.leftOf);
    AddSubCancel(e.below, e.above);
    DarkLayout(e.rightOf, e.below, Sub(e.leftOf, e.rightOf), Sub(e.above, e.below))
  }

  /** A full-screen dark region lays out as the whole screen. */
  lemma FullScreenLayout(width: Int32, height: Int32)
    ensures LayoutOf(FullScreen(width, height)) == DarkLayout(0, 0, width, height)
  {
  }
}

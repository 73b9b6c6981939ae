/**
 * Concrete uses of the window, after the sample activity's click handlers:
 * each resets the placement, sets anchors, and shows the popup.
 */
module Scenarios {
  import opened JavaInt
  import opened Wrappers
  import opened Geometry
  import opened BlurEngine
  import opened PopupWindow

  /**
   * On a 1080x1920 screen, `darkBelow` of an anchor at (100, 100) of size
   * 200x50 moves the top edge to 150; `darkFillScreen` restores the full
   * screen.
   */
  method BelowThenFillScreen() returns (afterBelow: Edges, afterFill: Edges)
    ensures afterBelow == Edges(0, 1080, 1920, 150)
    ensures afterFill == Edges(0, 1080, 1920, 0)
  {
    var w := new BackgroundBlurPopupWindow(true, 1080, 1920, true, false, false, 63);
    w.DarkBelow(1, Box(100, 100, 200, 50));
    afterBelow := w.Edges();
    w.DarkFillScreen();
    afterFill := w.Edges();
  }

  /**
   * `resetDarkPosition` called twice leaves the same edges and anchors as
   * called once, and those are the ones of a freshly built window.
   */
  method ResetTwiceIsFresh(a: AnchorId, b: Box, width: Int32, height: Int32)
    returns (once: (Edges, Anchors), twice: (Edges, Anchors), pristine: (Edges, Anchors))
    ensures once == twice == pristine
    ensures pristine == (FullScreen(width, height), NoAnchors)
  {
    var w := new BackgroundBlurPopupWindow(true, width, height, true, false, false, 0);
    w.DarkRightOf(a, b);
    w.DrakFillView(a, b);
    w.ResetDarkPosition();
    once := (w.Edges(), w.Anchors());
    w.ResetDarkPosition();
    twice := (w.Edges(), w.Anchors());
    var v := new BackgroundBlurPopupWindow(true, width, height, true, false, false, 0);
    pristine := (v.Edges(), v.Anchors());
  }

  /**
   * The "center" button: four directional anchors compose into one box
   * between them. When no derived edge is 0, showing re-derives nothing,
   * whether or not the anchors are still live, and the dark window
   * spans exactly from the left button's right edge to the right button's
   * left edge, and from the top button's bottom edge to the bottom
   * button's top edge.
   */
  method CenterButton(host: Host, top: AnchorId, bottom: AnchorId, left: AnchorId, right: AnchorId,
                      topBox: Box, bottomBox: Box, leftBox: Box, rightBox: Box,
                      width: Int32, height: Int32)
    returns (shown: Edges, layout: DarkLayout)
    requires Add(leftBox.x, leftBox.w) != 0 && rightBox.x != 0 && bottomBox.y != 0 && Add(topBox.y, topBox.h) != 0
    ensures shown == Edges(Add(leftBox.x, leftBox.w), rightBox.x, bottomBox.y, Add(topBox.y, topBox.h))
    ensures layout.x == Add(leftBox.x, leftBox.w) && Add(layout.x, layout.width) == rightBox.x
    ensures layout.y == Add(topBox.y, topBox.h) && Add(layout.y, layout.height) == bottomBox.y
  {
    var w := new BackgroundBlurPopupWindow(true, width, height, true, false, false, 63);
    PlaceBetween(w, top, bottom, left, right, topBox, bottomBox, leftBox, rightBox);
    ghost var placed := w.Edges();
    CenterRecheck(placed, w.Anchors(), host, top, bottom, left, right);
    w.Show(host);
    shown := w.Edges();
    layout := w.darkLP.layout;
  }

  /** The four setter calls of the "center" button, after a reset. */
  method PlaceBetween(w: BackgroundBlurPopupWindow, top: AnchorId, bottom: AnchorId, left: AnchorId, right: AnchorId,
                      topBox: Box, bottomBox: Box, leftBox: Box, rightBox: Box)
    requires w.Valid()
    modifies w`rightOf, w`leftOf, w`above, w`below
    modifies w`rightOfAnchor, w`leftOfAnchor, w`aboveAnchor, w`belowAnchor, w`fillAnchor, w.location
    ensures w.Edges() == Edges(Add(leftBox.x, leftBox.w), rightBox.x, bottomBox.y, Add(topBox.y, topBox.h))
    ensures w.Anchors() == Anchors(Some(left), Some(right), Some(bottom), Some(top), None)
  {
    w.ResetDarkPosition();
    w.DrakLeftOf(right, rightBox);
    w.DarkRightOf(left, leftBox);
    w.DarkAbove(bottom, bottomBox);
    w.DarkBelow(top, topBox);
  }

  /** Directional anchors over non-zero edges, and no fill anchor: nothing is re-derived. */
  lemma CenterRecheck(e: Edges, an: Anchors, host: Host, top: AnchorId, bottom: AnchorId, left: AnchorId, right: AnchorId)
    requires an == Anchors(Some(left), Some(right), Some(bottom), Some(top), None)
    requires e.rightOf != 0 && e.leftOf != 0 && e.above != 0 && e.below != 0
    ensures Recheck(e, an, host) == e
  {
    RecheckByEdge(e, an, host);
  }

  /**
   * An anchor collected between `darkRightOf` and showing is skipped: the
   * left edge keeps the value derived when the anchor was set; it does not
   * fall back to the screen's left edge.
   */
  method RightOfCollectedBeforeShow(a: AnchorId, b: Box, width: Int32, height: Int32)
    returns (shown: Edges)
    ensures shown == Edges(Add(b.x, b.w), width, height, 0)
  {
    var w := new BackgroundBlurPopupWindow(true, width, height, true, false, false, 0);
    w.ResetDarkPosition();
    w.DarkRightOf(a, b);
    var host: Host := map[a := None];
    w.Show(host);
    shown := w.Edges();
  }

  /**
   * The "view" button: `drakFillView` then show. A live fill anchor is
   * re-applied only if its box ends at x = 0 or y = 0, and then with the
   * same box, so the dark window is the anchor's box either way.
   */
  method FillViewButton(host: Host, view: AnchorId, box: Box, width: Int32, height: Int32)
    returns (shown: Edges)
    requires view in host && host[view] == Some(box)
    ensures shown == Place(FullScreen(width, height), Fill, box)
  {
    var w := new BackgroundBlurPopupWindow(true, width, height, true, false, false, 0);
    w.ResetDarkPosition();
    w.DrakFillView(view, box);
    w.Show(host);
    shown := w.Edges();
  }

  /**
   * The zero sentinel cannot tell "unset" from "derived as 0": a leftOf
   * anchor whose view starts at x = 0 leaves leftOf at 0, so a live fill
   * anchor then overwrites all four edges, including the one the rightOf
   * anchor set.
   */
  lemma ZeroEdgeLetsFillOverride(e: Edges, host: Host, l: AnchorId, r: AnchorId, f: AnchorId,
                                 lBox: Box, rBox: Box, fBox: Box)
    requires l in host && host[l] == Some(lBox) && lBox.x == 0
    requires r in host && host[r] == Some(rBox)
    requires f in host && host[f] == Some(fBox)
    requires e.leftOf == 0
    ensures Recheck(e, Anchors(Some(r), Some(l), None, None, Some(f)), host) == Place(e, Fill, fBox)
  {
    RecheckByEdge(e, Anchors(Some(r), Some(l), None, None, Some(f)), host);
  }

  /**
   * A live fill anchor does not override left and above edges that are
   * already set to non-zero values, whether or not their own anchors are
   * live; the rightOf and below anchors are re-applied as usual.
   */
  lemma FillYieldsToSetEdges(e: Edges, an: Anchors, host: Host)
    requires e.leftOf != 0 && e.above != 0
    ensures Recheck(e, an, host) ==
      Edges(Redirected(e, RightOf, an, host), e.leftOf, e.above, Redirected(e, Below, an, host))
  {
    RecheckByEdge(e, an, host);
  }

  /**
   * A first show with an activity resumes the engine; when its task then
   * runs to completion, the engine shows the blurred capture of the clip
   * that the show computed, blurred with the window's settings.
   */
  method ShowThenPublish(host: Host, width: Int32, height: Int32, statusBarHeight: Int32)
    returns (published: Option<Bitmap>)
    requires 0 <= statusBarHeight
    ensures published == Some(Blurred(
      CaptureOf(ClipOf(Recheck(FullScreen(width, height), NoAnchors, host),
                       StatusBarFix(false, false, statusBarHeight)).rect),
      BlurConfig(WINDOW_BLUR_RADIUS, WINDOW_DOWN_SCALE_FACTOR, true)))
  {
    var w := new BackgroundBlurPopupWindow(true, width, height, true, false, false, statusBarHeight);
    w.Show(host);
    var t := w.engine.task;
    var r := t.DoInBackground(w.engine.Config());
    w.engine.OnPostExecute(t, r);
    published := w.engine.shown;
  }
}

/**
 * BackgroundBlurPopupWindow: a popup that, when shown, adds a dark (and
 * optionally blurred) window behind itself over a region bounded by
 * anchor views. The four edges and five anchor slots are fields that the
 * placement setters and `checkPosition` overwrite; show and dismiss toggle
 * `isDarkShowing` and drive the blur engine.
 *
 * The host is a map from anchor to its current box (None once collected);
 * the window manager is the flag `darkAdded`; the base PopupWindow is the
 * flag `popupShowing`, which a base show sets when there is content and a
 * base dismissal clears.
 */
module PopupWindow {
  import opened JavaInt
  import opened Wrappers
  import opened Geometry
  import opened BlurEngine
  import Overlay

  /** The window's own DEFAULT_BLUR_RADIUS and DEFAULT_BLUR_DOWN_SCALE_FACTOR, applied to its engine. */
  const WINDOW_BLUR_RADIUS: Int32 := 6
  const WINDOW_DOWN_SCALE_FACTOR: real := 1.0
  /** Duration, in milliseconds, the window passes to its engine. */
  const ENGINE_ANIMATION_DURATION: int := 300
  /** `WindowManager.LayoutParams.MATCH_PARENT`. */
  const MATCH_PARENT: Int32 := -1

  /** `windowAnimations` of the dark layout: unset, the library's DarkAnimation, or a caller's style. */
  datatype WindowAnimation = Unset | DarkAnimation | Style(id: int)

  /** `computeDarkAnimation`: the library default while the style is -1, else the caller's style. */
  function DarkAnimationOf(darkStyle: int): (a: WindowAnimation)
    ensures a == DarkAnimation <==> darkStyle == -1
    ensures a != DarkAnimation ==> a == Style(darkStyle)
  {
    if darkStyle == -1 then DarkAnimation else Style(darkStyle)
  }

  /** The part of mDarkLP the window writes. */
  datatype LayoutParams = LayoutParams(layout: DarkLayout, animation: WindowAnimation)

  /**
   * The status-bar inset `initBlurEngine` records: the status bar's height
   * unless the activity is full-screen or has a translucent status bar.
   */
  function StatusBarFix(fullScreen: bool, translucentStatus: bool, statusBarHeight: Int32): (fix: Int32)
    requires 0 <= statusBarHeight
    ensures 0 <= fix
    ensures fix != 0 ==> fix == statusBarHeight && !fullScreen && !translucentStatus
    ensures !fullScreen && !translucentStatus ==> fix == statusBarHeight
  {
    if !fullScreen && !translucentStatus then statusBarHeight else 0
  }

  class BackgroundBlurPopupWindow {
    /** getContentView() != null. */
    const hasContent: bool
    /** mBackgroundLayout != null: created exactly when there is content. */
    const hasLayout: bool
    const screenWidth: Int32
    const screenHeight: Int32
    /** mBlurPopupEngine: present when built with content and an activity. */
    const engine: BlurPopupEngine?
    /** mBlurTopBottomFixSize. */
    const blurFix: Int32
    /** mLocationInWindowPosition, written by every placement setter. */
    const location: array<Int32>

    var rightOf: Int32
    var leftOf: Int32
    var above: Int32
    var below: Int32

    var rightOfAnchor: Option<AnchorId>
    var leftOfAnchor: Option<AnchorId>
    var aboveAnchor: Option<AnchorId>
    var belowAnchor: Option<AnchorId>
    var fillAnchor: Option<AnchorId>

    var darkStyle: int
    var isDarkShowing: bool
    /** PopupWindow.isShowing(). */
    var popupShowing: bool
    /** Whether the window manager holds the dark view. */
    var darkAdded: bool
    var darkLP: LayoutParams
    /** Top padding of the blur image view. */
    var blurPadTop: Int32

    ghost var Repr: set<object>

    ghost predicate Valid()
      reads this`Repr, Repr - {this}
    {
      this in Repr && location in Repr && location.Length == 2 && 0 <= blurFix &&
      hasLayout == hasContent &&
      (engine != null ==>
        hasLayout && engine in Repr && engine.Repr <= Repr &&
        this !in engine.Repr && location !in engine.Repr && engine.Valid())
    }

    function Edges(): Edges
      reads this
    {
      Geometry.Edges(rightOf, leftOf, above, below)
    }

    function Anchors(): Anchors
      reads this
    {
      Geometry.Anchors(rightOfAnchor, leftOfAnchor, aboveAnchor, belowAnchor, fillAnchor)
    }

    function Fixture(): Overlay.Fixture
      reads this
    {
      Overlay.Fixture(hasContent, hasLayout, engine != null)
    }

    /** The show/dismiss flags and the engine's task log, as the pure protocol sees them. */
    ghost function Session(): Overlay.Session
      reads this, engine
    {
      Overlay.Session(Overlay.Visibility(popupShowing, isDarkShowing, darkAdded),
                      if engine != null then engine.Log() else TaskLog([], false))
    }

    /**
     * The constructor: without a content view nothing is set up; with one,
     * the screen size is read and the dark region fills the screen; with
     * an activity as well, a blur engine is built with radius 6, factor
     * 1.0 and RenderScript on, and the status-bar inset is recorded.
     * `displayWidth` and `displayHeight` are the display metrics; the
     * popup's own size belongs to the base PopupWindow.
     */
    constructor (content: bool, displayWidth: Int32, displayHeight: Int32, activity: bool,
                 fullScreen: bool, translucentStatus: bool, statusBarHeight: Int32)
      requires 0 <= statusBarHeight
      ensures Valid() && fresh(Repr)
      ensures hasContent == content
      ensures content ==> screenWidth == displayWidth && screenHeight == displayHeight
      ensures content ==> Edges() == FullScreen(displayWidth, displayHeight)
      ensures !content ==> Edges() == Geometry.Edges(0, 0, 0, 0)
      ensures Anchors() == NoAnchors
      ensures Session() == Overlay.Initial
      ensures (engine != null) == (content && activity)
      ensures engine != null ==>
        engine.blurRadius == WINDOW_BLUR_RADIUS && engine.downScaleFactor == WINDOW_DOWN_SCALE_FACTOR &&
        engine.useRenderScript && engine.holderPresent && engine.contextPresent &&
        blurFix == StatusBarFix(fullScreen, translucentStatus, statusBarHeight)
      ensures engine == null ==> blurFix == 0
      ensures darkStyle == -1
    {
      hasContent, hasLayout := content, content;
      location := new Int32[2];
      if content {
        screenWidth, screenHeight := displayWidth, displayHeight;
        rightOf, leftOf, above, below := 0, displayWidth, displayHeight, 0;
        if activity {
          var e := new BlurPopupEngine(ENGINE_ANIMATION_DURATION, true, true);
          e.SetBlurRadius(WINDOW_BLUR_RADIUS);
          e.SetDownScaleFactor(WINDOW_DOWN_SCALE_FACTOR);
          e.SetUseRenderScript(true);
          engine := e;
          blurFix := StatusBarFix(fullScreen, translucentStatus, statusBarHeight);
        } else {
          engine := null;
          blurFix := 0;
        }
      } else {
        screenWidth, screenHeight := 0, 0;
        rightOf, leftOf, above, below := 0, 0, 0, 0;
        engine := null;
        blurFix := 0;
      }
      rightOfAnchor, leftOfAnchor, aboveAnchor, belowAnchor, fillAnchor := None, None, None, None, None;
      darkStyle := -1;
      isDarkShowing, popupShowing, darkAdded := false, false, false;
      darkLP := LayoutParams(DarkLayout(0, 0, MATCH_PARENT, MATCH_PARENT), Unset);
      blurPadTop := 0;
      new;
      Repr := {this, location} + (if engine != null then engine.Repr else {});
    }

    /** `getLocationInWindow` of a view with box `b`. */
    method LocateInWindow(b: Box)
      requires Valid()
      modifies location
      ensures location[0] == b.x && location[1] == b.y
    {
      location[0] := b.x;
      location[1] := b.y;
    }

    /** `darkFillScreen`: full-screen edges; the anchor slots stay as they are. */
    method DarkFillScreen()
      modifies this`rightOf, this`leftOf, this`above, this`below
      ensures Edges() == FullScreen(screenWidth, screenHeight)
    {
      rightOf := 0;
      leftOf := screenWidth;
      above := screenHeight;
      below := 0;
    }

    /** `drakFillView`: record the fill anchor and take all four edges from its box. */
    method DrakFillView(a: AnchorId, b: Box)
      requires Valid()
      modifies this`rightOf, this`leftOf, this`above, this`below, this`fillAnchor, location
      ensures Edges() == Place(old(Edges()), Fill, b)
      ensures Anchors() == Record(old(Anchors()), Fill, a)
    {
      fillAnchor := Some(a);
      LocateInWindow(b);
      rightOf := location[0];
      leftOf := Add(location[0], b.w);
      above := Add(location[1], b.h);
      below := location[1];
    }

    /** `darkRightOf`: record the anchor; the dark box starts at the anchor's right edge. */
    method DarkRightOf(a: AnchorId, b: Box)
      requires Valid()
      modifies this`rightOf, this`rightOfAnchor, location
      ensures Edges() == Place(old(Edges()), RightOf, b)
      ensures Anchors() == Record(old(Anchors()), RightOf, a)
    {
      rightOfAnchor := Some(a);
      LocateInWindow(b);
      rightOf := Add(location[0], b.w);
    }

    /** `drakLeftOf`: record the anchor; the dark box ends at the anchor's left edge. */
    method DrakLeftOf(a: AnchorId, b: Box)
      requires Valid()
      modifies this`leftOf, this`leftOfAnchor, location
      ensures Edges() == Place(old(Edges()), LeftOf, b)
      ensures Anchors() == Record(old(Anchors()), LeftOf, a)
    {
      leftOfAnchor := Some(a);
      LocateInWindow(b);
      leftOf := location[0];
    }

    /** `darkAbove`: record the anchor; the dark box ends at the anchor's top edge. */
    method DarkAbove(a: AnchorId, b: Box)
      requires Valid()
      modifies this`above, this`aboveAnchor, location
      ensures Edges() == Place(old(Edges()), Above, b)
      ensures Anchors() == Record(old(Anchors()), Above, a)
    {
      aboveAnchor := Some(a);
      LocateInWindow(b);
      above := location[1];
    }

    /** `darkBelow`: record the anchor; the dark box starts at the anchor's bottom edge. */
    method DarkBelow(a: AnchorId, b: Box)
      requires Valid()
      modifies this`below, this`belowAnchor, location
      ensures Edges() == Place(old(Edges()), Below, b)
      ensures Anchors() == Record(old(Anchors()), Below, a)
    {
      belowAnchor := Some(a);
      LocateInWindow(b);
      below := Add(location[1], b.h);
    }

    /** `resetDarkPosition`: full-screen edges and all five anchor slots null. */
    method ResetDarkPosition()
      modifies this`rightOf, this`leftOf, this`above, this`below
      modifies this`rightOfAnchor, this`leftOfAnchor, this`aboveAnchor, this`belowAnchor, this`fillAnchor
      ensures Edges() == FullScreen(screenWidth, screenHeight)
      ensures Anchors() == NoAnchors
    {
      DarkFillScreen();
      rightOfAnchor, leftOfAnchor, belowAnchor, aboveAnchor, fillAnchor := None, None, None, None, None;
    }

    /** `checkPositionLeft`. */
    method CheckPositionLeft(host: Host)
      requires Valid()
      modifies this`leftOf, this`leftOfAnchor, location
      ensures Edges() == Reapply(old(Edges()), LeftOf, old(leftOfAnchor), host)
      ensures Anchors() == old(Anchors())
    {
      if leftOfAnchor != None {
        var view := Lookup(host, leftOfAnchor);
        if view.Some? && leftOf == 0 {
          DrakLeftOf(leftOfAnchor.value, view.value);
        }
      }
    }

    /** `checkPositionRight`. */
    method CheckPositionRight(host: Host)
      requires Valid()
      modifies this`rightOf, this`rightOfAnchor, location
      ensures Edges() == Reapply(old(Edges()), RightOf, old(rightOfAnchor), host)
      ensures Anchors() == old(Anchors())
    {
      if rightOfAnchor != None {
        var view := Lookup(host, rightOfAnchor);
        if view.Some? && rightOf == 0 {
          DarkRightOf(rightOfAnchor.value, view.value);
        }
      }
    }

    /** `checkPositionBelow`. */
    method CheckPositionBelow(host: Host)
      requires Valid()
      modifies this`below, this`belowAnchor, location
      ensures Edges() == Reapply(old(Edges()), Below, old(belowAnchor), host)
      ensures Anchors() == old(Anchors())
    {
      if belowAnchor != None {
        var view := Lookup(host, belowAnchor);
        if view.Some? && below == 0 {
          DarkBelow(belowAnchor.value, view.value);
        }
      }
    }

    /** `checkPositionAbove`. */
    method CheckPositionAbove(host: Host)
      requires Valid()
      modifies this`above, this`aboveAnchor, location
      ensures Edges() == Reapply(old(Edges()), Above, old(aboveAnchor), host)
      ensures Anchors() == old(Anchors())
    {
      if aboveAnchor != None {
        var view := Lookup(host, aboveAnchor);
        if view.Some? && above == 0 {
          DarkAbove(aboveAnchor.value, view.value);
        }
      }
    }

    /** `checkPositionFill`: note the OR: one unset edge is enough to re-apply the fill box. */
    method CheckPositionFill(host: Host)
      requires Valid()
      modifies this`rightOf, this`leftOf, this`above, this`below, this`fillAnchor, location
      ensures Edges() == Reapply(old(Edges()), Fill, old(fillAnchor), host)
      ensures Anchors() == old(Anchors())
    {
      if fillAnchor != None {
        var view := Lookup(host, fillAnchor);
        if view.Some? && (leftOf == 0 || above == 0) {
          DrakFillView(fillAnchor.value, view.value);
        }
      }
    }

    /**
     * `checkPosition`: re-apply the anchors, then, with an engine, hand it
     * the blur clip and pad the blur view by the status-bar correction.
     */
    method CheckPosition(host: Host)
      requires Valid()
      modifies this`rightOf, this`leftOf, this`above, this`below
      modifies this`rightOfAnchor, this`leftOfAnchor, this`aboveAnchor, this`belowAnchor, this`fillAnchor
      modifies this`blurPadTop, location, engine
      ensures Valid()
      ensures engine != null ==>
        engine.Repr == old(engine.Repr) && engine.task == old(engine.task) && engine.Log() == old(engine.Log()) &&
        engine.Config() == old(engine.Config())
      ensures Edges() == Recheck(old(Edges()), Anchors(), host)
      ensures Anchors() == old(Anchors())
      ensures engine != null ==>
        engine.clipRect == ClipOf(Edges(), blurFix).rect && blurPadTop == ClipOf(Edges(), blurFix).padTop
      ensures engine == null ==> blurPadTop == old(blurPadTop)
      ensures engine != null ==>
        engine.shown == old(engine.shown) && engine.debugEnable == old(engine.debugEnable) &&
        engine.contextPresent == old(engine.contextPresent)
    {
      ghost var e0, an := Edges(), Anchors();
      CheckPositionLeft(host);
      ghost var e1 := Edges();
      CheckPositionRight(host);
      ghost var e2 := Edges();
      CheckPositionBelow(host);
      ghost var e3 := Edges();
      CheckPositionAbove(host);
      ghost var e4 := Edges();
      CheckPositionFill(host);
      assert Edges() == Reapply(e4, Fill, an.fill, host);
      assert e4 == Reapply(e3, Above, an.above, host);
      assert e3 == Reapply(e2, Below, an.below, host);
      assert e2 == Reapply(e1, RightOf, an.rightOf, host);
      assert e1 == Reapply(e0, LeftOf, an.leftOf, host);
      if engine != null {
        ClipEngine();
      }
    }

    /** The engine half of `checkPosition`: the blur clip and the blur view's top padding. */
    method ClipEngine()
      requires Valid() && engine != null
      modifies this`blurPadTop, engine`clipRect
      ensures Valid()
      ensures engine.clipRect == ClipOf(Edges(), blurFix).rect && blurPadTop == ClipOf(Edges(), blurFix).padTop
    {
      var top := Sub(below, blurFix);
      var bottom := Sub(above, blurFix);
      if top <= 0 {
        blurPadTop := blurFix;
        top := 0;
      } else {
        blurPadTop := 0;
      }
      engine.SetBlurRect(rightOf, top, leftOf, if bottom > 0 then bottom else 0);
    }

    /** `computeDarkLayout`. */
    method ComputeDarkLayout()
      modifies this`darkLP
      ensures darkLP == old(darkLP).(layout := LayoutOf(Edges()))
    {
      darkLP := darkLP.(layout := DarkLayout(rightOf, below, Sub(leftOf, rightOf), Sub(above, below)));
    }

    /** `setDarkAnimStyle`. */
    method SetDarkAnimStyle(style: int)
      modifies this`darkStyle
      ensures darkStyle == style
    {
      darkStyle := style;
    }

    /** `setDarkShowing`: overwrites the flag without touching the window manager. */
    method SetDarkShowing(showing: bool)
      modifies this`isDarkShowing
      ensures isDarkShowing == showing
    {
      isDarkShowing := showing;
    }

    /**
     * `invokeBgCover`: unless the popup already shows or has no content,
     * re-resolve the region; then, if the dark view is not showing, lay it
     * out, add it and resume the engine.
     */
    method InvokeBgCover(host: Host)
      requires Valid()
      modifies Repr
      ensures Valid() && fresh(Repr - old(Repr))
      ensures Session() == Overlay.Cover(old(Session()), Fixture())
      ensures Anchors() == old(Anchors())
      ensures Overlay.CoverProceeds(old(Session()), Fixture()) ==> Edges() == Recheck(old(Edges()), Anchors(), host)
      ensures !Overlay.CoverProceeds(old(Session()), Fixture()) ==> Edges() == old(Edges())
      ensures Overlay.CoverAdds(old(Session()), Fixture()) ==>
        darkLP == LayoutParams(LayoutOf(Edges()), DarkAnimationOf(darkStyle))
      ensures !Overlay.CoverAdds(old(Session()), Fixture()) ==> darkLP == old(darkLP)
      ensures engine != null && Overlay.CoverProceeds(old(Session()), Fixture()) ==>
        engine.clipRect == ClipOf(Edges(), blurFix).rect && blurPadTop == ClipOf(Edges(), blurFix).padTop
      ensures engine != null && Overlay.CoverAdds(old(Session()), Fixture()) ==>
        fresh(engine.task) && engine.task.background == Some(CaptureOf(engine.clipRect)) &&
        engine.task.viewBound && !engine.task.sourceRecycled
      ensures engine != null ==> engine.Config() == old(engine.Config())
      ensures engine != null ==>
        engine.shown == old(engine.shown) && engine.debugEnable == old(engine.debugEnable) &&
        engine.contextPresent == old(engine.contextPresent)
      ensures !Overlay.CoverProceeds(old(Session()), Fixture()) ==>
        blurPadTop == old(blurPadTop) &&
        (engine != null ==> engine.clipRect == old(engine.clipRect) && engine.task == old(engine.task))
      ensures engine != null && !Overlay.CoverAdds(old(Session()), Fixture()) ==> engine.task == old(engine.task)
      ensures engine == null ==> blurPadTop == old(blurPadTop)
      ensures darkStyle == old(darkStyle)
      ensures forall t: BlurTask :: t in old(Repr) ==> unchanged(t)
    {
      if popupShowing || !hasContent {
        return;
      }
      CheckPosition(host);
      assert Session() == old(Session());
      if hasLayout && !isDarkShowing {
        AddDarkView();
      }
    }

    /**
     * The second half of `invokeBgCover`, once the dark view is known not
     * to show: lay it out, add it to the window manager, resume the engine.
     */
    method AddDarkView()
      requires Valid() && hasLayout && !isDarkShowing
      modifies this`darkLP, this`darkAdded, this`isDarkShowing, this`Repr, engine
      ensures Valid() && fresh(Repr - old(Repr))
      ensures Session() == Overlay.Session(
        old(Session()).vis.(darkShowing := true, darkAdded := true),
        if engine != null then Resumed(old(Session()).tasks) else old(Session()).tasks)
      ensures darkLP == LayoutParams(LayoutOf(Edges()), DarkAnimationOf(darkStyle))
      ensures engine != null ==>
        fresh(engine.task) && engine.task.background == Some(CaptureOf(engine.clipRect)) &&
        engine.task.viewBound && !engine.task.sourceRecycled &&
        engine.Config() == old(engine.Config()) && engine.clipRect == old(engine.clipRect)
      ensures engine != null ==>
        engine.shown == old(engine.shown) && engine.debugEnable == old(engine.debugEnable) &&
        engine.contextPresent == old(engine.contextPresent)
    {
      ComputeDarkLayout();
      darkLP := darkLP.(animation := DarkAnimationOf(darkStyle));
      darkAdded := true;
      isDarkShowing := true;
      if engine != null {
        engine.OnResume(true);
        Repr := Repr + engine.Repr;
      }
    }

    /** `showAsDropDown` and `showAtLocation`: cover, then the base show. */
    method Show(host: Host)
      requires Valid()
      modifies Repr
      ensures Valid() && fresh(Repr - old(Repr))
      ensures Session() == Overlay.Show(old(Session()), Fixture())
      ensures Anchors() == old(Anchors())
      ensures Overlay.CoverProceeds(old(Session()), Fixture()) ==> Edges() == Recheck(old(Edges()), Anchors(), host)
      ensures !Overlay.CoverProceeds(old(Session()), Fixture()) ==> Edges() == old(Edges())
      ensures Overlay.CoverAdds(old(Session()), Fixture()) ==>
        darkLP == LayoutParams(LayoutOf(Edges()), DarkAnimationOf(darkStyle))
      ensures !Overlay.CoverAdds(old(Session()), Fixture()) ==> darkLP == old(darkLP)
      ensures engine != null && Overlay.CoverProceeds(old(Session()), Fixture()) ==>
        engine.clipRect == ClipOf(Edges(), blurFix).rect && blurPadTop == ClipOf(Edges(), blurFix).padTop
      ensures engine != null && Overlay.CoverAdds(old(Session()), Fixture()) ==>
        fresh(engine.task) && engine.task.background == Some(CaptureOf(engine.clipRect)) &&
        engine.task.viewBound && !engine.task.sourceRecycled
      ensures engine != null ==> engine.Config() == old(engine.Config())
      ensures engine != null ==>
        engine.shown == old(engine.shown) && engine.debugEnable == old(engine.debugEnable) &&
        engine.contextPresent == old(engine.contextPresent)
      ensures !Overlay.CoverProceeds(old(Session()), Fixture()) ==>
        blurPadTop == old(blurPadTop) &&
        (engine != null ==> engine.clipRect == old(engine.clipRect) && engine.task == old(engine.task))
      ensures engine != null && !Overlay.CoverAdds(old(Session()), Fixture()) ==> engine.task == old(engine.task)
      ensures engine == null ==> blurPadTop == old(blurPadTop)
      ensures darkStyle == old(darkStyle)
      ensures forall t: BlurTask :: t in old(Repr) ==> unchanged(t)
    {
      InvokeBgCover(host);
      if !popupShowing && hasContent {
        popupShowing := true;
      }
    }

    /**
     * `dismiss`: only when the dark view shows, the popup shows and both
     * the content and the dark layout exist, remove the dark view and
     * dismiss the engine; the base dismissal happens in every case.
     */
    method Dismiss()
      requires Valid()
      modifies Repr
      ensures Valid() && Repr == old(Repr)
      ensures Session() == Overlay.Dismiss(old(Session()), Fixture())
      ensures Edges() == old(Edges()) && Anchors() == old(Anchors())
      ensures darkLP == old(darkLP) && darkStyle == old(darkStyle) && blurPadTop == old(blurPadTop)
      ensures engine != null ==>
        engine.task == old(engine.task) && engine.Config() == old(engine.Config()) &&
        engine.clipRect == old(engine.clipRect) &&
        engine.shown == old(engine.shown) && engine.debugEnable == old(engine.debugEnable) &&
        engine.contextPresent == old(engine.contextPresent)
      ensures engine != null && engine.task != null ==>
        engine.task.cancelled == (old(engine.task.cancelled) || Overlay.DismissRemoves(old(Session()), Fixture())) &&
        engine.task.background == old(engine.task.background) && engine.task.viewBound == old(engine.task.viewBound) &&
        engine.task.sourceRecycled == old(engine.task.sourceRecycled)
      ensures forall t: BlurTask :: t in old(Repr) && (engine == null || t != engine.task) ==> unchanged(t)
    {
      if isDarkShowing && popupShowing && hasContent && hasLayout {
        darkAdded := false;
        isDarkShowing := false;
        if engine != null {
          engine.OnDismiss();
        }
      }
      popupShowing := false;
    }

    /** `onDestroy`: destroy the engine, if there is one. */
    method OnDestroy()
      requires Valid()
      modifies Repr
      ensures Valid() && Repr == old(Repr)
      ensures Session() == Overlay.Destroy(old(Session()), Fixture())
      ensures Edges() == old(Edges()) && Anchors() == old(Anchors())
      ensures darkLP == old(darkLP) && darkStyle == old(darkStyle) && blurPadTop == old(blurPadTop)
      ensures engine != null ==>
        engine.task == null && !engine.contextPresent &&
        engine.Config() == old(engine.Config()) && engine.clipRect == old(engine.clipRect) &&
        engine.shown == old(engine.shown) && engine.debugEnable == old(engine.debugEnable)
      ensures engine != null && old(engine.task) != null ==>
        old(engine.task).cancelled &&
        old(engine.task).background == old(engine.task.background) &&
        old(engine.task).viewBound == old(engine.task.viewBound) &&
        old(engine.task).sourceRecycled == old(engine.task.sourceRecycled)
      ensures forall t: BlurTask :: t in old(Repr) && (engine == null || t != old(engine.task)) ==> unchanged(t)
    {
      if engine != null {
        engine.OnDestroy();
      }
    }

    /** `setBlurRadius`: forwarded to the engine, which must exist. */
    method SetBlurRadius(radius: Int32)
      requires Valid() && engine != null
      modifies engine`blurRadius
      ensures Valid()
      ensures engine.blurRadius == ClampRadius(radius)
    {
      engine.SetBlurRadius(radius);
    }

    /** `setDownScaleFactor`: forwarded to the engine, which must exist. */
    method SetDownScaleFactor(factor: real)
      requires Valid() && engine != null
      modifies engine`downScaleFactor
      ensures Valid()
      ensures engine.downScaleFactor == ClampDownScale(factor)
    {
      engine.SetDownScaleFactor(factor);
    }

    /** `setUseRenderScript`: forwarded to the engine, which must exist. */
    method SetUseRenderScript(use: bool)
      requires Valid() && engine != null
      modifies engine`useRenderScript
      ensures Valid()
      ensures engine.useRenderScript == use
    {
      engine.SetUseRenderScript(use);
    }
  }
}

# BackgroundBlurPopupWindow in Dafny

A model of the Android library BackgroundBlurPopupWindow, with proofs about it. The library's popup window
adds a second, darkened and optionally blurred, window behind itself while it shows. The dark region is
bounded by four edges. Each edge comes from an anchor view: right of one view, left of another, above or
below a third, or filling a fourth. A blur engine captures the part of the activity under that region,
blurs it on a background task and publishes the result into the dark window.

The model has six modules:

- `JavaInt`: Java's 32-bit `int`, with wrap-around written out (`Add`, `Sub`).
- `Geometry`: the value side of placement. It covers:
  - the edges and the anchor slots;
  - how each setter derives an edge from an anchor's box;
  - how `checkPosition` re-applies live anchors under its zero-sentinel rule;
  - the blur clip with its status-bar correction;
  - the dark window's layout.
- `BlurEngine`: the engine as a class `BlurPopupEngine` with its inner task class `BlurTask`. It also
  holds the pure rules those classes are proved against:
  - clamping of the radius and the downscale factor;
  - the crop;
  - the cancelled-task result;
  - the publish rule;
  - the task log.
- `Overlay`: the show/dismiss/destroy protocol as a pure state machine over the window's flags and the
  engine's task log. Its invariant is proved for every sequence of calls: at most one blur task runs
  uncancelled, it is the one behind the engine's handle, and none runs once the dark view is hidden.
- `PopupWindow`: the window as a class `BackgroundBlurPopupWindow`. Its fields are the ones the source
  overwrites. Its methods are proved against `Geometry` and `Overlay`.
- `Scenarios`: uses of the window taken from the sample activity's click handlers, with the edges they
  produce.

How the model stands in for the outside world:

- **Anchors.** An anchor view is an `AnchorId`. The host's views, as seen through the weak references,
  are a `Host` map from anchor to `Option<Box>`. `None` or a missing key means the referent has been
  collected.
- **Window manager.** It is the flag `darkAdded`.
- **Base PopupWindow.** Its `isShowing()` is the flag `popupShowing`. A base show sets it when there is
  content, and a base dismissal clears it.
- **Pixels.** A bitmap is described by where it was captured and with which settings it was blurred.

The library's comments mostly document its settings, not its placement rules. Where they do speak,
they disagree with the code in the places below, and the model follows the code in each:

- **Window defaults.** The javadoc of the window's `setBlurRadius`, `setDownScaleFactor` and
  `setUseRenderScript` (BackgroundBlurPopupWindow.java lines 102-103, 114-115 and 128-129) names the
  engine's defaults as the defaults: radius 8, factor 4.0, and RenderScript off. But `initBlurEngine`
  (lines 83-85) sets 6, 1.0 and on, so a window's engine starts with those. The model's constructor
  states 6, 1.0 and on.
- **Engine scope.** The engine's class javadoc (BlurPopupEngine.java lines 26-31) says the whole screen
  behind the dialog is blurred except the action bar. The code captures and blurs only the clip
  rectangle that `setBlurRect` set. The model's capture is `CaptureOf(clipRect)`.
- **Engine dismissal.** The comment in `onDismiss` (BlurPopupEngine.java lines 145-147) says the
  blurred background is removed and memory cleared. The code only cancels the task and starts a
  fade-out of the blurred view; no bitmap is released and the view is not removed. The model's
  `OnDismiss` cancels the task and keeps the shown bitmap.
- **Dark layout.** The javadoc of `computeDarkLayout` (BackgroundBlurPopupWindow.java lines 316-318)
  says "reset dark position". The method does not reset anything; it copies the four edges into the
  dark view's layout parameters. The model's `ComputeDarkLayout` sets the layout to `LayoutOf` the
  edges and leaves the edges alone.

The placement and task rules below are kept as the code has them, although a cleaner design would do
otherwise:

- **Fill anchor.** `checkPositionFill` re-applies the fill anchor when `leftOf` OR `above` is 0, not only
  when both are.
- **Collected anchor.** An anchor collected before show keeps the edge derived when it was set. Its edge
  does not fall back to the full-screen default.
- **`darkFillScreen`.** It resets the edges but leaves the anchor slots recorded.
- **Edge caching.** Edges are not recomputed on every show: an edge is re-derived only while it equals 0.
- **`onResume`.** It replaces the task handle without cancelling the previous task.

## Model

| member | source | states |
|---|---|---|
| JavaInt.Add | library/src/main/java/bakerj/backgroundblurpopupwindow/BackgroundBlurPopupWindow.java:402 | Java `a + b` equals the mathematical sum whenever that sum fits in an int. |
| JavaInt.Sub | library/src/main/java/bakerj/backgroundblurpopupwindow/BackgroundBlurPopupWindow.java:322 | Java `a - b` equals the mathematical difference whenever it fits in an int. |
| JavaInt.AddSubCancel | library/src/main/java/bakerj/backgroundblurpopupwindow/BackgroundBlurPopupWindow.java:320-323 | `a + (b - a) == b` in Java ints for all a and b, overflow included. |
| Geometry.Lookup | library/src/main/java/bakerj/backgroundblurpopupwindow/BackgroundBlurPopupWindow.java:260-262 | A slot yields a box if and only if it is recorded and its referent is still live, and then it yields that referent's box. |
| Geometry.Place | library/src/main/java/bakerj/backgroundblurpopupwindow/BackgroundBlurPopupWindow.java:385-436 | A directional setter sets only its own edge, to x+w, x, y or y+h of the anchor. The fill setter sets all four edges to the anchor's box. |
| Geometry.Record | library/src/main/java/bakerj/backgroundblurpopupwindow/BackgroundBlurPopupWindow.java:386 | A setter records its anchor in its own slot and leaves the other four slots unchanged. |
| Geometry.FullScreen | library/src/main/java/bakerj/backgroundblurpopupwindow/BackgroundBlurPopupWindow.java:373-378 | The full-screen region starts at the origin. The fill anchor can claim it only when the screen has zero width or height. |
| Geometry.Reapply | library/src/main/java/bakerj/backgroundblurpopupwindow/BackgroundBlurPopupWindow.java:259-314 | One `checkPosition*` helper. A collected anchor, or an edge that is not claimable, changes nothing. Otherwise the anchor's setter is applied with its current box. A directional helper leaves the other three edges alone. |
| Geometry.Recheck | library/src/main/java/bakerj/backgroundblurpopupwindow/BackgroundBlurPopupWindow.java:236-241 | With no live fill anchor, each directional edge after `checkPosition` is the per-edge reference `Redirected`. |
| Geometry.RecheckByEdge | library/src/main/java/bakerj/backgroundblurpopupwindow/BackgroundBlurPopupWindow.java:236-241 | The five helpers applied in source order equal an edge-by-edge reference definition. Each edge is re-derived only from a live anchor while it is 0. Then the fill box overwrites all four edges when its anchor is live and leftOf or above is 0. |
| Geometry.RecheckKeepsSetEdges | library/src/main/java/bakerj/backgroundblurpopupwindow/BackgroundBlurPopupWindow.java:259-302 | A non-zero edge survives `checkPosition` unless a live fill anchor fires. |
| Geometry.RecheckDeadAnchors | library/src/main/java/bakerj/backgroundblurpopupwindow/BackgroundBlurPopupWindow.java:259-314 | When every anchor is null or collected, `checkPosition` leaves all four edges unchanged. |
| Geometry.PlaceCommutes | library/src/main/java/bakerj/backgroundblurpopupwindow/BackgroundBlurPopupWindow.java:399-436 | Two directional setters for different roles give the same edges in either order. |
| Geometry.PlaceLastWins | library/src/main/java/bakerj/backgroundblurpopupwindow/BackgroundBlurPopupWindow.java:385-436 | Calling a setter twice for one role is the same as calling it once with the second anchor. |
| Geometry.ClipOf | library/src/main/java/bakerj/backgroundblurpopupwindow/BackgroundBlurPopupWindow.java:242-253 | The clip's left and right are rightOf and leftOf. Its top and bottom are never negative. At or above the status bar the top is 0 and the padding is the inset; otherwise the top is below minus the inset and there is no padding. The bottom is above minus the inset, or 0. |
| Geometry.ClipShiftsByInset | library/src/main/java/bakerj/backgroundblurpopupwindow/BackgroundBlurPopupWindow.java:243-252 | Without overflow, the clip is the dark box shifted up by the inset and cut at 0. The padding equals the inset exactly when the box reaches into the status bar. |
| Geometry.LayoutOf | library/src/main/java/bakerj/backgroundblurpopupwindow/BackgroundBlurPopupWindow.java:319-324 | The dark window starts at (rightOf, below). x + width is leftOf and y + height is above, even where the subtraction overflows. |
| Geometry.FullScreenLayout | library/src/main/java/bakerj/backgroundblurpopupwindow/BackgroundBlurPopupWindow.java:373-378 | The full-screen edges lay out as (0, 0, screen width, screen height). |
| BlurEngine.ClampRadius | library/src/main/java/bakerj/backgroundblurpopupwindow/BlurPopupEngine.java:245-251 | The stored radius is never negative. It equals the given radius when that is not negative, and 0 otherwise. |
| BlurEngine.ClampDownScale | library/src/main/java/bakerj/backgroundblurpopupwindow/BlurPopupEngine.java:206-212 | The stored factor is at least 1.0. It equals the given factor when that is at least 1.0, and 1.0 otherwise. |
| BlurEngine.ClampsIdempotent | library/src/main/java/bakerj/backgroundblurpopupwindow/BlurPopupEngine.java:206-251 | Storing a stored radius or factor again changes nothing. |
| BlurEngine.CaptureOf | library/src/main/java/bakerj/backgroundblurpopupwindow/BlurPopupEngine.java:379-380 | The crop starts at the clip's top-left corner and ends exactly at its right and bottom edges. |
| BlurEngine.BackgroundResult | library/src/main/java/bakerj/backgroundblurpopupwindow/BlurPopupEngine.java:403-414 | A bitmap is produced if and only if the task is not cancelled. That bitmap is the captured source blurred with the current settings. |
| BlurEngine.Publish | library/src/main/java/bakerj/backgroundblurpopupwindow/BlurPopupEngine.java:420-424 | A bitmap replaces what the holder shows. A null result leaves it as it was. |
| BlurEngine.CancelledTaskNeverPublishes | library/src/main/java/bakerj/backgroundblurpopupwindow/BlurPopupEngine.java:406-410 | A task cancelled before its background phase leaves what is shown unchanged. |
| BlurEngine.Resumed | library/src/main/java/bakerj/backgroundblurpopupwindow/BlurPopupEngine.java:133-138 | One new, uncancelled task is appended and becomes the handle. Every earlier task keeps its flag. |
| BlurEngine.CancelCurrent | library/src/main/java/bakerj/backgroundblurpopupwindow/BlurPopupEngine.java:148-150 | With a handle, its task becomes cancelled. Every other task keeps its flag, and the handle is kept. |
| BlurEngine.Destroyed | library/src/main/java/bakerj/backgroundblurpopupwindow/BlurPopupEngine.java:177-183 | The handle's task, if any, becomes cancelled, every other task keeps its flag, and the handle is gone. |
| BlurEngine.ResumeOrphansIff | library/src/main/java/bakerj/backgroundblurpopupwindow/BlurPopupEngine.java:133-138 | Starting a new task leaves no uncancelled task without a handle if and only if the replaced task was already cancelled or there was none. |
| BlurEngine.CancelCurrentCancelsAll | library/src/main/java/bakerj/backgroundblurpopupwindow/BlurPopupEngine.java:148-150 | In a log where only the current task may be uncancelled, cancelling it leaves every task cancelled and keeps the handle. |
| BlurEngine.DestroyedCancelsAll | library/src/main/java/bakerj/backgroundblurpopupwindow/BlurPopupEngine.java:177-183 | After `onDestroy` every task is cancelled and the handle is gone. |
| BlurEngine.BlurTask.constructor | library/src/main/java/bakerj/backgroundblurpopupwindow/BlurPopupEngine.java:359-362 | A new task is not cancelled, holds no source and no view, and has recycled nothing. |
| BlurEngine.BlurTask.Cancel | library/src/main/java/bakerj/backgroundblurpopupwindow/BlurPopupEngine.java:149 | `cancel(true)` raises the task's cancelled flag. |
| BlurEngine.BlurTask.OnPreExecute | library/src/main/java/bakerj/backgroundblurpopupwindow/BlurPopupEngine.java:365-380 | The task binds its view and holds the crop of the clip rectangle. |
| BlurEngine.BlurTask.DoInBackground | library/src/main/java/bakerj/backgroundblurpopupwindow/BlurPopupEngine.java:403-414 | The result follows `BackgroundResult`. The source is recycled exactly when the task was not cancelled. |
| BlurEngine.BlurPopupEngine.constructor | library/src/main/java/bakerj/backgroundblurpopupwindow/BlurPopupEngine.java:120-126 | The engine stores its duration, context and holder view. It starts with radius 8, factor 4.0, RenderScript and debug off, an empty clip and no task. |
| BlurEngine.BlurPopupEngine.OnResume | library/src/main/java/bakerj/backgroundblurpopupwindow/BlurPopupEngine.java:133-138 | With a retained instance or no holder view, a fresh uncancelled task holding the crop of the clip becomes the handle, and the old task is left as it was. Otherwise nothing changes. |
| BlurEngine.BlurPopupEngine.OnDismiss | library/src/main/java/bakerj/backgroundblurpopupwindow/BlurPopupEngine.java:144-172 | The current task, if any, is cancelled and its other fields are kept. The handle is kept. Settings, debug flag, context, clip and the shown bitmap are unchanged. |
| BlurEngine.BlurPopupEngine.OnDestroy | library/src/main/java/bakerj/backgroundblurpopupwindow/BlurPopupEngine.java:177-183 | The current task, if any, is cancelled and its other fields are kept. Then the handle and the context are dropped. Settings, debug flag, clip and the shown bitmap are unchanged. |
| BlurEngine.BlurPopupEngine.Debug | library/src/main/java/bakerj/backgroundblurpopupwindow/BlurPopupEngine.java:192-194 | The debug flag becomes the given value, and the engine stays valid. |
| BlurEngine.BlurPopupEngine.SetDownScaleFactor | library/src/main/java/bakerj/backgroundblurpopupwindow/BlurPopupEngine.java:206-212 | The factor becomes the clamped value (at least 1.0), nothing else changes, and the engine stays valid. |
| BlurEngine.BlurPopupEngine.SetUseRenderScript | library/src/main/java/bakerj/backgroundblurpopupwindow/BlurPopupEngine.java:233-235 | The RenderScript flag becomes the given value, and the engine stays valid. |
| BlurEngine.BlurPopupEngine.SetBlurRadius | library/src/main/java/bakerj/backgroundblurpopupwindow/BlurPopupEngine.java:245-251 | The radius becomes the clamped value (at least 0), nothing else changes, and the engine stays valid. |
| BlurEngine.BlurPopupEngine.SetBlurRect | library/src/main/java/bakerj/backgroundblurpopupwindow/BlurPopupEngine.java:253-255 | The clip becomes exactly the four given values, and the engine stays valid. |
| BlurEngine.BlurPopupEngine.OnPostExecute | library/src/main/java/bakerj/backgroundblurpopupwindow/BlurPopupEngine.java:418-440 | A bitmap result is published and a null one is ignored. The task's view and source references are then cleared. The engine stays valid. |
| Overlay.Cover | library/src/main/java/bakerj/backgroundblurpopupwindow/BackgroundBlurPopupWindow.java:217-231 | Nothing changes while the popup shows or has no content. Otherwise, when the dark view is not showing and there is a dark layout, the dark view is added and marked showing, and an engine starts a task. The popup's own flag is never touched. |
| Overlay.Show | library/src/main/java/bakerj/backgroundblurpopupwindow/BackgroundBlurPopupWindow.java:202-212 | After a show the popup shows exactly when it already did or has content. The dark flags and the task log are those of `Cover`. |
| Overlay.Dismiss | library/src/main/java/bakerj/backgroundblurpopupwindow/BackgroundBlurPopupWindow.java:327-336 | The popup is always dismissed. The dark view is removed, and the task cancelled, only when dark view, popup, content and layout are all present. Otherwise the dark state and the tasks are unchanged. |
| Overlay.Destroy | library/src/main/java/bakerj/backgroundblurpopupwindow/BackgroundBlurPopupWindow.java:464-468 | The flags are unchanged. With an engine, the handle is dropped and no task is created. Without one, nothing changes. |
| Overlay.InitialInv | library/src/main/java/bakerj/backgroundblurpopupwindow/BackgroundBlurPopupWindow.java:37 | A new window satisfies the protocol invariant. |
| Overlay.StepKeepsInv | library/src/main/java/bakerj/backgroundblurpopupwindow/BackgroundBlurPopupWindow.java:202-468 | Each show, dismiss or destroy keeps the invariant. The invariant is: the window manager holds the dark view exactly when `isDarkShowing`, only the current task may be uncancelled, and none may be while the dark view is hidden. |
| Overlay.RunKeepsInv | library/src/main/java/bakerj/backgroundblurpopupwindow/BackgroundBlurPopupWindow.java:202-468 | Every sequence of show, dismiss and destroy calls keeps the invariant. |
| Overlay.AtMostOneLiveTask | library/src/main/java/bakerj/backgroundblurpopupwindow/BlurPopupEngine.java:133-138 | After any sequence of calls from a new window, at most one task is uncancelled. It is the newest task, it is behind the handle, and the dark view shows. |
| PopupWindow.DarkAnimationOf | library/src/main/java/bakerj/backgroundblurpopupwindow/BackgroundBlurPopupWindow.java:195-200 | The library's dark animation is used if and only if the style is -1. Otherwise the caller's style is used. |
| PopupWindow.StatusBarFix | library/src/main/java/bakerj/backgroundblurpopupwindow/BackgroundBlurPopupWindow.java:86-88 | The inset is the status bar's height unless the activity is full-screen or has a translucent status bar, in which case it is 0. |
| PopupWindow.BackgroundBlurPopupWindow.constructor | library/src/main/java/bakerj/backgroundblurpopupwindow/BackgroundBlurPopupWindow.java:53-97 | With content, the screen size is read and the dark region fills the screen. With an activity as well, an engine is built with radius 6, factor 1.0, RenderScript on and the status-bar inset. No anchors are set and nothing shows. |
| PopupWindow.BackgroundBlurPopupWindow.LocateInWindow | library/src/main/java/bakerj/backgroundblurpopupwindow/BackgroundBlurPopupWindow.java:387 | The location buffer holds the view's x and y in the window. |
| PopupWindow.BackgroundBlurPopupWindow.DarkFillScreen | library/src/main/java/bakerj/backgroundblurpopupwindow/BackgroundBlurPopupWindow.java:373-378 | The edges become the full screen. |
| PopupWindow.BackgroundBlurPopupWindow.DrakFillView | library/src/main/java/bakerj/backgroundblurpopupwindow/BackgroundBlurPopupWindow.java:385-392 | The edges become `Place(old, Fill, box)` and the fill slot records the anchor. |
| PopupWindow.BackgroundBlurPopupWindow.DarkRightOf | library/src/main/java/bakerj/backgroundblurpopupwindow/BackgroundBlurPopupWindow.java:399-403 | Only rightOf changes, to x + width. The rightOf slot records the anchor. |
| PopupWindow.BackgroundBlurPopupWindow.DrakLeftOf | library/src/main/java/bakerj/backgroundblurpopupwindow/BackgroundBlurPopupWindow.java:410-414 | Only leftOf changes, to x. The leftOf slot records the anchor. |
| PopupWindow.BackgroundBlurPopupWindow.DarkAbove | library/src/main/java/bakerj/backgroundblurpopupwindow/BackgroundBlurPopupWindow.java:421-425 | Only above changes, to y. The above slot records the anchor. |
| PopupWindow.BackgroundBlurPopupWindow.DarkBelow | library/src/main/java/bakerj/backgroundblurpopupwindow/BackgroundBlurPopupWindow.java:432-436 | Only below changes, to y + height. The below slot records the anchor. |
| PopupWindow.BackgroundBlurPopupWindow.ResetDarkPosition | library/src/main/java/bakerj/backgroundblurpopupwindow/BackgroundBlurPopupWindow.java:349-368 | Full-screen edges, and all five slots null. |
| PopupWindow.BackgroundBlurPopupWindow.CheckPositionLeft | library/src/main/java/bakerj/backgroundblurpopupwindow/BackgroundBlurPopupWindow.java:259-266 | A live leftOf anchor is re-applied while leftOf is 0. Otherwise nothing changes. |
| PopupWindow.BackgroundBlurPopupWindow.CheckPositionRight | library/src/main/java/bakerj/backgroundblurpopupwindow/BackgroundBlurPopupWindow.java:271-278 | A live rightOf anchor is re-applied while rightOf is 0. Otherwise nothing changes. |
| PopupWindow.BackgroundBlurPopupWindow.CheckPositionBelow | library/src/main/java/bakerj/backgroundblurpopupwindow/BackgroundBlurPopupWindow.java:283-290 | A live below anchor is re-applied while below is 0. Otherwise nothing changes. |
| PopupWindow.BackgroundBlurPopupWindow.CheckPositionAbove | library/src/main/java/bakerj/backgroundblurpopupwindow/BackgroundBlurPopupWindow.java:295-302 | A live above anchor is re-applied while above is 0. Otherwise nothing changes. |
| PopupWindow.BackgroundBlurPopupWindow.CheckPositionFill | library/src/main/java/bakerj/backgroundblurpopupwindow/BackgroundBlurPopupWindow.java:307-314 | A live fill anchor is re-applied while leftOf or above is 0. Otherwise nothing changes. |
| PopupWindow.BackgroundBlurPopupWindow.CheckPosition | library/src/main/java/bakerj/backgroundblurpopupwindow/BackgroundBlurPopupWindow.java:236-254 | The edges become `Recheck` of the old edges. With an engine, its clip and the blur view's padding follow `ClipOf`. The engine's task, settings, debug flag, context and shown bitmap are unchanged. |
| PopupWindow.BackgroundBlurPopupWindow.ClipEngine | library/src/main/java/bakerj/backgroundblurpopupwindow/BackgroundBlurPopupWindow.java:243-252 | The engine's clip and the blur view's top padding become those of `ClipOf` the edges: the top is raised to 0 with a padding of the correction when it would be 0 or less, and the bottom is clamped at 0. The window stays valid. |
| PopupWindow.BackgroundBlurPopupWindow.ComputeDarkLayout | library/src/main/java/bakerj/backgroundblurpopupwindow/BackgroundBlurPopupWindow.java:319-324 | The dark layout's x, y, width and height become `LayoutOf` the edges. |
| PopupWindow.BackgroundBlurPopupWindow.SetDarkAnimStyle | library/src/main/java/bakerj/backgroundblurpopupwindow/BackgroundBlurPopupWindow.java:452-454 | The style becomes the given value. |
| PopupWindow.BackgroundBlurPopupWindow.SetDarkShowing | library/src/main/java/bakerj/backgroundblurpopupwindow/BackgroundBlurPopupWindow.java:460-462 | The flag becomes the given value, and the window manager is not touched. |
| PopupWindow.BackgroundBlurPopupWindow.InvokeBgCover | library/src/main/java/bakerj/backgroundblurpopupwindow/BackgroundBlurPopupWindow.java:217-231 | The flags and task log follow `Overlay.Cover`. When the popup already shows or has no content, nothing changes: edges, layout, padding, the engine's clip and its task handle all stay. When it proceeds, the edges are re-checked and the clip is set. When it adds the dark view, the layout and animation are computed from the new edges, and a fresh task captures the new clip, with the blur view bound and the source not yet recycled; otherwise the task handle stays. Without an engine the padding stays. The engine's settings, debug flag, context and shown bitmap never change. No task object the window held before, the current or an earlier one, changes. |
| PopupWindow.BackgroundBlurPopupWindow.AddDarkView | library/src/main/java/bakerj/backgroundblurpopupwindow/BackgroundBlurPopupWindow.java:222-230 | The dark view is laid out from the edges and added. It is marked showing, and the engine is resumed with a fresh task that has captured the clip, is bound to the blur view and has not recycled its source. The engine's clip, settings, debug flag, context and shown bitmap are unchanged. |
| PopupWindow.BackgroundBlurPopupWindow.Show | library/src/main/java/bakerj/backgroundblurpopupwindow/BackgroundBlurPopupWindow.java:202-212 | The flags and task log follow `Overlay.Show`: cover, then the base show. Every clause of `InvokeBgCover` carries over: the re-checked edges, the clip and padding, the fresh task's capture, view binding and unrecycled source, and the layout. When nothing is covered, everything stays. No task object the window held before changes. |
| PopupWindow.BackgroundBlurPopupWindow.Dismiss | library/src/main/java/bakerj/backgroundblurpopupwindow/BackgroundBlurPopupWindow.java:327-336 | The flags and task log follow `Overlay.Dismiss`. The edges, anchors, layout, animation style and padding are unchanged. The engine keeps its task handle, settings, clip, debug flag, context and shown bitmap. The current task becomes cancelled exactly when it already was or the dark view is removed; it keeps its capture, view binding and source flag. Every other task object is unchanged. |
| PopupWindow.BackgroundBlurPopupWindow.OnDestroy | library/src/main/java/bakerj/backgroundblurpopupwindow/BackgroundBlurPopupWindow.java:464-468 | The flags and task log follow `Overlay.Destroy`. An engine cancels the task it held, which keeps its capture, view binding and source flag, then drops its task handle and its context, and keeps its settings, clip, debug flag and shown bitmap. Every other task object is unchanged. The window's edges, anchors, layout and padding are unchanged. |
| PopupWindow.BackgroundBlurPopupWindow.SetBlurRadius | library/src/main/java/bakerj/backgroundblurpopupwindow/BackgroundBlurPopupWindow.java:107-109 | The engine's radius becomes the clamped value, and the window stays valid. |
| PopupWindow.BackgroundBlurPopupWindow.SetDownScaleFactor | library/src/main/java/bakerj/backgroundblurpopupwindow/BackgroundBlurPopupWindow.java:121-123 | The engine's factor becomes the clamped value, and the window stays valid. |
| PopupWindow.BackgroundBlurPopupWindow.SetUseRenderScript | library/src/main/java/bakerj/backgroundblurpopupwindow/BackgroundBlurPopupWindow.java:143-145 | The engine's RenderScript flag becomes the given value, and the window stays valid. |
| Scenarios.BelowThenFillScreen | library/src/main/java/bakerj/backgroundblurpopupwindow/BackgroundBlurPopupWindow.java:373-378 | On a 1080x1920 screen, darkBelow of a 200x50 box at (100, 100) sets below to 150. darkFillScreen then restores (0, 1080, 1920, 0). |
| Scenarios.ResetTwiceIsFresh | library/src/main/java/bakerj/backgroundblurpopupwindow/BackgroundBlurPopupWindow.java:349-368 | Resetting twice gives the same edges and slots as resetting once, which are those of a new window. |
| Scenarios.CenterButton | sample/src/main/java/bakerj/sample/MainActivity.java:95-105 | The four setters give the box between the four buttons. When none of its edges is 0, show re-derives none of them, whether or not the anchors are still live. The dark window spans exactly that box. |
| Scenarios.RightOfCollectedBeforeShow | library/src/main/java/bakerj/backgroundblurpopupwindow/BackgroundBlurPopupWindow.java:271-278 | An anchor collected before show keeps the edge it set. |
| Scenarios.FillViewButton | sample/src/main/java/bakerj/sample/MainActivity.java:116-124 | After drakFillView and show, the dark region is the view's box. |
| Scenarios.ShowThenPublish | library/src/main/java/bakerj/backgroundblurpopupwindow/BlurPopupEngine.java:359-440 | After a first show of a new window with an activity, the engine's task runs to completion. The engine then shows the capture of the clip the show computed, blurred with the window's radius 6, factor 1.0 and RenderScript on. |
| Scenarios.ZeroEdgeLetsFillOverride | library/src/main/java/bakerj/backgroundblurpopupwindow/BackgroundBlurPopupWindow.java:307-314 | A leftOf edge legitimately derived as 0 lets a live fill anchor overwrite all four edges, including one set by a live rightOf anchor. |
| Scenarios.FillYieldsToSetEdges | library/src/main/java/bakerj/backgroundblurpopupwindow/BackgroundBlurPopupWindow.java:307-314 | With leftOf and above already non-zero, a live fill anchor changes nothing, whether or not the leftOf and above anchors are live. Only the rightOf and below anchors are re-applied. |

## Left out

- BlurEngine.CaptureOf: every clip rectangle becomes a capture. Android's `Bitmap.createBitmap` (BlurPopupEngine.java lines 379-380) throws when the width or height is 0 or less, or when the crop leaves the drawing cache. An example is a dark box inside the status bar, where top and bottom are both 0. In the source that exception ends `invokeBgCover` after the dark view was added and `isDarkShowing` set, and before the base show. The model does not represent that exception path.
- Pixels: drawing-cache capture, scaling, and the RenderScript and FastBlur kernels (`blur`, `RenderScriptBlurHelper`, `FastBlurHelper`). A bitmap is described only by its crop and its blur settings.
- The `Math.ceil` size of the scaled overlay. It is floating-point arithmetic on pixel sizes. The downscale factor is a `real`, so a float NaN is not modelled.
- Threading of `AsyncTask`. Its phases are separate methods, and the protocol treats a task as uncancelled until cancelled. `onCancelled` and the interleaving of `onPostExecute` with later calls are not modelled.
- Animations (alpha fades, window animations beyond the style id), debug logging, and the drawing-cache measure/layout retry when the first capture is null.
- `createDarkLayout` and `computeFlags`: the window-manager flags, gravity, token and format. Only x, y, width, height and the animation of the layout parameters are modelled.
- `setDarkColor`, the `isDark` choice of dark view, and the getters `getDarkAnimStyle` and `isDarkShowing`. These only read or paint, and affect no modelled state.
- `Utils.java` (full-screen, translucent status bar, status-bar height). Their answers are constructor parameters.
- The base `PopupWindow`: modelled only as the `isShowing()` flag. Its drop-down and location arguments are not modelled.
- `setDarkShowing` is modelled as a method, but it is not an event of the `Overlay` protocol. Setting the flag by hand can break the link between the flag and the window manager.
- BlurEngine.BlurPopupEngine.OnPostExecute: requires a holder view and a context only when it publishes. On API level 12 and above the source also fades the holder in when the result is null.
- PopupWindow.BackgroundBlurPopupWindow.SetBlurRadius: requires an engine. Without one, the source throws a NullPointerException, which is not modelled. The same holds for SetDownScaleFactor and SetUseRenderScript.

/**
 * BlurPopupEngine: the blur configuration, the clip rectangle and the
 * lifecycle of the single background task that captures, blurs and
 * publishes the blurred background. Pixels are abstract: a bitmap is
 * described by where it was captured and how it was blurred.
 */
module BlurEngine {
  import opened JavaInt
  import opened Wrappers
  import opened Geometry

  const DEFAULT_BLUR_DOWN_SCALE_FACTOR: real := 4.0
  const DEFAULT_BLUR_RADIUS: Int32 := 8

  /** `setBlurRadius`: a negative radius is stored as 0, any other as given. */
  function ClampRadius(radius: Int32): (r: Int32)
    ensures 0 <= r
    ensures radius >= 0 ==> r == radius
    ensures radius < 0 ==> r == 0
  {
    if radius >= 0 then radius else 0
  }

  /** `setDownScaleFactor`: a factor below 1.0 is stored as 1.0, any other as given. */
  function ClampDownScale(factor: real): (r: real)
    ensures 1.0 <= r
    ensures factor >= 1.0 ==> r == factor
    ensures factor < 1.0 ==> r == 1.0
  {
    if factor >= 1.0 then factor else 1.0
  }

  /** Clamping is a projection: a stored value is stored again unchanged. */
  lemma ClampsIdempotent(radius: Int32, factor: real)
    ensures ClampRadius(ClampRadius(radius)) == ClampRadius(radius)
    ensures ClampDownScale(ClampDownScale(factor)) == ClampDownScale(factor)
  {
  }

  /** The blur settings the background phase reads. */
  datatype BlurConfig = BlurConfig(radius: Int32, downScale: real, renderScript: bool)

  /** An abstract bitmap: a crop of the drawing cache, or a blurred copy of another bitmap. */
  datatype Bitmap =
    | Capture(left: Int32, top: Int32, width: Int32, height: Int32)
    | Blurred(source: Bitmap, config: BlurConfig)

  /**
   * The crop `onPreExecute` takes of the drawing cache: it starts at the
   * clip rectangle's top-left corner and spans `width() x height()`, so it
   * ends exactly at the clip's right and bottom edges.
   */
  function CaptureOf(clip: Rect): (b: Bitmap)
    ensures b.Capture? && b.left == clip.left && b.top == clip.top
    ensures Add(b.left, b.width) == clip.right && Add(b.top, b.height) == clip.bottom
  {
    AddSubCancel(clip.left, clip.right);
    AddSubCancel(clip.top, clip.bottom);
    Capture(clip.left, clip.top, Width(clip), Height(clip))
  }

  /**
   * The result rule of `doInBackground`: a task cancelled by then yields
   * no bitmap; otherwise it yields the source blurred with the current
   * settings.
   */
  function BackgroundResult(cancelled: bool, source: Option<Bitmap>, config: BlurConfig): (r: Option<Bitmap>)
    requires !cancelled ==> source.Some?
    ensures r.Some? <==> !cancelled
    ensures r.Some? ==> r.value.Blurred? && Some(r.value.source) == source && r.value.config == config
  {
    if cancelled then None else Some(Blurred(source.value, config))
  }

  /** The publish rule of `onPostExecute`: only a bitmap replaces what the holder shows. */
  function Publish(shown: Option<Bitmap>, result: Option<Bitmap>): (r: Option<Bitmap>)
    ensures result.Some? ==> r == result
    ensures result.None? ==> r == shown
  {
    if result.Some? then result else shown
  }

  /** A task cancelled before its background phase never changes what is shown. */
  lemma CancelledTaskNeverPublishes(shown: Option<Bitmap>, source: Option<Bitmap>, config: BlurConfig)
    ensures Publish(shown, BackgroundResult(true, source, config)) == shown
  {
  }

  /**
   * Every task the engine has created, oldest first, by whether it was
   * cancelled; `live` says the engine's handle points at the newest one.
   */
  datatype TaskLog = TaskLog(cancelled: seq<bool>, live: bool)

  ghost predicate WellFormed(l: TaskLog) {
    l.live ==> |l.cancelled| > 0
  }

  /** No task runs uncancelled without the engine holding its handle. */
  ghost predicate NoLiveOrphans(l: TaskLog) {
    forall i :: 0 <= i < |l.cancelled| && !(l.live && i == |l.cancelled| - 1) ==> l.cancelled[i]
  }

  ghost predicate AllCancelled(l: TaskLog) {
    forall i :: 0 <= i < |l.cancelled| ==> l.cancelled[i]
  }

  /**
   * `onResume` creating a task: a new, uncancelled task becomes the handle;
   * every earlier task keeps its flag.
   */
  function Resumed(l: TaskLog): (r: TaskLog)
    ensures r.live && |r.cancelled| == |l.cancelled| + 1 && !r.cancelled[|l.cancelled|]
    ensures forall i :: 0 <= i < |l.cancelled| ==> r.cancelled[i] == l.cancelled[i]
  {
    TaskLog(l.cancelled + [false], true)
  }

  /** `cancel(true)` on the task behind the handle, if there is one. */
  function CancelCurrent(l: TaskLog): (r: TaskLog)
    requires WellFormed(l)
    ensures r.live == l.live && |r.cancelled| == |l.cancelled|
    ensures l.live ==> r.cancelled[|l.cancelled| - 1]
    ensures forall i :: 0 <= i < |l.cancelled| && !(l.live && i == |l.cancelled| - 1) ==>
      r.cancelled[i] == l.cancelled[i]
  {
    if l.live then TaskLog(l.cancelled[..|l.cancelled| - 1] + [true], true) else l
  }

  /** `onDestroy`: cancel the current task, then drop the handle. */
  function Destroyed(l: TaskLog): (r: TaskLog)
    requires WellFormed(l)
    ensures !r.live && |r.cancelled| == |l.cancelled|
    ensures l.live ==> r.cancelled[|l.cancelled| - 1]
    ensures forall i :: 0 <= i < |l.cancelled| && !(l.live && i == |l.cancelled| - 1) ==>
      r.cancelled[i] == l.cancelled[i]
  {
    TaskLog(CancelCurrent(l).cancelled, false)
  }

  /**
   * `onResume` does not cancel the task it replaces: replacing it leaves no
   * orphan exactly when that task was already cancelled or there was none.
   */
  lemma ResumeOrphansIff(l: TaskLog)
    requires WellFormed(l) && NoLiveOrphans(l)
    ensures NoLiveOrphans(Resumed(l)) <==> (!l.live || l.cancelled[|l.cancelled| - 1])
  {
    var r := Resumed(l);
    if l.live && !l.cancelled[|l.cancelled| - 1] {
      assert !r.cancelled[|l.cancelled| - 1];
    } else {
      forall i | 0 <= i < |r.cancelled| && !(r.live && i == |r.cancelled| - 1)
        ensures r.cancelled[i]
      {
        assert r.cancelled[i] == l.cancelled[i];
      }
    }
  }

  /** Cancelling the current task of an orphan-free log leaves every task cancelled. */
  lemma CancelCurrentCancelsAll(l: TaskLog)
    requires WellFormed(l) && NoLiveOrphans(l)
    ensures AllCancelled(CancelCurrent(l))
    ensures CancelCurrent(l).live == l.live && |CancelCurrent(l).cancelled| == |l.cancelled|
  {
    var c := CancelCurrent(l);
    forall i | 0 <= i < |c.cancelled| ensures c.cancelled[i] {
      if !(l.live && i == |l.cancelled| - 1) {
        assert c.cancelled[i] == l.cancelled[i];
      }
    }
  }

  /** After `onDestroy` there is no handle and no task left uncancelled. */
  lemma DestroyedCancelsAll(l: TaskLog)
    requires WellFormed(l) && NoLiveOrphans(l)
    ensures AllCancelled(Destroyed(l)) && !Destroyed(l).live
  {
    CancelCurrentCancelsAll(l);
  }

  /** The inner BlurAsyncTask: its cancel flag and the references its phases set and clear. */
  class BlurTask {
    var cancelled: bool
    /** mBackground: the captured source bitmap. */
    var background: Option<Bitmap>
    /** mBackgroundView != null. */
    var viewBound: bool
    /** Whether `recycle()` has been called on the source. */
    var sourceRecycled: bool

    constructor ()
      ensures !cancelled && background.None? && !viewBound && !sourceRecycled
    {
      cancelled, background, viewBound, sourceRecycled := false, None, false, false;
    }

    /** `cancel(true)`: raise the flag the background phase checks. */
    method Cancel()
      modifies this`cancelled
      ensures cancelled
    {
      cancelled := true;
    }

    /** `onPreExecute`: bind the view and crop the drawing cache to the clip rectangle. */
    method OnPreExecute(clip: Rect)
      modifies this`background, this`viewBound
      ensures background == Some(CaptureOf(clip)) && viewBound
    {
      viewBound := true;
      background := Some(CaptureOf(clip));
    }

    /**
     * `doInBackground`: a cancelled task returns no bitmap and does not
     * recycle its source; otherwise the source is blurred, then recycled.
     */
    method DoInBackground(config: BlurConfig) returns (r: Option<Bitmap>)
      requires !cancelled ==> background.Some?
      modifies this`sourceRecycled
      ensures r == BackgroundResult(cancelled, background, config)
      ensures sourceRecycled == (old(sourceRecycled) || !cancelled)
    {
      if !cancelled {
        r := Some(Blurred(background.value, config));
      } else {
        return None;
      }
      sourceRecycled := true;
    }
  }

  class BlurPopupEngine {
    /** mContext != null. */
    var contextPresent: bool
    /** mBlurredBackgroundView != null; never reassigned. */
    const holderPresent: bool
    const animationDuration: int
    var clipRect: Rect
    /** mBluringTask, the single task handle. */
    var task: BlurTask?
    var debugEnable: bool
    var downScaleFactor: real
    var blurRadius: Int32
    var useRenderScript: bool
    /** The bitmap the holder view displays, if any. */
    var shown: Option<Bitmap>

    /** The cancel flag of every task this engine has created, oldest first. */
    ghost var log: seq<bool>
    ghost var Repr: set<object>

    ghost predicate Valid()
      reads this`Repr, this`task, this`log, this`blurRadius, this`downScaleFactor, Repr - {this}
    {
      this in Repr &&
      (task == null ==> Repr == {this}) &&
      (task != null ==> Repr == {this, task} && |log| > 0 && task.cancelled == log[|log| - 1]) &&
      0 <= blurRadius && 1.0 <= downScaleFactor
    }

    ghost function Log(): TaskLog
      reads this
    {
      TaskLog(log, task != null)
    }

    function Config(): BlurConfig
      reads this
    {
      BlurConfig(blurRadius, downScaleFactor, useRenderScript)
    }

    constructor (animDuration: int, context: bool, holder: bool)
      ensures Valid() && fresh(Repr)
      ensures Log() == TaskLog([], false)
      ensures contextPresent == context && holderPresent == holder && animationDuration == animDuration
      ensures blurRadius == DEFAULT_BLUR_RADIUS && downScaleFactor == DEFAULT_BLUR_DOWN_SCALE_FACTOR
      ensures !useRenderScript && !debugEnable
      ensures clipRect == Rect(0, 0, 0, 0) && shown.None?
    {
      contextPresent, holderPresent, animationDuration := context, holder, animDuration;
      clipRect := Rect(0, 0, 0, 0);
      task := null;
      debugEnable, useRenderScript := false, false;
      downScaleFactor, blurRadius := DEFAULT_BLUR_DOWN_SCALE_FACTOR, DEFAULT_BLUR_RADIUS;
      shown := None;
      log := [];
      Repr := {this};
    }

    /**
     * `onResume`: with `retainedInstance` or without a holder view, create
     * and execute a fresh task (its pre-execute phase runs at once); the
     * task it replaces is not cancelled.
     */
    method OnResume(retainedInstance: bool)
      requires Valid()
      modifies this`task, this`log, this`Repr
      ensures Valid() && fresh(Repr - old(Repr))
      ensures if !holderPresent || retainedInstance then
          fresh(task) && Log() == Resumed(old(Log())) &&
          task.background == Some(CaptureOf(clipRect)) && task.viewBound &&
          !task.cancelled && !task.sourceRecycled
        else task == old(task) && Log() == old(Log()) && Repr == old(Repr)
    {
      if !holderPresent || retainedInstance {
        var t := new BlurTask();
        t.OnPreExecute(clipRect);
        task := t;
        log := log + [false];
        Repr := {this, t};
      }
    }

    /** `onDismiss`: cancel the current task, if any, and keep the handle. */
    method OnDismiss()
      requires Valid()
      modifies Repr
      ensures Valid() && Repr == old(Repr)
      ensures task == old(task) && (task != null ==> task.cancelled)
      ensures WellFormed(old(Log())) && Log() == CancelCurrent(old(Log()))
      ensures Config() == old(Config()) && clipRect == old(clipRect) && shown == old(shown)
      ensures contextPresent == old(contextPresent) && debugEnable == old(debugEnable)
      ensures task != null ==>
        task.background == old(task.background) && task.viewBound == old(task.viewBound) &&
        task.sourceRecycled == old(task.sourceRecycled)
    {
      if task != null {
        task.Cancel();
        log := log[..|log| - 1] + [true];
      }
    }

    /** `onDestroy`: cancel the current task, if any, then drop the handle and the context. */
    method OnDestroy()
      requires Valid()
      modifies Repr
      ensures Valid() && Repr <= old(Repr)
      ensures task == null && !contextPresent
      ensures old(task) != null ==> old(task).cancelled
      ensures WellFormed(old(Log())) && Log() == Destroyed(old(Log()))
      ensures Config() == old(Config()) && clipRect == old(clipRect) && shown == old(shown)
      ensures debugEnable == old(debugEnable)
      ensures old(task) != null ==>
        old(task).background == old(task.background) && old(task).viewBound == old(task.viewBound) &&
        old(task).sourceRecycled == old(task.sourceRecycled)
    {
      if task != null {
        task.Cancel();
        log := log[..|log| - 1] + [true];
      }
      task := null;
      contextPresent := false;
      Repr := {this};
    }

    /** `debug`. */
    method Debug(enable: bool)
      requires Valid()
      modifies this`debugEnable
      ensures Valid()
      ensures debugEnable == enable
    {
      debugEnable := enable;
    }

    /** `setDownScaleFactor`. */
    method SetDownScaleFactor(factor: real)
      requires Valid()
      modifies this`downScaleFactor
      ensures Valid()
      ensures downScaleFactor == ClampDownScale(factor)
    {
      if factor >= 1.0 {
        downScaleFactor := factor;
      } else {
        downScaleFactor := 1.0;
      }
    }

    /** `setUseRenderScript`. */
    method SetUseRenderScript(use: bool)
      requires Valid()
      modifies this`useRenderScript
      ensures Valid()
      ensures useRenderScript == use
    {
      useRenderScript := use;
    }

    /** `setBlurRadius`. */
    method SetBlurRadius(radius: Int32)
      requires Valid()
      modifies this`blurRadius
      ensures Valid()
      ensures blurRadius == ClampRadius(radius)
    {
      if radius >= 0 {
        blurRadius := radius;
      } else {
        blurRadius := 0;
      }
    }

    /** `setBlurRect`: the clip rectangle is exactly the four values given. */
    method SetBlurRect(left: Int32, top: Int32, right: Int32, bottom: Int32)
      requires Valid()
      modifies this`clipRect
      ensures Valid()
      ensures clipRect == Rect(left, top, right, bottom)
    {
      clipRect := Rect(left, top, right, bottom);
    }

    /**
     * `onPostExecute` of task `t`: publish a bitmap if there is one, then
     * clear the task's view and source references. Publishing dereferences
     * the holder view and the context, and clearing dereferences the bound
     * view, so those must be present.
     */
    method OnPostExecute(t: BlurTask, result: Option<Bitmap>)
      requires Valid() && t.viewBound
      requires result.Some? ==> holderPresent && contextPresent
      modifies this`shown, t`viewBound, t`background
      ensures Valid()
      ensures shown == Publish(old(shown), result)
      ensures !t.viewBound && t.background.None?
    {
      if result.Some? {
        shown := result;
      }
      t.viewBound := false;
      t.background := None;
    }
  }
}

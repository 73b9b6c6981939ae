/**
 * The show/dismiss machine of BackgroundBlurPopupWindow together with the
 * engine's task handle, as pure functions over the observable flags:
 * whether the popup itself shows, whether the window believes the dark
 * view shows (`isDarkShowing`), whether the window manager holds the dark
 * view, and the log of blur tasks.
 */
module Overlay {
  import opened BlurEngine

  datatype Visibility = Visibility(popupShowing: bool, darkShowing: bool, darkAdded: bool)

  datatype Session = Session(vis: Visibility, tasks: TaskLog)

  /** What the constructor fixes: a content view, the dark layout, a blur engine. */
  datatype Fixture = Fixture(hasContent: bool, hasLayout: bool, hasEngine: bool)

  const Initial: Session := Session(Visibility(false, false, false), TaskLog([], false))

  /** Whether `invokeBgCover` gets past its first guard. */
  predicate CoverProceeds(s: Session, f: Fixture) {
    !s.vis.popupShowing && f.hasContent
  }

  /** Whether `invokeBgCover` adds the dark view and resumes the engine. */
  predicate CoverAdds(s: Session, f: Fixture) {
    CoverProceeds(s, f) && f.hasLayout && !s.vis.darkShowing
  }

  /**
   * `invokeBgCover`: nothing when the popup already shows or has no
   * content; otherwise, when the dark view is not showing, add it and
   * start a blur task.
   */
  function Cover(s: Session, f: Fixture): (r: Session)
    ensures !CoverProceeds(s, f) ==> r == s
    ensures CoverAdds(s, f) ==> r.vis.darkShowing && r.vis.darkAdded
    ensures !CoverAdds(s, f) ==> r == s
    ensures r.vis.popupShowing == s.vis.popupShowing
    ensures r.tasks == if CoverAdds(s, f) && f.hasEngine then Resumed(s.tasks) else s.tasks
  {
    if CoverAdds(s, f) then
      Session(s.vis.(darkShowing := true, darkAdded := true),
              if f.hasEngine then Resumed(s.tasks) else s.tasks)
    else s
  }

  /**
   * `showAsDropDown` / `showAtLocation`: cover, then the base popup shows
   * itself when it has content.
   */
  function Show(s: Session, f: Fixture): (r: Session)
    ensures r.vis.popupShowing <==> s.vis.popupShowing || f.hasContent
    ensures r.tasks == Cover(s, f).tasks
    ensures r.vis.darkShowing == Cover(s, f).vis.darkShowing && r.vis.darkAdded == Cover(s, f).vis.darkAdded
  {
    var c := Cover(s, f);
    c.(vis := c.vis.(popupShowing := c.vis.popupShowing || f.hasContent))
  }

  /** Whether `dismiss` removes the dark view and dismisses the engine. */
  predicate DismissRemoves(s: Session, f: Fixture) {
    s.vis.darkShowing && s.vis.popupShowing && f.hasContent && f.hasLayout
  }

  /**
   * `dismiss`: remove the dark view and cancel the blur task only when all
   * four conditions hold; the base dismissal happens in every case.
   */
  function Dismiss(s: Session, f: Fixture): (r: Session)
    requires WellFormed(s.tasks)
    ensures !r.vis.popupShowing
    ensures DismissRemoves(s, f) ==> !r.vis.darkShowing && !r.vis.darkAdded
    ensures !DismissRemoves(s, f) ==>
      r.tasks == s.tasks && r.vis.darkShowing == s.vis.darkShowing && r.vis.darkAdded == s.vis.darkAdded
  {
    var removed :=
      if DismissRemoves(s, f) then
        Session(s.vis.(darkShowing := false, darkAdded := false),
                if f.hasEngine then CancelCurrent(s.tasks) else s.tasks)
      else s;
    removed.(vis := removed.vis.(popupShowing := false))
  }

  /** `onDestroy` of the window: destroy the engine, if there is one. */
  function Destroy(s: Session, f: Fixture): (r: Session)
    requires WellFormed(s.tasks)
    ensures r.vis == s.vis
    ensures f.hasEngine ==> !r.tasks.live && |r.tasks.cancelled| == |s.tasks.cancelled|
    ensures !f.hasEngine ==> r == s
  {
    if f.hasEngine then s.(tasks := Destroyed(s.tasks)) else s
  }

  datatype Event = ShowEvent | DismissEvent | DestroyEvent

  function Step(s: Session, f: Fixture, ev: Event): Session
    requires WellFormed(s.tasks)
  {
    match ev
    case ShowEvent => Show(s, f)
    case DismissEvent => Dismiss(s, f)
    case DestroyEvent => Destroy(s, f)
  }

  /**
   * The protocol invariant: the window manager holds the dark view exactly
   * when the window says it shows; at most the task behind the handle runs
   * uncancelled, and none does while the dark view is hidden; a window
   * without an engine has no tasks.
   */
  ghost predicate Inv(s: Session, f: Fixture) {
    WellFormed(s.tasks) && NoLiveOrphans(s.tasks) &&
    (!s.vis.darkShowing ==> AllCancelled(s.tasks)) &&
    s.vis.darkAdded == s.vis.darkShowing &&
    (!f.hasEngine ==> s.tasks == TaskLog([], false))
  }

  lemma InitialInv(f: Fixture)
    ensures Inv(Initial, f)
  {
  }

  lemma {:induction false} StepKeepsInv(s: Session, f: Fixture, ev: Event)
    requires Inv(s, f)
    ensures WellFormed(Step(s, f, ev).tasks) && Inv(Step(s, f, ev), f)
  {
    match ev
    case ShowEvent =>
      if CoverAdds(s, f) && f.hasEngine {
        assert AllCancelled(s.tasks);
        ResumeOrphansIff(s.tasks);
      }
    case DismissEvent =>
      if DismissRemoves(s, f) && f.hasEngine {
        CancelCurrentCancelsAll(s.tasks);
      }
    case DestroyEvent =>
      if f.hasEngine {
        DestroyedCancelsAll(s.tasks);
      }
  }

  /** The session after a sequence of show, dismiss and destroy calls. */
  function Run(s: Session, f: Fixture, events: seq<Event>): Session
    requires Inv(s, f)
    decreases |events|
  {
    if events == [] then s
    else
      StepKeepsInv(s, f, events[0]);
      Run(Step(s, f, events[0]), f, events[1..])
  }

  /** Every sequence of calls keeps the protocol invariant. */
  lemma {:induction false} RunKeepsInv(s: Session, f: Fixture, events: seq<Event>)
    requires Inv(s, f)
    ensures Inv(Run(s, f, events), f)
    decreases |events|
  {
    if events != [] {
      StepKeepsInv(s, f, events[0]);
      RunKeepsInv(Step(s, f, events[0]), f, events[1..]);
    }
  }

  /**
   * Whatever sequence of shows, dismissals and destroys a window goes
   * through, at most one blur task runs uncancelled, it is the one behind
   * the engine's handle, and once the dark view is hidden none does.
   */
  lemma {:induction false} AtMostOneLiveTask(f: Fixture, events: seq<Event>, i: int, j: int)
    requires var t := Run(Initial, f, events).tasks;
      0 <= i < |t.cancelled| && 0 <= j < |t.cancelled| && !t.cancelled[i] && !t.cancelled[j]
    ensures i == j
    ensures var r := Run(Initial, f, events);
      r.vis.darkShowing && r.tasks.live && i == |r.tasks.cancelled| - 1
  {
    RunKeepsInv(Initial, f, events);
  }
}

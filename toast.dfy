/**
  * One `Toast` component: its two state flags, the two timers it keeps in refs, the exit
  * timers it schedules without keeping them, and the calls it makes to `onClose`. Callbacks
  * are tokens; a parent that re-renders passes a new token, as an inline arrow does.
  */
module ToastLifecycle {
  import opened Wrappers

  type Callback = int

  const DefaultDuration: int := 4000
  const EntranceDelay: int := 50
  const ExitDelay: int := 300

  /** The CSS transition of the progress bar. */
  datatype Transition = ExitOver300ms | LinearOver(ms: int) | NoTransition

  /** What the component renders from its props and state. */
  datatype View = View(shownInPlace: bool, progressWidth: nat, transition: Transition)

  /** `if (!isVisible) return null`, then the entrance class and the progress bar. */
  function Render(isVisible: bool, isAnimating: bool, isLeaving: bool, duration: int): (v: Option<View>)
    ensures v.None? <==> !isVisible
    ensures v.Some? ==> (v.value.shownInPlace <==> isAnimating && !isLeaving)
    ensures v.Some? ==> (v.value.progressWidth == 100 <==> !isAnimating && !isLeaving)
    ensures v.Some? ==> v.value.progressWidth in {0, 100}
    ensures v.Some? && isLeaving ==> v.value.transition == ExitOver300ms
    ensures v.Some? && !isLeaving && isAnimating ==> v.value.transition == LinearOver(duration)
    ensures v.Some? && !isLeaving && !isAnimating ==> v.value.transition == NoTransition
  {
    if !isVisible then None
    else
      Some(View(
        isAnimating && !isLeaving,
        if isLeaving then 0 else if isAnimating then 0 else 100,
        if isLeaving then ExitOver300ms else if isAnimating then LinearOver(duration) else NoTransition))
  }

  class Toast {
    var isVisible: bool
    var onClose: Callback
    var duration: int
    var isAnimating: bool
    var isLeaving: bool
    /** The entrance timer kept in `animationTimeoutRef`. */
    var entrancePending: bool
    /** The auto-close timer kept in `timeoutRef`. */
    var autoClosePending: bool
    /** The 300 ms exit timers, each with the callback it captured; no ref keeps them. */
    var exitPending: seq<Callback>
    /** Every call made to a callback, in order. */
    var closed: seq<Callback>

    /**
      * Leaving is the only way an exit gets scheduled, it is scheduled once, and the
      * auto-close timer is never armed once the toast is leaving.
      */
    predicate Valid()
      reads this
    {
      |exitPending| + |closed| == (if isLeaving then 1 else 0)
      && (isLeaving ==> !autoClosePending)
      && (!isVisible ==> !autoClosePending && !entrancePending)
    }

    /** The effect body, run after the cleanup of its previous run. */
    method RunEffect()
      modifies this
      ensures isVisible && !isLeaving ==> entrancePending && autoClosePending
      ensures !(isVisible && !isLeaving) ==>
        entrancePending == old(entrancePending) && autoClosePending == old(autoClosePending)
      ensures isVisible == old(isVisible) && onClose == old(onClose) && duration == old(duration)
      ensures isAnimating == old(isAnimating) && isLeaving == old(isLeaving)
      ensures exitPending == old(exitPending) && closed == old(closed)
    {
      if isVisible && !isLeaving {
        entrancePending := true;
        autoClosePending := true;
      }
    }

    /** Mount: fresh state, then the effect's first run. */
    constructor (isVisible: bool, onClose: Callback, duration: int)
      ensures this.isVisible == isVisible && this.onClose == onClose && this.duration == duration
      ensures !isAnimating && !isLeaving && exitPending == [] && closed == []
      ensures entrancePending == isVisible && autoClosePending == isVisible
      ensures Valid()
    {
      this.isVisible := isVisible;
      this.onClose := onClose;
      this.duration := duration;
      isAnimating := false;
      isLeaving := false;
      entrancePending := isVisible;
      autoClosePending := isVisible;
      exitPending := [];
      closed := [];
    }

    /**
      * A re-render with new props. When a dependency changed, the cleanup clears both kept
      * timers and the effect arms them again, so a toast not yet leaving restarts its full
      * duration; the exit timers are untouched.
      */
    method Rerender(isVisible': bool, onClose': Callback, duration': int)
      modifies this
      requires Valid()
      ensures isVisible == isVisible' && onClose == onClose' && duration == duration'
      ensures isAnimating == old(isAnimating) && isLeaving == old(isLeaving)
      ensures exitPending == old(exitPending) && closed == old(closed)
      ensures (isVisible', onClose', duration') != old((isVisible, onClose, duration)) ==>
        entrancePending == autoClosePending == (isVisible' && !isLeaving)
      ensures (isVisible', onClose', duration') == old((isVisible, onClose, duration)) ==>
        entrancePending == old(entrancePending) && autoClosePending == old(autoClosePending)
      ensures Valid()
    {
      if (isVisible', onClose', duration') != (isVisible, onClose, duration) {
        autoClosePending := false;
        entrancePending := false;
        isVisible, onClose, duration := isVisible', onClose', duration';
        RunEffect();
      }
    }

    /** The entrance timer fires after 50 ms. */
    method FireEntrance()
      modifies this
      requires Valid() && entrancePending
      ensures isAnimating && !entrancePending
      ensures isLeaving == old(isLeaving) && autoClosePending == old(autoClosePending)
      ensures exitPending == old(exitPending) && closed == old(closed)
      ensures isVisible == old(isVisible) && onClose == old(onClose) && duration == old(duration)
      ensures Valid()
    {
      isAnimating := true;
      entrancePending := false;
    }

    /** The auto-close timer fires after `duration` ms: start leaving, schedule the exit. */
    method FireAutoClose()
      modifies this
      requires Valid() && autoClosePending
      ensures isLeaving && !autoClosePending
      ensures exitPending == old(exitPending) + [onClose] && closed == old(closed) == []
      ensures isAnimating == old(isAnimating) && entrancePending == old(entrancePending)
      ensures isVisible == old(isVisible) && onClose == old(onClose) && duration == old(duration)
      ensures Valid()
    {
      isLeaving := true;
      autoClosePending := false;
      exitPending := exitPending + [onClose];
    }

    /** The close button: only while not leaving, it cancels the auto-close timer and exits. */
    method ManualClose()
      modifies this
      requires Valid()
      ensures isLeaving
      ensures !old(isLeaving) ==> !autoClosePending && exitPending == old(exitPending) + [onClose]
      ensures old(isLeaving) ==> autoClosePending == old(autoClosePending) && exitPending == old(exitPending)
      ensures closed == old(closed) && entrancePending == old(entrancePending)
      ensures isAnimating == old(isAnimating)
      ensures isVisible == old(isVisible) && onClose == old(onClose) && duration == old(duration)
      ensures Valid()
    {
      if !isLeaving {
        autoClosePending := false;
        isLeaving := true;
        exitPending := exitPending + [onClose];
      }
    }

    /** An exit timer fires after 300 ms and calls the callback it captured. */
    method FireExit()
      modifies this
      requires Valid() && exitPending != []
      ensures closed == old(closed) + [old(exitPending)[0]] && exitPending == old(exitPending)[1..]
      ensures isLeaving == old(isLeaving) && isAnimating == old(isAnimating)
      ensures entrancePending == old(entrancePending) && autoClosePending == old(autoClosePending)
      ensures isVisible == old(isVisible) && onClose == old(onClose) && duration == old(duration)
      ensures Valid()
    {
      closed := closed + [exitPending[0]];
      exitPending := exitPending[1..];
    }

    /** Unmount: the cleanup clears the kept timers only. */
    method Unmount()
      modifies this
      requires Valid()
      ensures !entrancePending && !autoClosePending
      ensures isLeaving == old(isLeaving) && isAnimating == old(isAnimating)
      ensures exitPending == old(exitPending) && closed == old(closed)
      ensures isVisible == old(isVisible) && onClose == old(onClose) && duration == old(duration)
    {
      entrancePending := false;
      autoClosePending := false;
    }
  }

  /** The undisturbed run: mount, entrance, auto-close, exit calls the callback exactly once. */
  method AutoCloseRun(cb: Callback) returns (t: Toast)
    ensures fresh(t) && t.closed == [cb] && t.isLeaving && t.exitPending == []
    ensures !t.entrancePending && !t.autoClosePending && t.Valid()
  {
    t := new Toast(true, cb, DefaultDuration);
    assert t.closed == [];
    t.FireEntrance();
    t.FireAutoClose();
    t.FireExit();
  }

  /** Pressing the close button twice arms a single exit timer: the second press finds the toast already leaving. */
  method CloseTwice(cb: Callback) returns (t: Toast)
    ensures fresh(t) && t.Valid() && |t.exitPending| + |t.closed| == 1
  {
    t := new Toast(true, cb, DefaultDuration);
    t.ManualClose();
    t.ManualClose();
  }

  /**
    * The provider renders every toast with a new inline callback, so showing another toast
    * re-arms a visible toast's auto-close timer for a full duration.
    */
  method ParentRenderRestartsTimer(cb: Callback, cb': Callback) returns (t: Toast)
    requires cb != cb'
    ensures fresh(t) && t.Valid() && t.isAnimating && !t.isLeaving
    ensures t.autoClosePending && t.entrancePending && t.onClose == cb' && t.closed == []
  {
    t := new Toast(true, cb, DefaultDuration);
    t.FireEntrance();
    t.Rerender(true, cb', DefaultDuration);
  }
}

/**
 * `PauseOnScrollListener`: pauses the icon loader while a list scrolls (by
 * touch and/or fling, as configured), resumes it when scrolling stops, and
 * forwards every callback to an optional listener of the application.
 */
module ScrollListeners {
  import opened IconLoaders

  /** The `AbsListView.OnScrollListener` scroll states. */
  const SCROLL_STATE_IDLE: int := 0
  const SCROLL_STATE_TOUCH_SCROLL: int := 1
  const SCROLL_STATE_FLING: int := 2

  /** What a state change asks of the loader. */
  datatype PauseAction = ResumeLoader | PauseLoader | LeaveLoader

  /** The `switch` of `onScrollStateChanged`. */
  function ScrollDecision(scrollState: int, pauseOnScroll: bool, pauseOnFling: bool): (a: PauseAction)
    ensures a == ResumeLoader <==> scrollState == SCROLL_STATE_IDLE
    ensures a == PauseLoader <==>
              (scrollState == SCROLL_STATE_TOUCH_SCROLL && pauseOnScroll) ||
              (scrollState == SCROLL_STATE_FLING && pauseOnFling)
  {
    if scrollState == SCROLL_STATE_IDLE then ResumeLoader
    else if scrollState == SCROLL_STATE_TOUCH_SCROLL then (if pauseOnScroll then PauseLoader else LeaveLoader)
    else if scrollState == SCROLL_STATE_FLING then (if pauseOnFling then PauseLoader else LeaveLoader)
    else LeaveLoader
  }

  /** The engine's paused flag after the action. */
  function Applied(paused: bool, a: PauseAction): bool
  {
    match a
    case ResumeLoader => false
    case PauseLoader => true
    case LeaveLoader => paused
  }

  /** The paused flag after `onScrollStateChanged` was called with each state in turn. */
  function Replay(paused: bool, states: seq<int>, pauseOnScroll: bool, pauseOnFling: bool): bool
  {
    if states == [] then paused
    else Applied(Replay(paused, states[..|states| - 1], pauseOnScroll, pauseOnFling),
                 ScrollDecision(states[|states| - 1], pauseOnScroll, pauseOnFling))
  }

  /**
   * Whatever the earlier flag and scroll history, once the list comes to
   * rest the loader stays running until a state that pauses it arrives:
   * callbacks that only leave the flag alone cannot pause it again.
   */
  lemma {:induction false} IdleAlwaysResumes(paused: bool, history: seq<int>, rest: seq<int>,
                                             pauseOnScroll: bool, pauseOnFling: bool)
    requires forall j :: 0 <= j < |rest| ==> ScrollDecision(rest[j], pauseOnScroll, pauseOnFling) != PauseLoader
    ensures !Replay(paused, history + [SCROLL_STATE_IDLE] + rest, pauseOnScroll, pauseOnFling)
  {
    var all := history + [SCROLL_STATE_IDLE] + rest;
    if rest == [] {
      assert all[..|all| - 1] == history;
    } else {
      var shorter := rest[..|rest| - 1];
      assert all[..|all| - 1] == history + [SCROLL_STATE_IDLE] + shorter;
      assert all[|all| - 1] == rest[|rest| - 1];
      IdleAlwaysResumes(paused, history, shorter, pauseOnScroll, pauseOnFling);
    }
  }

  /** With both flags off the listener never pauses the loader. */
  lemma NoFlagsNeverPause(paused: bool, scrollState: int)
    ensures Applied(paused, ScrollDecision(scrollState, false, false)) ==> paused
  {
  }

  /** A callback as the application's listener receives it. */
  datatype ScrollEvent =
    | StateChanged(view: object, scrollState: int)
    | Scrolled(view: object, firstVisibleItem: int, visibleItemCount: int, totalItemCount: int)

  /**
   * The application's own `OnScrollListener`, whose code is not part of this
   * model: it is represented by the callbacks it has received, in order.
   */
  class ExternalListener {
    var events: seq<ScrollEvent>

    constructor ()
      ensures events == []
    {
      events := [];
    }

    method OnScrollStateChanged(view: object, scrollState: int)
      modifies this
      ensures events == old(events) + [StateChanged(view, scrollState)]
    {
      events := events + [StateChanged(view, scrollState)];
    }

    method OnScroll(view: object, firstVisibleItem: int, visibleItemCount: int, totalItemCount: int)
      modifies this
      ensures events == old(events) + [Scrolled(view, firstVisibleItem, visibleItemCount, totalItemCount)]
    {
      events := events + [Scrolled(view, firstVisibleItem, visibleItemCount, totalItemCount)];
    }
  }

  class PauseOnScrollListener {
    const loader: IconLoader
    const pauseOnScroll: bool
    const pauseOnFling: bool
    const external: ExternalListener?

    /** Both constructors; the three-argument one passes a null listener. */
    constructor (loader: IconLoader, pauseOnScroll: bool, pauseOnFling: bool, external: ExternalListener?)
      ensures this.loader == loader && this.pauseOnScroll == pauseOnScroll
      ensures this.pauseOnFling == pauseOnFling && this.external == external
    {
      this.loader := loader;
      this.pauseOnScroll := pauseOnScroll;
      this.pauseOnFling := pauseOnFling;
      this.external := external;
    }

    /**
     * `onScrollStateChanged`: sets the loader's paused flag as
     * `ScrollDecision` says, then forwards the call unchanged.
     */
    method OnScrollStateChanged(view: object, scrollState: int)
      modifies loader.engine
      modifies if external == null then {} else {external}
      ensures loader.engine.paused ==
                Applied(old(loader.engine.paused), ScrollDecision(scrollState, pauseOnScroll, pauseOnFling))
      ensures loader.engine.registry == old(loader.engine.registry)
      ensures loader.engine.uriLocks == old(loader.engine.uriLocks)
      ensures loader.engine.executor == old(loader.engine.executor)
      ensures external != null ==> external.events == old(external.events) + [StateChanged(view, scrollState)]
    {
      if scrollState == SCROLL_STATE_IDLE {
        loader.Resume();
      } else if scrollState == SCROLL_STATE_TOUCH_SCROLL {
        if pauseOnScroll {
          loader.Pause();
        }
      } else if scrollState == SCROLL_STATE_FLING {
        if pauseOnFling {
          loader.Pause();
        }
      }
      if external != null {
        external.OnScrollStateChanged(view, scrollState);
      }
    }

    /** `onScroll`: only forwarded. */
    method OnScroll(view: object, firstVisibleItem: int, visibleItemCount: int, totalItemCount: int)
      modifies if external == null then {} else {external}
      ensures external != null ==>
                external.events == old(external.events) +
                                   [Scrolled(view, firstVisibleItem, visibleItemCount, totalItemCount)]
    {
      if external != null {
        external.OnScroll(view, firstVisibleItem, visibleItemCount, totalItemCount);
      }
    }
  }
}

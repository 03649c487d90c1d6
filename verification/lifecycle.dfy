/**
 * The show/hide life cycle of one widget, as values: what a right click on
 * the trigger element and what an outside click or scroll do to the menu's
 * visibility, its last position, the number of armed one-shot hide handlers
 * and the notifications emitted on the trigger element.
 */
module Lifecycle {
  import opened Common
  import opened Placement

  /** The four notifications: `show`, `shown`, `hide` and `hidden` in the `tm.contextmenu` namespace. */
  datatype Notification = Show | Shown | Hide | Hidden

  /**
   * One widget's observable state: whether the menu is visible, the last
   * position applied to it (none before the first one), how many one-shot
   * outside click/scroll handlers are armed, and every notification so far.
   */
  datatype MenuState = MenuState(visible: bool, placed: Option<Position>, pending: nat, log: seq<Notification>)

  /** A freshly constructed widget: menu hidden, never placed, nothing armed, nothing emitted. */
  const Initial := MenuState(false, None, 0, [])

  /** A right click on the trigger element; `showPrevented` is a listener's veto of `show`. */
  function RightClick(s: MenuState, click: Point, g: Geometry, showPrevented: bool): (r: MenuState)
    // the log only grows, and `show` is emitted first in either case
    ensures |r.log| > |s.log| && r.log[..|s.log|] == s.log && r.log[|s.log|] == Show
    // a vetoed show aborts: nothing but the `show` notification changes
    ensures showPrevented ==> r == s.(log := s.log + [Show])
    // otherwise the menu is placed, shown, one more handler is armed and `shown` comes last
    ensures !showPrevented ==> r.visible && r.placed == Some(Place(click, g)) && r.pending == s.pending + 1
    ensures !showPrevented ==> r.log == s.log + [Show, Shown]
  {
    var announced := s.log + [Show];
    if showPrevented then s.(log := announced)
    else MenuState(true, Some(Place(click, g)), s.pending + 1, announced + [Shown])
  }

  /** One armed hide handler runs; it has already unregistered itself. `hidePrevented` is a listener's veto of `hide`. */
  function FireHide(s: MenuState, hidePrevented: bool): (r: MenuState)
    requires s.pending > 0
    ensures r.pending == s.pending - 1 && r.placed == s.placed
    ensures hidePrevented ==> r.visible == s.visible && r.log == s.log + [Hide]
    ensures !hidePrevented ==> !r.visible && r.log == s.log + [Hide, Hidden]
  {
    var announced := s.log + [Hide];
    if hidePrevented then s.(pending := s.pending - 1, log := announced)
    else MenuState(false, s.placed, s.pending - 1, announced + [Hidden])
  }

  /** The veto decision for the next handler; a missing decision is no veto. */
  function Head(decisions: seq<bool>): bool {
    |decisions| > 0 && decisions[0]
  }

  /** The decisions left for the later handlers. */
  function Tail(decisions: seq<bool>): seq<bool> {
    if |decisions| > 0 then decisions[1..] else []
  }

  /** The first `n` handlers to run are all vetoed. */
  predicate AllVetoed(decisions: seq<bool>, n: nat) {
    n <= |decisions| && forall k :: 0 <= k < n ==> decisions[k]
  }

  /** How often `n` occurs in `log`. */
  function Count(log: seq<Notification>, n: Notification): nat
    decreases |log|
  {
    if log == [] then 0 else (if log[0] == n then 1 else 0) + Count(log[1..], n)
  }

  /**
   * A click or scroll anywhere in the document: every armed one-shot
   * handler runs once, in the order it was armed, the k-th one with veto
   * decision `decisions[k]`.
   */
  function OutsideInteraction(s: MenuState, decisions: seq<bool>): (r: MenuState)
    decreases s.pending
    // every handler is consumed, none is re-armed, and the position is untouched
    ensures r.pending == 0 && r.placed == s.placed
    // with no handler armed, an outside interaction does nothing
    ensures s.pending == 0 ==> r == s
    // the menu ends visible exactly when it was and every handler's hide was vetoed
    ensures r.visible <==> s.visible && AllVetoed(decisions, s.pending)
    // one `hide` per armed handler is appended
    ensures |r.log| >= |s.log| && r.log[..|s.log|] == s.log
    ensures Count(r.log, Hide) == Count(s.log, Hide) + s.pending
    // exactly: per handler, in order, `hide` and then `hidden` unless that handler's hide was vetoed
    ensures r.log == s.log + HandlerNotifications(decisions, s.pending)
  {
    if s.pending == 0 then s
    else
      var s' := FireHide(s, Head(decisions));
      FireHideCounts(s, Head(decisions));
      AllVetoedStep(decisions, s.pending);
      var r := OutsideInteraction(s', Tail(decisions));
      HandlerNotificationsStep(s, decisions);
      assert r.log[..|s.log|] == r.log[..|s'.log|][..|s.log|];
      r
  }

  /**
   * The notifications `n` handlers emit when their veto decisions are
   * `decisions`: each a `hide`, followed by `hidden` when not vetoed.
   */
  function HandlerNotifications(decisions: seq<bool>, n: nat): seq<Notification>
    decreases n
  {
    if n == 0 then []
    else [Hide] + (if Head(decisions) then [] else [Hidden]) + HandlerNotifications(Tail(decisions), n - 1)
  }

  /** The first handler's notifications, then the rest's, make up all of them. */
  lemma HandlerNotificationsStep(s: MenuState, decisions: seq<bool>)
    requires s.pending > 0
    ensures FireHide(s, Head(decisions)).log + HandlerNotifications(Tail(decisions), s.pending - 1)
         == s.log + HandlerNotifications(decisions, s.pending)
  {
    var own := [Hide] + (if Head(decisions) then [] else [Hidden]);
    var rest := HandlerNotifications(Tail(decisions), s.pending - 1);
    assert HandlerNotifications(decisions, s.pending) == own + rest;
    assert FireHide(s, Head(decisions)).log == s.log + own;
    assert (s.log + own) + rest == s.log + (own + rest);
  }

  /** Running one handler adds one `hide`, and keeps the earlier log. */
  lemma FireHideCounts(s: MenuState, hidePrevented: bool)
    requires s.pending > 0
    ensures Count(FireHide(s, hidePrevented).log, Hide) == Count(s.log, Hide) + 1
    ensures FireHide(s, hidePrevented).log[..|s.log|] == s.log
  {
    CountAppend(s.log, [Hide], Hide);
    CountAppend(s.log + [Hide], [Hidden], Hide);
  }

  lemma AllVetoedStep(decisions: seq<bool>, n: nat)
    requires n > 0
    ensures AllVetoed(decisions, n) <==> Head(decisions) && AllVetoed(Tail(decisions), n - 1)
  {
  }

  lemma {:induction false} CountAppend(a: seq<Notification>, b: seq<Notification>, n: Notification)
    ensures Count(a + b, n) == Count(a, n) + Count(b, n)
    decreases |a|
  {
    if a == [] {
      assert a + b == b;
    } else {
      assert (a + b)[1..] == a[1..] + b;
      CountAppend(a[1..], b, n);
    }
  }

  /** The widget's invariant, which every interaction keeps. */
  ghost predicate Consistent(s: MenuState) {
    // a visible menu, and an armed handler, were placed by a show
    (s.visible ==> s.placed.Some?) &&
    (s.pending > 0 ==> s.placed.Some?) &&
    // each `shown` arms exactly one handler, and each handler emits exactly one `hide`
    Count(s.log, Shown) == s.pending + Count(s.log, Hide) &&
    // `shown` directly follows a `show`, `hidden` directly follows a `hide`
    (forall i :: 0 < i < |s.log| && s.log[i] == Shown ==> s.log[i - 1] == Show) &&
    (forall i :: 0 < i < |s.log| && s.log[i] == Hidden ==> s.log[i - 1] == Hide) &&
    (|s.log| > 0 ==> s.log[0] == Show || s.log[0] == Hide)
  }

  lemma InitialConsistent()
    ensures Consistent(Initial)
  {
  }

  lemma {:induction false} RightClickConsistent(s: MenuState, click: Point, g: Geometry, showPrevented: bool)
    requires Consistent(s)
    ensures Consistent(RightClick(s, click, g, showPrevented))
  {
    var r := RightClick(s, click, g, showPrevented);
    CountAppend(s.log, [Show], Shown);
    CountAppend(s.log, [Show], Hide);
    if !showPrevented {
      CountAppend(s.log + [Show], [Shown], Shown);
      CountAppend(s.log + [Show], [Shown], Hide);
    }
  }

  lemma {:induction false} FireHideConsistent(s: MenuState, hidePrevented: bool)
    requires Consistent(s) && s.pending > 0
    ensures Consistent(FireHide(s, hidePrevented))
  {
    CountAppend(s.log, [Hide], Shown);
    CountAppend(s.log, [Hide], Hide);
    if !hidePrevented {
      CountAppend(s.log + [Hide], [Hidden], Shown);
      CountAppend(s.log + [Hide], [Hidden], Hide);
    }
  }

  lemma {:induction false} OutsideInteractionConsistent(s: MenuState, decisions: seq<bool>)
    requires Consistent(s)
    ensures Consistent(OutsideInteraction(s, decisions))
    decreases s.pending
  {
    if s.pending > 0 {
      FireHideConsistent(s, Head(decisions));
      OutsideInteractionConsistent(FireHide(s, Head(decisions)), Tail(decisions));
    }
  }

  /** What can happen to a widget. */
  datatype Interaction =
    | ContextMenuEvent(click: Point, geometry: Geometry, showPrevented: bool)
    | OutsideEvent(decisions: seq<bool>)

  /** The state after a sequence of interactions. */
  function Run(s: MenuState, events: seq<Interaction>): MenuState
    decreases |events|
  {
    if events == [] then s
    else
      var s' := match events[0]
        case ContextMenuEvent(click, g, prevented) => RightClick(s, click, g, prevented)
        case OutsideEvent(decisions) => OutsideInteraction(s, decisions);
      Run(s', events[1..])
  }

  /** Every reachable state is consistent. */
  lemma {:induction false} RunConsistent(s: MenuState, events: seq<Interaction>)
    requires Consistent(s)
    ensures Consistent(Run(s, events))
    decreases |events|
  {
    if events != [] {
      match events[0]
      case ContextMenuEvent(click, g, prevented) =>
        RightClickConsistent(s, click, g, prevented);
        RunConsistent(RightClick(s, click, g, prevented), events[1..]);
      case OutsideEvent(decisions) =>
        OutsideInteractionConsistent(s, decisions);
        RunConsistent(OutsideInteraction(s, decisions), events[1..]);
    }
  }

  /** Notifications are only ever appended. */
  lemma {:induction false} RunExtendsLog(s: MenuState, events: seq<Interaction>)
    ensures |Run(s, events).log| >= |s.log| && Run(s, events).log[..|s.log|] == s.log
    decreases |events|
  {
    if events != [] {
      var s' := match events[0]
        case ContextMenuEvent(click, g, prevented) => RightClick(s, click, g, prevented)
        case OutsideEvent(decisions) => OutsideInteraction(s, decisions);
      RunExtendsLog(s', events[1..]);
      assert s'.log[..|s.log|] == s.log;
      assert Run(s, events).log[..|s.log|] == Run(s', events[1..]).log[..|s'.log|][..|s.log|];
    }
  }

  /**
   * One unprevented show followed by one outside interaction: `show`,
   * `shown`, `hide`, then `hidden` unless vetoed; the handler is used up,
   * so a further outside interaction does nothing.
   */
  lemma ShowThenHideCycle(s: MenuState, click: Point, g: Geometry, hidePrevented: bool, later: seq<bool>)
    requires s.pending == 0
    ensures var shown := RightClick(s, click, g, false);
            var after := OutsideInteraction(shown, [hidePrevented]);
            after.log == s.log + [Show, Shown, Hide] + (if hidePrevented then [] else [Hidden]) &&
            after.visible == hidePrevented &&
            after.placed == Some(Place(click, g)) &&
            after.pending == 0 &&
            OutsideInteraction(after, later) == after
  {
  }

  /**
   * Two right clicks without an outside interaction in between arm two
   * handlers, so the next outside interaction emits `hide` twice.
   */
  lemma TwoShowsArmTwoHandlers(s: MenuState, c1: Point, g1: Geometry, c2: Point, g2: Geometry)
    requires s.pending == 0
    ensures var twice := RightClick(RightClick(s, c1, g1, false), c2, g2, false);
            twice.pending == 2 &&
            twice.placed == Some(Place(c2, g2)) &&
            OutsideInteraction(twice, []).log == twice.log + [Hide, Hidden, Hide, Hidden]
  {
  }

  /** A vetoed show changes nothing but the log and arms nothing, so the next outside interaction emits nothing. */
  lemma VetoedShowArmsNothing(s: MenuState, click: Point, g: Geometry, decisions: seq<bool>)
    requires s.pending == 0
    ensures OutsideInteraction(RightClick(s, click, g, true), decisions) == s.(log := s.log + [Show])
  {
  }
}

/**
 * One widget instance: a trigger element bound to one menu element, with
 * the right-click handler, the one-shot outside click/scroll handlers it
 * arms, and `destroy`.
 */
module Widget {
  import opened Common
  import opened Placement
  import opened Lifecycle

  /** A user-supplied options object; `target` is absent when not given (or given as undefined). */
  datatype Options = Options(target: Option<MenuId>)

  /** What the plugin is called with: an options object, a method name, or anything else (nothing at all). */
  datatype Arg = Config(options: Options) | MethodName(name: string) | NoArg

  /** The plugin's defaults: no menu target. */
  const DefaultTarget: Option<MenuId> := None

  /**
   * The menu target after merging the argument over the defaults: only an
   * options object contributes, and only through a `target` it supplies.
   */
  function ResolveTarget(arg: Arg): (t: Option<MenuId>)
    ensures t.Some? <==> arg.Config? && arg.options.target.Some?
    ensures arg.Config? && arg.options.target.Some? ==> t == arg.options.target
    ensures !arg.Config? ==> t == DefaultTarget
  {
    match arg
    case Config(options) => if options.target.Some? then options.target else DefaultTarget
    case _ => DefaultTarget
  }

  /** The instance's own function-valued members that a method name can reach. */
  predicate HasMethod(name: string) {
    name == "destroy"
  }

  /** An exception thrown out of a call. */
  datatype Failure = NotAFunction(member: string)

  /** How a call ended: normally, or by throwing. */
  datatype Outcome = Completed | Threw(failure: Failure)

  class ContextMenu {
    /** The trigger element. */
    const element: ElementId
    /** The menu, resolved once from the merged `target` option. */
    const target: Option<MenuId>
    /** The right-click listener on the trigger element is bound. */
    var listenerAttached: bool

    var visible: bool
    var placed: Option<Position>
    var pending: nat
    var log: seq<Notification>

    /** The life-cycle state this instance carries. */
    function State(): MenuState
      reads this
    {
      MenuState(visible, placed, pending, log)
    }

    /** Merges the options over the defaults, resolves the menu and binds the right-click listener. */
    constructor (element: ElementId, arg: Arg)
      ensures this.element == element && target == ResolveTarget(arg)
      ensures listenerAttached && State() == Initial
    {
      this.element := element;
      target := ResolveTarget(arg);
      visible, placed, pending, log := false, None, 0, [];
      listenerAttached := true;
    }

    /** The right-click handler: announce `show`, and unless vetoed place and show the menu, arm a hide handler, announce `shown`. */
    method OnContextMenu(click: Point, g: Geometry, showPrevented: bool)
      modifies this
      ensures State() == RightClick(old(State()), click, g, showPrevented)
      ensures listenerAttached == old(listenerAttached)
    {
      log := log + [Show];
      if showPrevented {
        return;
      }
      placed := Some(Place(click, g));
      visible := true;
      pending := pending + 1;
      log := log + [Shown];
    }

    /** One armed outside click/scroll handler runs (it has unregistered itself first). */
    method FireHideHandler(hidePrevented: bool)
      requires pending > 0
      modifies this
      ensures State() == FireHide(old(State()), hidePrevented)
      ensures listenerAttached == old(listenerAttached)
    {
      pending := pending - 1;
      log := log + [Hide];
      if hidePrevented {
        return;
      }
      visible := false;
      log := log + [Hidden];
    }

    /** A click or scroll in the document runs every armed handler once, in the order armed. */
    method OnOutsideInteraction(decisions: seq<bool>)
      modifies this
      ensures State() == OutsideInteraction(old(State()), decisions)
      ensures listenerAttached == old(listenerAttached)
    {
      var rest := decisions;
      while pending > 0
        invariant OutsideInteraction(State(), rest) == OutsideInteraction(old(State()), decisions)
        invariant listenerAttached == old(listenerAttached)
        decreases pending
      {
        FireHideHandler(Head(rest));
        rest := Tail(rest);
      }
    }

    /**
     * `destroy` first calls `this.hide()`, which the instance does not
     * have, so it throws. The method has no `modifies` clause: it changes
     * no field of the instance (the listener stays bound, the menu state
     * stays as it was), and the store that holds the instance is not
     * touched, so nothing is unbound and nothing is un-stored.
     */
    method Destroy() returns (r: Outcome)
      ensures r == Threw(NotAFunction("hide"))
    {
      r := Threw(NotAFunction("hide"));
    }
  }
}

# bootstrap-contextmenu, modelled in Dafny

A model of the jQuery plugin `js/contextmenu.js`. The plugin binds a custom right-click menu to a trigger element. On a right click it emits a cancelable `show` notification. Unless a listener vetoes it, the plugin then places the menu near the cursor, shows it, and arms a one-shot document handler for the next click or scroll, which hides the menu again. It also keeps one widget instance per element.

The project has five modules:

- `Common` (common.dfy): element and menu identifiers, and `Option`.
- `Placement` (placement.dfy): the placement arithmetic as a pure function `Place`. The horizontal move to the left of the click needs two things: a right overflow, and a strictly positive result. The vertical move up needs only a bottom overflow, so `top` can be negative.
- `Lifecycle` (lifecycle.dfy): the show/hide life cycle on values. `RightClick`, `FireHide` and `OutsideInteraction` act on a `MenuState`: the visibility, the last position, the number of armed hide handlers and the log of notifications. `Run` plays a sequence of interactions. `Consistent` is the invariant they keep. Each `shown` arms exactly one handler, and each handler emits exactly one `hide`.
- `Widget` (widget.dfy): option resolution, and the class `ContextMenu` holding one instance's state. Its handler methods are proved equal to the `Lifecycle` functions. `Destroy` throws.
- `Registry` (registry.dfy): the `$.fn.contextmenu` walk over the elements as the pure `ApplyAll`, and the class `Plugin`. `Plugin` keeps the element-to-instance store, and its `Apply` loop is proved equal to `ApplyAll`.

Where the code and the plugin's documented intent differ, the model follows the code:

- `destroy` is documented as removing the context menu (js/contextmenu.js:49-50). Its first act, though, is `this.hide()`, and the prototype has no `hide`. So it throws `TypeError` before anything is unbound or un-stored. If it is called through the plugin, the exception also ends the `each` walk at that element.
- Every unprevented right click arms a new `$(document).one('click scroll', …)` handler, and nothing prevents double arming. Two right clicks without an outside click in between leave two handlers. The next outside click then emits `hide` (and `hidden`) twice.
- The placement compares page coordinates (`pageX`, `pageY`) with the window's viewport size. On a scrolled page this flips the menu even when there is room. The model keeps that comparison as written.

## Model

| member | source | states |
|---|---|---|
| Placement.Place | js/contextmenu.js:79-90 | A flipped menu ends exactly at the click, and an unflipped one starts at it. The flip left happens only on right overflow with a strictly positive result. The flip up happens on bottom overflow alone. The menu never moves right of or below the click. A horizontal move keeps `left > 0`. A right overflow remains only when moving would not leave `left` positive. A menu that fits stays at the click. |
| Placement.ExamplePlacement | js/contextmenu.js:84-90 | Example of `Place`, no extra property: a 200x100 menu opened at (500, 500) in a 600x550 window is placed at (300, 400). |
| Placement.TopCanBeNegative | js/contextmenu.js:88-90 | Example of `Place`, no extra property: the upward move has no lower guard, so `top` can come out negative. |
| Placement.RightOverflowKept | js/contextmenu.js:84-86 | Example of `Place`, no extra property: when moving left would not leave `left` positive, the menu stays at the click even though it overflows the right edge. |
| Lifecycle.RightClick | js/contextmenu.js:63-121 | `show` is emitted first and the log is only appended to. If `show` is vetoed, nothing else changes: no placement, no visibility change, no handler armed, no `shown`. Otherwise the menu is placed at `Place`, made visible, exactly one handler is armed, and the log gains `show` then `shown`. |
| Lifecycle.FireHide | js/contextmenu.js:98-115 | A handler uses itself up and emits `hide`. A vetoed hide keeps the visibility and emits nothing more. Otherwise the menu is hidden and `hidden` follows. The position is never touched. |
| Lifecycle.OutsideInteraction | js/contextmenu.js:98-115 | Every armed handler runs once and none is re-armed. With nothing armed, nothing happens. The menu stays visible exactly when it was visible and every handler's hide was vetoed. The log gains exactly, per armed handler in the order armed, `hide` followed by `hidden` unless that handler's hide was vetoed; the earlier log is kept. |
| Lifecycle.InitialConsistent | js/contextmenu.js:12-35 | A new widget satisfies the invariant. |
| Lifecycle.RightClickConsistent | js/contextmenu.js:63-121 | A right click keeps the invariant. The invariant: a visible menu and an armed handler imply a placement; the count of `shown` equals the armed handlers plus the count of `hide`; `shown` always directly follows `show`, and `hidden` always directly follows `hide`. |
| Lifecycle.FireHideConsistent | js/contextmenu.js:98-115 | Running one hide handler keeps the invariant. |
| Lifecycle.OutsideInteractionConsistent | js/contextmenu.js:98-115 | An outside click or scroll keeps the invariant. |
| Lifecycle.RunConsistent | js/contextmenu.js:63-121 | Every state reachable by any sequence of right clicks and outside interactions satisfies the invariant. |
| Lifecycle.RunExtendsLog | js/contextmenu.js:63-121 | Over any sequence of interactions, notifications are only ever appended. |
| Lifecycle.ShowThenHideCycle | js/contextmenu.js:91-115 | From a state with nothing armed, an unprevented show followed by one outside interaction logs `show`, `shown`, `hide`, then `hidden` unless vetoed. The menu ends visible only if the hide was vetoed, and the position is kept. The handler is consumed, so in the model a further outside interaction changes nothing (in the browser this holds for a further interaction of the same kind only; see Left out). |
| Lifecycle.TwoShowsArmTwoHandlers | js/contextmenu.js:97-98 | Two unprevented shows arm two handlers, and the next outside interaction emits `hide`, `hidden` twice. |
| Lifecycle.VetoedShowArmsNothing | js/contextmenu.js:73-76 | After a vetoed show, the next outside interaction emits nothing. Only `show` is added to the log. |
| Widget.ResolveTarget | js/contextmenu.js:25-32 | The menu target is the options object's own `target` when one is given, and the default `null` otherwise, including for a method-name argument. |
| Widget.ContextMenu.constructor | js/contextmenu.js:12-35 | Records the element, resolves the menu from the merged options and binds the right-click listener. The menu starts hidden, unplaced, with nothing armed and nothing logged. |
| Widget.ContextMenu.OnContextMenu | js/contextmenu.js:63-121 | The new state is `RightClick` of the old one. The listener binding is unchanged. |
| Widget.ContextMenu.FireHideHandler | js/contextmenu.js:98-115 | The new state is `FireHide` of the old one. |
| Widget.ContextMenu.OnOutsideInteraction | js/contextmenu.js:98-115 | Runs the armed handlers one by one. The new state is `OutsideInteraction` of the old one. |
| Widget.ContextMenu.Destroy | js/contextmenu.js:51-53 | Always throws "not a function" for `hide`, a member the instance lacks. It has no `modifies` clause, so it changes no state, so it unbinds nothing and leaves the store alone. |
| Registry.ApplyAll | js/contextmenu.js:126-140 | The plugin's walk over the elements in order: an element without an instance gets one whose target is `ResolveTarget(arg)`, and a stored one is kept; a dispatched `destroy` throws at the first element and ends the walk. Its contract: the outcome is a throw exactly when there is an element and a method is dispatched, and no stored element is ever removed. |
| Registry.ApplyAddsOnlyGiven | js/contextmenu.js:127-134 | Only the elements the plugin is applied to can gain an instance. |
| Registry.ApplyKeepsStored | js/contextmenu.js:129-134 | An instance already stored for an element is never replaced. A later options object leaves its target unchanged. |
| Registry.ApplyStoresAll | js/contextmenu.js:127-134 | Without a method to call, the walk completes. Afterwards the stored elements are exactly the old ones plus the given ones. Each newly stored instance carries the target resolved from this argument. |
| Registry.ApplyToStoredIsNoop | js/contextmenu.js:129-134 | Applying the plugin to elements that all have instances changes nothing. |
| Registry.SecondApplyIgnored | js/contextmenu.js:126-139 | Applying the plugin a second time, with any options, leaves the result of the first application unchanged. |
| Registry.DestroyThrowsAtFirst | js/contextmenu.js:132-138 | `destroy` throws at the first element, so later elements are not visited. That element gets a default instance if it had none. Nothing is removed. |
| Registry.UnknownNameIgnored | js/contextmenu.js:136-138 | A method name the instance lacks is ignored. Only missing instances are built, with the defaults. |
| Registry.Plugin.Apply | js/contextmenu.js:126-140 | The `each` loop: the resulting store and outcome are those of `ApplyAll`. Stored instances remain the same objects with unchanged state. New instances are fresh, bound and in the initial state. |

## Left out

- DOM and jQuery calls (`outerWidth`, `outerHeight`, `$(window).width()`/`height()`, `.css`, `.show`, `.hide`): geometry is a parameter, and visibility and position are fields. `position: absolute` is implied by a recorded position.
- The native event: `stopPropagation`/`preventDefault` (js/contextmenu.js:65-66), event bubbling and listener execution. A listener's veto of `show` or `hide` is a boolean input. For an outside interaction it is one decision per armed handler, and a missing decision means no veto.
- The `relatedTarget` carried by each notification. It is always the instance's menu, and the log records only the notification's kind.
- Whether a `.one('click scroll', …)` handler fires once per event type. In jQuery it does: after a click has run a handler, the next scroll runs the same handler again and emits a second `hide` (and `hidden` unless vetoed). The model lets one outside interaction consume every armed handler once, so it does not capture that second run.
- An empty or `null` menu selection. Its behaviour depends on jQuery.
- Fractional pixel values. All coordinates are integers.
- Sharing of one menu element between two instances with the same `target`. Each instance carries its own menu state.
- The menu's visibility before the first right click comes from the page's stylesheet. The model starts it hidden.
- `noConflict` (js/contextmenu.js:125,144-147): it only swaps a global function reference.
- Deep `$.extend` merging beyond the single `target` option.
- Dispatch by name to `constructor`, `_attachListeners` or members inherited from `Object.prototype`. The dispatchable names are a closed set holding `destroy`. The `args` passed along to the method are not modelled, because `destroy` never uses them.
- The listener removal and data removal after `this.hide()` in `destroy` (js/contextmenu.js:52). Execution never reaches them. Also, `.off('.contextmenu')` names a namespace, not the `contextmenu` event type the listener was bound with.

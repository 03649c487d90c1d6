/**
 * The jQuery plugin function: applied to a collection of elements, it
 * visits each in turn, constructs and stores an instance for an element
 * that has none, and calls a named method on the stored instance when
 * the argument names one the instance has.
 */
module Registry {
  import opened Common
  import opened Widget
  import opened Lifecycle

  /** What the plugin's stored instances look like from outside: element to resolved menu target. */
  type View = map<ElementId, Option<MenuId>>

  datatype Applied = Applied(view: View, outcome: Outcome)

  /** The argument is a method name the instance has. */
  predicate Dispatches(arg: Arg) {
    arg.MethodName? && HasMethod(arg.name)
  }

  /**
   * The plugin applied to `elements` in order. The only dispatchable
   * method, `destroy`, throws, which ends the walk at that element.
   */
  function ApplyAll(view: View, elements: seq<ElementId>, arg: Arg): (r: Applied)
    decreases |elements|
    // the walk throws exactly when it reaches an element and a method is dispatched
    ensures r.outcome == if elements != [] && Dispatches(arg) then Threw(NotAFunction("hide")) else Completed
    // nothing is removed
    ensures view.Keys <= r.view.Keys
  {
    if elements == [] then Applied(view, Completed)
    else
      var e := elements[0];
      var stored := if e in view then view else view[e := ResolveTarget(arg)];
      if Dispatches(arg) then Applied(stored, Threw(NotAFunction("hide")))
      else ApplyAll(stored, elements[1..], arg)
  }

  /** Only the given elements can gain an instance. */
  lemma {:induction false} ApplyAddsOnlyGiven(view: View, elements: seq<ElementId>, arg: Arg)
    ensures forall k :: k in ApplyAll(view, elements, arg).view ==> k in view || k in elements
    decreases |elements|
  {
    if elements != [] && !Dispatches(arg) {
      var e := elements[0];
      ApplyAddsOnlyGiven(if e in view then view else view[e := ResolveTarget(arg)], elements[1..], arg);
    }
  }

  /** An instance already stored is never replaced: a later options object is ignored. */
  lemma {:induction false} ApplyKeepsStored(view: View, elements: seq<ElementId>, arg: Arg)
    ensures forall e :: e in view ==> e in ApplyAll(view, elements, arg).view && ApplyAll(view, elements, arg).view[e] == view[e]
    decreases |elements|
  {
    if elements != [] && !Dispatches(arg) {
      var e := elements[0];
      ApplyKeepsStored(if e in view then view else view[e := ResolveTarget(arg)], elements[1..], arg);
    }
  }

  /**
   * Without a method to call, every element ends up with an instance, and
   * exactly the elements that had none get one built from this argument.
   */
  lemma {:induction false} ApplyStoresAll(view: View, elements: seq<ElementId>, arg: Arg)
    requires !Dispatches(arg)
    ensures ApplyAll(view, elements, arg).outcome == Completed
    ensures ApplyAll(view, elements, arg).view.Keys == view.Keys + set e | e in elements
    ensures forall e :: e in ApplyAll(view, elements, arg).view && e !in view ==> ApplyAll(view, elements, arg).view[e] == ResolveTarget(arg)
    decreases |elements|
  {
    if elements != [] {
      var e := elements[0];
      var stored := if e in view then view else view[e := ResolveTarget(arg)];
      ApplyStoresAll(stored, elements[1..], arg);
      ApplyKeepsStored(stored, elements[1..], arg);
      assert (set x | x in elements) == {e} + set x | x in elements[1..];
    }
  }

  /** Re-applying to elements that all have an instance changes nothing. */
  lemma {:induction false} ApplyToStoredIsNoop(view: View, elements: seq<ElementId>, arg: Arg)
    requires !Dispatches(arg)
    requires forall i :: 0 <= i < |elements| ==> elements[i] in view
    ensures ApplyAll(view, elements, arg) == Applied(view, Completed)
    decreases |elements|
  {
    if elements != [] {
      ApplyToStoredIsNoop(view, elements[1..], arg);
    }
  }

  /** Applying twice: the second argument neither adds nor changes an instance. */
  lemma SecondApplyIgnored(view: View, elements: seq<ElementId>, first: Arg, second: Arg)
    requires !Dispatches(first) && !Dispatches(second)
    ensures var once := ApplyAll(view, elements, first).view;
            ApplyAll(once, elements, second) == Applied(once, Completed)
  {
    ApplyStoresAll(view, elements, first);
    var once := ApplyAll(view, elements, first).view;
    forall i | 0 <= i < |elements| ensures elements[i] in once {
      assert elements[i] in set e | e in elements;
    }
    ApplyToStoredIsNoop(once, elements, second);
  }

  /**
   * `destroy` throws at the first element: that element gets a default
   * instance if it had none, the rest are not visited, nothing is removed.
   */
  lemma DestroyThrowsAtFirst(view: View, elements: seq<ElementId>)
    requires |elements| > 0
    ensures ApplyAll(view, elements, MethodName("destroy")).outcome == Threw(NotAFunction("hide"))
    ensures elements[0] in view ==> ApplyAll(view, elements, MethodName("destroy")).view == view
    ensures elements[0] !in view ==> ApplyAll(view, elements, MethodName("destroy")).view == view[elements[0] := DefaultTarget]
  {
  }

  /** An unknown method name is ignored, beyond building missing instances with the defaults. */
  lemma UnknownNameIgnored(view: View, elements: seq<ElementId>, name: string)
    requires !HasMethod(name)
    ensures ApplyAll(view, elements, MethodName(name)).outcome == Completed
    ensures forall e :: e in ApplyAll(view, elements, MethodName(name)).view && e !in view ==> ApplyAll(view, elements, MethodName(name)).view[e] == DefaultTarget
  {
    ApplyStoresAll(view, elements, MethodName(name));
  }

  /** The per-element store (`$.data(element, 'tm.contextmenu')`) across all elements. */
  class Plugin {
    var data: map<ElementId, ContextMenu>

    /** The element-to-target view of the stored instances. */
    function View(): View
      reads this
    {
      map e | e in data :: data[e].target
    }

    /** No element has an instance yet. */
    constructor ()
      ensures data == map[]
    {
      data := map[];
    }

    /** `$(elements).contextmenu(arg)`: the `each` walk over the elements. */
    method Apply(elements: seq<ElementId>, arg: Arg) returns (r: Outcome)
      modifies this
      ensures View() == ApplyAll(old(View()), elements, arg).view
      ensures r == ApplyAll(old(View()), elements, arg).outcome
      // stored instances stay the same objects; new ones are fresh and untouched
      ensures forall e :: e in old(data) ==> e in data && data[e] == old(data)[e]
      ensures forall e :: e in old(data) ==>
        data[e].State() == old(data[e].State()) && data[e].listenerAttached == old(data[e].listenerAttached)
      ensures forall e :: e in data && e !in old(data) ==>
        fresh(data[e]) && data[e].element == e && data[e].listenerAttached && data[e].State() == Initial
    {
      var i := 0;
      while i < |elements|
        invariant 0 <= i <= |elements|
        invariant ApplyAll(View(), elements[i..], arg) == ApplyAll(old(View()), elements, arg)
        invariant forall e :: e in old(data) ==> e in data && data[e] == old(data)[e]
        invariant forall e :: e in data && e !in old(data) ==>
          fresh(data[e]) && data[e].element == e && data[e].listenerAttached && data[e].State() == Initial
      {
        var e := elements[i];
        ghost var before := View();
        assert elements[i..][1..] == elements[i + 1..];
        if e !in data {
          var instance := new ContextMenu(e, arg);
          data := data[e := instance];
          assert View() == before[e := ResolveTarget(arg)];
        }
        if arg.MethodName? && HasMethod(arg.name) {
          r := data[e].Destroy();
          return;
        }
        i := i + 1;
      }
      r := Completed;
    }
  }
}

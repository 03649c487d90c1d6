/** Identifiers for the DOM objects the plugin touches, and an optional value. */
module Common {

  /** A trigger element that the plugin is applied to (identity of a DOM node). */
  type ElementId = nat

  /** A menu element that a `target` option resolves to. */
  type MenuId = nat

  datatype Option<+T> = None | Some(value: T)
}

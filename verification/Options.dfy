/**
 * The conventional optional value, used for the source's `null` / `undefined`, and what a condition
 * adds to a counter.
 */
module Options {
  datatype Option<+T> = None | Some(value: T)

  function One(b: bool): nat {
    if b then 1 else 0
  }
}

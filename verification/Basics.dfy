// What every part uses.

module Basics {

  datatype Option<T> = None | Some(value: T)

  function Most(a: nat, b: nat): nat { if a < b then b else a }
}

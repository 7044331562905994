/** An optional value: the shape of an absent navigation payload, a callback
    that did not fire, or a string that does not parse. */
module Wrappers {

  datatype Option<+T> = None | Some(value: T)

}

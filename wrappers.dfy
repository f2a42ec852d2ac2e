/** Optional values: the model of a Java `Optional` and of a Reactor `Mono`
    that completes with at most one value. */
module Wrappers {

  datatype Option<+T> = None | Some(value: T) {

    /** `Mono.switchIfEmpty(alternative)`: this value when present, otherwise the alternative. */
    function Or(alternative: Option<T>): (r: Option<T>)
      ensures Some? ==> r == this
      ensures None? ==> r == alternative
    {
      if Some? then this else alternative
    }
  }
}

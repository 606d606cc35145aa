/** Optional values. `None` stands for Python's `None` where a lookup finds
    nothing, and for an aborted fetch (an exception raised by the HTTP call
    or by JSON decoding) where an operation's result is concerned. */
module Wrappers {

  datatype Option<+T> = None | Some(value: T)

  /** Prepends `prefix` to a successful sequence result; an aborted result stays aborted. */
  function Prepend<T>(prefix: seq<T>, rest: Option<seq<T>>): (r: Option<seq<T>>)
  {
    match rest
    case None => None
    case Some(s) => Some(prefix + s)
  }

  lemma PrependEmpty<T>(rest: Option<seq<T>>)
    ensures Prepend([], rest) == rest
  {
    if rest.Some? {
      assert [] + rest.value == rest.value;
    }
  }

  lemma PrependAssociative<T>(a: seq<T>, b: seq<T>, rest: Option<seq<T>>)
    ensures Prepend(a, Prepend(b, rest)) == Prepend(a + b, rest)
  {
    if rest.Some? {
      assert a + (b + rest.value) == (a + b) + rest.value;
    }
  }
}

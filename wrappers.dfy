/** Optional values and error-carrying results, used for the source's null
    pointers, null ids and thrown exceptions, one fact about appends and
    one about non-empty sets. */
module Wrappers {
  datatype Option<T> = None | Some(value: T)

  datatype Result<T, E> = Ok(value: T) | Err(error: E)

  /** Appending is associative; stated once so that proofs about buffers
      and traces that grow by appends can regroup them cheaply. */
  lemma AppendAssociative<T>(a: seq<T>, b: seq<T>, c: seq<T>)
    ensures (a + b) + c == a + (b + c)
  {
  }

  /** A non-empty set has a member; loops that drain a set call this before
      they pick the next element. */
  lemma Pick<T>(s: set<T>) returns (x: T)
    requires |s| > 0
    ensures x in s
  {
    if forall y :: y !in s {
      assert false;
    }
    x :| x in s;
  }
}

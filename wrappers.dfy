/** Success/failure wrappers used for the error paths of the extraction pipeline. */
module Wrappers {

  datatype Option<+T> = None | Some(value: T)

  /** The outcome of an operation that either yields a value or raises. */
  datatype Result<+T, +E> = Ok(value: T) | Err(error: E) {
    predicate IsFailure() { Err? }
    function PropagateFailure<U>(): Result<U, E>
      requires Err?
    {
      Err(error)
    }
    function Extract(): T
      requires Ok?
    {
      value
    }
  }

  /** A success that carries no value is the one such success. */
  lemma OkUnit<E>(r: Result<(), E>)
    requires r.Ok?
    ensures r == Ok(())
  {
    var u: () := r.value;
    assert u == ();
  }

  lemma AppendAssociates<T>(a: seq<T>, b: seq<T>, c: seq<T>)
    ensures a + b + c == a + (b + c)
  {
  }
}

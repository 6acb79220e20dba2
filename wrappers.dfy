/** Error-carrying results shared by the models: a Python call either returns or raises. */
module Wrappers {
  datatype Option<T> = None | Some(value: T)

  /** The Python exception classes the modelled code can raise. */
  datatype PyException = TypeError | AttributeError | IndexError | ValueError | ZeroDivisionError | OverflowError | Exception

  datatype Result<T> = Ok(value: T) | Raise(error: PyException, message: string)

  /** xs[index] on a Python list: a negative index counts from the end; any other index raises IndexError. */
  function ListIndex<T>(xs: seq<T>, index: int): (r: Result<T>)
    ensures r.Ok? <==> -|xs| <= index < |xs|
    ensures r.Raise? ==> r.error == IndexError
    ensures 0 <= index < |xs| ==> r == Ok(xs[index])
  {
    if 0 <= index < |xs| then Ok(xs[index])
    else if -|xs| <= index < 0 then Ok(xs[|xs| + index])
    else Raise(IndexError, "list index out of range")
  }

  /** Index k and index k - len(xs) name the same element. */
  lemma {:induction false} ListIndexFromEnd<T>(xs: seq<T>, k: int)
    requires 0 <= k < |xs|
    ensures ListIndex(xs, k - |xs|) == ListIndex(xs, k) == Ok(xs[k])
  {
    assert |xs| + (k - |xs|) == k;
  }
}

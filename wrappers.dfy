/** Small value wrappers shared by every page of the model. */
module Wrappers {

  /** A JavaScript value that may be `null`/`undefined`. */
  datatype Option<+T> = None | Some(value: T) {
    function GetOr(default: T): T {
      match this
      case Some(v) => v
      case None => default
    }
  }

  /** The outcome of an awaited `apiService` GET: the resolved body (possibly
      `null`, hence the inner Option) or a rejection. */
  datatype FetchResult<+T> = Loaded(data: Option<T>) | FetchFailed

  /** What a page keeps after `setX(data || [])` inside `try`, with the error
      only logged in `catch`: a failed fetch leaves the previous list as it was. */
  function AfterFetch<T>(previous: seq<T>, result: FetchResult<seq<T>>): (r: seq<T>)
    ensures result.FetchFailed? ==> r == previous
    ensures result == Loaded(None) ==> r == []
    ensures result.Loaded? && result.data.Some? ==> r == result.data.value
  {
    match result
    case FetchFailed => previous
    case Loaded(data) => data.GetOr([])
  }
}

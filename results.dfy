/**
 * The generic `Result` wrapper of `core-common` (Result.kt): a `Success` carrying the
 * data or an `Error` carrying a message and an optional cause, with its accessors,
 * `map`, `onSuccess`, `onError` and the top-level `runCatching`.
 */
module Results {
  import opened Nullable

  /** A JVM exception, seen through the only thing the core reads: its message. */
  datatype Throwable = Throwable(message: Option<string>)

  /** How a block of code ends: it returns a value or throws. */
  datatype Attempt<T> = Returned(value: T) | Thrown(exception: Throwable)

  const UNKNOWN_ERROR := "Unknown error"

  datatype Result<T> = Success(data: T) | Error(message: string, cause: Option<Throwable>) {

    /** `isSuccess`. */
    predicate IsSuccess() {
      Success?
    }

    /** `isError`. */
    predicate IsError() {
      Error?
    }

    /** `getOrNull()`: the data of a `Success`, `null` for an `Error`. */
    function GetOrNull(): (r: Option<T>)
      ensures r.Some? <==> IsSuccess()
      ensures r.Some? ==> r.value == data
    {
      match this
      case Success(d) => Some(d)
      case Error(_, _) => None
    }

    /**
     * `getOrThrow()`: returns the data of a `Success`; an `Error` throws its cause,
     * or a `RuntimeException` carrying its message when it has none.
     */
    function GetOrThrow(): (r: Attempt<T>)
      ensures r.Returned? <==> IsSuccess()
      ensures r.Returned? ==> r.value == data
      ensures IsError() ==> r.exception == cause.GetOr(Throwable(Some(message)))
    {
      match this
      case Success(d) => Returned(d)
      case Error(m, c) => Thrown(c.GetOr(Throwable(Some(m))))
    }

    /** `map(transform)`: transforms the data of a `Success`; an `Error` is passed on as it is. */
    function Map<R>(transform: T -> R): (r: Result<R>)
      ensures r.IsSuccess() <==> IsSuccess()
      ensures IsSuccess() ==> r.data == transform(data)
      ensures IsError() ==> r.message == message && r.cause == cause
    {
      match this
      case Success(d) => Success(transform(d))
      case Error(m, c) => Error(m, c)
    }

    /**
     * `onSuccess(action)`: runs `action` on the data of a `Success` and returns the
     * receiver; the second component lists the effects the action produced.
     */
    function OnSuccess<E>(action: T -> E): (r: (Result<T>, seq<E>))
      ensures r.0 == this
      ensures IsSuccess() ==> r.1 == [action(data)]
      ensures IsError() ==> r.1 == []
    {
      if this.Success? then (this, [action(data)]) else (this, [])
    }

    /** `onError(action)`: runs `action` on the message and cause of an `Error` and returns the receiver. */
    function OnError<E>(action: (string, Option<Throwable>) -> E): (r: (Result<T>, seq<E>))
      ensures r.0 == this
      ensures IsError() ==> r.1 == [action(message, cause)]
      ensures IsSuccess() ==> r.1 == []
    {
      if this.Error? then (this, [action(message, cause)]) else (this, [])
    }
  }

  /**
   * `runCatching(block)`: a block that returns `v` gives `Success(v)`; a block that
   * throws `e` gives an `Error` with `e`'s message ("Unknown error" when it has none)
   * and `e` as the cause.
   */
  function RunCatching<T>(block: Attempt<T>): (r: Result<T>)
    ensures block.Returned? ==> r == Success(block.value)
    ensures block.Thrown? ==> r.IsError() && r.cause == Some(block.exception)
    ensures block.Thrown? ==> r.message == block.exception.message.GetOr(UNKNOWN_ERROR)
  {
    match block
    case Returned(v) => Success(v)
    case Thrown(e) => Error(e.message.GetOr(UNKNOWN_ERROR), Some(e))
  }

  /** `isError` is the negation of `isSuccess`. */
  lemma ErrorIsNotSuccess<T>(r: Result<T>)
    ensures r.IsError() <==> !r.IsSuccess()
  {
  }

  /** Mapping the identity leaves every result as it is. */
  lemma MapIdentity<T>(r: Result<T>)
    ensures r.Map(x => x) == r
  {
  }

  /** Mapping twice is mapping once with the composed transform. */
  lemma MapCompose<T, U, V>(r: Result<T>, f: T -> U, g: U -> V)
    ensures r.Map(f).Map(g) == r.Map(x => g(f(x)))
  {
  }

  /**
   * Round trip: catching a block and rethrowing gives back exactly what the block did
   * (its value, or the very exception it threw).
   */
  lemma RunCatchingGetOrThrow<T>(block: Attempt<T>)
    ensures RunCatching(block).GetOrThrow() == block
  {
  }
}

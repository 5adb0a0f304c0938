/** Shared vocabulary of the gateway model: optional values, results that carry
    the exception the service would raise, identifiers, clock instants, and the
    "last n elements" window used by the context projection and the prompts. */
module Common {

  /** A UUID, represented by its canonical text form (what `str(uuid)` gives). */
  type Uuid = string

  /** A point in time, in whole microseconds since the epoch. */
  type Instant = int

  const MicrosPerSecond: int := 1_000_000

  datatype Option<+T> = None | Some(value: T)

  /** The exceptions the service raises, by Python class. */
  datatype Error =
    | ValueError(reason: string)
    | TypeError(reason: string)
    | ValidationError(fields: seq<string>)
    | RedisError(reason: string)
    | AttributeError(reason: string)
    /** `openai.error.APIError`, raised by a model call. */
    | ApiError(reason: string)

  /** Either a value or the exception raised instead of producing it. */
  datatype Result<+T> = Ok(value: T) | Err(error: Error) {
    predicate IsFailure() {
      Err?
    }

    function PropagateFailure<U>(): Result<U>
      requires Err?
    {
      Err(error)
    }

    function Extract(): T
      requires Ok?
    {
      value
    }
  }

  function Min(a: int, b: int): int {
    if a <= b then a else b
  }

  /** Python's `s[-n:]` for n > 0: the last min(n, |s|) elements, in order. */
  function LastN<T>(s: seq<T>, n: nat): (r: seq<T>)
    requires n > 0
    ensures |r| == Min(n, |s|)
    ensures r == s[|s| - |r|..]
  {
    if |s| <= n then s else s[|s| - n..]
  }
}

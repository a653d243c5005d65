/** Vocabulary shared by every component of the model. */
module Common {

  datatype Option<+T> = None | Some(value: T)

  /** A Python exception is modelled by the error side, named by its message. */
  datatype Result<+T> = Ok(value: T) | Err(error: string)

  // Timestamps are seconds since the Unix epoch, in UTC.
  const MINUTE: int := 60
  const HOUR: int := 3600
  const DAY: int := 86400

  function Min(a: real, b: real): real { if b < a then b else a }

  function Max(a: real, b: real): real { if b > a then b else a }

  function Abs(a: real): real { if a < 0.0 then -a else a }

  /** The last n elements, or all of them: Python's xs[-n:]. */
  function LastN<T>(xs: seq<T>, n: nat): seq<T> {
    if |xs| <= n then xs else xs[|xs| - n..]
  }

  /** Appending to a bounded deque drops the oldest element once it is full. */
  function Push<T>(xs: seq<T>, x: T, cap: nat): seq<T> {
    LastN(xs + [x], cap)
  }

  lemma PushKeepsSuffix<T>(all: seq<T>, x: T, cap: nat)
    ensures Push(LastN(all, cap), x, cap) == LastN(all + [x], cap)
  {
  }

  lemma LastOfLast<T>(all: seq<T>, n: nat, cap: nat)
    requires n <= cap
    ensures LastN(LastN(all, cap), n) == LastN(all, n)
  {
  }
}

/** Shared vocabulary of the ingestion server model: optional values,
    results carrying the exception the Python code would raise, opaque
    floating-point values and timestamps in microseconds. */
module Common {

  datatype Option<T> = None | Some(value: T)

  /** The Python exception classes that the modelled code can raise. */
  datatype ErrorKind =
    | FileNotFoundError
    | ValueError
    | KeyError
    | TypeError
    | IndexError
    | IntegrityError
    | CollaboratorError
    | HTTPException(statusCode: int)

  /** An exception: its class and `str(exception)`, the text that is sent
      to a client when the job fails. */
  datatype Error = Error(kind: ErrorKind, message: string)

  datatype Result<T> = Ok(value: T) | Err(error: Error)
  {
    predicate IsFailure() {
      Err?
    }

    function PropagateFailure<U>(): Result<U>
      requires Err?
    {
      Err(error)
    }

    function Extract(): T
      requires Ok?
    {
      value
    }
  }

  datatype Outcome = Pass | Fail(error: Error)

  /** The position of the first occurrence of `x` (`list.index`). */
  function IndexOf<T(==)>(xs: seq<T>, x: T): (k: nat)
    requires x in xs
    ensures k < |xs| && xs[k] == x
    ensures forall j :: 0 <= j < k ==> xs[j] != x
  {
    if xs[0] == x then 0 else 1 + IndexOf(xs[1..], x)
  }

  /** `list.remove(x)` on a list holding `x`: the first occurrence goes. */
  function RemoveFirst<T(==)>(xs: seq<T>, x: T): (r: seq<T>)
    requires x in xs
    ensures |r| == |xs| - 1
  {
    if xs[0] == x then xs[1..] else [xs[0]] + RemoveFirst(xs[1..], x)
  }

  /** Removing takes out exactly the first occurrence: what comes before
      it and what comes after it stay, in order. */
  lemma {:induction false} RemoveFirstDropsFirstOccurrence<T>(xs: seq<T>, x: T)
    requires x in xs
    ensures RemoveFirst(xs, x) == xs[..IndexOf(xs, x)] + xs[IndexOf(xs, x) + 1..]
  {
    if xs[0] != x {
      var tail := xs[1..];
      assert x in tail by {
        var j :| 0 <= j < |xs| && xs[j] == x;
        assert tail[j - 1] == x;
      }
      var k := IndexOf(tail, x);
      RemoveFirstDropsFirstOccurrence(tail, x);
      assert IndexOf(xs, x) == k + 1;
      assert xs[..k + 1] == [xs[0]] + tail[..k];
      assert xs[k + 2..] == tail[k + 1..];
    }
  }

  /** One copy of `x` is gone and nothing else. */
  lemma RemoveFirstTakesOneCopy<T>(xs: seq<T>, x: T)
    requires x in xs
    ensures multiset(RemoveFirst(xs, x)) + multiset{x} == multiset(xs)
  {
    var k := IndexOf(xs, x);
    RemoveFirstDropsFirstOccurrence(xs, x);
    assert xs == xs[..k] + [x] + xs[k + 1..];
  }

  /** A Python float. Latitudes, longitudes, widths and lengths are only
      carried around and compared for equality, so nothing else is known. */
  type Float(==, !new)

  /** A timestamp or a duration, in microseconds. */
  type Micros = int
}

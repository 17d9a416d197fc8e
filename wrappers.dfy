/** Failure-carrying result types shared by every module of the model. */
module Wrappers {

  datatype Option<+T> = None | Some(value: T) {
    function GetOr(default: T): T {
      match this
      case Some(v) => v
      case None => default
    }
  }

  datatype Result<+R, +E> = Ok(value: R) | Err(error: E)

  /** An HTTP error raised by a route handler: status code and `detail` text. */
  datatype HttpError = HttpError(code: int, detail: string)

  /**
   * A loop over attempts `p`, `p + 1`, ... `n - 1` that returns the first
   * successful one: the first `Some` among `attempt(p)`, ..., `attempt(n - 1)`.
   */
  function FirstSome<T>(attempt: nat -> Option<T>, p: nat, n: nat): Option<T>
    decreases n - p
  {
    if p >= n then None
    else if attempt(p).Some? then attempt(p)
    else FirstSome(attempt, p + 1, n)
  }

  /** Attempt `q` is the first successful one from `p` on. */
  predicate IsFirstSome<T>(attempt: nat -> Option<T>, p: nat, n: nat, q: nat) {
    p <= q < n && attempt(q).Some? && forall k :: p <= k < q ==> attempt(k).None?
  }

  /** `FirstSome` is the first success when there is one, and `None` only when every attempt fails. */
  lemma {:induction false} FirstSomeFacts<T>(attempt: nat -> Option<T>, p: nat, n: nat)
    ensures var r := FirstSome(attempt, p, n);
      && (r.Some? ==> exists q :: IsFirstSome(attempt, p, n, q) && r == attempt(q))
      && (r.None? ==> forall q :: p <= q < n ==> attempt(q).None?)
    decreases n - p
  {
    if p < n {
      if attempt(p).Some? {
        assert IsFirstSome(attempt, p, n, p);
      } else {
        FirstSomeFacts(attempt, p + 1, n);
        if FirstSome(attempt, p + 1, n).Some? {
          var q :| IsFirstSome(attempt, p + 1, n, q) && FirstSome(attempt, p + 1, n) == attempt(q);
          assert IsFirstSome(attempt, p, n, q);
        }
      }
    }
  }
}

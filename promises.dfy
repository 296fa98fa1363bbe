/** Promises that settle once: the first `resolve` or `reject` wins, later ones are ignored. */
module Promises {
  import opened Js

  /** One call of the executor's `resolve` or `reject`. */
  datatype Attempt<T> = Resolve(value: T) | Reject(error: Error)

  datatype Promise<T> = Pending | Fulfilled(value: T) | Rejected(error: Error)
  {
    /** The promise after one more `resolve`/`reject` call. */
    function Settle(a: Attempt<T>): Promise<T>
    {
      if Pending? then Of(a) else this
    }
  }

  /** The promise that the attempt `a` settles a pending promise to. */
  function Of<T>(a: Attempt<T>): (p: Promise<T>)
    ensures !p.Pending?
    ensures p.Fulfilled? <==> a.Resolve?
  {
    match a
    case Resolve(v) => Fulfilled(v)
    case Reject(e) => Rejected(e)
  }

  /** The state of a promise whose executor made the calls `attempts`, in order. */
  function Run<T>(attempts: seq<Attempt<T>>): Promise<T>
    decreases |attempts|
  {
    if attempts == [] then Pending
    else Run(attempts[..|attempts| - 1]).Settle(attempts[|attempts| - 1])
  }

  /** Settle-once: the outcome is decided by the first call alone, whatever follows it. */
  lemma {:induction false} RunIsFirst<T>(attempts: seq<Attempt<T>>)
    ensures Run(attempts) == if attempts == [] then Pending else Of(attempts[0])
    decreases |attempts|
  {
    if attempts != [] {
      var init := attempts[..|attempts| - 1];
      RunIsFirst(init);
      if init != [] {
        assert init[0] == attempts[0];
      }
    }
  }

  lemma RunSnoc<T>(attempts: seq<Attempt<T>>, a: Attempt<T>)
    ensures Run(attempts + [a]) == Run(attempts).Settle(a)
  {
    assert (attempts + [a])[..|attempts|] == attempts;
  }

  /** The promise object together with the `resolve`/`reject` pair its executor receives.
      `attempts` records every call made so far. */
  class Deferred<T> {
    var state: Promise<T>
    ghost var attempts: seq<Attempt<T>>

    ghost predicate Valid()
      reads this
    {
      state == Run(attempts)
    }

    constructor ()
      ensures Valid() && attempts == [] && state == Pending
    {
      state := Pending;
      attempts := [];
    }

    method Resolve(v: T)
      requires Valid()
      modifies this
      ensures Valid() && attempts == old(attempts) + [Attempt.Resolve(v)]
      ensures !state.Pending?
    {
      RunSnoc(attempts, Attempt.Resolve(v));
      state := state.Settle(Attempt.Resolve(v));
      attempts := attempts + [Attempt.Resolve(v)];
    }

    method Reject(e: Error)
      requires Valid()
      modifies this
      ensures Valid() && attempts == old(attempts) + [Attempt.Reject(e)]
      ensures !state.Pending?
    {
      RunSnoc(attempts, Attempt.Reject(e));
      state := state.Settle(Attempt.Reject(e));
      attempts := attempts + [Attempt.Reject(e)];
    }

    /** A callback's `if (err) reject(err);` with no `return` after it. */
    method RejectOn(error: Option<Error>)
      requires Valid()
      modifies this
      ensures Valid() && attempts == old(attempts) + RejectIf(error)
    {
      if error.Some? {
        Reject(error.value);
      }
    }
  }

  /** Regrouping the attempts of consecutive callbacks. */
  lemma AppendAssoc<T>(a: seq<T>, b: seq<T>, c: seq<T>)
    ensures (a + b) + c == a + (b + c)
  {
  }

  /** `[reject(e)]` when a callback received the error `e`, otherwise no call. */
  function RejectIf<T>(error: Option<Error>): seq<Attempt<T>>
  {
    if error.Some? then [Reject(error.value)] else []
  }
}

/** The worker's `withRetries(fn, retries, delayMs)`: call `fn` up to
    `retries + 1` times, treat an `{ ok: false }` reply like a thrown error,
    sleep between failed attempts, and rethrow the last error. Time is not
    modelled; the number of calls and of sleeps is. */
module Retries {
  import opened Js
  import opened Provider

  /** How `withRetries` settles: with the first successful reply, or by
      throwing the last error (None is `undefined`, thrown when no attempt
      was made at all). */
  datatype Outcome<N> = Success(reply: Reply<N>) | Raised(error: Option<string>)

  /** The outcome together with the number of calls of `fn` and of sleeps. */
  datatype Run<N> = Run(outcome: Outcome<N>, calls: nat, sleeps: nat)

  const ProviderError := "provider error"

  /** The attempt succeeded: `fn` returned a reply that is not `{ ok: false }`. */
  predicate Succeeded<N>(c: Call<N>) {
    c.Returned? && c.reply.Ok?
  }

  /** The message of a failed attempt: the thrown error's, or, for an
      `{ ok: false, error }` reply, `error || 'provider error'`. */
  function ErrorOf<N>(c: Call<N>): string
    requires !Succeeded(c)
  {
    match c
    case Threw(m) => m
    case Returned(reply) => if reply.error == "" then ProviderError else reply.error
  }

  /** The attempts from index `i` on, `lastErr` holding the last error so far.
      `fn(i)` is what the `i`-th call of `fn` does. */
  function RunFrom<N>(fn: nat -> Call<N>, retries: int, i: nat, lastErr: Option<string>): Run<N>
    decreases retries + 1 - i
  {
    if i > retries then Run(Raised(lastErr), 0, 0)
    else if Succeeded(fn(i)) then Run(Success(fn(i).reply), 1, 0)
    else
      var rest := RunFrom(fn, retries, i + 1, Some(ErrorOf(fn(i))));
      Run(rest.outcome, rest.calls + 1, rest.sleeps + if i < retries then 1 else 0)
  }

  /** The specification of `withRetries(fn, retries)`. */
  function Retry<N>(fn: nat -> Call<N>, retries: int): Run<N> {
    RunFrom(fn, retries, 0, None)
  }

  /** `withRetries`, with its `for` loop and `lastErr` variable. */
  method WithRetries<N>(fn: nat -> Call<N>, retries: int) returns (outcome: Outcome<N>, calls: nat, sleeps: nat)
    ensures Run(outcome, calls, sleeps) == Retry(fn, retries)
  {
    var lastErr: Option<string> := None;
    calls, sleeps := 0, 0;
    var i: nat := 0;
    while i <= retries
      invariant var rest := RunFrom(fn, retries, i, lastErr);
        Retry(fn, retries) == Run(rest.outcome, calls + rest.calls, sleeps + rest.sleeps)
      decreases retries + 1 - i
    {
      var res := fn(i);
      calls := calls + 1;
      if Succeeded(res) {
        return Success(res.reply), calls, sleeps;
      }
      lastErr := Some(ErrorOf(res));
      if i < retries {
        sleeps := sleeps + 1;
      }
      i := i + 1;
    }
    outcome := Raised(lastErr);
  }

  // ---------------------------------------------------------------------------
  // Properties of the attempt loop

  /** What the attempts from index `i` on amount to. */
  lemma {:induction false} RunFromFacts<N>(fn: nat -> Call<N>, retries: int, i: nat, lastErr: Option<string>)
    ensures var r := RunFrom(fn, retries, i, lastErr);
      (i > retries ==> r == Run(Raised(lastErr), 0, 0))
      && (i <= retries ==> 1 <= r.calls <= retries + 1 - i && r.sleeps == r.calls - 1)
      && (r.outcome.Success? ==>
            r.calls >= 1 && Succeeded(fn(i + r.calls - 1)) && r.outcome.reply == fn(i + r.calls - 1).reply
            && forall j :: i <= j < i + r.calls - 1 ==> !Succeeded(fn(j)))
      && (r.outcome.Raised? && i <= retries ==>
            r.calls == retries + 1 - i && (forall j :: i <= j <= retries ==> !Succeeded(fn(j)))
            && !Succeeded(fn(retries)) && r.outcome.error == Some(ErrorOf(fn(retries))))
    decreases retries + 1 - i
  {
    if i <= retries && !Succeeded(fn(i)) {
      RunFromFacts(fn, retries, i + 1, Some(ErrorOf(fn(i))));
    }
  }

  /** `fn` is called at most `retries + 1` times, and not at all when
      `retries` is negative, in which case `undefined` is thrown; every call
      but the last is followed by a sleep. */
  lemma RetryBounds<N>(fn: nat -> Call<N>, retries: int)
    ensures Retry(fn, retries).calls <= if retries < 0 then 0 else retries + 1
    ensures Retry(fn, retries).calls == 0 <==> retries < 0
    ensures Retry(fn, retries).outcome == Raised(None) <==> retries < 0
    ensures Retry(fn, retries).calls > 0 ==> Retry(fn, retries).sleeps == Retry(fn, retries).calls - 1
  {
    RunFromFacts(fn, retries, 0, None);
  }

  /** When the `k`-th attempt is the first to succeed, its reply is returned
      after `k + 1` calls and `k` sleeps, and no further call is made. */
  lemma RetryFirstSuccess<N>(fn: nat -> Call<N>, retries: int, k: nat)
    requires k <= retries && Succeeded(fn(k))
    requires forall j :: 0 <= j < k ==> !Succeeded(fn(j))
    ensures Retry(fn, retries) == Run(Success(fn(k).reply), k + 1, k)
  {
    RunFromFacts(fn, retries, 0, None);
  }

  /** A successful outcome is the reply of the last call, and every earlier
      call failed. */
  lemma RetrySuccessIsFirst<N>(fn: nat -> Call<N>, retries: int)
    requires Retry(fn, retries).outcome.Success?
    ensures var r := Retry(fn, retries);
      1 <= r.calls && Succeeded(fn(r.calls - 1)) && r.outcome.reply == fn(r.calls - 1).reply
      && forall j :: 0 <= j < r.calls - 1 ==> !Succeeded(fn(j))
  {
    RunFromFacts(fn, retries, 0, None);
  }

  /** When every attempt fails, all `retries + 1` calls are made, with a sleep
      between consecutive ones, and the last error is thrown. */
  lemma RetryExhausted<N>(fn: nat -> Call<N>, retries: int)
    requires retries >= 0
    requires forall j :: 0 <= j <= retries ==> !Succeeded(fn(j))
    ensures Retry(fn, retries) == Run(Raised(Some(ErrorOf(fn(retries)))), retries + 1, retries)
  {
    RunFromFacts(fn, retries, 0, None);
  }

  /** With the default of two retries and a call that always throws, `fn` is
      called three times with two sleeps in between. */
  lemma DefaultRetriesAlwaysFailing<N>(fn: nat -> Call<N>, message: string)
    requires forall j: nat :: fn(j) == Threw(message)
    ensures Retry(fn, 2) == Run(Raised(Some(message)), 3, 2)
  {
    RetryExhausted(fn, 2);
  }

  /** An `{ ok: false }` reply counts exactly like a thrown error: two calls
      that succeed alike, with the same replies, and fail alike, with the
      same messages, lead to the same outcome. */
  lemma {:induction false} FailedReplyIsLikeThrow<N>(f: nat -> Call<N>, g: nat -> Call<N>, retries: int, i: nat,
                                                    lastErr: Option<string>)
    requires forall j: nat ::
      && Succeeded(f(j)) == Succeeded(g(j))
      && (Succeeded(f(j)) ==> f(j).reply == g(j).reply)
      && (!Succeeded(f(j)) ==> ErrorOf(f(j)) == ErrorOf(g(j)))
    ensures RunFrom(f, retries, i, lastErr) == RunFrom(g, retries, i, lastErr)
    decreases retries + 1 - i
  {
    if i <= retries && !Succeeded(f(i)) {
      FailedReplyIsLikeThrow(f, g, retries, i + 1, Some(ErrorOf(f(i))));
    }
  }

  /** In particular a reply `{ ok: false, error: m }` with a non-empty `m`
      behaves as `throw new Error(m)`. */
  lemma FailedReplyThrowsItsError<N>(f: nat -> Call<N>, retries: int)
    ensures var g := (j: nat) => if f(j).Returned? && f(j).reply.Fail? && f(j).reply.error != ""
                                then Threw(f(j).reply.error) else f(j);
      Retry(f, retries) == Retry(g, retries)
  {
    var g := (j: nat) => if f(j).Returned? && f(j).reply.Fail? && f(j).reply.error != ""
                        then Threw(f(j).reply.error) else f(j);
    FailedReplyIsLikeThrow(f, g, retries, 0, None);
  }
}

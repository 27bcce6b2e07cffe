/** The retry-with-linear-backoff loop that both `log_boiler_data.main` and
    `boost_dhw.main` wrap around their remote call:

      for attempt in range(3):
        try: <call>; <leave the loop>
        except error:
          if error is an auth error and attempt < 2: sleep(base * (attempt + 1))
          else: exit 1

    The remote call is modelled as a script: the outcome of the first,
    second and third call. The sleeps the loop performs are returned as a
    trace. The two scripts differ only in `base` (120 s and 60 s). */
module Retry {
  import opened Text

  /** The outcome of one remote call: a value, or an exception whose
      `str()` is `message`. */
  datatype Attempt<T> = Returned(value: T) | Raised(message: string)

  /** `max_retries` in both scripts. */
  const MAX_RETRIES: nat := 3

  /** `'403' in str(e) or '401' in str(e)`: the test that decides whether a
      failure is retried. */
  predicate IsAuthError(message: string) {
    Contains(message, "403") || Contains(message, "401")
  }

  /** An exception the loop retries when attempts remain. */
  predicate IsRetryable<T>(a: Attempt<T>) {
    a.Raised? && IsAuthError(a.message)
  }

  /** How the loop ends, with the seconds slept on the way. `Exhausted` is
      the fall-through after the last attempt, which the loop never reaches
      (see `NeverExhausted`). */
  datatype Run<T> =
    | Finished(value: T, sleeps: seq<int>)
    | Failed(message: string, sleeps: seq<int>)
    | Exhausted(sleeps: seq<int>)

  /** The number of calls the loop made: one per sleep, plus the call that
      ended it. */
  function Calls<T>(run: Run<T>): nat {
    if run.Exhausted? then |run.sleeps| else |run.sleeps| + 1
  }

  /** `wait = base * (attempt + 1)`. */
  function Backoff(base: int, attempt: nat): int {
    base * (attempt + 1)
  }

  function Delay<T>(wait: int, run: Run<T>): (r: Run<T>)
    ensures r.sleeps == [wait] + run.sleeps
  {
    run.(sleeps := [wait] + run.sleeps)
  }

  /** The run `run` with the sleeps `done` performed before it. */
  function After<T>(done: seq<int>, run: Run<T>): (r: Run<T>)
    ensures r.sleeps == done + run.sleeps
  {
    run.(sleeps := done + run.sleeps)
  }

  /** What the loop does from attempt `attempt` on. */
  function RetryFrom<T>(script: seq<Attempt<T>>, attempt: nat, base: int): Run<T>
    requires |script| >= MAX_RETRIES
    decreases MAX_RETRIES - attempt
  {
    if attempt >= MAX_RETRIES then Exhausted([])
    else
      match script[attempt]
      case Returned(v) => Finished(v, [])
      case Raised(m) =>
        if IsAuthError(m) && attempt < MAX_RETRIES - 1
        then Delay(Backoff(base, attempt), RetryFrom(script, attempt + 1, base))
        else Failed(m, [])
  }

  /** One pass of the loop body, after the sleeps `done`: a value ends the
      loop, a retryable error sleeps and moves on, any other error ends it. */
  lemma RetryStep<T>(script: seq<Attempt<T>>, attempt: nat, base: int, done: seq<int>)
    requires |script| >= MAX_RETRIES && attempt < MAX_RETRIES
    ensures script[attempt].Returned? ==>
              After(done, RetryFrom(script, attempt, base)) == Finished(script[attempt].value, done)
    ensures script[attempt].Raised? && IsAuthError(script[attempt].message) && attempt < MAX_RETRIES - 1 ==>
              After(done, RetryFrom(script, attempt, base))
              == After(done + [Backoff(base, attempt)], RetryFrom(script, attempt + 1, base))
    ensures script[attempt].Raised? && !(IsAuthError(script[attempt].message) && attempt < MAX_RETRIES - 1) ==>
              After(done, RetryFrom(script, attempt, base)) == Failed(script[attempt].message, done)
  {
    assert done + [] == done;
    var rest := RetryFrom(script, attempt + 1, base);
    assert done + ([Backoff(base, attempt)] + rest.sleeps) == done + [Backoff(base, attempt)] + rest.sleeps;
  }

  // ---- an independent description of the same loop ----

  /** The attempt at which the loop stops: the first that returns or raises
      a non-auth error, or the last one. */
  function SettlingAttempt<T>(script: seq<Attempt<T>>, from: nat): (n: nat)
    requires |script| >= MAX_RETRIES && from < MAX_RETRIES
    ensures from <= n < MAX_RETRIES
    ensures forall k :: from <= k < n ==> IsRetryable(script[k])
    ensures n == MAX_RETRIES - 1 || !IsRetryable(script[n])
    decreases MAX_RETRIES - from
  {
    if from == MAX_RETRIES - 1 || !IsRetryable(script[from]) then from
    else SettlingAttempt(script, from + 1)
  }

  /** The sleeps before attempt `n`: base, 2 * base, ..., n * base. */
  function Schedule(base: int, n: nat): (s: seq<int>)
    ensures |s| == n && forall k :: 0 <= k < n ==> s[k] == Backoff(base, k)
  {
    seq(n, (k: int) requires 0 <= k < n => Backoff(base, k))
  }

  /** The end of the loop when attempt `n` is the one that settles it. */
  function Settle<T>(a: Attempt<T>, sleeps: seq<int>): Run<T> {
    match a
    case Returned(v) => Finished(v, sleeps)
    case Raised(m) => Failed(m, sleeps)
  }

  lemma {:induction false} RetryFromSettles<T>(script: seq<Attempt<T>>, from: nat, base: int)
    requires |script| >= MAX_RETRIES && from < MAX_RETRIES
    ensures RetryFrom(script, from, base)
            == Settle(script[SettlingAttempt(script, from)],
                      Schedule(base, SettlingAttempt(script, from))[from..])
    decreases MAX_RETRIES - from
  {
    var n := SettlingAttempt(script, from);
    if n != from {
      RetryFromSettles(script, from + 1, base);
      assert SettlingAttempt(script, from + 1) == n;
      var rest := Schedule(base, n)[from + 1..];
      assert Schedule(base, n)[from..] == [Backoff(base, from)] + rest;
    }
  }

  /** The loop, run from the first attempt, performs exactly the calls up to
      the settling attempt, sleeping `base * (k + 1)` after each failed call
      `k` before it, and ends with that attempt's outcome. */
  lemma RetryRun<T>(script: seq<Attempt<T>>, base: int)
    requires |script| >= MAX_RETRIES
    ensures RetryFrom(script, 0, base)
            == Settle(script[SettlingAttempt(script, 0)], Schedule(base, SettlingAttempt(script, 0)))
  {
    RetryFromSettles(script, 0, base);
    assert Schedule(base, SettlingAttempt(script, 0))[0..] == Schedule(base, SettlingAttempt(script, 0));
  }

  /** The loop never falls through: every run ends with a value or an error. */
  lemma NeverExhausted<T>(script: seq<Attempt<T>>, base: int)
    requires |script| >= MAX_RETRIES
    ensures !RetryFrom(script, 0, base).Exhausted?
  {
    RetryRun(script, base);
  }

  /** A first call that raises anything but an auth error ends the loop at
      once, with no sleep. */
  lemma NonAuthFailsImmediately<T>(script: seq<Attempt<T>>, base: int)
    requires |script| >= MAX_RETRIES
    requires script[0].Raised? && !IsAuthError(script[0].message)
    ensures RetryFrom(script, 0, base) == Failed(script[0].message, [])
  {
  }

  /** `n` auth failures followed by a value, with `n < 3`, end with that
      value after sleeping base, 2 * base, ..., n * base. */
  lemma {:induction false} AuthFailuresThenSuccess<T>(script: seq<Attempt<T>>, base: int, n: nat)
    requires |script| >= MAX_RETRIES && n < MAX_RETRIES
    requires forall k :: 0 <= k < n ==> IsRetryable(script[k])
    requires script[n].Returned?
    ensures RetryFrom(script, 0, base) == Finished(script[n].value, Schedule(base, n))
  {
    SettlesAt(script, 0, n);
    RetryRun(script, base);
  }

  /** The settling attempt is the first one that is not retryable. */
  lemma {:induction false} SettlesAt<T>(script: seq<Attempt<T>>, from: nat, n: nat)
    requires |script| >= MAX_RETRIES && from <= n < MAX_RETRIES
    requires forall k :: from <= k < n ==> IsRetryable(script[k])
    requires !IsRetryable(script[n])
    ensures SettlingAttempt(script, from) == n
    decreases n - from
  {
    if from < n {
      SettlesAt(script, from + 1, n);
    }
  }

  function Sum(s: seq<int>): int {
    if |s| == 0 then 0 else Sum(s[..|s| - 1]) + s[|s| - 1]
  }

  /** base + 2 * base + ... + n * base = base * n * (n + 1) / 2. */
  lemma {:induction false} ScheduleTotal(base: int, n: nat)
    ensures 2 * Sum(Schedule(base, n)) == base * n * (n + 1)
  {
    if n > 0 {
      ScheduleTotal(base, n - 1);
      assert Schedule(base, n)[..n - 1] == Schedule(base, n - 1);
    }
  }

  /** At most three calls are made, and with a non-negative base the loop
      sleeps at most base + 2 * base seconds in all. */
  lemma RetryBounds<T>(script: seq<Attempt<T>>, base: int)
    requires |script| >= MAX_RETRIES && base >= 0
    ensures |RetryFrom(script, 0, base).sleeps| < MAX_RETRIES
    ensures Calls(RetryFrom(script, 0, base)) <= MAX_RETRIES
    ensures 0 <= Sum(RetryFrom(script, 0, base).sleeps) <= 3 * base
  {
    RetryRun(script, base);
    var n := SettlingAttempt(script, 0);
    ScheduleTotal(base, n);
    if n == 0 {
    } else if n == 1 {
      assert 2 * Sum(Schedule(base, n)) == base * 2;
    } else {
      assert 2 * Sum(Schedule(base, n)) == base * 6;
    }
  }
}

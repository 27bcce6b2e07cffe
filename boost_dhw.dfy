/** `boost_dhw.py`: start a domestic-hot-water boost on the first hot-water
    device of the first system, unless it is already boosting, retrying the
    whole session on auth errors with a 60 s linear backoff. */
module BoostDhw {
  import opened Wrappers
  import opened Vendor
  import opened Retry

  /** `wait = 60 * (attempt + 1)`. */
  const BACKOFF_BASE: int := 60

  /** What one run of `boost()` meets from the vendor client: the systems
      listing (or the exception listing them raises) and the reply to the
      boost call (or the exception it raises), should the call be made. */
  datatype Session = Session(systems: Attempt<seq<System>>, boostReply: Attempt<Dhw>)

  /** The result of one run of `boost()` and the device it sent the boost
      call for, if it made one. */
  datatype BoostResult = BoostResult(outcome: Attempt<bool>, boosted: Option<Dhw>)

  /** The first system's first hot-water device, when there is one. */
  predicate HasDevice(systems: seq<System>) {
    |systems| > 0 && |systems[0].domesticHotWater| > 0
  }

  function FirstDevice(systems: seq<System>): Dhw
    requires HasDevice(systems)
  {
    systems[0].domesticHotWater[0]
  }

  /** `boost()`: only the first system is looked at, since the function
      returns inside the loop; only its first hot-water device is used. */
  function Boost(session: Session): (r: BoostResult)
    // a boost call is made exactly when the first device exists and is not boosting yet
    ensures r.boosted.Some? <==>
              session.systems.Returned? && HasDevice(session.systems.value)
              && !FirstDevice(session.systems.value).isCylinderBoosting
    ensures r.boosted.Some? ==> r.boosted.value == FirstDevice(session.systems.value)
    // False exactly when there is no system or the first has no device
    ensures r.outcome == Returned(false) <==>
              session.systems.Returned? && !HasDevice(session.systems.value)
    // True when the device is already boosting (no call), or when the call succeeded
    ensures r.outcome == Returned(true) <==>
              session.systems.Returned? && HasDevice(session.systems.value)
              && (FirstDevice(session.systems.value).isCylinderBoosting || session.boostReply.Returned?)
    ensures r.outcome.Returned? && r.outcome.value && r.boosted.None? ==>
              FirstDevice(session.systems.value).isCylinderBoosting
    // an exception comes from the listing, or from the boost call once it was made
    ensures r.outcome.Raised? <==>
              session.systems.Raised? || (r.boosted.Some? && session.boostReply.Raised?)
  {
    match session.systems
    case Raised(m) => BoostResult(Raised(m), None)
    case Returned(systems) =>
      if |systems| == 0 then BoostResult(Returned(false), None)
      else if |systems[0].domesticHotWater| == 0 then BoostResult(Returned(false), None)
      else
        var dhw := systems[0].domesticHotWater[0];
        if dhw.isCylinderBoosting then BoostResult(Returned(true), None)
        else
          match session.boostReply
          case Raised(m) => BoostResult(Raised(m), Some(dhw))
          case Returned(_) => BoostResult(Returned(true), Some(dhw))
  }

  /** The outcomes of `boost()` over a script of sessions. */
  function Outcomes(script: seq<Session>): (outs: seq<Attempt<bool>>)
    ensures |outs| == |script| && forall i :: 0 <= i < |script| ==> outs[i] == Boost(script[i]).outcome
  {
    seq(|script|, (i: int) requires 0 <= i < |script| => Boost(script[i]).outcome)
  }

  /** The devices for which boost calls were made in the first `n` sessions. */
  function BoostCalls(script: seq<Session>, n: nat): (calls: seq<Dhw>)
    requires n <= |script|
    ensures |calls| <= n
  {
    if n == 0 then [] else BoostCalls(script, n - 1) + CallOf(Boost(script[n - 1]))
  }

  function CallOf(r: BoostResult): (calls: seq<Dhw>)
    ensures |calls| <= 1
  {
    if r.boosted.Some? then [r.boosted.value] else []
  }

  /** The process exit status: `sys.exit(0)` after True, `sys.exit(1)` after
      False or a final error. `SystemExit` is not an `Exception`, so the
      `except` clause does not catch these exits. Falling off the end of the
      loop would return normally (status 0); that never happens. */
  function ExitCode(run: Run<bool>): int {
    match run
    case Finished(success, _) => if success then 0 else 1
    case Failed(_, _) => 1
    case Exhausted(_) => 0
  }

  /** `main()`: the retry loop around `boost()`. Returns the exit status,
      the sleeps performed, the number of `boost()` runs and the devices
      boost calls were made for. */
  method RunBoost(script: seq<Session>) returns (exitCode: int, sleeps: seq<int>, attempts: nat, boosted: seq<Dhw>)
    requires |script| >= MAX_RETRIES
    ensures var run := RetryFrom(Outcomes(script), 0, BACKOFF_BASE);
            exitCode == ExitCode(run) && sleeps == run.sleeps
    ensures attempts == Calls(RetryFrom(Outcomes(script), 0, BACKOFF_BASE))
    ensures boosted == BoostCalls(script, attempts)
  {
    ghost var outs := Outcomes(script);
    ghost var whole := RetryFrom(outs, 0, BACKOFF_BASE);
    sleeps, boosted, attempts := [], [], 0;
    var attempt := 0;
    assert whole == After(sleeps, whole);
    while attempt < MAX_RETRIES
      invariant 0 <= attempt <= MAX_RETRIES
      invariant |sleeps| == attempt == attempts
      invariant whole == After(sleeps, RetryFrom(outs, attempt, BACKOFF_BASE))
      invariant boosted == BoostCalls(script, attempt)
      decreases MAX_RETRIES - attempt
    {
      RetryStep(outs, attempt, BACKOFF_BASE, sleeps);
      var r := Boost(script[attempt]);
      assert outs[attempt] == r.outcome;
      boosted := boosted + CallOf(r);
      match r.outcome {
        case Returned(success) =>
          attempts := attempt + 1;
          exitCode := if success then 0 else 1;
          return;
        case Raised(m) =>
          if IsAuthError(m) && attempt < MAX_RETRIES - 1 {
            sleeps, attempts := sleeps + [BACKOFF_BASE * (attempt + 1)], attempts + 1;
          } else {
            attempts := attempt + 1;
            exitCode := 1;
            return;
          }
      }
      attempt := attempt + 1;
    }
    // falling off the loop: `main` returns normally
    exitCode := 0;
  }

  /** The script exits 0 exactly when the attempt that settles the loop is a
      `boost()` that returned True: the device was boosting already or the
      boost call succeeded, after at most two auth errors. */
  lemma {:induction false} ExitZeroIffBoosted(script: seq<Session>)
    requires |script| >= MAX_RETRIES
    ensures var outs := Outcomes(script);
            var n := SettlingAttempt(outs, 0);
            ExitCode(RetryFrom(outs, 0, BACKOFF_BASE)) == 0 <==> outs[n] == Returned(true)
  {
    RetryRun(Outcomes(script), BACKOFF_BASE);
  }

  /** Whatever the vendor client does, `main` runs `boost()` at most three
      times, so it makes at most three boost calls, and sleeps at most
      60 + 120 = 180 seconds. */
  lemma {:induction false} RunBoostBounds(script: seq<Session>)
    requires |script| >= MAX_RETRIES
    ensures var run := RetryFrom(Outcomes(script), 0, BACKOFF_BASE);
            |run.sleeps| < MAX_RETRIES && Sum(run.sleeps) <= 180
            && |BoostCalls(script, |run.sleeps| + 1)| <= MAX_RETRIES
  {
    RetryBounds(Outcomes(script), BACKOFF_BASE);
  }

  /** A False from `boost()` (no system, or no hot-water device) is not
      retried: it ends the script with status 1 on the spot. */
  lemma FalseIsFinal(script: seq<Session>)
    requires |script| >= MAX_RETRIES
    requires Boost(script[0]).outcome == Returned(false)
    ensures RetryFrom(Outcomes(script), 0, BACKOFF_BASE) == Finished(false, [])
    ensures ExitCode(RetryFrom(Outcomes(script), 0, BACKOFF_BASE)) == 1
  {
  }
}

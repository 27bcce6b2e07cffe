/** The water-pressure severity classifier. Both the logger and the
    stand-alone monitor use the same chain of tests: a missing reading is
    UNKNOWN, below the critical cutoff is CRITICAL, otherwise below the
    warning cutoff is WARNING, otherwise OK. */
module Pressure {
  import opened Wrappers

  datatype Status = Ok | Warning | Critical | Unknown

  /** Default cutoffs in bar, used when the environment sets none. */
  const DEFAULT_WARNING: real := 1.0
  const DEFAULT_CRITICAL: real := 0.8

  /** The if/elif chain. CRITICAL is tested before WARNING, so each reading
      gets exactly one status, and the WARNING band is the half-open
      interval [critical, warning). */
  function Classify(pressure: Option<real>, warning: real, critical: real): (s: Status)
    ensures s == Unknown <==> pressure.None?
    ensures s == Critical <==> pressure.Some? && pressure.value < critical
    ensures s == Warning <==> pressure.Some? && critical <= pressure.value < warning
    ensures s == Ok <==> pressure.Some? && critical <= pressure.value && warning <= pressure.value
  {
    if pressure.None? then Unknown
    else if pressure.value < critical then Critical
    else if pressure.value < warning then Warning
    else Ok
  }

  /** The statuses that call for an alert: everything but OK. */
  predicate IsAlert(s: Status) {
    s == Critical || s == Warning || s == Unknown
  }

  /** How bad a classified reading is: OK < WARNING < CRITICAL. */
  function Severity(s: Status): nat {
    match s
    case Ok => 0
    case Warning => 1
    case Critical => 2
    case Unknown => 3
  }

  /** With the critical cutoff at or above the warning cutoff, the WARNING
      branch can never be taken. */
  lemma NoWarningWhenCutoffsInverted(p: Option<real>, warning: real, critical: real)
    requires warning <= critical
    ensures Classify(p, warning, critical) != Warning
  {
  }

  /** A lower reading is never classified as less severe than a higher one,
      whatever the cutoffs. */
  lemma LowerIsNoBetter(p: real, q: real, warning: real, critical: real)
    requires p <= q
    ensures Severity(Classify(Some(p), warning, critical)) >= Severity(Classify(Some(q), warning, critical))
  {
  }

  /** The examples for the default cutoffs: 0.75 is CRITICAL, 0.9 WARNING,
      1.2 OK and a missing reading UNKNOWN. */
  lemma DefaultCutoffExamples()
    ensures Classify(Some(0.75), DEFAULT_WARNING, DEFAULT_CRITICAL) == Critical
    ensures Classify(Some(0.9), DEFAULT_WARNING, DEFAULT_CRITICAL) == Warning
    ensures Classify(Some(1.2), DEFAULT_WARNING, DEFAULT_CRITICAL) == Ok
    ensures Classify(None, DEFAULT_WARNING, DEFAULT_CRITICAL) == Unknown
  {
  }
}

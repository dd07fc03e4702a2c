/** How long a publication may wait for its target locks
    (task_core/db/policies.py, PublicationLockPolicy).  Times are reals. */
module LockPolicy {
  import opened Values

  const TIMEOUT_MARGIN_MS := 50

  datatype Policy = Policy(
    lockMs: int,
    acquisitionMs: int,
    horizon: real,
    delayMin: real,
    delayMax: real,
    maxAttempts: int)
  {
    /** What __post_init__ admits. */
    predicate Valid() {
      && lockMs >= 1 && acquisitionMs >= 1 && maxAttempts >= 1
      && horizon >= 0.0 && delayMin >= 0.0 && delayMax >= 0.0
      && delayMin <= delayMax
      && acquisitionMs >= lockMs + TIMEOUT_MARGIN_MS
    }

    function AcquisitionSeconds(): real { acquisitionMs as real / 1000.0 }
  }

  /** __post_init__, on the values its type checks let through. */
  method CheckPolicy(p: Policy) returns (admitted: bool)
    ensures admitted == p.Valid()
  {
    if p.lockMs < 1 || p.acquisitionMs < 1 || p.maxAttempts < 1 {
      return false;
    }
    if p.horizon < 0.0 || p.delayMin < 0.0 || p.delayMax < 0.0 {
      return false;
    }
    if p.delayMax < p.delayMin {
      return false;
    }
    admitted := p.lockMs + 50 <= p.acquisitionMs;
  }

  function Min(a: int, b: int): int { if a < b then a else b }

  function MinReal(a: real, b: real): real { if a < b then a else b }

  /** int(x * 1000): truncation toward zero. */
  function Milliseconds(seconds: real): int {
    var x := seconds * 1000.0;
    if x < 0.0 then -((-x).Floor) else x.Floor
  }

  datatype Budgets = Budgets(statementMs: int, lockMs: int)

  /** attempt_budgets_ms: Err is the rejected target count, None an exhausted
      budget. */
  function AttemptBudgets(p: Policy, remaining: real, targets: int): Result<Option<Budgets>>
    requires p.Valid()
  {
    if targets < 1 then Err
    else
      var remainingMs := Milliseconds(remaining);
      if remainingMs <= 0 then Ok(None)
      else
        var statementMs := Min(p.acquisitionMs, remainingMs);
        var available := statementMs - TIMEOUT_MARGIN_MS;
        if available < targets then Ok(None)
        else
          var lockMs := Min(p.lockMs, available / targets);
          if lockMs < 1 then Ok(None) else Ok(Some(Budgets(statementMs, lockMs)))
  }

  /** A budget pair fits: n sequential waits and the margin stay inside the
      statement timeout, which stays inside the policy and the horizon. */
  predicate Fits(p: Policy, remaining: real, targets: int, b: Budgets) {
    && 1 <= b.lockMs <= p.lockMs
    && targets * b.lockMs + TIMEOUT_MARGIN_MS <= b.statementMs
    && b.statementMs <= p.acquisitionMs
    && b.statementMs as real <= remaining * 1000.0
  }

  /** Whole milliseconds fit in a time exactly when they fit in it rounded down. */
  lemma WholeMilliseconds(seconds: real, ms: int)
    requires ms >= 1
    ensures ms <= Milliseconds(seconds) <==> ms as real <= seconds * 1000.0
  {
    var x := seconds * 1000.0;
    if ms as real <= x {
      assert (ms as real).Floor == ms;
    }
  }

  lemma QuotientBounds(a: int, n: int)
    requires a >= 0 && n >= 1
    ensures n * (a / n) <= a < n * (a / n + 1)
  {
  }

  lemma ProductOrder(n: int, x: int, y: int)
    requires n >= 1 && x <= y
    ensures n * x <= n * y
  {
  }

  /** The pair returned fits, and no fitting pair waits longer for a target;
      nothing is returned exactly when nothing fits. */
  lemma BudgetsAreLargestFit(p: Policy, remaining: real, targets: int, other: Budgets)
    requires p.Valid() && targets >= 1
    ensures var r := AttemptBudgets(p, remaining, targets);
      && r.Ok?
      && (r.value.Some? ==> Fits(p, remaining, targets, r.value.value))
      && (Fits(p, remaining, targets, other) ==>
            r.value.Some?
            && other.lockMs <= r.value.value.lockMs
            && other.statementMs <= r.value.value.statementMs)
  {
    var statementMs := Min(p.acquisitionMs, Milliseconds(remaining));
    var available := statementMs - TIMEOUT_MARGIN_MS;
    if statementMs >= 1 {
      WholeMilliseconds(remaining, statementMs);
    }
    if Fits(p, remaining, targets, other) {
      ProductOrder(targets, 1, other.lockMs);
      WholeMilliseconds(remaining, other.statementMs);
    }
    if available >= 0 {
      QuotientBounds(available, targets);
      if available >= targets {
        ProductOrder(targets, Min(p.lockMs, available / targets), available / targets);
      }
    }
    if Fits(p, remaining, targets, other) {
      ProductOrder(targets, 1, other.lockMs);
      if other.lockMs > available / targets {
        ProductOrder(targets, available / targets + 1, other.lockMs);
      }
    }
  }

  /** The target count _lock_publication_targets admits: with a whole
      acquisition budget left the configured timeouts apply unreduced. */
  lemma FullBudgetIsConfigured(p: Policy, remaining: real, targets: int)
    requires p.Valid() && targets >= 1
    requires targets * p.lockMs + TIMEOUT_MARGIN_MS <= p.acquisitionMs
    requires remaining * 1000.0 >= p.acquisitionMs as real
    ensures AttemptBudgets(p, remaining, targets) == Ok(Some(Budgets(p.acquisitionMs, p.lockMs)))
  {
    BudgetsAreLargestFit(p, remaining, targets, Budgets(p.acquisitionMs, p.lockMs));
  }

  /** No budget is left exactly when the time left is less than one millisecond
      for each target and the margin of 50. */
  lemma NoBudgetIff(p: Policy, remaining: real, targets: int)
    requires p.Valid() && targets >= 1 && targets * p.lockMs + 50 <= p.acquisitionMs
    ensures AttemptBudgets(p, remaining, targets) == Ok(None) <==> remaining * 1000.0 < (targets + 50) as real
  {
    WholeMilliseconds(remaining, targets + 50);
    ProductOrder(targets, 1, p.lockMs);
    var available := Min(p.acquisitionMs, Milliseconds(remaining)) - TIMEOUT_MARGIN_MS;
    if available >= targets {
      QuotientBounds(available, targets);
    }
  }

  function Sum(waits: seq<int>): int {
    if waits == [] then 0 else waits[0] + Sum(waits[1..])
  }

  /** Whatever each target's wait was, when one reaches the per-target timeout
      the statement timeout is still at least the margin away: contention
      arrives as the retryable 55P03, never as the terminal 57014. */
  lemma {:induction false} LockTimeoutFiresFirst(p: Policy, remaining: real, targets: int, b: Budgets, waits: seq<int>)
    requires p.Valid() && targets >= 1
    requires AttemptBudgets(p, remaining, targets) == Ok(Some(b))
    requires |waits| <= targets && forall i | 0 <= i < |waits| :: 0 <= waits[i] <= b.lockMs
    ensures Sum(waits) + 50 <= b.statementMs && b.statementMs as real <= remaining * 1000.0
  {
    BudgetsAreLargestFit(p, remaining, targets, b);
    SumBound(waits, b.lockMs);
    ProductOrder(b.lockMs, |waits|, targets);
  }

  lemma {:induction false} SumBound(waits: seq<int>, bound: int)
    requires forall i | 0 <= i < |waits| :: waits[i] <= bound
    ensures Sum(waits) <= |waits| * bound
  {
    if waits != [] {
      SumBound(waits[1..], bound);
      assert |waits| * bound == |waits[1..]| * bound + bound;
    }
  }

  /** After a retryable failure: the delay range to draw from, or None to stop. */
  function DelayRange(p: Policy, attempt: nat, remaining: real): Option<(real, real)> {
    var latest := remaining - p.AcquisitionSeconds();
    if attempt >= p.maxAttempts then None
    else if latest < p.delayMin then None
    else Some((p.delayMin, MinReal(p.delayMax, latest)))
  }

  /** One publication attempt on the clock of one commit() call; `retryable`:
      it failed, on a target lock that was not available.  `slept`: the delay
      asked for before it. */
  datatype Attempt = Attempt(start: real, failed: real, retryable: bool, slept: real)

  /** After so many attempts, with so much of the horizon left, there is to be
      another: the least delay fits before a whole acquisition budget. */
  predicate RetryDue(p: Policy, made: nat, remaining: real) {
    made < p.maxAttempts && remaining >= p.acquisitionMs as real / 1000.0 + p.delayMin
  }

  /** A delay that may be slept then. */
  predicate MayDelay(p: Policy, remaining: real, delay: real) {
    p.delayMin <= delay <= p.delayMax && delay <= remaining - p.acquisitionMs as real / 1000.0
  }

  /** There is a range to draw from exactly when a retry is due, and it holds
      exactly the delays that may be slept. */
  lemma DelayLeavesBudget(p: Policy, made: nat, remaining: real, delay: real)
    requires p.Valid()
    ensures var range := DelayRange(p, made, remaining);
      && (range.Some? <==> RetryDue(p, made, remaining))
      && (range.Some? ==>
           && range.value.0 <= range.value.1
           && (range.value.0 <= delay <= range.value.1 <==> MayDelay(p, remaining, delay)))
  {
  }

  /** The attempts of one commit(): each retry was due, and follows a retryable
      failure and a sleep that was allowed (a sleep may overrun, never fall
      short). */
  predicate RetryRun(p: Policy, started: real, attempts: seq<Attempt>) {
    && (|attempts| >= 1 ==> attempts[0].start >= started)
    && (forall i | 0 <= i < |attempts| :: attempts[i].start <= attempts[i].failed)
    && (forall i | 0 < i < |attempts| :: RetriedAfter(p, started, attempts, i))
  }

  predicate RetriedAfter(p: Policy, started: real, attempts: seq<Attempt>, i: nat)
    requires 0 < i < |attempts|
  {
    var remaining := started + p.horizon - attempts[i - 1].failed;
    && attempts[i - 1].retryable && RetryDue(p, i, remaining) && MayDelay(p, remaining, attempts[i].slept)
    && attempts[i].start >= attempts[i - 1].failed + attempts[i].slept
  }

  lemma {:induction false} StartsSpread(p: Policy, started: real, attempts: seq<Attempt>, i: nat)
    requires p.Valid() && RetryRun(p, started, attempts) && i < |attempts|
    ensures attempts[i].start >= started + i as real * p.delayMin
  {
    if i > 0 {
      assert RetriedAfter(p, started, attempts, i);
      StartsSpread(p, started, attempts, i - 1);
      assert i as real * p.delayMin == (i - 1) as real * p.delayMin + p.delayMin;
    }
  }

  /** The loop ends: by the ceiling, and by the horizon less one acquisition
      budget divided into minimum delays. */
  lemma RetryRunBounded(p: Policy, started: real, attempts: seq<Attempt>)
    requires p.Valid() && RetryRun(p, started, attempts) && |attempts| >= 2
    ensures |attempts| <= p.maxAttempts
    ensures (|attempts| - 1) as real * p.delayMin <= p.horizon - p.AcquisitionSeconds()
  {
    var n := |attempts| - 1;
    StartsSpread(p, started, attempts, n - 1);
    assert RetriedAfter(p, started, attempts, n);
    assert n as real * p.delayMin == (n - 1) as real * p.delayMin + p.delayMin;
  }
}

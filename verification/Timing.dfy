/** How long one run of the classification workflow can take from its retry policies, when
    no activity waits for a worker. Times are in seconds. */
module Timing {
  import opened JsonValues
  import opened Protocol

  /** `attempts == 0` means no maximum. `permanent` policies list errors that end the
      retries at once. */
  datatype Policy = Policy(timeout: nat, initial: nat, maximum: nat, attempts: nat, permanent: bool)

  /** `_QUICK_RETRY` leaves the server's defaults: one second, doubled, at most 100. */
  function Quick(timeout: nat): Policy { Policy(timeout, 1, 100, 3, false) }

  /** `_LLM_RETRY` for a `MAX_RETRIES` of n. */
  function Llm(n: nat): Policy { Policy(60, 2, 30, n, true) }

  datatype Ending = Succeeded | Exhausted | Permanent

  /** One activity: how long each of its attempts took, and how the last one ended. */
  datatype Activity = Activity(attempts: seq<real>, ending: Ending)

  function Pow2(i: nat): nat { if i == 0 then 1 else 2 * Pow2(i - 1) }

  /** The wait after the i-th failed attempt. */
  function Backoff(p: Policy, i: nat): nat {
    if p.initial * Pow2(i) <= p.maximum then p.initial * Pow2(i) else p.maximum
  }

  function Waits(p: Policy, n: nat): nat { if n == 0 then 0 else Waits(p, n - 1) + Backoff(p, n - 1) }

  function Total(times: seq<real>): real {
    if times == [] then 0.0 else Total(times[..|times| - 1]) + times[|times| - 1]
  }

  predicate Possible(p: Policy, a: Activity) {
    && 0 < |a.attempts| && (p.attempts > 0 ==> |a.attempts| <= p.attempts)
    && (forall i | 0 <= i < |a.attempts| :: 0.0 <= a.attempts[i] <= p.timeout as real)
    && (a.ending.Exhausted? ==> |a.attempts| == p.attempts)
    && (a.ending.Permanent? ==> p.permanent)
  }

  function Spent(p: Policy, a: Activity): real
    requires Possible(p, a)
  {
    Total(a.attempts) + Waits(p, |a.attempts| - 1) as real
  }

  function Cap(p: Policy): nat
    requires p.attempts > 0
  {
    p.timeout * p.attempts + Waits(p, p.attempts - 1)
  }

  lemma {:induction false} TotalBound(times: seq<real>, timeout: nat)
    requires forall i | 0 <= i < |times| :: 0.0 <= times[i] <= timeout as real
    ensures 0.0 <= Total(times) <= (timeout * |times|) as real
  {
    if times != [] {
      TotalBound(times[..|times| - 1], timeout);
      assert timeout * |times| == timeout * (|times| - 1) + timeout;
    }
  }

  lemma {:induction false} WaitsGrow(p: Policy, m: nat, n: nat)
    requires m <= n
    ensures Waits(p, m) <= Waits(p, n)
    decreases n
  {
    if m < n { WaitsGrow(p, m, n - 1); }
  }

  lemma ActivityIsCapped(p: Policy, a: Activity)
    requires p.attempts > 0 && Possible(p, a)
    ensures 0.0 <= Spent(p, a) <= Cap(p) as real
  {
    TotalBound(a.attempts, p.timeout);
    WaitsGrow(p, |a.attempts| - 1, p.attempts - 1);
    MulMonotone(p.timeout, |a.attempts|, p.attempts);
  }

  lemma MulMonotone(x: nat, m: nat, n: nat)
    requires m <= n
    ensures x * m <= x * n
  {
    assert x * n - x * m == x * (n - m);
  }

  /** k attempts that all run into their timeout. */
  function Slow(p: Policy, k: nat, ending: Ending): Activity { Activity(seq(k, _ => p.timeout as real), ending) }

  lemma {:induction false} SlowTotal(p: Policy, k: nat, ending: Ending)
    ensures Total(Slow(p, k, ending).attempts) == (p.timeout * k) as real
  {
    if k > 0 {
      SlowTotal(p, k - 1, ending);
      assert Slow(p, k, ending).attempts[..k - 1] == Slow(p, k - 1, ending).attempts;
      assert p.timeout * k == p.timeout * (k - 1) + p.timeout;
    }
  }

  // ------------------------------------------------------------------- one run

  /** The activities one run executed, in the order of `run`. */
  datatype Trace = Trace(mark: Activity, classify: Option<Activity>, verify: Option<Activity>,
                         persist: Option<Activity>, markFailed: Option<Activity>)

  predicate Done(a: Option<Activity>) { a.Some? && a.value.ending.Succeeded? }
  predicate Raised(a: Option<Activity>) { a.Some? && !a.value.ending.Succeeded? }
  predicate Allowed(p: Policy, a: Option<Activity>) { a.Some? ==> Possible(p, a.value) }

  /** The control flow of `ClassifyWebhookWorkflow.run` for a `MAX_RETRIES` of n. */
  predicate Follows(n: nat, t: Trace) {
    && Possible(Quick(10), t.mark) && Allowed(Llm(n), t.classify) && Allowed(Llm(n), t.verify)
    && Allowed(Quick(30), t.persist) && Allowed(Quick(10), t.markFailed)
    && (t.classify.Some? <==> t.mark.ending.Succeeded?)
    && (t.verify.Some? ==> Done(t.classify))
    && (t.persist.Some? <==> Done(t.classify) && !Raised(t.verify))
    && (t.markFailed.Some? <==>
          !t.mark.ending.Succeeded? || Raised(t.classify) || Raised(t.verify) || Raised(t.persist))
  }

  function SpentIn(p: Policy, a: Option<Activity>): real
    requires Allowed(p, a)
  {
    if a.None? then 0.0 else Spent(p, a.value)
  }

  function Elapsed(n: nat, t: Trace): real
    requires Follows(n, t)
  {
    Spent(Quick(10), t.mark) + SpentIn(Llm(n), t.classify) + SpentIn(Llm(n), t.verify)
    + SpentIn(Quick(30), t.persist) + SpentIn(Quick(10), t.markFailed)
  }

  /** Two LLM activities, plus marking, persisting and marking failed. */
  function RunBound(n: nat): nat
    requires n > 0
  {
    2 * (60 * n + Waits(Llm(n), n - 1)) + 159
  }

  lemma QuickCaps()
    ensures Cap(Quick(10)) == 33 && Cap(Quick(30)) == 93
  {
    assert Pow2(1) == 2;
    assert Waits(Quick(10), 2) == 3 && Waits(Quick(30), 2) == 3;
  }

  /** Every run that gets workers at once closes within the bound. */
  lemma RunsClose(n: nat, t: Trace)
    requires n > 0 && Follows(n, t)
    ensures Elapsed(n, t) <= RunBound(n) as real
  {
    QuickCaps();
    ActivityIsCapped(Quick(10), t.mark);
    if t.classify.Some? { ActivityIsCapped(Llm(n), t.classify.value); }
    if t.verify.Some? { ActivityIsCapped(Llm(n), t.verify.value); }
    if t.persist.Some? { ActivityIsCapped(Quick(30), t.persist.value); }
    if t.markFailed.Some? { ActivityIsCapped(Quick(10), t.markFailed.value); }
  }

  /** The slowest run: everything times out until its last attempt, and persisting fails. */
  function Slowest(n: nat, attempts: nat): Trace {
    Trace(Slow(Quick(10), 3, Succeeded), Some(Slow(Llm(n), attempts, Succeeded)), Some(Slow(Llm(n), attempts, Succeeded)),
          Some(Slow(Quick(30), 3, Exhausted)), Some(Slow(Quick(10), 3, Succeeded)))
  }

  lemma SlowestElapsed(n: nat, attempts: nat)
    requires 0 < attempts && (n > 0 ==> attempts <= n)
    ensures Follows(n, Slowest(n, attempts))
    ensures Elapsed(n, Slowest(n, attempts)) == (2 * (60 * attempts + Waits(Llm(n), attempts - 1)) + 159) as real
  {
    QuickCaps();
    SlowTotal(Quick(10), 3, Succeeded);
    SlowTotal(Quick(30), 3, Exhausted);
    SlowTotal(Llm(n), attempts, Succeeded);
  }

  ghost predicate AlwaysFits(n: nat) {
    forall t | Follows(n, t) :: Elapsed(n, t) <= RUN_TIMEOUT as real
  }

  /** Every run fits `WORKFLOW_RUN_TIMEOUT` exactly when `MAX_RETRIES` is 1, 2 or 3; the
      bound is attained by the slowest run. */
  lemma FitsExactlyUpToThree(n: nat)
    ensures AlwaysFits(n) <==> 1 <= n <= 3
    ensures n > 0 ==> Follows(n, Slowest(n, n)) && Elapsed(n, Slowest(n, n)) == RunBound(n) as real
  {
    if n == 0 {
      SlowestElapsed(0, 4);
      assert !AlwaysFits(0);
    } else {
      SlowestElapsed(n, n);
      if n <= 3 {
        LlmWaits();
        forall t | Follows(n, t) ensures Elapsed(n, t) <= RUN_TIMEOUT as real { RunsClose(n, t); }
      } else {
        assert 60 * n >= 240;
        assert !AlwaysFits(n);
      }
    }
  }

  /** Without a maximum number of attempts a run can outlast any bound. */
  lemma UnlimitedRetriesHaveNoBound(bound: nat)
    ensures Follows(0, Slowest(0, bound + 1)) && Elapsed(0, Slowest(0, bound + 1)) > bound as real
  {
    SlowestElapsed(0, bound + 1);
  }

  lemma LlmWaits()
    ensures Waits(Llm(1), 0) == 0 && Waits(Llm(2), 1) == 2 && Waits(Llm(3), 2) == 6
  {
    assert Pow2(1) == 2;
    assert Waits(Llm(2), 1) == 2;
    assert Waits(Llm(3), 1) == 2;
  }

  /** The waits between the attempts of an LLM activity, and of any other. */
  lemma BackoffsAre(n: nat, timeout: nat, i: nat)
    ensures Backoff(Llm(n), i) == if i == 0 then 2 else if i == 1 then 4 else if i == 2 then 8 else if i == 3 then 16 else 30
    ensures i < 2 ==> Backoff(Quick(timeout), i) == i + 1
  {
    assert Pow2(1) == 2;
    assert Pow2(2) == 4;
    assert Pow2(3) == 8;
    if i >= 4 { PowerPassesMaximum(i); }
  }

  /** The bound in seconds. */
  lemma {:induction false} BoundInSeconds(n: nat)
    requires n > 0
    ensures RunBound(n) ==
      if n == 1 then 279 else if n == 2 then 403 else if n == 3 then 531 else if n == 4 then 667 else 180 * n - 81
  {
    if n > 1 {
      BoundInSeconds(n - 1);
      BoundGrows(n - 1);
      BackoffsAre(n, 0, n - 2);
    }
  }

  /** The bound grows with every further attempt allowed. */
  lemma BoundGrows(n: nat)
    requires n > 0
    ensures RunBound(n + 1) == RunBound(n) + 120 + 2 * Backoff(Llm(n + 1), n - 1)
    ensures n >= 5 ==> RunBound(n + 1) == RunBound(n) + 180
  {
    SameWaits(n, n + 1, n - 1);
    if n >= 5 { PowerPassesMaximum(n - 1); }
  }

  lemma {:induction false} SameWaits(m: nat, n: nat, k: nat)
    ensures Waits(Llm(m), k) == Waits(Llm(n), k)
  {
    if k > 0 { SameWaits(m, n, k - 1); }
  }

  lemma {:induction false} PowerPassesMaximum(i: nat)
    requires i >= 4
    ensures 2 * Pow2(i) > 30
  {
    if i == 4 { assert Pow2(2) == 4; assert Pow2(4) == 16; } else { PowerPassesMaximum(i - 1); }
  }
}

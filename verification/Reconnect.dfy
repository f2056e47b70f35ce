/**
 The agent's reconnect loop (pkg/agent/agent.go:60-77) over an arbitrary sequence of connection outcomes,
 and its capped linear backoff (pkg/agent/config.go:45-52) in 64-bit arithmetic. Durations are nanoseconds.
*/
module Reconnect {

  const SECOND := 1_000_000_000
  const MAX_BACKOFF := 30 * SECOND
  const TWO_63 := 0x8000_0000_0000_0000
  const TWO_64 := 0x1_0000_0000_0000_0000

  // Two's complement wrap-around of a 64-bit product.
  function Wrap64(x: int): (r: int)
    ensures -TWO_63 <= r < TWO_63
    ensures (r - x) % TWO_64 == 0
    ensures -TWO_63 <= x < TWO_63 ==> r == x
  {
    (x + TWO_63) % TWO_64 - TWO_63
  }

  datatype Timeouts = Timeouts(backoff: int, maxRetries: int)

  function RetryBackoff(base: int, attempt: int): int {
    var backoff := Wrap64(base * (attempt + 1));
    if backoff > MAX_BACKOFF then MAX_BACKOFF else backoff
  }

  // The delay the policy describes: linear in the attempt, capped.
  function Capped(base: int, attempt: int): int {
    if base * (attempt + 1) > MAX_BACKOFF then MAX_BACKOFF else base * (attempt + 1)
  }

  // The code's delay is the policy's exactly when the product fits 64 bits, or is too large and wraps to a
  // value that is capped anyway. This holds of negative settings too, for which neither delays at all.
  lemma BackoffIsCappedIff(base: int, attempt: nat)
    ensures var p := base * (attempt + 1);
            RetryBackoff(base, attempt) == Capped(base, attempt)
            <==> -TWO_63 <= p < TWO_63 || (p >= TWO_63 && Wrap64(p) >= MAX_BACKOFF)
  {
  }

  lemma MulPositive(x: int, y: int)
    requires x > 0 && y > 0
    ensures x * y > 0
  {
  }

  // It does happen: a base of 2^62 ns makes the first delay negative, which is no delay at all.
  lemma BackoffCanWrap()
    ensures RetryBackoff(0x4000_0000_0000_0000, 1) == -TWO_63
  {
  }

  lemma BackoffMonotone(base: int, i: nat, j: nat)
    requires base > 0 && i <= j && base * (j + 1) < TWO_63
    ensures 0 < RetryBackoff(base, i) <= RetryBackoff(base, j) <= MAX_BACKOFF
  {
    assert base * (i + 1) <= base * (j + 1) by { MulMonotone(base, i + 1, j + 1); }
    MulPositive(base, i + 1);
  }

  lemma MulMonotone(b: int, x: int, y: int)
    requires b >= 0 && x <= y
    ensures b * x <= b * y
  {
  }

  // ---------- The loop ----------

  // Connection attempts lo up to hi all failed.
  predicate AllFailed(outcomes: seq<bool>, lo: int, hi: int)
    requires 0 <= lo <= hi <= |outcomes|
  {
    forall i :: lo <= i < hi ==> !outcomes[i]
  }

  // The attempts before k end in a window of n consecutive failures.
  predicate FailedWindow(outcomes: seq<bool>, n: int, k: int) {
    n <= k <= |outcomes| && 0 < n && AllFailed(outcomes, k - n, k)
  }

  // How many failures in a row end with attempt i.
  function Streak(outcomes: seq<bool>, i: nat): nat
    requires i < |outcomes|
  {
    if outcomes[i] then 0 else if i == 0 then 1 else Streak(outcomes, i - 1) + 1
  }

  // So long, and no longer.
  lemma {:induction false} StreakIff(outcomes: seq<bool>, i: nat, n: nat)
    requires i < |outcomes| && n <= i + 1
    ensures n == Streak(outcomes, i) <==> AllFailed(outcomes, i + 1 - n, i + 1) && (n <= i ==> outcomes[i - n])
  {
    if !outcomes[i] && i > 0 {
      if n > 0 { StreakIff(outcomes, i - 1, n - 1); }
      StreakBound(outcomes, i - 1);
    }
  }

  lemma StreakBound(outcomes: seq<bool>, i: nat)
    requires i < |outcomes|
    ensures Streak(outcomes, i) <= i + 1
  {
  }

  // The attempts before k that failed, in order.
  function Failures(outcomes: seq<bool>, k: nat): seq<nat>
    requires k <= |outcomes|
  {
    if k == 0 then []
    else if outcomes[k - 1] then Failures(outcomes, k - 1)
    else Failures(outcomes, k - 1) + [k - 1]
  }

  lemma {:induction false} FailuresAre(outcomes: seq<bool>, k: nat)
    requires k <= |outcomes|
    ensures var f := Failures(outcomes, k);
            && (forall a :: 0 <= a < |f| ==> f[a] < k && !outcomes[f[a]])
            && (forall i :: 0 <= i < k && !outcomes[i] ==> i in f)
            && (forall a, b :: 0 <= a < b < |f| ==> f[a] < f[b])
  {
    if k > 0 { FailuresAre(outcomes, k - 1); }
  }

  // The delays slept for the failures before k, or for all but the last of them.
  ghost predicate SleptFor(base: int, outcomes: seq<bool>, k: nat, sleeps: seq<int>)
    requires k <= |outcomes|
  {
    && |sleeps| <= |Failures(outcomes, k)|
    && forall j :: 0 <= j < |sleeps| ==>
         && Failures(outcomes, k)[j] < |outcomes|
         && sleeps[j] == RetryBackoff(base, Streak(outcomes, Failures(outcomes, k)[j]))
  }

  lemma SleptMore(base: int, outcomes: seq<bool>, k: nat, sleeps: seq<int>)
    requires k < |outcomes| && SleptFor(base, outcomes, k, sleeps) && |sleeps| == |Failures(outcomes, k)|
    ensures |Failures(outcomes, k + 1)| == |Failures(outcomes, k)| + if outcomes[k] then 0 else 1
    ensures Streak(outcomes, k) == if outcomes[k] then 0 else if k == 0 then 1 else Streak(outcomes, k - 1) + 1
    ensures SleptFor(base, outcomes, k + 1, sleeps)
    ensures !outcomes[k] ==> SleptFor(base, outcomes, k + 1, sleeps + [RetryBackoff(base, Streak(outcomes, k))])
  {
    hide RetryBackoff;
    assert !outcomes[k] ==> Failures(outcomes, k + 1) == Failures(outcomes, k) + [k];
  }

  lemma SuffixMore(base: int, n: nat, sleeps: seq<int>)
    requires n <= |sleeps| && sleeps[|sleeps| - n..] == Delays(base, n)
    ensures var s := sleeps + [RetryBackoff(base, n + 1)]; s[|s| - (n + 1)..] == Delays(base, n + 1)
  {
    hide RetryBackoff;
    var s := sleeps + [RetryBackoff(base, n + 1)];
    assert s[|s| - (n + 1)..] == sleeps[|sleeps| - n..] + [RetryBackoff(base, n + 1)];
  }

  // Failures in a row that count before giving up: at least one, whatever the setting.
  function Patience(maxRetries: int): int {
    if maxRetries < 1 then 1 else maxRetries
  }

  // The delays of attempts 1 up to and including n of one streak.
  function Delays(base: int, n: nat): (d: seq<int>)
    ensures |d| == n
    ensures forall i :: 0 <= i < n ==> d[i] == RetryBackoff(base, i + 1)
  {
    if n == 0 then [] else Delays(base, n - 1) + [RetryBackoff(base, n)]
  }

  // Start, on a given sequence of connection outcomes; a connection that succeeds is read until it breaks.
  // It gives up exactly at the end of the first window of n consecutive failures. It sleeps once for each
  // failure but the one it gives up at, as long as the streak that ends there says, and never otherwise; so
  // the delays slept in that window are those of attempts 1 to n - 1.
  method Start(t: Timeouts, outcomes: seq<bool>) returns (gaveUp: bool, used: nat, sleeps: seq<int>)
    ensures used <= |outcomes| && (!gaveUp ==> used == |outcomes|)
    ensures gaveUp ==> FailedWindow(outcomes, Patience(t.maxRetries), used)
    ensures forall k :: 0 <= k < used ==> !FailedWindow(outcomes, Patience(t.maxRetries), k)
    ensures gaveUp <==> exists k :: 0 <= k <= |outcomes| && FailedWindow(outcomes, Patience(t.maxRetries), k)
    ensures |sleeps| + (if gaveUp then 1 else 0) == |Failures(outcomes, used)|
    ensures SleptFor(t.backoff, outcomes, used, sleeps)
    ensures gaveUp ==>
              var n := Patience(t.maxRetries) - 1;
              |sleeps| >= n && sleeps[|sleeps| - n..] == Delays(t.backoff, n)
  {
    hide SleptFor, Streak, RetryBackoff, Delays, Failures, Underway, FailedWindow;
    ghost var n := Patience(t.maxRetries);
    var attempt := 0;
    used, sleeps := 0, [];
    Begins(t.backoff, outcomes, n);
    while used < |outcomes|
      invariant used <= |outcomes| && Underway(outcomes, n, used, attempt)
      invariant |sleeps| == |Failures(outcomes, used)| && SleptFor(t.backoff, outcomes, used, sleeps)
      invariant attempt <= |sleeps| && sleeps[|sleeps| - attempt..] == Delays(t.backoff, attempt)
    {
      GoesOn(outcomes, n, used, attempt);
      SleptMore(t.backoff, outcomes, used, sleeps);
      SuffixMore(t.backoff, attempt, sleeps);
      used := used + 1;
      if !outcomes[used - 1] {
        attempt := attempt + 1;
        if attempt >= t.maxRetries {
          return true, used, sleeps;
        }
        var delay := RetryBackoff(t.backoff, attempt);
        sleeps := sleeps + [delay];
      } else {
        attempt := 0;
      }
    }
    gaveUp := false;
    NoneYet(outcomes, n, used, attempt);
  }

  // A streak of attempt failures ends at used, and no window of n has ended so far.
  ghost predicate Underway(outcomes: seq<bool>, n: int, used: int, attempt: int) {
    && 0 <= attempt <= used <= |outcomes| && attempt < n
    && (0 < used ==> attempt == Streak(outcomes, used - 1))
    && (forall k :: 0 <= k <= used ==> !FailedWindow(outcomes, n, k))
  }

  lemma Begins(base: int, outcomes: seq<bool>, n: int)
    requires n > 0
    ensures Underway(outcomes, n, 0, 0)
    ensures Failures(outcomes, 0) == [] && SleptFor(base, outcomes, 0, []) && Delays(base, 0) == []
  {
  }

  lemma GoesOn(outcomes: seq<bool>, n: int, used: nat, attempt: nat)
    requires used < |outcomes| && Underway(outcomes, n, used, attempt)
    ensures 0 <= attempt < n && forall k :: 0 <= k <= used ==> !FailedWindow(outcomes, n, k)
    ensures Streak(outcomes, used) == if outcomes[used] then 0 else attempt + 1
    ensures outcomes[used] ==> Underway(outcomes, n, used + 1, 0)
    ensures !outcomes[used] && attempt + 1 < n ==> Underway(outcomes, n, used + 1, attempt + 1)
    ensures !outcomes[used] && attempt + 1 == n ==> FailedWindow(outcomes, n, used + 1)
  {
    var streak := if outcomes[used] then 0 else attempt + 1;
    StreakBound(outcomes, used);
    StreakIff(outcomes, used, streak);
    if streak < n { NoWindowYet(outcomes, n, used + 1, streak); }
  }

  lemma NoneYet(outcomes: seq<bool>, n: int, used: int, attempt: int)
    requires Underway(outcomes, n, used, attempt)
    ensures forall k :: 0 <= k <= used ==> !FailedWindow(outcomes, n, k)
  {
  }

  // A streak shorter than n that began at a success, or at the first attempt, ends no window.
  lemma NoWindowYet(outcomes: seq<bool>, n: int, k: nat, streak: nat)
    requires streak <= k <= |outcomes| && streak < n
    requires streak < k ==> outcomes[k - streak - 1]
    ensures !FailedWindow(outcomes, n, k)
  {
  }

  // ---------- How long it sleeps before giving up ----------

  function Sum(s: seq<int>): int {
    if s == [] then 0 else Sum(s[..|s| - 1]) + s[|s| - 1]
  }

  function Triangle(m: nat): int {
    m * (m + 1) / 2
  }

  lemma TriangleStep(m: nat)
    ensures Triangle(m + 1) == Triangle(m) + m + 1
  {
    assert (m + 1) * (m + 2) == m * (m + 1) + 2 * (m + 1);
  }

  // The attempts whose delay is not capped.
  function Linear(base: int, n: int): (m: int)
    requires base > 0 && n >= 1
    ensures 1 <= m <= n
  {
    var f := MAX_BACKOFF / base;
    var g := if f < 1 then 1 else f;
    if n < g then n else g
  }

  lemma QuotientBounds(base: int)
    requires base > 0
    ensures var f := MAX_BACKOFF / base; base * f <= MAX_BACKOFF < base * (f + 1)
  {
    var f := MAX_BACKOFF / base;
    assert MAX_BACKOFF == base * f + MAX_BACKOFF % base;
    assert base * (f + 1) == base * f + base;
  }

  // One more attempt: its delay is linear while within the cap's quotient and capped afterwards.
  lemma CappedByQuotient(base: int, n: nat)
    requires base > 0
    ensures n + 1 <= MAX_BACKOFF / base ==> Capped(base, n) == base * (n + 1)
    ensures n + 1 > MAX_BACKOFF / base ==> Capped(base, n) == MAX_BACKOFF
  {
    var f := MAX_BACKOFF / base;
    QuotientBounds(base);
    if n + 1 <= f {
      MulMonotone(base, n + 1, f);
    } else {
      MulMonotone(base, f + 1, n + 1);
    }
  }

  lemma LinearStep(base: int, n: nat)
    requires base > 0 && n >= 1
    ensures n + 1 <= MAX_BACKOFF / base ==> Linear(base, n) == n && Linear(base, n + 1) == n + 1
    ensures n + 1 > MAX_BACKOFF / base ==> Linear(base, n + 1) == Linear(base, n)
  {
  }

  lemma SumStep(base: int, n: nat)
    ensures Sum(Delays(base, n + 1)) == Sum(Delays(base, n)) + RetryBackoff(base, n + 1)
  {
    var d := Delays(base, n + 1);
    assert d[..|d| - 1] == Delays(base, n);
  }

  lemma DistributeOver(base: int, x: int, y: int)
    ensures base * (x + y) == base * x + base * y
  {
  }

  // What the sleep formula predicts for n retries.
  function Slept(base: int, n: int): int
    requires base > 0 && n >= 1
  {
    base * (Triangle(Linear(base, n)) - 1) + MAX_BACKOFF * (n - Linear(base, n))
  }

  lemma SleptFirst(base: int)
    requires base > 0
    ensures Slept(base, 1) == 0 == Sum(Delays(base, 0))
  {
    assert Linear(base, 1) == 1 && Triangle(1) == 1;
  }

  lemma SleptStep(base: int, n: nat)
    requires base > 0 && n >= 1
    ensures Slept(base, n + 1) == Slept(base, n) + Capped(base, n)
  {
    hide Linear, Triangle, Capped;
    LinearStep(base, n);
    CappedByQuotient(base, n);
    var m := Linear(base, n);
    if n + 1 <= MAX_BACKOFF / base {
      TriangleStep(n);
      DistributeOver(base, Triangle(n) - 1, n + 1);
    }
  }

  lemma CappedWhenItFits(base: int, attempt: nat)
    requires base > 0 && base * (attempt + 1) < TWO_63
    ensures RetryBackoff(base, attempt) == Capped(base, attempt)
  {
    BackoffIsCappedIff(base, attempt);
  }

  lemma {:induction false} SleptIsTheSum(base: int, n: int)
    requires base > 0 && n >= 1 && base * n < TWO_63
    ensures Sum(Delays(base, n - 1)) == Slept(base, n)
  {
    hide *;
    if n == 1 {
      SleptFirst(base);
    } else {
      MulMonotone(base, n - 1, n);
      SleptIsTheSum(base, n - 1);
      SumStep(base, n - 2);
      CappedWhenItFits(base, n - 1);
      SleptStep(base, n - 1);
    }
  }

  // With n retries and no overflow, the sleep before giving up is base * (m(m+1)/2 - 1) + 30s * (n - m),
  // where m is the number of attempts within the cap.
  lemma SleepBeforeGivingUp(base: int, n: int)
    requires base > 0 && n >= 1 && base * n < TWO_63
    ensures var m := Linear(base, n);
            Sum(Delays(base, n - 1)) == base * (Triangle(m) - 1) + MAX_BACKOFF * (n - m)
  {
    SleptIsTheSum(base, n);
  }
}

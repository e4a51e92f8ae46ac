/**
 Two summaries of a user's progress: the practice streak (frontend/app/sessions/page.tsx) and the readiness score, which
 the dashboard (backend/app/api/v1/dashboard.py) and the share card (backend/app/api/v1/share.py) each compute.
 */
module Progress {
  import opened Fractions
  import opened Integers
  import opened Options
  import opened Rounding

  // ---------- The streak ----------

  /** Every day after `last - n` up to `last` is there. */
  predicate AllPresent(days: set<int>, last: int, n: nat) {
    forall d :: last - n < d <= last ==> d in days
  }

  /** `n` days in a row up to `last`, and not one more. */
  predicate IsRun(days: set<int>, last: int, n: nat) {
    AllPresent(days, last, n) && last - n !in days
  }

  /**
   The loop over the past year. Days are numbered; `days` holds those with a completed session. A day without one ends
   the streak, except that today may still be missing. The result is the run of days ending today, capped at 365; or,
   if today is missing, the run ending yesterday, capped at 364.
   */
  method Streak(days: set<int>, today: int) returns (count: nat)
    ensures var last, cap := if today in days then today else today - 1, if today in days then 365 else 364;
      exists whole: nat :: IsRun(days, last, whole) && count == Min(whole, cap)
  {
    count := 0;
    ghost var skipped := if today in days then 0 else 1;
    var i := 0;
    while i < 365
      invariant 0 <= i <= 365
      invariant count == if i == 0 then 0 else i - skipped
      invariant AllPresent(days, today - skipped, count)
    {
      if today - i in days {
        count := count + 1;
      } else if i > 0 {
        break;
      }
      i := i + 1;
    }
    ghost var whole := RunLength(days, today - skipped, count);
  }

  lemma {:induction false} PresentAtMost(days: set<int>, last: int, n: nat)
    requires AllPresent(days, last, n)
    ensures n <= |days|
  {
    if n > 0 {
      PresentAtMost(days - {last}, last - 1, n - 1);
    }
  }

  /** Every run ends; if `n` days are present the whole run has at least `n`. */
  lemma RunLength(days: set<int>, last: int, n: nat) returns (whole: nat)
    requires AllPresent(days, last, n)
    ensures IsRun(days, last, whole) && whole >= n && (last - n !in days ==> whole == n)
  {
    whole := n;
    PresentAtMost(days, last, n);
    while last - whole in days
      invariant n <= whole <= |days| && AllPresent(days, last, whole)
      invariant last - n !in days ==> whole == n
      decreases |days| - whole
    {
      whole := whole + 1;
      PresentAtMost(days, last, whole);
    }
  }

  /** There is only one such run, so the loop's result is determined. */
  lemma RunIsUnique(days: set<int>, last: int, m: nat, n: nat)
    requires IsRun(days, last, m) && IsRun(days, last, n)
    ensures m == n
  {
    assert m < n ==> last - m in days;
    assert n < m ==> last - n in days;
  }

  // ---------- Readiness ----------

  function Sum(scores: seq<int>): int {
    if scores == [] then 0 else Sum(scores[..|scores| - 1]) + scores[|scores| - 1]
  }

  /** The average skill score, rounded to one digit; both endpoints compute it from the same scores. */
  function AverageSkill(scores: seq<int>): real
    requires scores != []
  {
    Round(Sum(scores) as real / |scores| as real * 10.0) as real / 10.0
  }

  /** Python's `int`: towards zero. */
  function Truncate(x: real): int {
    if x >= 0.0 then x.Floor else -((-x).Floor)
  }

  /** The dashboard's score; it has none without skills. */
  function DashboardReadiness(scores: seq<int>, sessions: nat, stories: nat): Option<int> {
    if scores == [] then None else
    var raw := AverageSkill(scores) * 0.6 + Min(30, sessions * 3) as real + Min(10, stories * 2) as real;
    Some(Min(100, Truncate(raw)))
  }

  /** The share card's score, over completed sessions only; without skills the request is refused. */
  function ShareReadiness(scores: seq<int>, completed: nat): Option<int> {
    if scores == [] then None else
    Some(Min(100, Truncate(AverageSkill(scores) * 0.6 + Min(30, completed * 3) as real)))
  }

  predicate OnScale(scores: seq<int>) {
    forall i :: 0 <= i < |scores| ==> 0 <= scores[i] <= 100
  }

  lemma {:induction false} SumOnScale(scores: seq<int>)
    requires OnScale(scores)
    ensures 0 <= Sum(scores) <= 100 * |scores|
  {
    if scores != [] {
      SumOnScale(scores[..|scores| - 1]);
    }
  }

  lemma Quotient(sum: real, n: real)
    requires n > 0.0 && 0.0 <= sum <= 100.0 * n
    ensures 0.0 <= sum / n * 10.0 <= 1000.0
  {
    PartOfWhole(sum, 100.0 * n);
    var q := sum / n;
    assert sum == q * n;
    if q < 0.0 {
      Positive(-q, n, -sum);
    } else if q > 100.0 {
      Positive(q - 100.0, n, sum - 100.0 * n);
    }
  }

  /** The rounded average of scores between 0 and 100 lies between 0 and 100. */
  lemma AverageOnScale(scores: seq<int>)
    requires OnScale(scores) && scores != []
    ensures 0.0 <= AverageSkill(scores) <= 100.0
  {
    SumOnScale(scores);
    var tenths := Sum(scores) as real / |scores| as real * 10.0;
    Quotient(Sum(scores) as real, |scores| as real);
    RoundIsMonotone(0.0, tenths);
    RoundIsMonotone(tenths, 1000.0);
    RoundKeepsWhole(0);
    RoundKeepsWhole(1000);
  }

  lemma WholeParts(base: real, s: nat, t: nat)
    requires base >= 0.0
    ensures Truncate(base + s as real + t as real) == base.Floor + s + t
    ensures Truncate(base + s as real) == base.Floor + s
  {
    assert (base + s as real + t as real).Floor == base.Floor + s + t;
    assert (base + s as real).Floor == base.Floor + s;
  }

  /**
   For skill scores between 0 and 100 both readiness scores lie between 0 and 100 without the cap, and their difference
   does not depend on skill.
   */
  lemma ReadinessDifference(scores: seq<int>, sessions: nat, completed: nat, stories: nat)
    requires OnScale(scores) && scores != []
    ensures var d, c := DashboardReadiness(scores, sessions, stories).value, ShareReadiness(scores, completed).value;
      && 0 <= d <= 100 && 0 <= c <= 90
      && d - c == Min(30, sessions * 3) - Min(30, completed * 3) + Min(10, stories * 2)
  {
    AverageOnScale(scores);
    var base := AverageSkill(scores) * 0.6;
    WholeParts(base, Min(30, sessions * 3), Min(10, stories * 2));
    WholeParts(base, Min(30, completed * 3), 0);
    assert 0 <= base.Floor <= 60;
  }

  /**
   share.py says its formula is the dashboard's. The two agree exactly when the user has no story and either every
   session is completed or ten are.
   */
  lemma ReadinessAgreesIff(scores: seq<int>, sessions: nat, completed: nat, stories: nat)
    requires OnScale(scores) && scores != [] && completed <= sessions
    ensures DashboardReadiness(scores, sessions, stories) == ShareReadiness(scores, completed) <==>
      stories == 0 && (completed == sessions || completed >= 10)
  {
    hide AverageSkill;
    ReadinessDifference(scores, sessions, completed, stories);
  }

  /** The whole part of 0.6 times an average of `t` tenths. */
  lemma SixPercent(t: nat)
    ensures (t as real / 10.0 * 0.6).Floor == 6 * t / 100
  {
    var q := 6 * t / 100;
    assert 100 * q <= 6 * t < 100 * q + 100;
    assert (100 * q) as real <= (6 * t) as real < (100 * q + 100) as real;
    assert t as real / 10.0 * 0.6 == (6 * t) as real / 100.0;
  }

  lemma TenthsAreNearest(sum: int, n: int, t: int)
    requires n > 0 && t == Round(sum as real / n as real * 10.0)
    ensures -n <= 2 * (t * n - 10 * sum) <= n
  {
    var q := sum as real / n as real;
    RoundIsNearest(q * 10.0);
    hide Round;
    ScaledError(t as real, q, n as real, sum as real, t as real * n as real);
    WholeProduct(t, n);
    InWholeNumbers(t * n - 10 * sum, n);
  }

  lemma ScaledError(t: real, q: real, n: real, sum: real, tn: real)
    requires n > 0.0 && q * n == sum && tn == t * n && q * 10.0 - 0.5 <= t <= q * 10.0 + 0.5
    ensures -0.5 * n <= tn - 10.0 * sum <= 0.5 * n
  {
    var d := t - q * 10.0;
    Bounded(d, n);
    assert d * n == tn - 10.0 * sum;
  }

  lemma InWholeNumbers(x: int, n: int)
    requires -0.5 * n as real <= x as real <= 0.5 * n as real
    ensures -n <= 2 * x <= n
  {
  }

  lemma WholeProduct(t: int, n: int)
    ensures t as real * n as real == (t * n) as real
  {
  }

  lemma Bounded(d: real, n: real)
    requires -0.5 <= d <= 0.5 && n > 0.0
    ensures -0.5 * n <= d * n <= 0.5 * n
  {
    assert (0.5 - d) * n >= 0.0 && (d + 0.5) * n >= 0.0;
  }

  /**
   Both scores in whole numbers. The average is the number of tenths nearest to the exact one; six hundredths of them count,
   and three points for each session up to 30, on the dashboard also two for each story up to 10.
   */
  lemma ReadinessIs(scores: seq<int>, sessions: nat, completed: nat, stories: nat) returns (tenths: nat)
    requires OnScale(scores) && scores != []
    ensures -|scores| <= 2 * (tenths * |scores| - 10 * Sum(scores)) <= |scores|
    ensures DashboardReadiness(scores, sessions, stories) ==
      Some(6 * tenths / 100 + Min(30, 3 * sessions) + Min(10, 2 * stories))
    ensures ShareReadiness(scores, completed) == Some(6 * tenths / 100 + Min(30, 3 * completed))
  {
    AverageOnScale(scores);
    var t := Round(Sum(scores) as real / |scores| as real * 10.0);
    assert AverageSkill(scores) == t as real / 10.0;
    TenthsAreNearest(Sum(scores), |scores|, t);
    hide AverageSkill, Round, Sum;
    tenths := t;
    SixPercent(tenths);
    var base := AverageSkill(scores) * 0.6;
    WholeParts(base, Min(30, sessions * 3), Min(10, stories * 2));
    WholeParts(base, Min(30, completed * 3), 0);
    assert 0 <= base.Floor <= 60;
  }

  /** Without skills, and only then, there is no score. */
  lemma NoScoreIff(scores: seq<int>, sessions: nat, completed: nat, stories: nat)
    ensures DashboardReadiness(scores, sessions, stories) == None <==> scores == []
    ensures ShareReadiness(scores, completed) == None <==> scores == []
  {
    hide AverageSkill;
  }
}

/** Exactly which calls a rate limiting rule lets through. TokenBucket bounds them from above; here a call
    is refused if and only if letting it through would overdraw the rule since some earlier call. */
module BucketBudget {
  import opened TokenBucket

  /** Whether the bucket, made at some instant and called at all these times, lets call n through. */
  predicate Grants(r: Rule, made: nat, times: seq<nat>, n: nat)
    requires n < |times|
  {
    Check(After(New(r, made), times[..n]), times[n]).1
  }

  /** The whole milliseconds that passed between one call and the next, summed from call j to call n. */
  function WholeMillis(times: seq<nat>, j: nat, n: nat): nat
    requires j <= n < |times|
    decreases n
  {
    if j == n then 0
    else WholeMillis(times, j, n - 1) + (if times[n] <= times[n - 1] then 0 else (times[n] - times[n - 1]) / 1_000_000)
  }

  /** The share of its allowance that a rule earns in so many milliseconds. */
  function Share(r: Rule, millis: nat): real {
    r.maxRequests as real * (millis as real) / (r.period.Millis() as real)
  }

  /** Another request at call n is within what the rule allows since call j: the whole allowance, and the
      share of it earned in that time. */
  predicate WithinSince(r: Rule, made: nat, times: seq<nat>, j: nat, n: nat)
    requires j <= n < |times|
  {
    (AcceptedIn(r, made, times, j, n) + 1) as real <= r.maxRequests as real + Share(r, WholeMillis(times, j, n))
  }

  // --- the level of the bucket ----------------------------------------------------------------

  function Level(r: Rule, made: nat, times: seq<nat>, n: nat): real
    requires n < |times|
  {
    Refilled(After(New(r, made), times[..n]), times[n])
  }

  /** What would be left of a bucket that was full at call j. */
  function LeftSince(r: Rule, made: nat, times: seq<nat>, j: nat, n: nat): real
    requires j <= n < |times|
  {
    Max(r) - AcceptedIn(r, made, times, j, n) as real + (WholeMillis(times, j, n) as real) * Rate(r)
  }

  lemma {:induction false} AfterAppend(b: Bucket, times: seq<nat>, t: nat)
    ensures After(b, times + [t]) == Check(After(b, times), t).0
    ensures Accepted(b, times + [t]) == Accepted(b, times) + Cost(Check(After(b, times), t).1)
    decreases |times|
  {
    hide Check;
    var all := times + [t];
    if times == [] {
      assert all[1..] == [];
    } else {
      assert all[1..] == times[1..] + [t];
      AfterAppend(Check(b, times[0]).0, times[1..], t);
    }
  }

  lemma {:induction false} AfterSplits(b: Bucket, times: seq<nat>, more: seq<nat>)
    ensures After(b, times + more) == After(After(b, times), more)
    decreases |times|
  {
    hide Check;
    if times == [] {
      assert times + more == more;
    } else {
      assert (times + more)[1..] == times[1..] + more;
      AfterSplits(Check(b, times[0]).0, times[1..], more);
    }
  }

  lemma AcceptedInSteps(r: Rule, made: nat, times: seq<nat>, j: nat, n: nat)
    requires j <= n < |times|
    ensures AcceptedIn(r, made, times, j, j) == 0
    ensures AcceptedIn(r, made, times, j, n + 1) == AcceptedIn(r, made, times, j, n) + Cost(Grants(r, made, times, n))
  {
    hide Check;
    var b := After(New(r, made), times[..j]);
    assert times[j..n + 1] == times[j..n] + [times[n]] && times[..n] == times[..j] + times[j..n];
    AfterSplits(New(r, made), times[..j], times[j..n]);
    AfterAppend(b, times[j..n], times[n]);
  }

  /** One check of a healthy bucket. */
  lemma CheckByLevel(b: Bucket, now: nat)
    requires InRange(b) && b.rule.maxRequests >= 1
    ensures var (after, ok) := Check(b, now);
            && InRange(after) && after.rule == b.rule && after.last == now
            && (ok <==> Refilled(b, now) >= 1.0)
            && after.allowed == Refilled(b, now) - Cost(ok) as real
  {
    hide Refilled;
    ShortcutIsClampedRefill(b, now);
    CheckStaysInRange(b, now);
  }

  lemma {:induction false} StaysInRange(r: Rule, made: nat, times: seq<nat>, n: nat)
    requires r.maxRequests >= 1 && n <= |times|
    ensures var b := After(New(r, made), times[..n]); InRange(b) && b.rule == r
    decreases n
  {
    hide Check;
    if n == 0 {
    } else {
      StaysInRange(r, made, times, n - 1);
      assert times[..n] == times[..n - 1] + [times[n - 1]];
      AfterAppend(New(r, made), times[..n - 1], times[n - 1]);
      CheckByLevel(After(New(r, made), times[..n - 1]), times[n - 1]);
    }
  }

  lemma FirstLevel(r: Rule, made: nat, times: seq<nat>)
    requires times != []
    ensures Level(r, made, times, 0) == Max(r)
  {
    hide Rate, Elapsed;
    MulMonotone(0.0, Elapsed(made, times[0]) as real, Rate(r));
  }

  lemma GrantsByLevel(r: Rule, made: nat, times: seq<nat>, n: nat)
    requires r.maxRequests >= 1 && n < |times|
    ensures Grants(r, made, times, n) <==> Level(r, made, times, n) >= 1.0
  {
    hide Check, Refilled;
    StaysInRange(r, made, times, n);
    CheckByLevel(After(New(r, made), times[..n]), times[n]);
  }

  /** Between two calls the level falls by what was let through and rises by what was earned, up to the
      maximum. */
  lemma LevelSteps(r: Rule, made: nat, times: seq<nat>, n: nat)
    requires r.maxRequests >= 1 && n + 1 < |times|
    ensures Level(r, made, times, n + 1) ==
            Min(Max(r), Level(r, made, times, n) - Cost(Grants(r, made, times, n)) as real
                        + (Elapsed(times[n], times[n + 1]) as real) * Rate(r))
  {
    hide Check, Rate, Elapsed, Min, InRange;
    StaysInRange(r, made, times, n);
    CheckByLevel(After(New(r, made), times[..n]), times[n]);
    assert times[..n + 1] == times[..n] + [times[n]];
    AfterAppend(New(r, made), times[..n], times[n]);
  }

  lemma LeftSteps(r: Rule, made: nat, times: seq<nat>, j: nat, n: nat)
    requires j <= n && n + 1 < |times|
    ensures LeftSince(r, made, times, n + 1, n + 1) == Max(r)
    ensures LeftSince(r, made, times, j, n + 1) ==
            LeftSince(r, made, times, j, n) - Cost(Grants(r, made, times, n)) as real
            + (Elapsed(times[n], times[n + 1]) as real) * Rate(r)
  {
    hide Check, Rate, AcceptedIn;
    AcceptedInSteps(r, made, times, j, n);
    AcceptedInSteps(r, made, times, n + 1, n + 1);
    var w, e := WholeMillis(times, j, n), Elapsed(times[n], times[n + 1]);
    assert WholeMillis(times, j, n + 1) == w + e;
    assert ((w + e) as real) * Rate(r) == (w as real) * Rate(r) + (e as real) * Rate(r);
  }

  /** The level is the least that is left since any earlier call: it never exceeds one of these, and it
      equals the one since the call that last found the bucket full. */
  lemma {:induction false} LevelIsLeast(r: Rule, made: nat, times: seq<nat>, n: nat)
    requires r.maxRequests >= 1 && n < |times|
    ensures forall j :: 0 <= j <= n ==> Level(r, made, times, n) <= LeftSince(r, made, times, j, n)
    ensures exists j :: 0 <= j <= n && Level(r, made, times, n) == LeftSince(r, made, times, j, n)
    decreases n
  {
    hide Level, LeftSince, Grants, Elapsed, Rate;
    if n == 0 {
      FirstLevel(r, made, times);
      NothingSpent(r, made, times, 0);
      assert Level(r, made, times, n) == LeftSince(r, made, times, 0, n);
    } else {
      LevelIsLeast(r, made, times, n - 1);
      LevelSteps(r, made, times, n - 1);
      forall j | 0 <= j <= n ensures Level(r, made, times, n) <= LeftSince(r, made, times, j, n) {
        LeftSteps(r, made, times, if j < n then j else n - 1, n - 1);
      }
      var j :| 0 <= j <= n - 1 && Level(r, made, times, n - 1) == LeftSince(r, made, times, j, n - 1);
      LeftSteps(r, made, times, j, n - 1);
      assert Level(r, made, times, n) == LeftSince(r, made, times, n, n)
          || Level(r, made, times, n) == LeftSince(r, made, times, j, n);
    }
  }

  lemma NothingSpent(r: Rule, made: nat, times: seq<nat>, n: nat)
    requires n < |times|
    ensures LeftSince(r, made, times, n, n) == Max(r)
  {
    hide Check, Rate;
    AcceptedInSteps(r, made, times, n, n);
  }

  lemma ShareIsRate(r: Rule, millis: nat)
    ensures Share(r, millis) == (millis as real) * Rate(r)
  {
    var m, w, p := Max(r), millis as real, r.period.Millis() as real;
    assert m * w / p == w * (m / p);
  }

  lemma WithinByLeft(r: Rule, made: nat, times: seq<nat>, j: nat, n: nat)
    requires j <= n < |times|
    ensures WithinSince(r, made, times, j, n) <==> LeftSince(r, made, times, j, n) >= 1.0
  {
    hide AcceptedIn, WholeMillis, Share, Rate;
    ShareIsRate(r, WholeMillis(times, j, n));
  }

  /** Exactly the right calls pass. Whatever the times of the calls, a rule that allows any request lets a
      call through if and only if, since every earlier call, it stays within the allowance of the rule
      and the share of it earned meanwhile. */
  lemma GrantsExactlyWithinBudget(r: Rule, made: nat, times: seq<nat>, n: nat)
    requires r.maxRequests >= 1 && n < |times|
    ensures Grants(r, made, times, n) <==> forall j :: 0 <= j <= n ==> WithinSince(r, made, times, j, n)
  {
    hide Grants, Level, LeftSince, WithinSince;
    GrantsByLevel(r, made, times, n);
    LevelIsLeast(r, made, times, n);
    forall j | 0 <= j <= n ensures WithinSince(r, made, times, j, n) <==> LeftSince(r, made, times, j, n) >= 1.0 {
      WithinByLeft(r, made, times, j, n);
    }
    var j :| 0 <= j <= n && Level(r, made, times, n) == LeftSince(r, made, times, j, n);
  }

  // --- a rule that allows nothing ---------------------------------------------------------------

  lemma {:induction false} ZeroRuleHoldsNothing(r: Rule, made: nat, times: seq<nat>, n: nat)
    requires r.maxRequests == 0 && n <= |times|
    ensures var b := After(New(r, made), times[..n]);
            b.rule == r && b.allowed <= 0.0 && b.last == if n == 0 then made else times[n - 1]
    decreases n
  {
    if n == 0 {
    } else {
      ZeroRuleHoldsNothing(r, made, times, n - 1);
      assert times[..n] == times[..n - 1] + [times[n - 1]];
      AfterAppend(New(r, made), times[..n - 1], times[n - 1]);
    }
  }

  /** The calls that a rule should let through: those within its budget, or, for a rule that allows
      nothing, those after more than a period of silence. */
  ghost predicate ShouldGrant(r: Rule, made: nat, times: seq<nat>, n: nat)
    requires n < |times|
  {
    if r.maxRequests >= 1 then forall j :: 0 <= j <= n ==> WithinSince(r, made, times, j, n)
    else times[n] - (if n == 0 then made else times[n - 1]) >= (r.period.Millis() + 1) * 1_000_000
  }

  /** Every rule decides every call as it should. */
  lemma GrantsExactly(r: Rule, made: nat, times: seq<nat>, n: nat)
    requires n < |times|
    ensures Grants(r, made, times, n) <==> ShouldGrant(r, made, times, n)
  {
    hide WithinSince, AcceptedIn;
    if r.maxRequests >= 1 {
      GrantsExactlyWithinBudget(r, made, times, n);
    } else {
      ZeroRuleHoldsNothing(r, made, times, n);
    }
  }

  // --- calls that are far enough apart --------------------------------------------------------

  lemma {:induction false} AcceptedAtMostCalls(b: Bucket, times: seq<nat>)
    ensures Accepted(b, times) <= |times|
    decreases |times|
  {
    hide Check;
    if times == [] {
    } else {
      AcceptedAtMostCalls(Check(b, times[0]).0, times[1..]);
    }
  }

  /** The whole milliseconds from each call to the next earn at least one request. */
  ghost predicate FarApart(r: Rule, times: seq<nat>) {
    forall k :: 0 < k < |times| ==> times[k - 1] <= times[k] && EarnsRequest(r, times[k] - times[k - 1])
  }

  predicate EarnsRequest(r: Rule, nanos: nat) {
    nanos / 1_000_000 * r.maxRequests >= r.period.Millis()
  }

  lemma ShareAdds(r: Rule, a: nat, b: nat)
    ensures Share(r, a + b) == Share(r, a) + Share(r, b)
  {
    hide Share, Rate;
    ShareIsRate(r, a);
    ShareIsRate(r, b);
    ShareIsRate(r, a + b);
    assert ((a + b) as real) * Rate(r) == (a as real) * Rate(r) + (b as real) * Rate(r);
  }

  lemma ShareAtLeast(r: Rule, millis: nat, k: nat)
    ensures Share(r, millis) >= k as real <==> millis * r.maxRequests >= k * r.period.Millis()
  {
    hide Share;
    var p := r.period.Millis();
    ShareTimesPeriod(r, millis);
    assert (k as real) * (p as real) == (k * p) as real;
    if Share(r, millis) >= k as real {
      MulMonotone(k as real, Share(r, millis), p as real);
    }
  }

  lemma ShareTimesPeriod(r: Rule, millis: nat)
    ensures Share(r, millis) * (r.period.Millis() as real) == (millis * r.maxRequests) as real
  {
    assert r.maxRequests as real * (millis as real) == (millis * r.maxRequests) as real;
  }

  lemma {:induction false} FarApartEarns(r: Rule, times: seq<nat>, j: nat, n: nat)
    requires FarApart(r, times) && j <= n < |times|
    ensures Share(r, WholeMillis(times, j, n)) >= (n - j) as real
    decreases n
  {
    hide Share;
    if j == n {
      ShareAtLeast(r, 0, 0);
    } else {
      FarApartEarns(r, times, j, n - 1);
      var w, e := WholeMillis(times, j, n - 1), (times[n] - times[n - 1]) / 1_000_000;
      assert WholeMillis(times, j, n) == w + e;
      ShareAdds(r, w, e);
      ShareAtLeast(r, e, 1);
    }
  }

  lemma FarApartIsWithin(r: Rule, made: nat, times: seq<nat>, j: nat, n: nat)
    requires r.maxRequests >= 1 && FarApart(r, times) && j <= n < |times|
    ensures WithinSince(r, made, times, j, n)
  {
    hide FarApart, After, WholeMillis, Share;
    AcceptedAtMostCalls(After(New(r, made), times[..j]), times[j..n]);
    FarApartEarns(r, times, j, n);
  }

  /** Calls that leave the rule time to earn a request, in whole milliseconds, are never refused. */
  lemma FarApartIsNeverRefused(r: Rule, made: nat, times: seq<nat>, n: nat)
    requires r.maxRequests >= 1 && FarApart(r, times) && n < |times|
    ensures Grants(r, made, times, n)
  {
    hide Grants, FarApart, WithinSince;
    forall j | 0 <= j <= n ensures WithinSince(r, made, times, j, n) {
      FarApartIsWithin(r, made, times, j, n);
    }
    GrantsExactlyWithinBudget(r, made, times, n);
  }

  /** Calls at even intervals. */
  function Every(gap: nat, first: nat, n: nat): seq<nat> {
    seq(n, i requires 0 <= i < n => first + i * gap)
  }

  lemma EveryStep(gap: nat, first: nat, n: nat, k: nat)
    requires 0 < k < n
    ensures Every(gap, first, n)[k] == Every(gap, first, n)[k - 1] + gap
  {
    assert k * gap == (k - 1) * gap + gap;
  }

  /** Call n of a rule that is called at even intervals is let through. */
  predicate GrantsEvery(r: Rule, gap: nat, made: nat, first: nat, n: nat) {
    Grants(r, made, Every(gap, first, n + 1), n)
  }

  ghost predicate NeverRefusesEvery(r: Rule, gap: nat) {
    forall made: nat, first: nat, n: nat :: GrantsEvery(r, gap, made, first, n)
  }

  lemma {:induction false} EveryEarns(gap: nat, first: nat, n: nat, k: nat)
    requires k < n
    ensures WholeMillis(Every(gap, first, n), 0, k) == k * (gap / 1_000_000)
    decreases k
  {
    if k == 0 {
    } else {
      EveryEarns(gap, first, n, k - 1);
      EveryStep(gap, first, n, k);
    }
  }

  lemma {:induction false} AllAccepted(r: Rule, made: nat, times: seq<nat>, n: nat)
    requires n < |times| && forall k :: 0 <= k < n ==> Grants(r, made, times, k)
    ensures AcceptedIn(r, made, times, 0, n) == n
    decreases n
  {
    hide Grants, AcceptedIn;
    if n == 0 {
      AcceptedInSteps(r, made, times, 0, 0);
    } else {
      AllAccepted(r, made, times, n - 1);
      AcceptedInSteps(r, made, times, 0, n - 1);
    }
  }

  /** If every call so far was let through, the next one overdraws the rule once there were m * p. */
  lemma OverdrawnByThen(r: Rule, gap: nat)
    requires r.maxRequests >= 1 && !EarnsRequest(r, gap)
    ensures var n := r.maxRequests * r.period.Millis();
            var times := Every(gap, 0, n + 1);
            AcceptedIn(r, 0, times, 0, n) == n ==> !WithinSince(r, 0, times, 0, n)
  {
    hide AcceptedIn, Every, WholeMillis, Share;
    var m, p, e := r.maxRequests, r.period.Millis(), gap / 1_000_000;
    var n := m * p;
    EveryEarns(gap, 0, n + 1, n);
    Overdrawn(m, p, e);
    ShareAtLeast(r, n * e, n + 1 - m);
  }

  lemma TooFastIsRefused(r: Rule, gap: nat)
    requires r.maxRequests >= 1 && !EarnsRequest(r, gap)
    ensures !NeverRefusesEvery(r, gap)
  {
    hide Grants, AcceptedIn, WithinSince;
    var n := r.maxRequests * r.period.Millis();
    var times := Every(gap, 0, n + 1);
    if NeverRefusesEvery(r, gap) {
      assert GrantsEvery(r, gap, 0, 0, n);
      forall k | 0 <= k < n ensures Grants(r, 0, times, k) {
        assert GrantsEvery(r, gap, 0, 0, k);
        PrefixDecides(r, 0, times, Every(gap, 0, k + 1), k);
      }
      AllAccepted(r, 0, times, n);
      GrantsExactlyWithinBudget(r, 0, times, n);
      OverdrawnByThen(r, gap);
    }
  }

  lemma AtMost(n: nat, x: nat, y: nat)
    requires x <= y
    ensures n * x <= n * y
  {
  }

  lemma Overdrawn(m: nat, p: nat, e: nat)
    requires m >= 1 && p >= 1 && e * m < p
    ensures m <= m * p + 1 && m * p * e * m < (m * p + 1 - m) * p
  {
    AtMost(m, 1, p);
    OverdrawnBy(m * p, m, p, e, e * m);
  }

  lemma OverdrawnBy(n: nat, m: nat, p: nat, e: nat, q: nat)
    requires m <= n + 1 && n == m * p && q == e * m && q < p
    ensures n * e * m < (n + 1 - m) * p
  {
    AtMost(n, q, p - 1);
    assert n * e * m == n * q;
    assert n * (p - 1) == n * p - n;
    assert (n + 1 - m) * p == n * p + p - m * p;
  }

  lemma PrefixDecides(r: Rule, made: nat, times: seq<nat>, other: seq<nat>, k: nat)
    requires k < |times| && k < |other| && times[..k + 1] == other[..k + 1]
    ensures Grants(r, made, times, k) == Grants(r, made, other, k)
  {
    hide Check;
    assert times[..k] == times[..k + 1][..k] && other[..k] == other[..k + 1][..k];
    assert times[k] == times[..k + 1][k] && other[k] == other[..k + 1][k];
  }

  /** Calls at an even interval are never refused if and only if the whole milliseconds of the interval
      earn a request. A period divided by the maximum is not enough when it is not a whole number of
      milliseconds, since every call drops the fraction. */
  lemma EvenIntervalsPassExactly(r: Rule, gap: nat)
    requires r.maxRequests >= 1
    ensures NeverRefusesEvery(r, gap) <==> EarnsRequest(r, gap)
  {
    hide Grants;
    if EarnsRequest(r, gap) {
      forall made: nat, first: nat, n: nat ensures GrantsEvery(r, gap, made, first, n) {
        var times := Every(gap, first, n + 1);
        forall k | 0 < k < |times| ensures times[k - 1] <= times[k] && EarnsRequest(r, times[k] - times[k - 1]) {
          EveryStep(gap, first, n + 1, k);
        }
        FarApartIsNeverRefused(r, made, times, n);
      }
    } else {
      TooFastIsRefused(r, gap);
    }
  }

  /** Two thousand requests a second are not let through at even intervals of half a millisecond. */
  lemma HalfMillisecondsEarnNothing()
    ensures var r, gap := Rule(Second, 2000), 500_000;
            && gap * r.maxRequests == r.period.Millis() * 1_000_000
            && !NeverRefusesEvery(r, gap)
  {
    EvenIntervalsPassExactly(Rule(Second, 2000), 500_000);
  }
}

/** One rate limiting rule as a token bucket. Times are clock readings in nanoseconds; a check
    counts elapsed time in whole milliseconds. */
module TokenBucket {
  datatype Period = Second | Minute | Hour | Day {
    function Millis(): (ms: nat)
      ensures ms > 0
    {
      1000 * match this
        case Second => 1
        case Minute => 60
        case Hour => 3600
        case Day => 86400
    }
  }

  datatype Rule = Rule(period: Period, maxRequests: nat)

  datatype Bucket = Bucket(rule: Rule, last: nat, allowed: real)

  const NANOS := 1000000

  function Max(r: Rule): real { r.maxRequests as real }

  function Rate(r: Rule): (rate: real)
    ensures rate >= 0.0
    ensures (r.period.Millis() as real) * rate == Max(r)
  {
    Max(r) / (r.period.Millis() as real)
  }

  function New(r: Rule, now: nat): Bucket {
    Bucket(r, now, Max(r))
  }

  function Elapsed(from: nat, to: nat): nat {
    if to <= from then 0 else (to - from) / NANOS
  }

  function Min(x: real, y: real): real {
    if x <= y then x else y
  }

  function Refilled(b: Bucket, now: nat): real {
    Min(Max(b.rule), b.allowed + (Elapsed(b.last, now) as real) * Rate(b.rule))
  }

  function Check(b: Bucket, now: nat): (Bucket, bool) {
    if Elapsed(b.last, now) > b.rule.period.Millis() then
      (b.(allowed := Max(b.rule) - 1.0, last := now), true)
    else CheckPlain(b, now)
  }

  /** The bucket without the shortcut for a period of silence. */
  function CheckPlain(b: Bucket, now: nat): (Bucket, bool) {
    var refilled := Refilled(b, now);
    if refilled >= 1.0 then (b.(allowed := refilled - 1.0, last := now), true)
    else (b.(allowed := refilled, last := now), false)
  }

  ghost predicate InRange(b: Bucket) {
    0.0 <= b.allowed <= Max(b.rule)
  }

  lemma MulMonotone(x: real, y: real, z: real)
    requires x <= y && z >= 0.0
    ensures x * z <= y * z
  {
  }

  lemma LongSilenceRefills(b: Bucket, now: nat)
    requires InRange(b) && Elapsed(b.last, now) > b.rule.period.Millis()
    ensures Refilled(b, now) == Max(b.rule)
  {
    hide Rate, Elapsed;
    MulMonotone(b.rule.period.Millis() as real, Elapsed(b.last, now) as real, Rate(b.rule));
  }

  /** The shortcut is the clamped refill exactly when the rule allows a request or the silence was
      no longer than a period. */
  lemma ShortcutIsClampedRefill(b: Bucket, now: nat)
    requires InRange(b)
    ensures Check(b, now) == CheckPlain(b, now) <==>
            b.rule.maxRequests >= 1 || Elapsed(b.last, now) <= b.rule.period.Millis()
  {
    if Elapsed(b.last, now) > b.rule.period.Millis() {
      LongSilenceRefills(b, now);
    }
  }

  /** A check keeps a bucket in range exactly under the same condition. */
  lemma CheckStaysInRange(b: Bucket, now: nat)
    requires InRange(b)
    ensures InRange(Check(b, now).0) <==>
            b.rule.maxRequests >= 1 || Elapsed(b.last, now) <= b.rule.period.Millis()
  {
    ShortcutIsClampedRefill(b, now);
    var e := Elapsed(b.last, now) as real;
    MulMonotone(0.0, e, Rate(b.rule));
  }

  // --- credit: what the bucket could grant ---------------------------------------------------

  /** Tokens earned between two instants, with no rounding. */
  function Earned(r: Rule, from: nat, to: nat): real
    requires from <= to
  {
    Rate(r) * ((to - from) as real / NANOS as real)
  }

  /** An upper bound on the requests accepted in a window. */
  function Bound(r: Rule, from: nat, to: nat): real
    requires from <= to
  {
    Max(r) + Max(r) * ((to - from) as real / NANOS as real) / (r.period.Millis() as real)
  }

  lemma BoundIsEarned(r: Rule, from: nat, to: nat)
    requires from <= to
    ensures Bound(r, from, to) == Max(r) + Earned(r, from, to)
  {
    var p, t := r.period.Millis() as real, (to - from) as real / NANOS as real;
    assert Max(r) * t / p == (Max(r) / p) * t;
  }

  lemma EarnedSplits(r: Rule, a: nat, b: nat, c: nat)
    requires a <= b <= c
    ensures Earned(r, a, c) == Earned(r, a, b) + Earned(r, b, c)
    ensures Earned(r, a, b) >= 0.0
  {
    var x, y := (b - a) as real / NANOS as real, (c - b) as real / NANOS as real;
    assert (c - a) as real / NANOS as real == x + y;
    assert Rate(r) * (x + y) == Rate(r) * x + Rate(r) * y;
    MulMonotone(0.0, x, Rate(r));
  }

  lemma ElapsedRoundsDown(r: Rule, from: nat, to: nat)
    requires from <= to
    ensures 0.0 <= (Elapsed(from, to) as real) * Rate(r) <= Earned(r, from, to)
  {
    var e := Elapsed(from, to);
    assert e * NANOS <= to - from;
    assert (e as real) <= (to - from) as real / NANOS as real;
    MulMonotone(e as real, (to - from) as real / NANOS as real, Rate(r));
    MulMonotone(0.0, e as real, Rate(r));
  }

  /** The most the bucket can hold at an instant. */
  function Credit(b: Bucket, now: nat): real
    requires b.last <= now
  {
    Min(Max(b.rule), b.allowed + Earned(b.rule, b.last, now))
  }

  ghost predicate Healthy(b: Bucket, now: nat) {
    InRange(b) && b.rule.maxRequests >= 1 && b.last <= now
  }

  lemma CreditGrows(b: Bucket, from: nat, to: nat)
    requires Healthy(b, from) && from <= to
    ensures 0.0 <= Credit(b, from) <= Credit(b, to) <= Credit(b, from) + Earned(b.rule, from, to)
    ensures Credit(b, from) <= Max(b.rule)
  {
    hide Earned, Rate;
    EarnedSplits(b.rule, b.last, from, to);
    EarnedSplits(b.rule, from, to, to);
    EarnedSplits(b.rule, from, from, to);
    EarnedSplits(b.rule, from, to, to);
  }

  function Cost(accepted: bool): nat {
    if accepted then 1 else 0
  }

  /** An accepted check is paid for out of the credit. */
  lemma CheckSpendsCredit(b: Bucket, from: nat, now: nat, to: nat)
    requires Healthy(b, from) && from <= now <= to
    ensures var (after, ok) := Check(b, now);
            && after.rule == b.rule && Healthy(after, to)
            && Cost(ok) as real + Credit(after, to) <= Credit(b, from) + Earned(b.rule, from, to)
  {
    hide Earned, Rate, Check, Credit, InRange;
    var (after, ok) := Check(b, now);
    CheckSpends(b, now);
    CreditGrows(b, from, now);
    CreditGrows(after, now, to);
    EarnedSplits(b.rule, from, now, to);
  }

  lemma CheckSpends(b: Bucket, now: nat)
    requires Healthy(b, now)
    ensures var (after, ok) := Check(b, now);
            && after.rule == b.rule && Healthy(after, now) && after.last == now
            && Cost(ok) as real + Credit(after, now) <= Credit(b, now)
  {
    hide Earned, Rate;
    CheckStaysInRange(b, now);
    ShortcutIsClampedRefill(b, now);
    ElapsedRoundsDown(b.rule, b.last, now);
    var after := Check(b, now).0;
    assert Earned(b.rule, now, now) == 0.0 by {
      EarnedSplits(b.rule, now, now, now);
    }
  }

  // --- runs of one bucket ---------------------------------------------------------------------

  function After(b: Bucket, times: seq<nat>): Bucket
    decreases |times|
  {
    if times == [] then b else After(Check(b, times[0]).0, times[1..])
  }

  function Accepted(b: Bucket, times: seq<nat>): nat
    decreases |times|
  {
    if times == [] then 0 else Cost(Check(b, times[0]).1) + Accepted(Check(b, times[0]).0, times[1..])
  }

  /** The calls are made in order of time, from some instant on. */
  ghost predicate Ordered(from: nat, times: seq<nat>) {
    && (forall i :: 0 <= i < |times| ==> from <= times[i])
    && (forall i, j :: 0 <= i <= j < |times| ==> times[i] <= times[j])
  }

  lemma {:induction false} AcceptedSpendsCredit(b: Bucket, times: seq<nat>, from: nat, to: nat)
    requires Healthy(b, from) && from <= to && Ordered(from, times)
    requires forall i :: 0 <= i < |times| ==> times[i] <= to
    ensures Healthy(After(b, times), to) && After(b, times).rule == b.rule
    ensures Accepted(b, times) as real + Credit(After(b, times), to) <= Credit(b, from) + Earned(b.rule, from, to)
    decreases |times|
  {
    hide Earned, Rate, Check, Credit, InRange;
    if times == [] {
      CreditGrows(b, from, to);
    } else {
      var t := times[0];
      var (b1, ok) := Check(b, t);
      CheckSpendsCredit(b, from, t, t);
      AcceptedSpendsCredit(b1, times[1..], t, to);
      EarnedSplits(b.rule, from, t, to);
    }
  }

  /** The requests accepted by calls i to j of a bucket made at some instant. */
  function AcceptedIn(r: Rule, made: nat, times: seq<nat>, i: nat, j: nat): nat
    requires i <= j <= |times|
  {
    Accepted(After(New(r, made), times[..i]), times[i..j])
  }

  lemma WindowBound(r: Rule, made: nat, times: seq<nat>, i: nat, j: nat)
    requires r.maxRequests >= 1
    requires Ordered(made, times) && i < j <= |times|
    ensures times[i] <= times[j - 1]
    ensures AcceptedIn(r, made, times, i, j) as real <= Bound(r, times[i], times[j - 1])
  {
    hide Earned, Rate, Check, Credit, Bound;
    var from, to := times[i], times[j - 1];
    var b := After(New(r, made), times[..i]);
    AcceptedSpendsCredit(New(r, made), times[..i], made, from);
    AcceptedSpendsCredit(b, times[i..j], from, to);
    CreditGrows(b, from, to);
    CreditGrows(After(b, times[i..j]), to, to);
    BoundIsEarned(r, from, to);
  }

  ghost predicate BoundedInEveryWindow(r: Rule) {
    forall made: nat, times: seq<nat>, i: nat, j: nat | Ordered(made, times) && i < j <= |times| ::
      times[i] <= times[j - 1] ==> AcceptedIn(r, made, times, i, j) as real <= Bound(r, times[i], times[j - 1])
  }

  /** The window bound holds of a rule exactly when it allows at least one request: a rule for none
      lets one through after each silence longer than its period. */
  lemma BoundedExactlyWhenPositive(r: Rule)
    ensures BoundedInEveryWindow(r) <==> r.maxRequests >= 1
  {
    if r.maxRequests >= 1 {
      forall made: nat, times: seq<nat>, i: nat, j: nat
        | Ordered(made, times) && i < j <= |times| && times[i] <= times[j - 1]
        ensures AcceptedIn(r, made, times, i, j) as real <= Bound(r, times[i], times[j - 1])
      {
        WindowBound(r, made, times, i, j);
      }
    } else {
      ZeroRuleAccepts(r);
      var times: seq<nat> := [(r.period.Millis() + 1) * NANOS];
      BoundIsEarned(r, times[0], times[0]);
      assert Earned(r, times[0], times[0]) == 0.0 by {
        EarnedSplits(r, times[0], times[0], times[0]);
      }
      assert times[0] <= times[1 - 1] && !(AcceptedIn(r, 0, times, 0, 1) as real <= Bound(r, times[0], times[1 - 1]));
      assert Ordered(0, times);
    }
  }

  lemma ZeroRuleAccepts(r: Rule)
    requires r.maxRequests == 0
    ensures var times: seq<nat> := [(r.period.Millis() + 1) * NANOS];
            AcceptedIn(r, 0, times, 0, 1) == 1 && After(New(r, 0), times).allowed == -1.0
  {
    var times: seq<nat> := [(r.period.Millis() + 1) * NANOS];
    assert times[..0] == [] && times[0..1] == times && times[1..] == [];
    var b := New(r, 0);
    assert Elapsed(0, times[0]) == r.period.Millis() + 1;
    assert Check(b, times[0]).1;
    assert Accepted(b, times) == 1 + Accepted(Check(b, times[0]).0, []);
  }
}

/** The window bound of every rule of an address at once, and what policy migration keeps. */
module RateLimitingGuarantees {
  import opened TokenBucket
  import opened RateLimiting

  // --- the lists of an address ----------------------------------------------------------------

  predicate Listed(l: Limiter, ip: Ip) {
    (l.Per? && ip in l.lists) || (l.WithGlobal? && ip in l.tagged)
  }

  function ListOf(l: Limiter, ip: Ip): seq<Bucket>
    requires Listed(l, ip)
  {
    if l.Per? then l.lists[ip] else Values(l.tagged[ip])
  }

  /** The rules in force for an address: its own list, or the global rules. */
  function RulesFor(l: Limiter, ip: Ip): seq<Rule> {
    if Listed(l, ip) then Rules(ListOf(l, ip)) else if l.WithGlobal? then l.global else []
  }

  /** Every bucket of a positive rule is in range, and none is from the future. */
  ghost predicate AllHealthy(l: Limiter, now: nat) {
    forall ip, k :: Listed(l, ip) && 0 <= k < |ListOf(l, ip)| && ListOf(l, ip)[k].rule.maxRequests >= 1 ==>
      Healthy(ListOf(l, ip)[k], now)
  }

  /** What rule k of an address could still grant: all of it before the list exists. */
  function CreditOf(l: Limiter, ip: Ip, k: nat, now: nat): real
    requires k < |RulesFor(l, ip)|
    requires Listed(l, ip) ==> ListOf(l, ip)[k].last <= now
  {
    if Listed(l, ip) then Credit(ListOf(l, ip)[k], now) else Max(RulesFor(l, ip)[k])
  }

  lemma ListCheckSpends(list: seq<Bucket>, clock: Clock, skipped: nat, k: nat, from: nat, to: nat)
    requires k < |list| && Healthy(list[k], from) && from <= clock(skipped + k) <= to
    ensures var (after, answer) := CheckList(list, clock, skipped);
            && after[k].rule == list[k].rule && Healthy(after[k], to)
            && Cost(answer.Done?) as real + Credit(after[k], to) <= Credit(list[k], from) + Earned(list[k].rule, from, to)
  {
    hide TokenBucket.Check, Credit, Earned, CheckFrom, InRange;
    CheckFromMeaning(list, 0, clock, skipped);
    CheckSpendsCredit(list[k], from, clock(skipped + k), to);
    CreditGrows(list[k], from, to);
  }

  lemma ListCheckKeepsRules(list: seq<Bucket>, clock: Clock, skipped: nat)
    ensures Rules(CheckList(list, clock, skipped).0) == Rules(list)
  {
    hide TokenBucket.Check, CheckFrom;
    CheckFromMeaning(list, 0, clock, skipped);
    forall k | 0 <= k < |list| ensures TokenBucket.Check(list[k], clock(skipped + k)).0.rule == list[k].rule {
      CheckKeepsRule(list[k], clock(skipped + k));
    }
  }

  function ListBefore(l: Limiter, ip: Ip, clock: Clock): seq<Bucket> {
    if Listed(l, ip) then ListOf(l, ip) else if l.WithGlobal? then Fresh(l.global, clock) else []
  }

  function Skipped(l: Limiter, ip: Ip): nat {
    if Listed(l, ip) || !l.WithGlobal? then 0 else |l.global|
  }

  lemma FreshRules(rules: seq<Rule>, clock: Clock)
    ensures Rules(Fresh(rules, clock)) == rules
  {
    var list := Fresh(rules, clock);
    forall i | 0 <= i < |rules| ensures Rules(list)[i] == rules[i] {
      assert list[i] == New(rules[i], clock(i));
    }
  }

  /** A request checks the list of its address, made first from the global rules if there is none,
      and keeps it unless it was made for nothing; no other list changes. */
  lemma RequestMeaning(l: Limiter, ip: Ip, clock: Clock, other: Ip)
    ensures var (l', answer) := CheckIp(l, ip, clock);
            var (list, verdict) := CheckList(ListBefore(l, ip, clock), clock, Skipped(l, ip));
            && answer == verdict
            && (Listed(l', ip) <==> Listed(l, ip) || (l.WithGlobal? && answer.Done?))
            && (Listed(l', ip) ==> ListOf(l', ip) == list)
            && (other != ip ==> (Listed(l', other) <==> Listed(l, other)))
            && (other != ip && Listed(l, other) ==> ListOf(l', other) == ListOf(l, other))
            && RulesFor(l', other) == RulesFor(l, other)
  {
    hide CheckFrom;
    ListCheckKeepsRules(ListBefore(l, ip, clock), clock, Skipped(l, ip));
    var l' := CheckIp(l, ip, clock).0;
    var list := CheckList(ListBefore(l, ip, clock), clock, Skipped(l, ip)).0;
    if Listed(l', ip) {
      assert ListOf(l', ip) == list;
    }
    if !Listed(l, ip) && l.WithGlobal? {
      FreshRules(l.global, clock);
    }
    CheckFromMeaning([], 0, clock, 0);
  }

  lemma RequestSpends(l: Limiter, e: Event, ip: Ip, k: nat)
    requires InTime(e) && e.command == Request(ip) && AllHealthy(l, e.begin)
    requires k < |RulesFor(l, ip)| && RulesFor(l, ip)[k].maxRequests >= 1
    ensures var (l', answer) := Step(l, e);
            && RulesFor(l', ip) == RulesFor(l, ip)
            && (Listed(l', ip) ==> Healthy(ListOf(l', ip)[k], e.end))
            && Cost(answer.Done?) as real + CreditOf(l', ip, k, e.end) <=
               CreditOf(l, ip, k, e.begin) + Earned(RulesFor(l, ip)[k], e.begin, e.end)
  {
    hide TokenBucket.Check, Credit, Earned, CheckFrom, InRange, CheckIp, CheckList;
    RequestMeaning(l, ip, e.clock, ip);
    var list, skipped, r := ListBefore(l, ip, e.clock), Skipped(l, ip), RulesFor(l, ip)[k];
    assert list[k].rule == r;
    assert e.begin <= e.clock(skipped + k) <= e.end;
    if Listed(l, ip) {
      ListCheckSpends(list, e.clock, skipped, k, e.begin, e.end);
    } else {
      var made := e.clock(k);
      assert made <= e.clock(skipped + k);
      FreshCredit(r, made);
      ListCheckSpends(list, e.clock, skipped, k, made, e.end);
      EarnedSplits(r, e.begin, made, e.end);
      EarnedSplits(r, made, e.end, e.end);
    }
  }

  lemma FreshCredit(r: Rule, now: nat)
    ensures Credit(New(r, now), now) == Max(r)
    ensures r.maxRequests >= 1 ==> Healthy(New(r, now), now)
  {
    EarnedSplits(r, now, now, now);
  }

  // --- health over a run ----------------------------------------------------------------------

  ghost predicate HealthyList(list: seq<Bucket>, now: nat) {
    forall k :: 0 <= k < |list| && list[k].rule.maxRequests >= 1 ==> Healthy(list[k], now)
  }

  lemma FreshIsHealthy(rules: seq<Rule>, e: Event)
    requires InTime(e)
    ensures HealthyList(Fresh(rules, e.clock), e.end)
  {
    var list := Fresh(rules, e.clock);
    forall k | 0 <= k < |list| && list[k].rule.maxRequests >= 1 ensures Healthy(list[k], e.end) {
      assert e.clock(k) <= e.end;
      FreshCredit(rules[k], e.clock(k));
    }
  }

  lemma RequestKeepsHealth(l: Limiter, e: Event)
    requires InTime(e) && e.command.Request? && AllHealthy(l, e.begin)
    ensures AllHealthy(Step(l, e).0, e.end)
  {
    hide TokenBucket.Check, Credit, Earned, CheckFrom, InRange, CheckIp, CheckList;
    var l' := Step(l, e).0;
    forall ip, k | Listed(l', ip) && 0 <= k < |ListOf(l', ip)| && ListOf(l', ip)[k].rule.maxRequests >= 1
      ensures Healthy(ListOf(l', ip)[k], e.end)
    {
      RequestMeaning(l, e.command.ip, e.clock, ip);
      assert RulesFor(l', ip)[k] == ListOf(l', ip)[k].rule;
      if ip == e.command.ip {
        RequestSpends(l, e, ip, k);
      }
    }
  }

  /** Every bucket of a step other than a request is an old one or fresh. */
  lemma CommandLists(l: Limiter, e: Event, ip: Ip)
    requires !e.command.Request? && Listed(Step(l, e).0, ip)
    ensures var list := ListOf(Step(l, e).0, ip);
            || (Listed(l, ip) && list == ListOf(l, ip))
            || (e.command.SetPolicy? && e.command.target == ip && list == Fresh(e.command.rules, e.clock))
  {
    var l' := Step(l, e).0;
    match e.command
    case SetPolicy(target, rules) =>
      if target == ip {
        assert ListOf(l', ip) == Fresh(rules, e.clock);
      }
    case SetMode(_) =>
      assert ListOf(l', ip) == ListOf(l, ip);
    case _ =>
  }

  lemma StepKeepsHealth(l: Limiter, e: Event)
    requires InTime(e) && AllHealthy(l, e.begin)
    ensures AllHealthy(Step(l, e).0, e.end)
  {
    hide TokenBucket.Check, Credit, Earned, CheckIp, Step, InRange;
    if e.command.Request? {
      RequestKeepsHealth(l, e);
    } else {
      var l' := Step(l, e).0;
      forall ip, k | Listed(l', ip) && 0 <= k < |ListOf(l', ip)| && ListOf(l', ip)[k].rule.maxRequests >= 1
        ensures Healthy(ListOf(l', ip)[k], e.end)
      {
        CommandLists(l, e, ip);
        if e.command.SetPolicy? {
          FreshIsHealthy(e.command.rules, e);
        }
      }
    }
  }

  ghost predicate HealthyBy(l: Limiter, events: seq<Event>) {
    events != [] ==> AllHealthy(l, events[0].begin)
  }

  lemma LaterIsHealthy(l: Limiter, now: nat, later: nat)
    requires AllHealthy(l, now) && now <= later
    ensures AllHealthy(l, later)
  {
    forall ip, k | Listed(l, ip) && 0 <= k < |ListOf(l, ip)| && ListOf(l, ip)[k].rule.maxRequests >= 1
      ensures Healthy(ListOf(l, ip)[k], later)
    {
      assert Healthy(ListOf(l, ip)[k], now);
    }
  }

  lemma {:induction false} RunIsHealthy(l: Limiter, before: seq<Event>, rest: seq<Event>)
    requires Chronological(before + rest) && HealthyBy(l, before + rest)
    ensures HealthyBy(Run(l, before), rest)
    decreases |before|
  {
    hide AllHealthy, Step, InTime;
    if before == [] {
      assert before + rest == rest;
    } else {
      var all := before + rest;
      assert all[0] == before[0] && all[1..] == before[1..] + rest;
      StepKeepsHealth(l, all[0]);
      var l' := Step(l, all[0]).0;
      if |all| > 1 {
        LaterIsHealthy(l', all[0].end, all[1].begin);
      }
      RunIsHealthy(l', before[1..], rest);
    }
  }

  // --- the bound of an address ----------------------------------------------------------------

  /** The requests of an address that a run lets through. */
  function Granted(l: Limiter, events: seq<Event>, ip: Ip): nat
    decreases |events|
  {
    if events == [] then 0
    else
      var (l', answer) := Step(l, events[0]);
      Cost(events[0].command == Request(ip) && answer.Done?) + Granted(l', events[1..], ip)
  }

  /** No command of the run changes the list or the rules of the address. */
  ghost predicate Undisturbed(l: Limiter, events: seq<Event>, ip: Ip)
    decreases |events|
  {
    events != [] ==>
      var l' := Step(l, events[0]).0;
      && (events[0].command.Request? || SameList(l, l', ip))
      && Undisturbed(l', events[1..], ip)
  }

  ghost predicate SameList(l: Limiter, l': Limiter, ip: Ip) {
    && RulesFor(l', ip) == RulesFor(l, ip)
    && (Listed(l', ip) <==> Listed(l, ip))
    && (Listed(l, ip) ==> ListOf(l', ip) == ListOf(l, ip))
  }

  lemma StepSpends(l: Limiter, e: Event, ip: Ip, k: nat)
    requires InTime(e) && AllHealthy(l, e.begin)
    requires e.command.Request? || SameList(l, Step(l, e).0, ip)
    requires k < |RulesFor(l, ip)| && RulesFor(l, ip)[k].maxRequests >= 1
    ensures var (l', answer) := Step(l, e);
            && RulesFor(l', ip) == RulesFor(l, ip)
            && (Listed(l', ip) ==> Healthy(ListOf(l', ip)[k], e.end))
            && Cost(e.command == Request(ip) && answer.Done?) as real + CreditOf(l', ip, k, e.end) <=
               CreditOf(l, ip, k, e.begin) + Earned(RulesFor(l, ip)[k], e.begin, e.end)
  {
    hide TokenBucket.Check, Credit, Earned, CheckFrom, InRange, CheckIp, CheckList;
    if e.command == Request(ip) {
      RequestSpends(l, e, ip, k);
    } else {
      if e.command.Request? {
        RequestMeaning(l, e.command.ip, e.clock, ip);
      }
      EarnedSplits(RulesFor(l, ip)[k], e.begin, e.end, e.end);
      if Listed(l, ip) {
        CreditGrows(ListOf(l, ip)[k], e.begin, e.end);
      }
    }
  }

  lemma IdleEarns(l: Limiter, ip: Ip, k: nat, from: nat, to: nat)
    requires k < |RulesFor(l, ip)| && RulesFor(l, ip)[k].maxRequests >= 1
    requires AllHealthy(l, from) && from <= to
    ensures CreditOf(l, ip, k, to) <= CreditOf(l, ip, k, from) + Earned(RulesFor(l, ip)[k], from, to)
    ensures 0.0 <= CreditOf(l, ip, k, from) <= Max(RulesFor(l, ip)[k])
  {
    hide Credit, Earned, InRange;
    EarnedSplits(RulesFor(l, ip)[k], from, to, to);
    if Listed(l, ip) {
      CreditGrows(ListOf(l, ip)[k], from, to);
    }
  }

  lemma {:induction false} GrantedSpends(l: Limiter, events: seq<Event>, ip: Ip, k: nat)
    requires events != [] && Chronological(events) && HealthyBy(l, events) && Undisturbed(l, events, ip)
    requires k < |RulesFor(l, ip)| && RulesFor(l, ip)[k].maxRequests >= 1
    ensures events[0].begin <= events[|events| - 1].end
    ensures Granted(l, events, ip) as real <=
            CreditOf(l, ip, k, events[0].begin) + Earned(RulesFor(l, ip)[k], events[0].begin, events[|events| - 1].end)
    decreases |events|
  {
    hide CreditOf, Step, Earned, AllHealthy, Listed, ListOf, RulesFor, Healthy;
    var e, rest, r := events[0], events[1..], RulesFor(l, ip)[k];
    var l' := Step(l, e).0;
    StepSpends(l, e, ip, k);
    StepKeepsHealth(l, e);
    if rest == [] {
      IdleEarns(l', ip, k, e.end, e.end);
    } else {
      var last := rest[|rest| - 1].end;
      LaterIsHealthy(l', e.end, rest[0].begin);
      GrantedSpends(l', rest, ip, k);
      IdleEarns(l', ip, k, e.end, rest[0].begin);
      EarnedSplits(r, e.begin, e.end, last);
      EarnedSplits(r, e.end, rest[0].begin, last);
    }
  }

  /** In every run and every stretch of it that leaves the address's rules alone, the requests let
      through obey the window bound of each of its positive rules at once, whether its list was
      set by the administrator or is made from the global rules on the way. */
  lemma EveryRuleBoundsEveryWindow(start: Limiter, before: seq<Event>, window: seq<Event>, ip: Ip, k: nat)
    requires Initial(start) && window != [] && Chronological(before + window)
    requires Undisturbed(Run(start, before), window, ip)
    requires k < |RulesFor(Run(start, before), ip)| && RulesFor(Run(start, before), ip)[k].maxRequests >= 1
    ensures window[0].begin <= window[|window| - 1].end
    ensures Granted(Run(start, before), window, ip) as real <=
            Bound(RulesFor(Run(start, before), ip)[k], window[0].begin, window[|window| - 1].end)
  {
    hide Earned, Bound, Run, Granted, Undisturbed, RulesFor, CreditOf;
    var l := Run(start, before);
    var all := before + window;
    assert AllHealthy(start, all[0].begin);
    RunIsHealthy(start, before, window);
    assert Chronological(window) by {
      assert forall i :: 0 <= i < |window| ==> window[i] == all[|before| + i];
    }
    GrantedSpends(l, window, ip, k);
    IdleEarns(l, ip, k, window[0].begin, window[0].begin);
    BoundIsEarned(RulesFor(l, ip)[k], window[0].begin, window[|window| - 1].end);
  }
}

/** Exactly which requests of an address the rate limiter lets through: those that every rule in force for
    it can afford. */
module RateLimitBudget {
  import opened TokenBucket
  import opened BucketBudget
  import opened RateLimiting
  import opened RateLimitingGuarantees

  // --- a list that is checked again and again -------------------------------------------------

  /** A list after one request for each of these clocks, of which the k-th rule reads the k-th value. */
  function ListAfter(list: seq<Bucket>, clocks: seq<Clock>): (r: seq<Bucket>)
    ensures |r| == |list|
    decreases |clocks|
  {
    if clocks == [] then list else ListAfter(CheckList(list, clocks[0], 0).0, clocks[1..])
  }

  /** The times at which rule k was asked: only by requests that all rules before it let through. */
  ghost function AskedAt(list: seq<Bucket>, clocks: seq<Clock>, k: nat): seq<nat>
    requires k < |list|
    decreases |clocks|
  {
    if clocks == [] then []
    else
      (if Passes(list, clocks[0], 0, 0, k) then [clocks[0](k)] else []) +
      AskedAt(CheckList(list, clocks[0], 0).0, clocks[1..], k)
  }

  /** Each rule of a list sees exactly the calls that reach it. */
  lemma {:induction false} RuleSeesItsCalls(list: seq<Bucket>, clocks: seq<Clock>, k: nat)
    requires k < |list|
    ensures ListAfter(list, clocks)[k] == After(list[k], AskedAt(list, clocks, k))
    decreases |clocks|
  {
    hide TokenBucket.Check, CheckFrom, Passes;
    if clocks == [] {
    } else {
      var next := CheckList(list, clocks[0], 0).0;
      CheckFromMeaning(list, 0, clocks[0], 0);
      RuleSeesItsCalls(next, clocks[1..], k);
      var rest := AskedAt(next, clocks[1..], k);
      if Passes(list, clocks[0], 0, 0, k) {
        assert ([clocks[0](k)] + rest)[1..] == rest;
      } else {
        assert [] + rest == rest;
      }
    }
  }

  /** Every rule of a list that was made at these times and asked at those should let this request pass. */
  ghost predicate AllShouldGrant(rules: seq<Rule>, made: Clock, clocks: seq<Clock>, now: Clock) {
    forall k :: 0 <= k < |rules| ==> RuleShouldGrant(rules, made, clocks, now, k)
  }

  ghost predicate RuleShouldGrant(rules: seq<Rule>, made: Clock, clocks: seq<Clock>, now: Clock, k: nat)
    requires k < |rules|
  {
    var times := AskedAt(Fresh(rules, made), clocks, k);
    ShouldGrant(rules[k], made(k), times + [now(k)], |times|)
  }

  lemma RuleGrantsExactly(rules: seq<Rule>, made: Clock, clocks: seq<Clock>, now: Clock, k: nat)
    requires k < |rules|
    ensures TokenBucket.Check(ListAfter(Fresh(rules, made), clocks)[k], now(k)).1 <==>
            RuleShouldGrant(rules, made, clocks, now, k)
  {
    hide TokenBucket.Check, CheckFrom, ShouldGrant, AskedAt, ListAfter;
    var list := Fresh(rules, made);
    var times := AskedAt(list, clocks, k);
    RuleSeesItsCalls(list, clocks, k);
    assert list[k] == New(rules[k], made(k));
    assert (times + [now(k)])[..|times|] == times;
    GrantsExactly(rules[k], made(k), times + [now(k)], |times|);
  }

  lemma ListPassesExactly(rules: seq<Rule>, made: Clock, clocks: seq<Clock>, now: Clock)
    ensures CheckList(ListAfter(Fresh(rules, made), clocks), now, 0).1.Done? <==> AllShouldGrant(rules, made, clocks, now)
  {
    hide TokenBucket.Check, CheckFrom, ListAfter, RuleShouldGrant;
    var list := ListAfter(Fresh(rules, made), clocks);
    CheckFromMeaning(list, 0, now, 0);
    forall k: nat | k < |rules|
      ensures TokenBucket.Check(list[k], now(0 + k)).1 <==> RuleShouldGrant(rules, made, clocks, now, k)
    {
      RuleGrantsExactly(rules, made, clocks, now, k);
    }
  }

  // --- the list of an address in a run --------------------------------------------------------

  /** The clocks of the requests of an address. */
  function ClocksOf(events: seq<Event>, ip: Ip): seq<Clock> {
    if events == [] then []
    else (if events[0].command == Request(ip) then [events[0].clock] else []) + ClocksOf(events[1..], ip)
  }

  /** As long as nobody changes its rules, the list of an address goes through its own requests and
      nothing else. */
  lemma {:induction false} ListFollowsRequests(l: Limiter, events: seq<Event>, ip: Ip)
    requires Listed(l, ip) && Undisturbed(l, events, ip)
    ensures var l' := Run(l, events);
            Listed(l', ip) && ListOf(l', ip) == ListAfter(ListOf(l, ip), ClocksOf(events, ip))
    decreases |events|
  {
    hide CheckIp, CheckList, Listed, ListOf, RulesFor;
    if events == [] {
    } else {
      var e, l' := events[0], Step(l, events[0]).0;
      StepOnList(l, e, ip);
      ListFollowsRequests(l', events[1..], ip);
      var rest := ClocksOf(events[1..], ip);
      if e.command == Request(ip) {
        assert ([e.clock] + rest)[1..] == rest;
      } else {
        assert [] + rest == rest;
      }
    }
  }

  lemma StepOnList(l: Limiter, e: Event, ip: Ip)
    requires Listed(l, ip) && (e.command.Request? || SameList(l, Step(l, e).0, ip))
    ensures var l' := Step(l, e).0;
            && Listed(l', ip)
            && ListOf(l', ip) == if e.command == Request(ip) then CheckList(ListOf(l, ip), e.clock, 0).0 else ListOf(l, ip)
  {
    hide CheckIp, CheckList;
    if e.command.Request? {
      RequestMeaning(l, e.command.ip, e.clock, ip);
    }
  }

  /** Exactly the right requests pass. From the moment an address is given rules, and for as long as they
      are left alone, each of its requests passes if and only if every one of the rules should grant it,
      counting the calls that reached that rule. */
  lemma OwnRulesDecideExactly(l: Limiter, given: Event, window: seq<Event>, e: Event, ip: Ip, rules: seq<Rule>)
    requires !l.Unlimited? && given.command == SetPolicy(ip, rules) && e.command == Request(ip)
    requires Undisturbed(Step(l, given).0, window, ip)
    ensures Step(Run(Step(l, given).0, window), e).1.Done? <==>
            AllShouldGrant(rules, given.clock, ClocksOf(window, ip), e.clock)
  {
    hide CheckFrom, Undisturbed, CheckIp, AllShouldGrant, ListAfter, RulesFor;
    var l0 := Step(l, given).0;
    var list := Fresh(rules, given.clock);
    assert Listed(l0, ip) && ListOf(l0, ip) == list by {
      assert Values(Tag(list, false)) == list;
    }
    ListFollowsRequests(l0, window, ip);
    RequestMeaning(Run(l0, window), ip, e.clock, ip);
    ListPassesExactly(rules, given.clock, ClocksOf(window, ip), e.clock);
  }

  // --- the global rules -----------------------------------------------------------------------

  /** The readings that are left once the new list has used up some. */
  function Later(clock: Clock, skipped: nat): Clock {
    (k: nat) => clock(skipped + k)
  }

  lemma {:induction false} CheckLater(list: seq<Bucket>, i: nat, clock: Clock, skipped: nat)
    requires i <= |list|
    ensures CheckFrom(list, i, clock, skipped) == CheckFrom(list, i, Later(clock, skipped), 0)
    decreases |list| - i
  {
    hide TokenBucket.Check;
    if i == |list| {
    } else {
      CheckLater(list[i := TokenBucket.Check(list[i], clock(skipped + i)).0], i + 1, clock, skipped);
    }
  }

  /** The same for the global rules, from the first request of an address on: it passes if every rule should
      grant it, and then the list it makes decides all later requests. */
  lemma GlobalRulesDecideExactly(l: Limiter, first: Event, window: seq<Event>, e: Event, ip: Ip)
    requires l.WithGlobal? && !Listed(l, ip) && first.command == Request(ip) && e.command == Request(ip)
    ensures var now := Later(first.clock, |l.global|);
            var (l0, answer) := Step(l, first);
            && (answer.Done? <==> AllShouldGrant(l.global, first.clock, [], now))
            && (Listed(l0, ip) <==> answer.Done?)
            && (answer.Done? && Undisturbed(l0, window, ip) ==>
                  (Step(Run(l0, window), e).1.Done? <==>
                   AllShouldGrant(l.global, first.clock, [now] + ClocksOf(window, ip), e.clock)))
  {
    hide CheckFrom, Undisturbed, CheckIp, AllShouldGrant, RulesFor;
    var now, list := Later(first.clock, |l.global|), Fresh(l.global, first.clock);
    var (l0, answer) := Step(l, first);
    CheckLater(list, 0, first.clock, |l.global|);
    RequestMeaning(l, ip, first.clock, ip);
    ListPassesExactly(l.global, first.clock, [], now);
    if answer.Done? && Undisturbed(l0, window, ip) {
      var clocks := ClocksOf(window, ip);
      assert ([now] + clocks)[1..] == clocks;
      ListFollowsRequests(l0, window, ip);
      RequestMeaning(Run(l0, window), ip, e.clock, ip);
      ListPassesExactly(l.global, first.clock, [now] + clocks, e.clock);
    }
  }
}

/** The rate limiter as an object whose methods change its rule lists in place. It knows which run it
    is in, so the bounds of every run hold after every call, and each administrator's command states
    whose rules it changes. */
module RateLimiterObject {
  import opened TokenBucket
  import opened RateLimiting
  import opened RateLimitingGuarantees
  import opened RateLimitBudget
  import PolicyMigration

  /** The requests of an address let through from the i-th event on obey its k-th rule, if nothing since
      has changed its rules. */
  ghost predicate Bounded(start: Limiter, events: seq<Event>, ip: Ip, i: nat, k: nat)
    requires Chronological(events)
  {
    i < |events| && Undisturbed(Run(start, events[..i]), events[i..], ip) ==>
      var l := Run(start, events[..i]);
      k < |RulesFor(l, ip)| && RulesFor(l, ip)[k].maxRequests >= 1 ==>
        && events[i].begin <= events[|events| - 1].end
        && Granted(l, events[i..], ip) as real <= Bound(RulesFor(l, ip)[k], events[i].begin, events[|events| - 1].end)
  }

  /** The answer to a request is the right one by the rules in force since the i-th event, whether that gave
      the address its own rules or was its first request under the global ones. */
  ghost predicate Justified(start: Limiter, events: seq<Event>, i: nat, ip: Ip, clock: Clock, answer: Answer)
    requires i < |events|
  {
    var l, e, later := Run(start, events[..i]), events[i], events[i + 1..];
    var (l', verdict) := Step(l, e);
    Undisturbed(l', later, ip) ==>
      && (e.command.SetPolicy? && e.command.target == ip && !l.Unlimited? ==>
            (answer.Done? <==> AllShouldGrant(e.command.rules, e.clock, ClocksOf(later, ip), clock)))
      && (e.command == Request(ip) && l.WithGlobal? && !Listed(l, ip) && verdict.Done? ==>
            (answer.Done? <==>
             AllShouldGrant(l.global, e.clock, [Later(e.clock, |l.global|)] + ClocksOf(later, ip), clock)))
  }

  class RateLimiter {
    var mode: Mode
    var global: seq<Rule>
    var lists: map<Ip, seq<Bucket>>
    var tagged: map<Ip, seq<Tagged>>
    ghost const start: Limiter
    ghost var events: seq<Event>

    ghost function View(): Limiter
      reads this
    {
      match mode
      case NoLimits => Unlimited
      case PerIp => Per(lists)
      case Global => WithGlobal(global, tagged)
    }

    /** The state is that of a run of calls, one after another in time. */
    ghost predicate Valid()
      reads this
    {
      Initial(start) && Chronological(events) && View() == Run(start, events)
    }

    /** The end of the last call. */
    ghost function Now(): nat
      reads this
    {
      if events == [] then 0 else events[|events| - 1].end
    }

    /** No list mixes global and specific rules, and every window of every address obeys every positive
        rule that was in force throughout. */
    ghost predicate Guaranteed()
      requires Chronological(events)
      reads this
    {
      PolicyMigration.Uniform(View()) && forall ip, i, k :: Bounded(start, events, ip, i, k)
    }

    constructor Unrestricted()
      ensures Valid() && events == [] && View() == Unlimited
    {
      mode, global, lists, tagged := NoLimits, [], map[], map[];
      start, events := Unlimited, [];
    }

    constructor PerAddress()
      ensures Valid() && events == [] && View() == Per(map[])
    {
      mode, global, lists, tagged := PerIp, [], map[], map[];
      start, events := Per(map[]), [];
    }

    constructor Globally(rules: seq<Rule>)
      ensures Valid() && events == [] && View() == WithGlobal(rules, map[])
    {
      mode, global, lists, tagged := Global, rules, map[], map[];
      start, events := WithGlobal(rules, map[]), [];
    }

    /** Adds a call whose effect is done. */
    ghost method Record(e: Event, before: Limiter)
      requires Initial(start) && Chronological(events) && before == Run(start, events)
      requires InTime(e) && Now() <= e.begin && View() == Step(before, e).0
      modifies this`events
      ensures events == old(events) + [e] && Valid() && Guaranteed()
    {
      hide Run, Step, InTime;
      RunAppend(start, events, e);
      ChronologicalAppend(events, e);
      events := events + [e];
      AllBounded(start, events);
      InitialIsUniform(start);
      PolicyMigration.ListsAreNeverMixed(start, events);
    }

    /** Charges the rules of a list one after another until one refuses. */
    method CheckPolicies(policies: seq<Bucket>, clock: Clock, skipped: nat)
      returns (list: seq<Bucket>, answer: Answer)
      ensures (list, answer) == CheckList(policies, clock, skipped)
    {
      hide TokenBucket.Check;
      list := policies;
      var i := 0;
      while i < |list|
        invariant i <= |list|
        invariant CheckFrom(list, i, clock, skipped) == CheckList(policies, clock, skipped)
      {
        var (b, ok) := TokenBucket.Check(list[i], clock(skipped + i));
        list := list[i := b];
        if !ok {
          answer := RateLimitExceeded(b.rule.maxRequests);
          return;
        }
        i := i + 1;
      }
      answer := Done;
    }

    method CheckLists(ip: Ip, clock: Clock) returns (answer: Answer)
      modifies this`lists, this`tagged
      ensures (View(), answer) == CheckIp(old(View()), ip, clock)
    {
      hide CheckFrom;
      var list;
      match mode {
        case NoLimits => answer := Done;
        case PerIp =>
          if ip !in lists {
            return Done;
          }
          list, answer := CheckPolicies(lists[ip], clock, 0);
          lists := lists[ip := list];
        case Global =>
          if ip in tagged {
            list, answer := CheckPolicies(Values(tagged[ip]), clock, 0);
            tagged := tagged[ip := Retag(tagged[ip], list)];
            return;
          }
          list, answer := CheckPolicies(Fresh(global, clock), clock, |global|);
          if answer.Done? {
            tagged := tagged[ip := Tag(list, true)];
          }
      }
    }

    /** A request changes nobody's rules. It passes exactly if every rule in force for the address lets
        it pass, and that is exactly if it is within the budget of each, counted since the rule was made. */
    method Check(ip: Ip, begin: nat, clock: Clock, end: nat) returns (answer: Answer)
      requires Valid() && InTime(Event(Request(ip), begin, clock, end)) && Now() <= begin
      modifies this`lists, this`tagged, this`events
      ensures events == old(events) + [Event(Request(ip), begin, clock, end)] && Valid() && Guaranteed()
      ensures forall other :: RulesFor(View(), other) == RulesFor(old(View()), other)
      ensures var list := ListBefore(old(View()), ip, clock);
              answer.Done? <==> Passes(list, clock, Skipped(old(View()), ip), 0, |list|)
      ensures forall i :: 0 <= i < |old(events)| ==> Justified(start, old(events), i, ip, clock, answer)
    {
      hide Run, CheckFrom, CheckIp, InTime, Justified;
      ghost var before := View();
      forall i | 0 <= i < |events|
        ensures Justified(start, events, i, ip, clock, Step(before, Event(Request(ip), begin, clock, end)).1)
      {
        AnswerIsJustified(start, events, i, Event(Request(ip), begin, clock, end), ip);
      }
      answer := CheckLists(ip, clock);
      forall other ensures RulesFor(View(), other) == RulesFor(before, other) {
        RequestMeaning(before, ip, clock, other);
      }
      CheckFromMeaning(ListBefore(before, ip, clock), 0, clock, Skipped(before, ip));
      RequestMeaning(before, ip, clock, ip);
      Record(Event(Request(ip), begin, clock, end), before);
    }

    /** The address gets exactly these rules and no other address is touched; without any limits there
        is nothing to set. */
    method SetPolicyFor(ip: Ip, rules: seq<Rule>, begin: nat, clock: Clock, end: nat) returns (answer: Answer)
      requires Valid() && InTime(Event(SetPolicy(ip, rules), begin, clock, end)) && Now() <= begin
      modifies this`lists, this`tagged, this`events
      ensures events == old(events) + [Event(SetPolicy(ip, rules), begin, clock, end)] && Valid() && Guaranteed()
      ensures answer == if mode.NoLimits? then WrongMode(NoLimits) else Done
      ensures !mode.NoLimits? ==> RulesFor(View(), ip) == rules
      ensures forall other :: other != ip || mode.NoLimits? ==> RulesFor(View(), other) == RulesFor(old(View()), other)
    {
      hide Run, InTime;
      ghost var before := View();
      match mode {
        case NoLimits => answer := WrongMode(NoLimits);
        case PerIp =>
          lists := lists[ip := Fresh(rules, clock)];
          answer := Done;
        case Global =>
          tagged := tagged[ip := Tag(Fresh(rules, clock), false)];
          answer := Done;
      }
      ghost var e := Event(SetPolicy(ip, rules), begin, clock, end);
      assert View() == Step(before, e).0;
      forall other
        ensures !mode.NoLimits? ==> RulesFor(View(), ip) == rules
        ensures other != ip || mode.NoLimits? ==> RulesFor(View(), other) == RulesFor(before, other)
      {
        SetPolicyRules(before, e, other);
      }
      Record(e, before);
    }

    /** Drops every list that does not start with a specific rule, one key after another. */
    method RetainSpecific()
      modifies this`tagged
      ensures tagged == SpecificOnly(old(tagged))
    {
      var todo := tagged.Keys;
      while todo != {}
        invariant todo <= old(tagged).Keys
        invariant forall ip :: ip in tagged <==> ip in old(tagged) && (ip in todo || IsSpecific(old(tagged)[ip]))
        invariant forall ip :: ip in tagged ==> tagged[ip] == old(tagged)[ip]
        decreases |todo|
      {
        var ip :| ip in todo;
        todo := todo - {ip};
        if !IsSpecific(tagged[ip]) {
          tagged := tagged - {ip};
        }
      }
    }

    /** Addresses with a non-empty list of their own keep their rules; the new rules are in force for
        everybody else. */
    method SetGlobalRules(rules: seq<Rule>, begin: nat, clock: Clock, end: nat) returns (answer: Answer)
      requires Valid() && InTime(Event(SetGlobalPolicy(rules), begin, clock, end)) && Now() <= begin
      modifies this`global, this`tagged, this`events
      ensures events == old(events) + [Event(SetGlobalPolicy(rules), begin, clock, end)] && Valid() && Guaranteed()
      ensures answer == if mode.Global? then Done else WrongMode(mode)
      ensures forall ip :: RulesFor(View(), ip) ==
                if mode.Global? && !HasOwn(old(View()), ip) then rules else RulesFor(old(View()), ip)
    {
      hide Run, InTime;
      ghost var before := View();
      match mode {
        case NoLimits => answer := WrongMode(NoLimits);
        case PerIp => answer := WrongMode(PerIp);
        case Global =>
          global := rules;
          RetainSpecific();
          answer := Done;
      }
      ghost var e := Event(SetGlobalPolicy(rules), begin, clock, end);
      assert View() == Step(before, e).0;
      Record(e, before);
    }

    /** Moves the specific lists over to per-address mode, without their tags. */
    method UntagSpecific()
      modifies this`lists
      ensures lists == map ip | ip in SpecificOnly(tagged) :: Values(tagged[ip])
    {
      lists := map[];
      var todo := tagged.Keys;
      while todo != {}
        invariant todo <= tagged.Keys
        invariant forall ip :: ip in lists <==> ip in tagged && ip !in todo && IsSpecific(tagged[ip])
        invariant forall ip :: ip in lists ==> lists[ip] == Values(tagged[ip])
        decreases |todo|
      {
        var ip :| ip in todo;
        todo := todo - {ip};
        if IsSpecific(tagged[ip]) {
          lists := lists[ip := Values(tagged[ip])];
        }
      }
    }

    /** Moves all lists over to global mode, tagged as specific. */
    method TagAll()
      modifies this`tagged
      ensures tagged == map ip | ip in lists :: Tag(lists[ip], false)
    {
      tagged := map[];
      var todo := lists.Keys;
      while todo != {}
        invariant todo <= lists.Keys
        invariant forall ip :: ip in tagged <==> ip in lists && ip !in todo
        invariant forall ip :: ip in tagged ==> tagged[ip] == Tag(lists[ip], false)
        decreases |todo|
      {
        var ip :| ip in todo;
        todo := todo - {ip};
        tagged := tagged[ip := Tag(lists[ip], false)];
      }
    }

    /** A change of mode keeps the rules of every address that has some of its own; the others are left
        without limits. Staying in a mode changes nothing, and without limits nobody keeps any. */
    method SetPolicyType(target: Mode, begin: nat, clock: Clock, end: nat)
      requires Valid() && InTime(Event(SetMode(target), begin, clock, end)) && Now() <= begin
      modifies this
      ensures events == old(events) + [Event(SetMode(target), begin, clock, end)] && Valid() && Guaranteed()
      ensures mode == target
      ensures forall ip :: RulesFor(View(), ip) ==
                if target == old(mode) || (!target.NoLimits? && HasOwn(old(View()), ip)) then RulesFor(old(View()), ip)
                else []
    {
      hide Run, InTime;
      ghost var before := View();
      match target {
        case NoLimits => mode := NoLimits;
        case PerIp =>
          if mode.NoLimits? {
            lists := map[];
          } else if mode.Global? {
            UntagSpecific();
          }
          mode := PerIp;
        case Global =>
          if mode.NoLimits? {
            global, tagged := [], map[];
          } else if mode.PerIp? {
            global := [];
            TagAll();
          }
          mode := Global;
      }
      ghost var e := Event(SetMode(target), begin, clock, end);
      assert View() == Step(before, e).0;
      forall ip
        ensures RulesFor(View(), ip) ==
                if target == ModeOf(before) || (!target.NoLimits? && HasOwn(before, ip)) then RulesFor(before, ip) else []
      {
        ModeRules(before, target, ip);
      }
      Record(e, before);
    }

    /** The address falls back to the global rules, if there are any, and no other address is touched. */
    method Clear(ip: Ip, begin: nat, clock: Clock, end: nat)
      requires Valid() && InTime(Event(ClearRules(ip), begin, clock, end)) && Now() <= begin
      modifies this`lists, this`tagged, this`events
      ensures events == old(events) + [Event(ClearRules(ip), begin, clock, end)] && Valid() && Guaranteed()
      ensures RulesFor(View(), ip) == if mode.Global? then global else []
      ensures forall other :: other != ip ==> RulesFor(View(), other) == RulesFor(old(View()), other)
    {
      hide Run, InTime;
      ghost var before := View();
      if mode.PerIp? {
        lists := lists - {ip};
      } else if mode.Global? {
        tagged := tagged - {ip};
      }
      ghost var e := Event(ClearRules(ip), begin, clock, end);
      assert View() == Step(before, e).0;
      Record(e, before);
    }
  }

  /** The address has a non-empty list that a change of the global rules or of the mode keeps. */
  ghost predicate HasOwn(l: Limiter, ip: Ip) {
    (l.Per? && ip in l.lists && l.lists[ip] != []) || (l.WithGlobal? && ip in l.tagged && IsSpecific(l.tagged[ip]))
  }

  lemma SetPolicyRules(l: Limiter, e: Event, other: Ip)
    requires e.command.SetPolicy?
    ensures !l.Unlimited? ==> RulesFor(Step(l, e).0, e.command.target) == e.command.rules
    ensures other != e.command.target || l.Unlimited? ==> RulesFor(Step(l, e).0, other) == RulesFor(l, other)
  {
    FreshRules(e.command.rules, e.clock);
    var list := Fresh(e.command.rules, e.clock);
    assert Values(Tag(list, false)) == list;
  }

  lemma ModeRules(l: Limiter, target: Mode, ip: Ip)
    ensures RulesFor(ChangeMode(l, target), ip) ==
            if target == ModeOf(l) || (!target.NoLimits? && HasOwn(l, ip)) then RulesFor(l, ip) else []
  {
    if l.Per? && ip in l.lists {
      assert Values(Tag(l.lists[ip], false)) == l.lists[ip];
    }
  }

  lemma InitialIsUniform(l: Limiter)
    requires Initial(l)
    ensures PolicyMigration.Uniform(l)
  {
  }

  lemma {:induction false} RunAppend(l: Limiter, events: seq<Event>, e: Event)
    ensures Run(l, events + [e]) == Step(Run(l, events), e).0
    decreases |events|
  {
    hide Step;
    var more := events + [e];
    if events == [] {
      assert more[1..] == [];
    } else {
      assert more[1..] == events[1..] + [e];
      RunAppend(Step(l, events[0]).0, events[1..], e);
    }
  }

  lemma {:induction false} RunSplits(l: Limiter, events: seq<Event>, i: nat)
    requires i < |events|
    ensures Run(l, events) == Run(Step(Run(l, events[..i]), events[i]).0, events[i + 1..])
    decreases i
  {
    hide Step;
    if i == 0 {
    } else {
      RunSplits(Step(l, events[0]).0, events[1..], i - 1);
      assert events[..i][1..] == events[1..][..i - 1] && events[1..][i..] == events[i + 1..];
    }
  }

  lemma AnswerIsJustified(start: Limiter, events: seq<Event>, i: nat, e: Event, ip: Ip)
    requires i < |events| && e.command == Request(ip)
    ensures Justified(start, events, i, ip, e.clock, Step(Run(start, events), e).1)
  {
    hide Run, Step, Undisturbed, AllShouldGrant, ClocksOf, Listed;
    var l, given, later := Run(start, events[..i]), events[i], events[i + 1..];
    RunSplits(start, events, i);
    if Undisturbed(Step(l, given).0, later, ip) {
      if given.command.SetPolicy? && given.command.target == ip && !l.Unlimited? {
        OwnRulesDecideExactly(l, given, later, e, ip, given.command.rules);
      }
      if given.command == Request(ip) && l.WithGlobal? && !Listed(l, ip) {
        GlobalRulesDecideExactly(l, given, later, e, ip);
      }
    }
  }

  lemma ChronologicalAppend(events: seq<Event>, e: Event)
    requires Chronological(events) && InTime(e)
    requires events != [] ==> events[|events| - 1].end <= e.begin
    ensures Chronological(events + [e])
  {
    hide InTime;
    forall i | 0 <= i < |events| ensures events[i].end <= e.begin {
      if i < |events| - 1 {
        EndsInOrder(events, i);
      }
    }
  }

  lemma EndsInOrder(events: seq<Event>, i: nat)
    requires Chronological(events) && i < |events| - 1
    ensures events[i].end <= events[|events| - 1].end
  {
    assert InTime(events[|events| - 1]);
  }

  lemma AllBounded(start: Limiter, events: seq<Event>)
    requires Initial(start) && Chronological(events)
    ensures forall ip, i, k :: Bounded(start, events, ip, i, k)
  {
    hide Chronological, Run, Undisturbed, Granted, Bound, RulesFor, Initial;
    forall ip, i: nat, k: nat ensures Bounded(start, events, ip, i, k) {
      if i < |events| && Undisturbed(Run(start, events[..i]), events[i..], ip) {
        var l := Run(start, events[..i]);
        if k < |RulesFor(l, ip)| && RulesFor(l, ip)[k].maxRequests >= 1 {
          assert events[..i] + events[i..] == events;
          EveryRuleBoundsEveryWindow(start, events[..i], events[i..], ip, k);
        }
      }
    }
  }
}

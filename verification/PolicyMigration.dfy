/** What the administrator's commands keep: lists are never mixed, and a trip through the global
    mode brings the rules of every address back. */
module PolicyMigration {
  import opened TokenBucket
  import opened RateLimiting
  import RateLimitingGuarantees

  ghost predicate AllTagged(list: seq<Tagged>, isGlobal: bool) {
    forall k :: 0 <= k < |list| ==> list[k].isGlobal == isGlobal
  }

  ghost predicate Uniform(l: Limiter) {
    l.WithGlobal? ==> forall ip :: ip in l.tagged ==> AllTagged(l.tagged[ip], true) || AllTagged(l.tagged[ip], false)
  }

  lemma StepKeepsUniform(l: Limiter, e: Event)
    requires Uniform(l)
    ensures Uniform(Step(l, e).0)
  {
    hide CheckFrom;
    var l' := Step(l, e).0;
    if l'.WithGlobal? {
      forall ip | ip in l'.tagged ensures AllTagged(l'.tagged[ip], true) || AllTagged(l'.tagged[ip], false) {
        if l.WithGlobal? && ip in l.tagged {
          assert AllTagged(l.tagged[ip], true) || AllTagged(l.tagged[ip], false);
        }
        if l.Per? && ip in l.lists {
          assert AllTagged(l'.tagged[ip], false);
        }
      }
    }
  }

  /** Every list of every reachable state is all-global or all-specific. */
  lemma {:induction false} ListsAreNeverMixed(l: Limiter, events: seq<Event>)
    requires Uniform(l)
    ensures Uniform(Run(l, events))
    decreases |events|
  {
    hide Step, Uniform;
    if events == [] {
    } else {
      StepKeepsUniform(l, events[0]);
      ListsAreNeverMixed(Step(l, events[0]).0, events[1..]);
    }
  }

  /** A change of the global rules keeps exactly the non-empty lists that are specific throughout,
      unchanged. */
  lemma GlobalChangeKeepsSpecific(start: Limiter, events: seq<Event>, e: Event, ip: Ip)
    requires Initial(start) && Run(start, events).WithGlobal? && e.command.SetGlobalPolicy?
    ensures var l, l' := Run(start, events), Step(Run(start, events), e).0;
            && l'.WithGlobal? && l'.global == e.command.rules
            && (ip in l'.tagged <==> ip in l.tagged && l.tagged[ip] != [] && AllTagged(l.tagged[ip], false))
            && (ip in l'.tagged ==> l'.tagged[ip] == l.tagged[ip])
  {
    hide Run;
    ListsAreNeverMixed(start, events);
  }

  // --- there and back -------------------------------------------------------------------------

  /** The commands of a stay in the global mode: requests and changes of the global rules. */
  ghost predicate IsStay(events: seq<Event>) {
    forall i :: 0 <= i < |events| ==> events[i].command.Request? || events[i].command.SetGlobalPolicy?
  }

  /** The specific lists of a stay are the original ones, up to the state of their buckets. */
  ghost predicate Carries(original: map<Ip, seq<Bucket>>, l: Limiter) {
    && l.WithGlobal?
    && (forall ip :: ip in original && original[ip] != [] ==> ip in l.tagged && CarriesList(original[ip], l.tagged[ip]))
    && (forall ip :: ip in l.tagged && IsSpecific(l.tagged[ip]) ==> ip in original && original[ip] != [])
  }

  ghost predicate CarriesList(list: seq<Bucket>, tagged: seq<Tagged>) {
    AllTagged(tagged, false) && Rules(Values(tagged)) == Rules(list)
  }

  lemma RequestCarries(original: map<Ip, seq<Bucket>>, l: Limiter, ip: Ip, clock: Clock)
    requires Carries(original, l)
    ensures Carries(original, CheckIp(l, ip, clock).0)
  {
    hide CheckFrom;
    var l' := CheckIp(l, ip, clock).0;
    if ip in l.tagged {
      var list := CheckList(Values(l.tagged[ip]), clock, 0).0;
      RateLimitingGuarantees.ListCheckKeepsRules(Values(l.tagged[ip]), clock, 0);
      assert Values(l'.tagged[ip]) == list;
      assert IsSpecific(l'.tagged[ip]) <==> IsSpecific(l.tagged[ip]);
      if ip in original && original[ip] != [] {
        assert CarriesList(original[ip], l.tagged[ip]);
        assert CarriesList(original[ip], l'.tagged[ip]);
      }
    }
  }

  lemma GlobalChangeCarries(original: map<Ip, seq<Bucket>>, l: Limiter, e: Event)
    requires Carries(original, l) && e.command.SetGlobalPolicy?
    ensures Carries(original, Step(l, e).0)
  {
    var l' := Step(l, e).0;
    forall ip | ip in original && original[ip] != []
      ensures ip in l'.tagged && CarriesList(original[ip], l'.tagged[ip])
    {
      assert CarriesList(original[ip], l.tagged[ip]);
      assert |l.tagged[ip]| == |Rules(Values(l.tagged[ip]))| == |original[ip]|;
    }
  }

  lemma {:induction false} StayCarries(original: map<Ip, seq<Bucket>>, l: Limiter, stay: seq<Event>)
    requires Carries(original, l) && IsStay(stay)
    ensures Carries(original, Run(l, stay))
    decreases |stay|
  {
    hide Carries;
    if stay == [] {
    } else {
      if stay[0].command.Request? {
        RequestCarries(original, l, stay[0].command.ip, stay[0].clock);
      } else {
        GlobalChangeCarries(original, l, stay[0]);
      }
      StayCarries(original, Step(l, stay[0]).0, stay[1..]);
    }
  }

  function RuleSets(lists: map<Ip, seq<Bucket>>): map<Ip, seq<Rule>> {
    map ip | ip in lists :: Rules(lists[ip])
  }

  function NonEmpty(sets: map<Ip, seq<Rule>>): map<Ip, seq<Rule>> {
    map ip | ip in sets && sets[ip] != [] :: sets[ip]
  }

  /** Where a trip from the per-address mode to the global one and back ends. */
  function ThereAndBack(lists: map<Ip, seq<Bucket>>, stay: seq<Event>): Limiter {
    ChangeMode(Run(ChangeMode(Per(lists), Global), stay), PerIp)
  }

  /** The trip restores exactly the non-empty rule sets. */
  lemma TripRestoresRules(lists: map<Ip, seq<Bucket>>, stay: seq<Event>)
    requires IsStay(stay)
    ensures ThereAndBack(lists, stay).Per?
    ensures RuleSets(ThereAndBack(lists, stay).lists) == NonEmpty(RuleSets(lists))
  {
    hide Run, Carries, Rules, IsStay;
    var there := ChangeMode(Per(lists), Global);
    ThereCarries(lists);
    StayCarries(lists, there, stay);
    BackRestores(lists, Run(there, stay));
  }

  lemma ThereCarries(lists: map<Ip, seq<Bucket>>)
    ensures Carries(lists, ChangeMode(Per(lists), Global))
  {
    var there := ChangeMode(Per(lists), Global);
    forall ip | ip in lists ensures CarriesList(lists[ip], there.tagged[ip]) {
      assert Values(there.tagged[ip]) == lists[ip];
    }
  }

  lemma BackRestores(lists: map<Ip, seq<Bucket>>, l: Limiter)
    requires Carries(lists, l)
    ensures RuleSets(ChangeMode(l, PerIp).lists) == NonEmpty(RuleSets(lists))
  {
    var back := ChangeMode(l, PerIp).lists;
    forall ip ensures ip in back <==> ip in lists && lists[ip] != []
      ensures ip in back ==> Rules(back[ip]) == Rules(lists[ip])
    {
      if ip in lists && lists[ip] != [] {
        assert CarriesList(lists[ip], l.tagged[ip]);
        assert |Rules(Values(l.tagged[ip]))| == |lists[ip]|;
      }
    }
  }

  /** An address with an empty list, and so without limits of its own, is forgotten on the way. */
  lemma EmptyListIsDropped(ip: Ip)
    ensures ThereAndBack(map[ip := []], []) == Per(map[])
  {
    var there := ChangeMode(Per(map[ip := []]), Global);
    assert there.tagged[ip] == [];
    assert SpecificOnly(there.tagged) == map[];
  }

  /** So it restores every rule set exactly when no address had an empty one. */
  lemma TripIsLosslessExactly(lists: map<Ip, seq<Bucket>>, stay: seq<Event>)
    requires IsStay(stay)
    ensures ThereAndBack(lists, stay).Per?
    ensures RuleSets(ThereAndBack(lists, stay).lists) == RuleSets(lists) <==> [] !in lists.Values
  {
    hide ThereAndBack, IsStay;
    TripRestoresRules(lists, stay);
    if [] in lists.Values {
      var ip :| ip in lists && lists[ip] == [];
      assert ip !in NonEmpty(RuleSets(lists)) && ip in RuleSets(lists);
    } else {
      forall ip | ip in lists ensures Rules(lists[ip]) != [] {
        assert lists[ip] in lists.Values;
        assert |Rules(lists[ip])| == |lists[ip]|;
      }
      assert NonEmpty(RuleSets(lists)) == RuleSets(lists);
    }
  }
}

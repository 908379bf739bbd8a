/** The firewall's rate limiter: rule lists per address, an optional global rule list that is
    instantiated per address on first use, and the administrator's commands. */
module RateLimiting {
  import opened TokenBucket

  type Ip = nat

  /** The clock readings of one call, in order. */
  type Clock = nat -> nat

  datatype Tagged = Tagged(isGlobal: bool, bucket: Bucket)

  datatype Limiter =
    | Unlimited
    | Per(lists: map<Ip, seq<Bucket>>)
    | WithGlobal(global: seq<Rule>, tagged: map<Ip, seq<Tagged>>)

  datatype Mode = NoLimits | PerIp | Global

  datatype Command =
    | Request(ip: Ip)
    | SetPolicy(target: Ip, rules: seq<Rule>)
    | SetGlobalPolicy(rules: seq<Rule>)
    | SetMode(mode: Mode)
    | ClearRules(target: Ip)

  /** A call with its clock readings, all of them within the call. */
  datatype Event = Event(command: Command, begin: nat, clock: Clock, end: nat)

  datatype Answer = Done | RateLimitExceeded(max: nat) | WrongMode(mode: Mode)

  // --- lists ----------------------------------------------------------------------------------

  function Rules(list: seq<Bucket>): seq<Rule> {
    seq(|list|, i requires 0 <= i < |list| => list[i].rule)
  }

  function Values(list: seq<Tagged>): seq<Bucket> {
    seq(|list|, i requires 0 <= i < |list| => list[i].bucket)
  }

  function Retag(list: seq<Tagged>, buckets: seq<Bucket>): seq<Tagged>
    requires |buckets| == |list|
  {
    seq(|list|, i requires 0 <= i < |list| => list[i].(bucket := buckets[i]))
  }

  function Tag(buckets: seq<Bucket>, isGlobal: bool): seq<Tagged> {
    seq(|buckets|, i requires 0 <= i < |buckets| => Tagged(isGlobal, buckets[i]))
  }

  function Fresh(rules: seq<Rule>, clock: Clock): seq<Bucket> {
    seq(|rules|, i requires 0 <= i < |rules| => New(rules[i], clock(i)))
  }

  /** Checks the rules of a list from the i-th on, stopping at the first that refuses. The k-th
      rule is checked at clock reading skipped + k. */
  function CheckFrom(list: seq<Bucket>, i: nat, clock: Clock, skipped: nat): (r: (seq<Bucket>, Answer))
    requires i <= |list|
    ensures |r.0| == |list|
    decreases |list| - i
  {
    if i == |list| then (list, Done)
    else
      var (b, ok) := TokenBucket.Check(list[i], clock(skipped + i));
      if ok then CheckFrom(list[i := b], i + 1, clock, skipped)
      else (list[i := b], RateLimitExceeded(b.rule.maxRequests))
  }

  function CheckList(list: seq<Bucket>, clock: Clock, skipped: nat): (r: (seq<Bucket>, Answer))
    ensures |r.0| == |list|
  {
    CheckFrom(list, 0, clock, skipped)
  }

  // --- the limiter ----------------------------------------------------------------------------

  function CheckIp(l: Limiter, ip: Ip, clock: Clock): (Limiter, Answer) {
    match l
    case Unlimited => (l, Done)
    case Per(lists) =>
      if ip !in lists then (l, Done)
      else
        var (list, answer) := CheckList(lists[ip], clock, 0);
        (Per(lists[ip := list]), answer)
    case WithGlobal(global, tagged) =>
      if ip in tagged then
        var (list, answer) := CheckList(Values(tagged[ip]), clock, 0);
        (WithGlobal(global, tagged[ip := Retag(tagged[ip], list)]), answer)
      else
        var (list, answer) := CheckList(Fresh(global, clock), clock, |global|);
        if answer.Done? then (WithGlobal(global, tagged[ip := Tag(list, true)]), answer) else (l, answer)
  }

  /** A list the administrator's filters keep: its first rule is not a global one. */
  predicate IsSpecific(list: seq<Tagged>) {
    list != [] && !list[0].isGlobal
  }

  function SpecificOnly(tagged: map<Ip, seq<Tagged>>): map<Ip, seq<Tagged>> {
    map ip | ip in tagged && IsSpecific(tagged[ip]) :: tagged[ip]
  }

  function ChangeMode(l: Limiter, mode: Mode): Limiter {
    match (mode, l)
    case (NoLimits, _) => Unlimited
    case (PerIp, Unlimited) => Per(map[])
    case (PerIp, Per(_)) => l
    case (PerIp, WithGlobal(_, tagged)) => Per(map ip | ip in SpecificOnly(tagged) :: Values(tagged[ip]))
    case (Global, Unlimited) => WithGlobal([], map[])
    case (Global, Per(lists)) => WithGlobal([], map ip | ip in lists :: Tag(lists[ip], false))
    case (Global, WithGlobal(_, _)) => l
  }

  function ModeOf(l: Limiter): Mode {
    match l
    case Unlimited => NoLimits
    case Per(_) => PerIp
    case WithGlobal(_, _) => Global
  }

  function Step(l: Limiter, e: Event): (Limiter, Answer) {
    match e.command
    case Request(ip) => CheckIp(l, ip, e.clock)
    case SetPolicy(ip, rules) =>
      (match l
       case Unlimited => (l, WrongMode(NoLimits))
       case Per(lists) => (Per(lists[ip := Fresh(rules, e.clock)]), Done)
       case WithGlobal(global, tagged) =>
         (WithGlobal(global, tagged[ip := Tag(Fresh(rules, e.clock), false)]), Done))
    case SetGlobalPolicy(rules) =>
      if l.WithGlobal? then (WithGlobal(rules, SpecificOnly(l.tagged)), Done) else (l, WrongMode(ModeOf(l)))
    case SetMode(mode) => (ChangeMode(l, mode), Done)
    case ClearRules(ip) =>
      (match l
       case Unlimited => l
       case Per(lists) => Per(lists - {ip})
       case WithGlobal(global, tagged) => WithGlobal(global, tagged - {ip}), Done)
  }

  function Run(l: Limiter, events: seq<Event>): Limiter
    decreases |events|
  {
    if events == [] then l else Run(Step(l, events[0]).0, events[1..])
  }

  predicate Initial(l: Limiter) {
    l.Unlimited? || (l.Per? && l.lists == map[]) || (l.WithGlobal? && l.tagged == map[])
  }

  ghost predicate InTime(e: Event) {
    && e.begin <= e.end
    && (forall k: nat :: e.begin <= e.clock(k) <= e.end)
    && (forall j: nat, k: nat :: j <= k ==> e.clock(j) <= e.clock(k))
  }

  ghost predicate Chronological(events: seq<Event>) {
    && (forall i :: 0 <= i < |events| ==> InTime(events[i]))
    && (forall i, j :: 0 <= i < j < |events| ==> events[i].end <= events[j].begin)
  }

  // --- what a list check does -----------------------------------------------------------------

  ghost predicate Passes(list: seq<Bucket>, clock: Clock, skipped: nat, from: nat, to: nat)
    requires to <= |list|
  {
    forall m: nat :: from <= m < to ==> TokenBucket.Check(list[m], clock(skipped + m)).1
  }

  ghost predicate Refuses(list: seq<Bucket>, clock: Clock, skipped: nat, from: nat, k: nat)
    requires k < |list|
  {
    Passes(list, clock, skipped, from, k) && !TokenBucket.Check(list[k], clock(skipped + k)).1
  }

  /** Every rule up to the first refusal is charged, the rest are untouched; the request passes
      exactly if every rule passes it, and otherwise the answer names the first refusing rule. */
  lemma {:induction false} CheckFromMeaning(list: seq<Bucket>, i: nat, clock: Clock, skipped: nat)
    requires i <= |list|
    ensures var (after, answer) := CheckFrom(list, i, clock, skipped);
            && (forall k :: 0 <= k < |list| ==>
                 after[k] == if k >= i && Passes(list, clock, skipped, i, k)
                             then TokenBucket.Check(list[k], clock(skipped + k)).0 else list[k])
            && (answer.Done? <==> Passes(list, clock, skipped, i, |list|))
            && (!answer.Done? ==> exists k :: i <= k < |list| && Refuses(list, clock, skipped, i, k)
                                              && answer == RateLimitExceeded(list[k].rule.maxRequests))
    decreases |list| - i
  {
    hide TokenBucket.Check;
    if i < |list| {
      var (b, ok) := TokenBucket.Check(list[i], clock(skipped + i));
      CheckKeepsRule(list[i], clock(skipped + i));
      if ok {
        var next := list[i := b];
        CheckFromMeaning(next, i + 1, clock, skipped);
        forall k: nat | i <= k <= |list|
          ensures k > i ==> (Passes(list, clock, skipped, i, k) <==> Passes(next, clock, skipped, i + 1, k))
        {
          if k > i && Passes(next, clock, skipped, i + 1, k) {
            forall m: nat | i <= m < k ensures TokenBucket.Check(list[m], clock(skipped + m)).1 {
              if m > i { assert next[m] == list[m]; }
            }
          }
          if k > i && Passes(list, clock, skipped, i, k) {
            forall m: nat | i + 1 <= m < k ensures TokenBucket.Check(next[m], clock(skipped + m)).1 {
              assert next[m] == list[m];
            }
          }
        }
        var (after, answer) := CheckFrom(next, i + 1, clock, skipped);
        if !answer.Done? {
          var k :| i + 1 <= k < |list| && Refuses(next, clock, skipped, i + 1, k)
                   && answer == RateLimitExceeded(next[k].rule.maxRequests);
          assert Refuses(list, clock, skipped, i, k);
        }
      } else {
        assert Refuses(list, clock, skipped, i, i);
        forall k: nat | i < k <= |list| ensures !Passes(list, clock, skipped, i, k) {
          assert !TokenBucket.Check(list[i], clock(skipped + i)).1;
        }
      }
    }
  }

  lemma CheckKeepsRule(b: Bucket, now: nat)
    ensures TokenBucket.Check(b, now).0.rule == b.rule
  {
  }

}

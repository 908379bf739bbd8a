/** The origin fetch scheduler: bounded concurrency, one fetch per uri at a time, and a
    first-in-first-out overflow queue. */
module Fetcher {
  type Uri = nat
  type Hash = nat

  /** Requests are numbered in order of arrival; each has one waiter. */
  type Waiter = nat

  datatype Pointer = Pointer(origin: nat, uri: Uri)

  datatype Outcome = Fetched(hash: Hash) | Failed(error: nat)

  /** One use of a uri's channel: its waiters, who asked from request `first` on, before request
      `upto`, the outcome, and the waiters that missed it because they had left. */
  datatype Delivery = Delivery(
    uri: Uri, first: Waiter, upto: Waiter, waiters: set<Waiter>, missed: set<Waiter>, outcome: Outcome)

  /** The channel of a pending uri: the request that opened it, and its subscribers. */
  datatype Channel = Channel(first: Waiter, waiters: set<Waiter>)

  /** `left` are the waiters that have dropped their receiver; a stopped fetcher has panicked. */
  datatype State = State(
    tasks: seq<Pointer>, queue: seq<Pointer>, pending: map<Uri, Channel>, left: set<Waiter>, stopped: bool, past: History)

  datatype History = History(
    asked: seq<Uri>,
    admitted: seq<Pointer>,
    started: seq<Pointer>,
    deliveries: seq<Delivery>,
    published: seq<(Hash, Pointer)>,
    lost: set<Uri>)

  const INITIAL := State([], [], map[], {}, false, History([], [], [], [], [], {}))

  datatype Event =
    | Request(pointer: Pointer, gone: bool)
    | Leave(waiter: Waiter)
    | Finished(task: nat, outcome: Outcome)
    | Panicked(task: nat)

  function Spawn(s: State, p: Pointer): State {
    s.(tasks := s.tasks + [p], past := s.past.(started := s.past.started + [p]))
  }

  function Admit(capacity: nat, s: State, p: Pointer): State {
    var s1 := s.(past := s.past.(admitted := s.past.admitted + [p]));
    if |s.tasks| < capacity then Spawn(s1, p) else s1.(queue := s.queue + [p])
  }

  function Subscribe(capacity: nat, s: State, p: Pointer): State {
    var w := |s.past.asked|;
    var s1 := s.(past := s.past.(asked := s.past.asked + [p.uri]));
    if p.uri in s.pending then
      var c := s.pending[p.uri];
      s1.(pending := s.pending[p.uri := c.(waiters := c.waiters + {w})])
    else Admit(capacity, s1, p).(pending := s.pending[p.uri := Channel(w, {w})])
  }

  /** A requester that is gone before it gets its receiver stops the fetcher. */
  function HandleRequest(capacity: nat, s: State, p: Pointer, gone: bool): State {
    Subscribe(capacity, s, p).(stopped := gone)
  }

  function Without<T>(xs: seq<T>, i: nat): seq<T>
    requires i < |xs|
  {
    xs[..i] + xs[i + 1..]
  }

  function StartNext(capacity: nat, s: State): State {
    if |s.tasks| < capacity && s.queue != [] then Spawn(s.(queue := s.queue[1..]), s.queue[0]) else s
  }

  function Deliver(s: State, uri: Uri, outcome: Outcome): State {
    if uri !in s.pending then s
    else
      var c := s.pending[uri];
      var d := Delivery(uri, c.first, |s.past.asked|, c.waiters, c.waiters * s.left, outcome);
      s.(pending := s.pending - {uri}, past := s.past.(deliveries := s.past.deliveries + [d]))
  }

  function Publish(s: State, p: Pointer, outcome: Outcome): State {
    if outcome.Fetched? then s.(past := s.past.(published := s.past.published + [(outcome.hash, p)])) else s
  }

  /** Nobody is left to be told. */
  predicate NobodyWaits(s: State, uri: Uri) {
    uri in s.pending && s.pending[uri].waiters <= s.left
  }

  /** Sending to a channel without receivers stops the fetcher. */
  function HandleFinished(capacity: nat, s: State, i: nat, outcome: Outcome): State
    requires i < |s.tasks|
  {
    var p := s.tasks[i];
    if NobodyWaits(s, p.uri) then Publish(s, p, outcome).(stopped := true)
    else StartNext(capacity, Deliver(Publish(s.(tasks := Without(s.tasks, i)), p, outcome), p.uri, outcome))
  }

  /** A task that panics is only logged: its channel stays open. */
  function HandlePanicked(capacity: nat, s: State, i: nat): State
    requires i < |s.tasks|
  {
    StartNext(capacity, s.(tasks := Without(s.tasks, i), past := s.past.(lost := s.past.lost + {s.tasks[i].uri})))
  }

  function Step(capacity: nat, s: State, e: Event): State {
    if s.stopped then s
    else
      match e
      case Request(p, gone) => HandleRequest(capacity, s, p, gone)
      case Leave(w) => if w < |s.past.asked| then s.(left := s.left + {w}) else s
      case Finished(i, outcome) => if i < |s.tasks| then HandleFinished(capacity, s, i, outcome) else s
      case Panicked(i) => if i < |s.tasks| then HandlePanicked(capacity, s, i) else s
  }

  // --- invariant ------------------------------------------------------------------------------

  /** The fetches in progress, running or queued. */
  function Live(s: State): seq<Pointer> {
    s.tasks + s.queue
  }

  ghost predicate DistinctUris(ps: seq<Pointer>) {
    forall i, j :: 0 <= i < j < |ps| ==> ps[i].uri != ps[j].uri
  }

  ghost predicate HasUri(ps: seq<Pointer>, uri: Uri) {
    exists i :: 0 <= i < |ps| && ps[i].uri == uri
  }

  /** Who asked for a uri among the requests of a range. */
  ghost function Askers(asked: seq<Uri>, uri: Uri, from: Waiter, to: Waiter): set<Waiter>
    requires to <= |asked|
  {
    set w: Waiter | from <= w < to && asked[w] == uri
  }

  ghost predicate Scheduled(capacity: nat, s: State) {
    && |s.tasks| <= capacity
    && (s.queue != [] ==> |s.tasks| == capacity)
    && s.past.admitted == s.past.started + s.queue
    && DistinctUris(Live(s))
    && (forall uri :: uri in s.pending <==> HasUri(Live(s), uri) || uri in s.past.lost)
    && (forall uri :: uri in s.past.lost ==> !HasUri(Live(s), uri))
  }

  ghost predicate GoodChannel(asked: seq<Uri>, uri: Uri, c: Channel) {
    && c.first < |asked| && asked[c.first] == uri
    && c.waiters == Askers(asked, uri, c.first, |asked|)
  }

  ghost predicate GoodDelivery(asked: seq<Uri>, d: Delivery) {
    && d.first < d.upto <= |asked| && asked[d.first] == d.uri
    && d.waiters == Askers(asked, d.uri, d.first, d.upto)
  }

  /** No two uses of one uri's channel overlap. */
  ghost predicate Before(d: Delivery, e: Delivery) {
    d.uri == e.uri ==> d.upto <= e.first
  }

  /** Every request is answered or waits on an open channel. */
  ghost predicate Accounted(s: State, w: Waiter)
    requires w < |s.past.asked|
  {
    || (s.past.asked[w] in s.pending && w in s.pending[s.past.asked[w]].waiters)
    || (exists i :: 0 <= i < |s.past.deliveries| && w in s.past.deliveries[i].waiters)
  }

  /** Somebody got the delivery, and whoever missed it had left. */
  ghost predicate ReachedSomebody(s: State, d: Delivery) {
    d.missed < d.waiters && d.missed <= s.left
  }

  ghost predicate Answered(s: State) {
    var asked, ds := s.past.asked, s.past.deliveries;
    && (forall i :: 0 <= i < |ds| ==> ReachedSomebody(s, ds[i]))
    && (forall uri :: uri in s.pending ==> GoodChannel(asked, uri, s.pending[uri]))
    && (forall i :: 0 <= i < |ds| ==> GoodDelivery(asked, ds[i]))
    && (forall i, j :: 0 <= i < j < |ds| ==> Before(ds[i], ds[j]))
    && (forall i :: 0 <= i < |ds| && ds[i].uri in s.pending ==> ds[i].upto <= s.pending[ds[i].uri].first)
    && (forall w: Waiter :: w < |asked| ==> Accounted(s, w))
  }

  ghost predicate Inv(capacity: nat, s: State) {
    Scheduled(capacity, s) && Answered(s)
  }

  lemma AppendUri(ps: seq<Pointer>, p: Pointer, uri: Uri)
    requires DistinctUris(ps) && !HasUri(ps, p.uri)
    ensures DistinctUris(ps + [p])
    ensures HasUri(ps + [p], uri) <==> HasUri(ps, uri) || uri == p.uri
  {
    var all := ps + [p];
    assert all[|ps|] == p;
    if HasUri(ps, uri) {
      var i :| 0 <= i < |ps| && ps[i].uri == uri;
      assert all[i].uri == uri;
    }
  }

  lemma RequestKeepsScheduled(capacity: nat, s: State, p: Pointer, gone: bool)
    requires Scheduled(capacity, s)
    ensures Scheduled(capacity, HandleRequest(capacity, s, p, gone))
  {
    hide HasUri, DistinctUris;
    var s' := HandleRequest(capacity, s, p, gone);
    if p.uri !in s.pending {
      assert Live(s') == Live(s) + [p];
      assert !HasUri(Live(s), p.uri);
      forall uri
        ensures DistinctUris(Live(s'))
        ensures HasUri(Live(s'), uri) <==> HasUri(Live(s), uri) || uri == p.uri
      {
        AppendUri(Live(s), p, uri);
      }
    }
  }

  lemma WithoutUri(ps: seq<Pointer>, i: nat, uri: Uri)
    requires i < |ps| && DistinctUris(ps)
    ensures DistinctUris(Without(ps, i))
    ensures HasUri(Without(ps, i), uri) <==> HasUri(ps, uri) && uri != ps[i].uri
  {
    var rest := Without(ps, i);
    forall k | 0 <= k < |rest| ensures rest[k] == if k < i then ps[k] else ps[k + 1] {
    }
    if HasUri(ps, uri) && uri != ps[i].uri {
      var k :| 0 <= k < |ps| && ps[k].uri == uri;
      assert rest[if k < i then k else k - 1].uri == uri;
    }
  }

  /** Ending a task takes one fetch out of the live ones and keeps the schedule. */
  lemma EndKeepsScheduled(capacity: nat, s: State, i: nat, s': State)
    requires Scheduled(capacity, s) && i < |s.tasks|
    requires exists s1: State :: IsEnd(s, i, s1) && s' == StartNext(capacity, s1)
    ensures Scheduled(capacity, s')
    ensures Live(s') == Without(Live(s), i)
  {
    hide HasUri, DistinctUris;
    var s1: State :| IsEnd(s, i, s1) && s' == StartNext(capacity, s1);
    assert Live(s') == Without(Live(s), i);
    assert Live(s)[i] == s.tasks[i];
    forall uri
      ensures DistinctUris(Live(s'))
      ensures HasUri(Live(s'), uri) <==> HasUri(Live(s), uri) && uri != s.tasks[i].uri
    {
      WithoutUri(Live(s), i, uri);
    }
    assert HasUri(Live(s), s.tasks[i].uri) by {
      HasUriAt(Live(s), i);
    }
  }

  lemma HasUriAt(ps: seq<Pointer>, i: nat)
    requires i < |ps|
    ensures HasUri(ps, ps[i].uri)
  {
  }

  /** A task has ended and its channel was closed, or its uri is lost. */
  ghost predicate IsEnd(s: State, i: nat, s1: State)
    requires i < |s.tasks|
  {
    && s1.tasks == Without(s.tasks, i) && s1.queue == s.queue
    && s1.past.admitted == s.past.admitted && s1.past.started == s.past.started
    && var uri := s.tasks[i].uri;
       || (s1.pending == s.pending - {uri} && s1.past.lost == s.past.lost)
       || (s1.pending == s.pending && s1.past.lost == s.past.lost + {uri})
  }

  lemma StepKeepsScheduled(capacity: nat, s: State, e: Event)
    requires Scheduled(capacity, s)
    ensures Scheduled(capacity, Step(capacity, s, e))
    ensures (e.Finished? || e.Panicked?) && e.task < |s.tasks| && !Step(capacity, s, e).stopped ==>
              Live(Step(capacity, s, e)) == Without(Live(s), e.task)
  {
    match e
    case Request(p, gone) => RequestKeepsScheduled(capacity, s, p, gone);
    case Leave(_) =>
    case Finished(i, outcome) =>
      if !s.stopped && i < |s.tasks| && !NobodyWaits(s, s.tasks[i].uri) {
        var p := s.tasks[i];
        assert Live(s)[i] == p;
        assert HasUri(Live(s), p.uri);
        var s1 := Publish(s.(tasks := Without(s.tasks, i)), p, outcome);
        assert IsEnd(s, i, Deliver(s1, p.uri, outcome));
        EndKeepsScheduled(capacity, s, i, Step(capacity, s, e));
      }
    case Panicked(i) =>
      if !s.stopped && i < |s.tasks| {
        assert IsEnd(s, i, s.(tasks := Without(s.tasks, i), past := s.past.(lost := s.past.lost + {s.tasks[i].uri})));
        EndKeepsScheduled(capacity, s, i, Step(capacity, s, e));
      }
  }

  lemma AskersGrow(asked: seq<Uri>, uri: Uri, next: Uri, from: Waiter, to: Waiter)
    requires from <= to <= |asked|
    ensures Askers(asked + [next], uri, from, to) == Askers(asked, uri, from, to)
    ensures Askers(asked + [next], uri, from, |asked| + 1) ==
            Askers(asked, uri, from, |asked|) + if next == uri then {|asked|} else {}
  {
  }

  lemma RequestKeepsChannels(capacity: nat, s: State, p: Pointer, gone: bool)
    requires Answered(s)
    ensures var s' := HandleRequest(capacity, s, p, gone);
            && (forall uri :: uri in s'.pending ==> GoodChannel(s'.past.asked, uri, s'.pending[uri]))
            && (forall i :: 0 <= i < |s'.past.deliveries| ==> GoodDelivery(s'.past.asked, s'.past.deliveries[i]))
  {
    hide Accounted, Before, Askers;
    var s' := HandleRequest(capacity, s, p, gone);
    var asked, w := s.past.asked, |s.past.asked|;
    forall uri | uri in s'.pending ensures GoodChannel(s'.past.asked, uri, s'.pending[uri]) {
      if uri in s.pending {
        AskersGrow(asked, uri, p.uri, s.pending[uri].first, w);
      } else {
        AskersGrow(asked, uri, p.uri, w, w);
        NoAskers(asked, uri, w);
      }
    }
    forall i | 0 <= i < |s.past.deliveries| ensures GoodDelivery(s'.past.asked, s.past.deliveries[i]) {
      var d := s.past.deliveries[i];
      AskersGrow(asked, d.uri, p.uri, d.first, d.upto);
    }
  }

  lemma NoAskers(asked: seq<Uri>, uri: Uri, w: Waiter)
    requires w <= |asked|
    ensures Askers(asked, uri, w, w) == {}
  {
  }

  lemma RequestKeepsAnswered(capacity: nat, s: State, p: Pointer, gone: bool)
    requires Answered(s)
    ensures Answered(HandleRequest(capacity, s, p, gone))
  {
    hide GoodChannel, Askers;
    RequestKeepsChannels(capacity, s, p, gone);
    var s' := HandleRequest(capacity, s, p, gone);
    forall w: Waiter | w < |s'.past.asked| ensures Accounted(s', w) {
      assert w < |s.past.asked| ==> Accounted(s, w);
    }
  }

  lemma DeliverKeepsAnswered(s: State, uri: Uri, outcome: Outcome)
    requires Answered(s) && !NobodyWaits(s, uri)
    ensures Answered(Deliver(s, uri, outcome))
  {
    hide Askers;
    var s' := Deliver(s, uri, outcome);
    if uri in s.pending {
      var n := |s.past.deliveries|;
      assert s'.past.deliveries[n].waiters == s.pending[uri].waiters;
      forall w: Waiter | w < |s.past.asked| ensures Accounted(s', w) {
        assert Accounted(s, w);
        if !(s.past.asked[w] in s.pending && w in s.pending[s.past.asked[w]].waiters) {
          var i :| 0 <= i < n && w in s.past.deliveries[i].waiters;
          assert w in s'.past.deliveries[i].waiters;
        }
      }
    }
  }

  lemma StepKeepsAnswered(capacity: nat, s: State, e: Event)
    requires Answered(s)
    ensures Answered(Step(capacity, s, e))
  {
    match e
    case Request(p, gone) => if !s.stopped { RequestKeepsAnswered(capacity, s, p, gone); }
    case Leave(_) => SameAnswers(s, Step(capacity, s, e));
    case Finished(i, outcome) =>
      if !s.stopped && i < |s.tasks| && !NobodyWaits(s, s.tasks[i].uri) {
        var p := s.tasks[i];
        var s1 := Publish(s.(tasks := Without(s.tasks, i)), p, outcome);
        SameAnswers(s, s1);
        DeliverKeepsAnswered(s1, p.uri, outcome);
        SameAnswers(Deliver(s1, p.uri, outcome), Step(capacity, s, e));
      } else {
        SameAnswers(s, Step(capacity, s, e));
      }
    case Panicked(_) => SameAnswers(s, Step(capacity, s, e));
  }

  lemma SameAnswers(s: State, s': State)
    requires Answered(s)
    requires s'.pending == s.pending && s'.past.asked == s.past.asked && s'.past.deliveries == s.past.deliveries
    requires s.left <= s'.left
    ensures Answered(s')
  {
    hide GoodChannel, GoodDelivery, Before;
    forall i | 0 <= i < |s.past.deliveries| ensures ReachedSomebody(s', s.past.deliveries[i]) {
      assert ReachedSomebody(s, s.past.deliveries[i]);
    }
    forall w: Waiter | w < |s'.past.asked| ensures Accounted(s', w) {
      assert Accounted(s, w);
    }
  }

  // --- guarantees over every run --------------------------------------------------------------

  function Run(capacity: nat, events: seq<Event>): State {
    if events == [] then INITIAL
    else Step(capacity, Run(capacity, events[..|events| - 1]), events[|events| - 1])
  }

  lemma {:induction false} RunKeepsInv(capacity: nat, events: seq<Event>)
    ensures Inv(capacity, Run(capacity, events))
    decreases |events|
  {
    hide Scheduled, Answered, Step;
    if events == [] {
      InitialIsGood(capacity);
    } else {
      var s, e := Run(capacity, events[..|events| - 1]), events[|events| - 1];
      RunKeepsInv(capacity, events[..|events| - 1]);
      StepKeepsScheduled(capacity, s, e);
      StepKeepsAnswered(capacity, s, e);
    }
  }

  lemma InitialIsGood(capacity: nat)
    ensures Inv(capacity, INITIAL)
  {
  }

  /** Never more tasks than the capacity, a queue only when full, fetches started in the order they
      were admitted, and one open channel for each uri in progress and for each lost one. */
  lemma Schedule(capacity: nat, events: seq<Event>, uri: Uri)
    ensures var s := Run(capacity, events);
            && |s.tasks| <= capacity && (s.queue != [] ==> |s.tasks| == capacity)
            && s.past.admitted == s.past.started + s.queue
            && DistinctUris(s.tasks + s.queue)
            && (uri in s.pending && uri !in s.past.lost <==> HasUri(s.tasks + s.queue, uri))
  {
    hide Run;
    var s := Run(capacity, events);
    RunKeepsInv(capacity, events);
    assert Scheduled(capacity, s);
  }

  /** The channels are exactly the uris in progress if and only if no task has panicked. */
  lemma ChannelsAreLiveExactly(capacity: nat, events: seq<Event>)
    ensures var s := Run(capacity, events);
            (forall uri :: uri in s.pending <==> HasUri(s.tasks + s.queue, uri)) <==> s.past.lost == {}
  {
    hide Run, HasUri;
    var s := Run(capacity, events);
    RunKeepsInv(capacity, events);
    assert Scheduled(capacity, s);
    if s.past.lost != {} {
      var uri :| uri in s.past.lost;
      assert uri in s.pending && !HasUri(Live(s), uri);
    }
  }

  /** Every completion that does not stop the fetcher takes exactly one fetch out of those in progress,
      and keeps the order of the rest. */
  lemma CompletionMakesProgress(capacity: nat, events: seq<Event>, e: Event)
    requires (e.Finished? || e.Panicked?) && e.task < |Run(capacity, events).tasks|
    ensures var s, s' := Run(capacity, events), Step(capacity, Run(capacity, events), e);
            !s'.stopped ==>
              && s'.tasks + s'.queue == Without(s.tasks + s.queue, e.task)
              && |s'.tasks| + |s'.queue| == |s.tasks| + |s.queue| - 1
  {
    hide Run;
    RunKeepsInv(capacity, events);
    StepKeepsScheduled(capacity, Run(capacity, events), e);
  }

  ghost predicate AnsweredBy(s: State, w: Waiter, i: int) {
    0 <= i < |s.past.deliveries| && w in s.past.deliveries[i].waiters - s.past.deliveries[i].missed
  }

  /** An answered request is answered once, together with exactly the requests for its uri since the
      one that started the fetch. */
  lemma OneAnswerOfTheSharedFetch(capacity: nat, events: seq<Event>, w: Waiter, i: int)
    requires AnsweredBy(Run(capacity, events), w, i)
    ensures var s := Run(capacity, events);
            var d := s.past.deliveries[i];
            && w < |s.past.asked| && s.past.asked[w] == d.uri
            && d.first <= w < d.upto <= |s.past.asked| && s.past.asked[d.first] == d.uri
            && (forall v: Waiter :: v in d.waiters <==> d.first <= v < d.upto && s.past.asked[v] == d.uri)
            && (d.uri in s.pending ==> w !in s.pending[d.uri].waiters)
            && forall j :: AnsweredBy(s, w, j) ==> j == i
  {
    hide Run, Accounted;
    var s := Run(capacity, events);
    RunKeepsInv(capacity, events);
    var d := s.past.deliveries[i];
    assert GoodDelivery(s.past.asked, d);
    if d.uri in s.pending {
      assert GoodChannel(s.past.asked, d.uri, s.pending[d.uri]);
    }
    forall j | AnsweredBy(s, w, j) ensures j == i {
      assert GoodDelivery(s.past.asked, s.past.deliveries[j]);
      assert i < j ==> Before(d, s.past.deliveries[j]);
      assert j < i ==> Before(s.past.deliveries[j], d);
    }
  }

  /** With room for at least one task, a fetcher that has not stopped has answered every request once
      nothing is in progress, save those on a lost uri and those that have left. */
  lemma AllAnsweredWhenIdle(capacity: nat, events: seq<Event>)
    requires capacity >= 1
    ensures var s := Run(capacity, events);
            s.tasks == [] ==>
              && s.queue == []
              && forall w: Waiter :: w < |s.past.asked| && s.past.asked[w] !in s.past.lost && w !in s.left ==>
                   exists i :: AnsweredBy(s, w, i)
  {
    hide Run;
    var s := Run(capacity, events);
    RunKeepsInv(capacity, events);
    if s.tasks == [] {
      forall w: Waiter | w < |s.past.asked| && s.past.asked[w] !in s.past.lost && w !in s.left
        ensures exists i :: AnsweredBy(s, w, i)
      {
        assert !HasUri(Live(s), s.past.asked[w]);
        assert Accounted(s, w);
        var i :| 0 <= i < |s.past.deliveries| && w in s.past.deliveries[i].waiters;
        assert ReachedSomebody(s, s.past.deliveries[i]);
        assert AnsweredBy(s, w, i);
      }
    }
  }

  /** A finished task always finds its channel. If anybody who asked for its uri since the fetch was
      admitted still waits, exactly those get its own outcome. */
  lemma FinishAnswersTheWaiters(capacity: nat, events: seq<Event>, i: nat, outcome: Outcome)
    requires i < |Run(capacity, events).tasks| && !Run(capacity, events).stopped
    ensures var s := Run(capacity, events);
            var uri, asked := s.tasks[i].uri, s.past.asked;
            && uri in s.pending && s.pending[uri].first < |asked|
            && var since := Askers(asked, uri, s.pending[uri].first, |asked|);
               var ds := Step(capacity, s, Finished(i, outcome)).past.deliveries;
               !(since <= s.left) ==>
                 && |ds| == |s.past.deliveries| + 1 && ds[..|s.past.deliveries|] == s.past.deliveries
                 && ds[|s.past.deliveries|].outcome == outcome
                 && ds[|s.past.deliveries|].waiters - ds[|s.past.deliveries|].missed == since - s.left
  {
    hide Run;
    var s := Run(capacity, events);
    var uri := s.tasks[i].uri;
    RunKeepsInv(capacity, events);
    HasUriAt(Live(s), i);
    assert Scheduled(capacity, s) && Answered(s);
    assert GoodChannel(s.past.asked, uri, s.pending[uri]);
  }

  /** What stops a fetcher that was going: a requester that is gone before it got its receiver, or a
      finished fetch that everybody who asked for it since it was admitted has left. */
  lemma StopsExactly(capacity: nat, events: seq<Event>, e: Event)
    requires !Run(capacity, events).stopped
    ensures var s := Run(capacity, events);
            Step(capacity, s, e).stopped <==>
            || (e.Request? && e.gone)
            || (e.Finished? && e.task < |s.tasks| && EverybodyLeft(s, s.tasks[e.task].uri))
  {
    hide Run;
    var s := Run(capacity, events);
    RunKeepsInv(capacity, events);
    if e.Finished? && e.task < |s.tasks| {
      var uri := s.tasks[e.task].uri;
      HasUriAt(Live(s), e.task);
      assert Scheduled(capacity, s) && Answered(s);
      assert GoodChannel(s.past.asked, uri, s.pending[uri]);
    }
  }

  ghost predicate EverybodyLeft(s: State, uri: Uri) {
    && uri in s.pending
    && forall w: Waiter :: s.pending[uri].first <= w < |s.past.asked| && s.past.asked[w] == uri ==> w in s.left
  }

  /** A run that stops: the only request leaves before its fetch is finished. */
  lemma LonelyFetchStops(p: Pointer, outcome: Outcome)
    ensures var events := [Request(p, false), Leave(0), Finished(0, outcome)];
            Run(1, events).stopped && !Run(1, events[..2]).stopped
  {
    var events := [Request(p, false), Leave(0), Finished(0, outcome)];
    assert events[..2] == [Request(p, false), Leave(0)] && events[..2][..1] == [Request(p, false)];
    assert [Request(p, false)][..0] == [];
    assert Run(1, []) == INITIAL;
    var s1 := Run(1, [Request(p, false)]);
    assert s1 == HandleRequest(1, INITIAL, p, false);
    assert s1.pending == map[p.uri := Channel(0, {0})] && s1.tasks == [p] && |s1.past.asked| == 1;
    var s2 := Run(1, events[..2]);
    assert s2 == s1.(left := {0});
  }

  /** A run that loses a uri: its task panics, its channel stays, and a later request joins it for
      good. */
  lemma PanickedFetchHangs(p: Pointer)
    ensures var events := [Request(p, false), Panicked(0), Request(p, false)];
            var s := Run(1, events);
            s.tasks == [] && s.queue == [] && s.pending == map[p.uri := Channel(0, {0, 1})] && s.past.lost == {p.uri}
  {
    var events := [Request(p, false), Panicked(0), Request(p, false)];
    assert events[..2] == [Request(p, false), Panicked(0)] && events[..2][..1] == [Request(p, false)];
    assert [Request(p, false)][..0] == [];
    assert Run(1, []) == INITIAL;
    var s1 := Run(1, [Request(p, false)]);
    assert s1 == HandleRequest(1, INITIAL, p, false);
    assert s1.pending == map[p.uri := Channel(0, {0})] && s1.tasks == [p] && s1.queue == [];
    var s2 := Run(1, events[..2]);
    assert s2 == HandlePanicked(1, s1, 0);
    assert s2.tasks == [] && s2.pending == s1.pending && s2.past.lost == {p.uri} && |s2.past.asked| == 1;
    assert Run(1, events) == HandleRequest(1, s2, p, false);
    assert {0} + {1} == {0, 1};
    assert s2.pending[p.uri := Channel(0, {0, 1})] == map[p.uri := Channel(0, {0, 1})];
  }

  ghost predicate NeverStuck(capacity: nat) {
    forall events: seq<Event> :: Run(capacity, events).tasks == [] ==> Run(capacity, events).queue == []
  }

  /** An idle scheduler has an empty queue in every run exactly when the capacity is not zero. */
  lemma NeverStuckExactly(capacity: nat)
    ensures NeverStuck(capacity) <==> capacity >= 1
  {
    hide Run, Answered;
    if capacity >= 1 {
      forall events: seq<Event> | Run(capacity, events).tasks == [] ensures Run(capacity, events).queue == [] {
        RunKeepsInv(capacity, events);
      }
    } else {
      StuckWithoutCapacity(Pointer(0, 0));
    }
  }

  lemma StuckWithoutCapacity(p: Pointer)
    ensures Run(0, [Request(p, false)]).queue == [p] && Run(0, [Request(p, false)]).tasks == []
  {
    var events := [Request(p, false)];
    assert events[..0] == [] && Run(0, []) == INITIAL;
    assert Run(0, events) == HandleRequest(0, INITIAL, p, false);
  }

  // --- what a run records ---------------------------------------------------------------------

  /** What the events ask for while the fetcher is going. */
  function AskedBy(capacity: nat, events: seq<Event>): seq<Uri> {
    if events == [] then []
    else
      var n := |events| - 1;
      AskedBy(capacity, events[..n]) +
      if events[n].Request? && !Run(capacity, events[..n]).stopped then [events[n].pointer.uri] else []
  }

  /** What a finished fetch has found: the hash, and the pointer it was fetched by. */
  function FoundIn(s: State, e: Event): seq<(Hash, Pointer)> {
    match e
    case Finished(i, Fetched(hash)) => if !s.stopped && i < |s.tasks| then [(hash, s.tasks[i])] else []
    case _ => []
  }

  function FoundBy(capacity: nat, events: seq<Event>): seq<(Hash, Pointer)> {
    if events == [] then []
    else
      var n := |events| - 1;
      FoundBy(capacity, events[..n]) + FoundIn(Run(capacity, events[..n]), events[n])
  }

  lemma StepRecords(capacity: nat, s: State, e: Event)
    ensures var past := Step(capacity, s, e).past;
            && past.asked == s.past.asked + (if e.Request? && !s.stopped then [e.pointer.uri] else [])
            && past.published == s.past.published + FoundIn(s, e)
  {
    hide Without, NobodyWaits;
  }

  /** Every request of a run is taken up, and every hash found is handed to the resolver with the pointer it
      came from, once and in order, even if nobody waits for it any more. */
  lemma {:induction false} RequestsAndFindingsAreKept(capacity: nat, events: seq<Event>)
    ensures Run(capacity, events).past.asked == AskedBy(capacity, events)
    ensures Run(capacity, events).past.published == FoundBy(capacity, events)
  {
    hide Step, FoundIn;
    if events == [] {
    } else {
      var n := |events| - 1;
      RequestsAndFindingsAreKept(capacity, events[..n]);
      StepRecords(capacity, Run(capacity, events[..n]), events[n]);
    }
  }
}

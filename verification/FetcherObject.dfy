/** The origin fetcher as an object. It knows which run it is in, so what is guaranteed of runs is
    guaranteed of its fields. */
module FetcherObject {
  import opened Fetcher

  class OriginFetcher {
    const capacity: nat
    var tasks: seq<Pointer>
    var queue: seq<Pointer>
    var pending: map<Uri, Channel>
    var left: set<Waiter>
    var stopped: bool
    var requests: nat
    ghost var past: History
    ghost var events: seq<Event>

    ghost function View(): State
      reads this
    {
      State(tasks, queue, pending, left, stopped, past)
    }

    ghost predicate Valid()
      reads this
    {
      requests == |past.asked| && View() == Run(capacity, events)
    }

    /** Every request was taken up, and every hash found was handed on with its pointer. */
    ghost predicate NothingIsLost()
      reads this
    {
      past.asked == AskedBy(capacity, events) && past.published == FoundBy(capacity, events)
    }

    /** Bounded, busy while anything is queued, first come first started, and no uri twice. */
    ghost predicate IsScheduled()
      reads this
    {
      && |tasks| <= capacity && (queue != [] ==> |tasks| == capacity)
      && past.admitted == past.started + queue && DistinctUris(tasks + queue)
    }

    constructor (capacity: nat)
      ensures this.capacity == capacity && events == [] && Valid()
    {
      this.capacity := capacity;
      tasks, queue, pending, left, stopped, requests := [], [], map[], {}, false, 0;
      past := History([], [], [], [], [], {});
      events := [];
    }

    /** Adds an event whose effect is done. */
    ghost method Record(e: Event, before: State)
      requires before == Run(capacity, events) && View() == Step(capacity, before, e) && requests == |past.asked|
      modifies this`events
      ensures Valid() && events == old(events) + [e] && IsScheduled() && NothingIsLost()
    {
      hide Step, Inv;
      assert (events + [e])[..|events|] == events;
      events := events + [e];
      Schedule(capacity, events, 0);
      RequestsAndFindingsAreKept(capacity, events);
    }

    method SpawnTask(p: Pointer)
      modifies this`tasks, this`past
      ensures View() == Spawn(old(View()), p)
    {
      tasks := tasks + [p];
      past := past.(started := past.started + [p]);
    }

    method OnRequest(p: Pointer, gone: bool)
      requires Valid() && !stopped
      modifies this
      ensures Valid() && events == old(events) + [Request(p, gone)] && IsScheduled() && NothingIsLost()
      ensures p.uri in pending && old(requests) in pending[p.uri].waiters
    {
      hide Run;
      ghost var before := View();
      var w := requests;
      requests := requests + 1;
      past := past.(asked := past.asked + [p.uri]);
      if p.uri in pending {
        var c := pending[p.uri];
        pending := pending[p.uri := c.(waiters := c.waiters + {w})];
      } else {
        past := past.(admitted := past.admitted + [p]);
        if |tasks| < capacity {
          SpawnTask(p);
        } else {
          queue := queue + [p];
        }
        pending := pending[p.uri := Channel(w, {w})];
      }
      stopped := gone;
      Record(Request(p, gone), before);
    }

    /** A waiter drops its receiver. */
    method OnLeave(w: Waiter)
      requires Valid() && !stopped
      modifies this
      ensures Valid() && events == old(events) + [Leave(w)] && IsScheduled() && NothingIsLost()
    {
      hide Run;
      ghost var before := View();
      if w < requests {
        left := left + {w};
      }
      Record(Leave(w), before);
    }

    method StartQueued()
      modifies this`tasks, this`queue, this`past
      ensures View() == StartNext(capacity, old(View()))
      ensures past.asked == old(past.asked) && past.published == old(past.published)
    {
      if |tasks| < capacity && queue != [] {
        var p := queue[0];
        queue := queue[1..];
        SpawnTask(p);
      }
    }

    /** Closes the channel of the uri and hands out the outcome. */
    method Respond(uri: Uri, outcome: Outcome)
      requires requests == |past.asked|
      modifies this`pending, this`past
      ensures View() == Deliver(old(View()), uri, outcome)
      ensures past.asked == old(past.asked) && past.published == old(past.published)
    {
      if uri in pending {
        var c := pending[uri];
        pending := pending - {uri};
        ghost var d := Delivery(uri, c.first, requests, c.waiters, c.waiters * left, outcome);
        past := past.(deliveries := past.deliveries + [d]);
      }
    }

    /** The completion arm: it stops exactly if nobody is left to be told. */
    method OnFinished(i: nat, outcome: Outcome)
      requires Valid() && !stopped && i < |tasks|
      modifies this
      ensures Valid() && events == old(events) + [Finished(i, outcome)] && IsScheduled() && NothingIsLost()
      ensures stopped <==> EverybodyLeft(old(View()), old(tasks)[i].uri)
      ensures past.published == old(past.published) + if outcome.Fetched? then [(outcome.hash, old(tasks)[i])] else []
      ensures !stopped ==> tasks + queue == Without(old(tasks + queue), i)
    {
      hide Run, StartNext, Deliver;
      ghost var before := View();
      StopsExactly(capacity, events, Finished(i, outcome));
      CompletionMakesProgress(capacity, events, Finished(i, outcome));
      var p := tasks[i];
      if outcome.Fetched? {
        past := past.(published := past.published + [(outcome.hash, p)]);
      }
      if p.uri in pending && pending[p.uri].waiters <= left {
        stopped := true;
      } else {
        tasks := tasks[..i] + tasks[i + 1..];
        Respond(p.uri, outcome);
        StartQueued();
      }
      Record(Finished(i, outcome), before);
    }

    method OnPanicked(i: nat)
      requires Valid() && !stopped && i < |tasks|
      modifies this
      ensures Valid() && events == old(events) + [Panicked(i)] && IsScheduled() && NothingIsLost()
      ensures tasks + queue == Without(old(tasks + queue), i)
    {
      hide Run, StartNext;
      ghost var before := View();
      StopsExactly(capacity, events, Panicked(i));
      CompletionMakesProgress(capacity, events, Panicked(i));
      past := past.(lost := past.lost + {tasks[i].uri});
      tasks := tasks[..i] + tasks[i + 1..];
      StartQueued();
      Record(Panicked(i), before);
    }
  }
}

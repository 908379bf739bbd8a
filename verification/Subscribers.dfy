/** The subscribers of one topic: any number of pubsub handles asking for messages, giving up,
    being cloned, while messages are pushed. */
module Subscribers {
  import opened Common
  import opened MessageRing

  /** A message a subscriber took, and the ring's next index when it was sent to it. */
  datatype Answer<T> = Answer(index: nat, message: T, next: nat)

  /** A pubsub handle: the first index it was to see, its `last_seen`, the channel of the request it
      waits on and what that channel holds, and everything it has taken so far. */
  datatype Sub<T> = Sub(from: nat, lastSeen: Option<nat>, chan: Option<nat>, inbox: Option<Answer<T>>,
                        received: seq<Answer<T>>)

  datatype Parked = Parked(chan: nat, sub: nat, lastSeen: Option<nat>)

  datatype Topic<T> = Topic(ring: Ring<T>, parked: seq<Parked>, subs: seq<Sub<T>>, nextChan: nat, pushed: seq<T>)

  datatype Event<T> =
    | Subscribe
    | Clone(i: nat)
    | Request(i: nat)
    | Cancel(i: nat)
    | Take(i: nat)
    | Insert(message: T)

  function Initial<T>(capacity: nat): Topic<T> {
    Topic(NewRing(capacity), [], [], 0, [])
  }

  /** A send on a channel reaches the subscriber only if it still waits on that channel. */
  function Deliver<T>(s: Sub<T>, i: nat, parked: seq<Parked>, a: Answer<T>): Sub<T> {
    if s.chan.Some? && s.inbox.None? && exists p :: p in parked && p.chan == s.chan.value && p.sub == i
    then s.(inbox := Some(a)) else s
  }

  function Step<T>(t: Topic<T>, e: Event<T>): Topic<T>
    requires Holds(t.ring, t.pushed)
  {
    match e
    case Subscribe => t.(subs := t.subs + [Sub(0, None, None, None, [])])
    case Clone(i) =>
      if i >= |t.subs| then t
      else t.(subs := t.subs + [Sub(Desired(t.subs[i].lastSeen), t.subs[i].lastSeen, None, None, [])])
    case Request(i) =>
      if i >= |t.subs| || t.subs[i].chan.Some? then t
      else
        var s := t.subs[i].(chan := Some(t.nextChan));
        var t1 := t.(nextChan := t.nextChan + 1);
        (match Recv(t.ring, s.lastSeen)
         case None => t1.(subs := t.subs[i := s], parked := t.parked + [Parked(t.nextChan, i, s.lastSeen)])
         case Some(res) => t1.(subs := t.subs[i := s.(inbox := Some(Answer(res.0, res.1, t.ring.nextIndex)))]))
    case Cancel(i) =>
      if i >= |t.subs| then t else t.(subs := t.subs[i := t.subs[i].(chan := None, inbox := None)])
    case Take(i) =>
      if i >= |t.subs| || t.subs[i].inbox.None? then t
      else
        var a := t.subs[i].inbox.value;
        t.(subs := t.subs[i := t.subs[i].(lastSeen := Some(a.index), chan := None, inbox := None,
                                          received := t.subs[i].received + [a])])
    case Insert(message) =>
      var a := Answer(t.ring.nextIndex, message, t.ring.nextIndex + 1);
      t.(ring := Push(t.ring, message), pushed := t.pushed + [message], parked := [],
         subs := seq(|t.subs|, j requires 0 <= j < |t.subs| => Deliver(t.subs[j], j, t.parked, a)))
  }

  // --- invariant ----------------------------------------------------------------------------

  /** An answer for a receiver that asks for `desired`: the oldest message still in the ring when
      it was sent, and the one that was pushed under that index. */
  ghost predicate Fits<T>(a: Answer<T>, desired: nat, capacity: nat, pushed: seq<T>) {
    && a.next <= |pushed|
    && a.index == Max(desired, a.next - capacity)
    && a.index < a.next
    && a.message == pushed[a.index]
  }

  /** What a subscriber asks for before taking its j-th message. */
  function DesiredAt<T>(from: nat, received: seq<Answer<T>>, j: nat): nat
    requires j <= |received|
  {
    if j == 0 then from else received[j - 1].index + 1
  }

  /** The j-th message a subscriber took fits what it had asked for. */
  ghost predicate TookWell<T>(from: nat, received: seq<Answer<T>>, j: nat, capacity: nat, pushed: seq<T>) {
    j < |received| && Fits(received[j], DesiredAt(from, received, j), capacity, pushed)
  }

  ghost predicate GoodSub<T>(s: Sub<T>, capacity: nat, pushed: seq<T>) {
    && Desired(s.lastSeen) <= |pushed|
    && Desired(s.lastSeen) == DesiredAt(s.from, s.received, |s.received|)
    && (forall j: nat :: j < |s.received| ==> TookWell(s.from, s.received, j, capacity, pushed))
    && (s.inbox.Some? ==> s.chan.Some? && Fits(s.inbox.value, Desired(s.lastSeen), capacity, pushed))
  }

  /** Everything parked is fully caught up, and a subscriber that still waits on a parked channel
      has not moved on meanwhile. */
  ghost predicate GoodParked<T>(t: Topic<T>, p: Parked) {
    && p.sub < |t.subs|
    && p.chan < t.nextChan
    && Desired(p.lastSeen) == |t.pushed|
    && (t.subs[p.sub].chan == Some(p.chan) ==>
          t.subs[p.sub].lastSeen == p.lastSeen && t.subs[p.sub].inbox.None?)
  }

  ghost predicate Inv<T>(t: Topic<T>) {
    && Holds(t.ring, t.pushed)
    && (forall i :: 0 <= i < |t.subs| ==> GoodSub(t.subs[i], t.ring.capacity, t.pushed))
    && (forall i :: 0 <= i < |t.subs| && t.subs[i].chan.Some? ==> t.subs[i].chan.value < t.nextChan)
    && (forall p :: p in t.parked ==> GoodParked(t, p))
  }

  lemma PushedSub<T>(s: Sub<T>, capacity: nat, pushed: seq<T>, message: T)
    requires GoodSub(s, capacity, pushed)
    ensures GoodSub(s, capacity, pushed + [message])
  {
    forall j: nat | j < |s.received| ensures TookWell(s.from, s.received, j, capacity, pushed + [message]) {
      assert TookWell(s.from, s.received, j, capacity, pushed);
    }
  }

  lemma InsertKeeps<T>(t: Topic<T>, message: T)
    requires Inv(t)
    ensures Inv(Step(t, Insert(message)))
  {
    var t' := Step(t, Insert(message));
    PushHolds(t.ring, t.pushed, message);
    forall i | 0 <= i < |t'.subs| ensures GoodSub(t'.subs[i], t.ring.capacity, t'.pushed) {
      PushedSub(t.subs[i], t.ring.capacity, t.pushed, message);
      if t'.subs[i] != t.subs[i] {
        var p :| p in t.parked && Some(p.chan) == t.subs[i].chan && p.sub == i;
        assert GoodParked(t, p);
      }
    }
  }

  lemma RequestKeeps<T>(t: Topic<T>, i: nat)
    requires Inv(t)
    ensures Inv(Step(t, Request(i)))
  {
    hide Recv;
    if i < |t.subs| && t.subs[i].chan.None? {
      RecvIsOldestUnseen(t.ring, t.pushed, t.subs[i].lastSeen);
      assert GoodSub(t.subs[i], t.ring.capacity, t.pushed);
      RequestParked(t, i);
    }
  }

  lemma RequestParked<T>(t: Topic<T>, i: nat)
    requires Inv(t) && i < |t.subs| && t.subs[i].chan.None?
    ensures forall p :: p in Step(t, Request(i)).parked ==> GoodParked(Step(t, Request(i)), p)
  {
    hide Holds, Recv, Fits;
    RecvIsOldestUnseen(t.ring, t.pushed, t.subs[i].lastSeen);
    assert GoodSub(t.subs[i], t.ring.capacity, t.pushed);
    forall p | p in Step(t, Request(i)).parked ensures GoodParked(Step(t, Request(i)), p) {
      assert p in t.parked ==> GoodParked(t, p);
    }
  }

  lemma TakeSub<T>(s: Sub<T>, capacity: nat, pushed: seq<T>)
    requires GoodSub(s, capacity, pushed) && s.inbox.Some?
    ensures var a := s.inbox.value;
            GoodSub(s.(lastSeen := Some(a.index), chan := None, inbox := None, received := s.received + [a]),
                    capacity, pushed)
  {
    var a := s.inbox.value;
    var s' := s.(lastSeen := Some(a.index), chan := None, inbox := None, received := s.received + [a]);
    forall j: nat | j < |s'.received| ensures TookWell(s'.from, s'.received, j, capacity, pushed) {
      assert DesiredAt(s'.from, s'.received, j) == DesiredAt(s.from, s.received, j);
      assert j < |s.received| ==> TookWell(s.from, s.received, j, capacity, pushed);
    }
  }

  lemma TakeKeeps<T>(t: Topic<T>, i: nat)
    requires Inv(t)
    ensures Inv(Step(t, Take(i)))
  {
    hide Holds, GoodSub, Fits;
    if i < |t.subs| && t.subs[i].inbox.Some? {
      var t' := Step(t, Take(i));
      TakeSub(t.subs[i], t.ring.capacity, t.pushed);
      forall p | p in t'.parked ensures GoodParked(t', p) {
        assert GoodParked(t, p);
      }
    }
  }

  lemma StepKeeps<T>(t: Topic<T>, e: Event<T>)
    requires Inv(t)
    ensures Inv(Step(t, e))
  {
    var t' := Step(t, e);
    match e
    case Insert(message) => InsertKeeps(t, message);
    case Request(i) => RequestKeeps(t, i);
    case Take(i) => TakeKeeps(t, i);
    case _ =>
      forall p | p in t'.parked ensures GoodParked(t', p) {
        assert GoodParked(t, p);
      }
  }

  lemma StepHolds<T>(t: Topic<T>, e: Event<T>)
    requires Holds(t.ring, t.pushed)
    ensures Holds(Step(t, e).ring, Step(t, e).pushed)
  {
    hide Holds, Push;
    if e.Insert? {
      PushHolds(t.ring, t.pushed, e.message);
    }
  }

  /** The state after a run. */
  function Run<T>(capacity: nat, events: seq<Event<T>>): (t: Topic<T>)
    ensures Holds(t.ring, t.pushed)
  {
    if events == [] then Initial(capacity)
    else
      var t := Run(capacity, events[..|events| - 1]);
      StepHolds(t, events[|events| - 1]);
      Step(t, events[|events| - 1])
  }

  lemma {:induction false} RunKeeps<T>(capacity: nat, events: seq<Event<T>>)
    ensures Inv(Run(capacity, events))
    decreases |events|
  {
    hide Inv, Step;
    if events == [] {
      InitialKeeps<T>(capacity);
    } else {
      RunKeeps(capacity, events[..|events| - 1]);
      StepKeeps(Run(capacity, events[..|events| - 1]), events[|events| - 1]);
    }
  }

  lemma InitialKeeps<T>(capacity: nat)
    ensures Inv(Initial<T>(capacity))
  {
  }

  // --- guarantees ---------------------------------------------------------------------------

  /** In every run a subscriber's indices strictly increase, every message it took is the one that
      was pushed under that index, and it was the oldest one still in the ring. */
  lemma AnswersAreOldestUnseen<T>(capacity: nat, events: seq<Event<T>>, i: nat, j: nat)
    requires i < |Run(capacity, events).subs| && j < |Run(capacity, events).subs[i].received|
    ensures var t := Run(capacity, events);
            var a := t.subs[i].received[j];
            && Fits(a, DesiredAt(t.subs[i].from, t.subs[i].received, j), t.ring.capacity, t.pushed)
            && a.index >= DesiredAt(t.subs[i].from, t.subs[i].received, j)
  {
    hide Run, Holds;
    var t := Run(capacity, events);
    RunKeeps(capacity, events);
    assert GoodSub(t.subs[i], t.ring.capacity, t.pushed);
    assert TookWell(t.subs[i].from, t.subs[i].received, j, t.ring.capacity, t.pushed);
  }

  /** One subscriber misses only what was overwritten: an index it has passed was either taken, or
      already out of the ring when the answer that skipped it was sent. */
  lemma {:induction false} MissesOnlyOverwritten<T>(s: Sub<T>, capacity: nat, pushed: seq<T>, k: nat)
    requires GoodSub(s, capacity, pushed)
    requires s.from <= k < DesiredAt(s.from, s.received, |s.received|)
    ensures exists j :: 0 <= j < |s.received| &&
                        (s.received[j].index == k || k < s.received[j].next - capacity)
    decreases |s.received|
  {
    var n := |s.received| - 1;
    if k >= DesiredAt(s.from, s.received, n) {
      assert TookWell(s.from, s.received, n, capacity, pushed);
    } else {
      var a := s.received[n];
      var s1 := s.(received := s.received[..n], inbox := None,
                   lastSeen := Some(DesiredAt(s.from, s.received, n) - 1));
      assert TookWell(s.from, s.received, n, capacity, pushed);
      forall j: nat | j < n ensures TookWell(s1.from, s1.received, j, capacity, pushed) {
        assert TookWell(s.from, s.received, j, capacity, pushed);
      }
      MissesOnlyOverwritten(s1, capacity, pushed, k);
      var j :| 0 <= j < n && (s1.received[j].index == k || k < s1.received[j].next - capacity);
      assert s.received[j] == s1.received[j];
    }
  }

  lemma SubscriberMissesOnlyOverwritten<T>(capacity: nat, events: seq<Event<T>>, i: nat, k: nat)
    requires i < |Run(capacity, events).subs|
    requires Run(capacity, events).subs[i].from <= k < Desired(Run(capacity, events).subs[i].lastSeen)
    ensures var t := Run(capacity, events);
            exists j :: 0 <= j < |t.subs[i].received| &&
                        (t.subs[i].received[j].index == k || k < t.subs[i].received[j].next - t.ring.capacity)
  {
    hide Run, Holds;
    var t := Run(capacity, events);
    RunKeeps(capacity, events);
    assert GoodSub(t.subs[i], t.ring.capacity, t.pushed);
    MissesOnlyOverwritten(t.subs[i], t.ring.capacity, t.pushed, k);
  }

  /** Every parked request is fully caught up, and the next message pushed reaches the waiting
      subscriber as exactly its `last_seen` plus one. */
  lemma ParkedWaiterGetsNext<T>(capacity: nat, events: seq<Event<T>>, p: Parked, message: T)
    requires p in Run(capacity, events).parked
    ensures var t := Run(capacity, events);
            && p.sub < |t.subs|
            && Desired(p.lastSeen) == |t.pushed|
            && (t.subs[p.sub].chan == Some(p.chan) ==>
                  Run(capacity, events + [Insert(message)]).subs[p.sub].inbox ==
                  Some(Answer(Desired(t.subs[p.sub].lastSeen), message, |t.pushed| + 1)))
  {
    hide GoodSub, Push;
    var t := Run(capacity, events);
    RunKeeps(capacity, events);
    assert GoodParked(t, p);
    var more := events + [Insert(message)];
    assert more[..|more| - 1] == events;
    assert Run(capacity, more) == Step(t, Insert(message));
  }

  /** The messages inserted by the events. */
  function InsertedBy<T>(events: seq<Event<T>>): seq<T> {
    if events == [] then []
    else
      var e := events[|events| - 1];
      InsertedBy(events[..|events| - 1]) + if e.Insert? then [e.message] else []
  }

  lemma StepPushes<T>(t: Topic<T>, e: Event<T>)
    requires Holds(t.ring, t.pushed)
    ensures Step(t, e).pushed == t.pushed + (if e.Insert? then [e.message] else [])
    ensures Step(t, e).ring.capacity == t.ring.capacity
  {
    hide Recv, Deliver;
  }

  lemma {:induction false} PushedIsInserted<T>(capacity: nat, events: seq<Event<T>>)
    ensures Run(capacity, events).pushed == InsertedBy(events)
    ensures Run(capacity, events).ring.capacity == if capacity == 0 then USIZE_MAX else capacity
  {
    hide Step, Holds;
    if events == [] {
    } else {
      var n := |events| - 1;
      PushedIsInserted(capacity, events[..n]);
      StepPushes(Run(capacity, events[..n]), events[n]);
    }
  }

  /** No request goes unserved. In every run a subscriber that asks gets, at once, the oldest message it has
      not seen of the last ones the ring can hold; if it has seen everything, it waits for the next one. */
  lemma RequestIsServed<T>(capacity: nat, events: seq<Event<T>>, i: nat)
    requires i < |Run(capacity, events).subs| && Run(capacity, events).subs[i].chan.None?
    ensures var t, t' := Run(capacity, events), Run(capacity, events + [Request(i)]);
            var inserted, held := InsertedBy(events), if capacity == 0 then USIZE_MAX else capacity;
            && |t'.subs| == |t.subs| && t'.subs[i].lastSeen == t.subs[i].lastSeen
            && var wanted := Desired(t.subs[i].lastSeen);
               if wanted < |inserted| then
                 var index := Max(wanted, |inserted| - held);
                 0 <= index < |inserted| && t'.subs[i].inbox == Some(Answer(index, inserted[index], |inserted|))
               else
                 && t'.subs[i].chan.Some?
                 && Parked(t'.subs[i].chan.value, i, t'.subs[i].lastSeen) in t'.parked
  {
    hide Run, Recv, GoodSub, GoodParked;
    var t := Run(capacity, events);
    PushedIsInserted(capacity, events);
    RunAppend(capacity, events, Request(i));
    RecvIsOldestUnseen(t.ring, t.pushed, t.subs[i].lastSeen);
    var p := Parked(t.nextChan, i, t.subs[i].lastSeen);
    assert (t.parked + [p])[|t.parked|] == p;
  }

  lemma RunAppend<T>(capacity: nat, events: seq<Event<T>>, e: Event<T>)
    ensures Run(capacity, events + [e]) == Step(Run(capacity, events), e)
  {
    hide Step, Holds;
    assert (events + [e])[..|events|] == events;
  }

  /** What is in a subscriber's inbox is what it takes, and it asks for the one after it next. */
  lemma TakenIsSeen<T>(capacity: nat, events: seq<Event<T>>, i: nat)
    requires i < |Run(capacity, events).subs| && Run(capacity, events).subs[i].inbox.Some?
    ensures var t, t' := Run(capacity, events), Run(capacity, events + [Take(i)]);
            var a := t.subs[i].inbox.value;
            && |t'.subs| == |t.subs| && t'.subs[i].received == t.subs[i].received + [a]
            && Desired(t'.subs[i].lastSeen) == a.index + 1 && t'.subs[i].chan.None?
  {
    hide Run, Holds;
    RunAppend(capacity, events, Take(i));
  }

  /** A new handle starts at the first message, a clone where the original stands, and one that gives up
      stays where it is and may ask again. */
  lemma HandlesKeepTheirPlace<T>(capacity: nat, events: seq<Event<T>>, i: nat)
    requires i < |Run(capacity, events).subs|
    ensures var t := Run(capacity, events);
            var subscribed, cloned := Run(capacity, events + [Subscribe]), Run(capacity, events + [Clone(i)]);
            var cancelled := Run(capacity, events + [Cancel(i)]);
            && |subscribed.subs| == |cloned.subs| == |t.subs| + 1 && |cancelled.subs| == |t.subs|
            && subscribed.subs[|t.subs|].lastSeen == None
            && cloned.subs[|t.subs|].lastSeen == t.subs[i].lastSeen
            && cancelled.subs[i].lastSeen == t.subs[i].lastSeen && cancelled.subs[i].chan.None?
            && cancelled.subs[i].received == t.subs[i].received
  {
    hide Run, Holds;
    RunAppend(capacity, events, Subscribe);
    RunAppend(capacity, events, Clone(i));
    RunAppend(capacity, events, Cancel(i));
  }
}

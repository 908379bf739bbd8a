/** The ring of received messages of one topic, and the receive requests parked on it. */
module MessageRing {
  import opened Common

  /** A fixed-capacity ring; index n of the stream of pushed messages lives at n modulo capacity. */
  datatype Ring<T> = Ring(nextIndex: nat, capacity: nat, buffer: seq<T>)

  const USIZE_MAX: nat := 0xFFFF_FFFF_FFFF_FFFF

  function NewRing<T>(capacity: nat): (r: Ring<T>)
    ensures Holds(r, [])
  {
    Ring(0, if capacity == 0 then USIZE_MAX else capacity, [])
  }

  function Push<T>(r: Ring<T>, message: T): Ring<T>
    requires r.capacity > 0 && |r.buffer| <= r.capacity
    requires |r.buffer| < r.capacity ==> |r.buffer| == r.nextIndex
  {
    var pos := r.nextIndex % r.capacity;
    Ring(r.nextIndex + 1, r.capacity,
         if |r.buffer| < r.capacity then r.buffer + [message] else r.buffer[pos := message])
  }

  /** The index a receiver asks for next. */
  function Desired(lastSeen: Option<nat>): nat {
    if lastSeen.Some? then lastSeen.value + 1 else 0
  }

  function Max(a: int, b: int): int {
    if a < b then b else a
  }

  function Recv<T>(r: Ring<T>, lastSeen: Option<nat>): Option<(nat, T)>
    requires r.capacity > 0
    requires |r.buffer| == (if r.nextIndex < r.capacity then r.nextIndex else r.capacity)
  {
    var desired := Desired(lastSeen);
    if desired >= r.nextIndex then None
    else
      var begin := if r.nextIndex < r.capacity then 0 else r.nextIndex - r.capacity;
      var index := if desired < begin then begin else desired;
      PositionInBuffer(r, index);
      Some((index, r.buffer[index % r.capacity]))
  }

  lemma PositionInBuffer<T>(r: Ring<T>, index: nat)
    requires r.capacity > 0 && index < r.nextIndex
    requires |r.buffer| == (if r.nextIndex < r.capacity then r.nextIndex else r.capacity)
    ensures index % r.capacity < |r.buffer|
  {
    if r.nextIndex < r.capacity {
      SmallMod(index, r.capacity);
    }
  }

  /** The ring after pushing all of `pushed`: the last `capacity` of them are in place. */
  ghost predicate Holds<T>(r: Ring<T>, pushed: seq<T>) {
    && r.capacity > 0
    && r.nextIndex == |pushed|
    && |r.buffer| == (if |pushed| < r.capacity then |pushed| else r.capacity)
    && forall k: nat :: k < |pushed| <= k + r.capacity ==>
         k % r.capacity < |r.buffer| && r.buffer[k % r.capacity] == pushed[k]
  }

  lemma MulAtLeast(x: int, m: nat)
    ensures x >= 1 ==> x * m >= m
    ensures x <= 0 ==> x * m <= 0
  {
  }

  lemma NoMultipleBetween(qa: int, qb: int, m: nat)
    ensures !(0 < qb * m - qa * m < m)
  {
    assert qb * m - qa * m == (qb - qa) * m;
    MulAtLeast(qb - qa, m);
  }

  lemma ModDiffers(a: nat, b: nat, m: nat)
    requires m > 0 && a < b < a + m
    ensures a % m != b % m
  {
    NoMultipleBetween(a / m, b / m, m);
  }

  lemma PushHolds<T>(r: Ring<T>, pushed: seq<T>, message: T)
    requires Holds(r, pushed)
    ensures Holds(Push(r, message), pushed + [message])
  {
    var r', all, m, n := Push(r, message), pushed + [message], r.capacity, |pushed|;
    if n < m {
      SmallMod(n, m);
    }
    forall k: nat | k < |all| <= k + m
      ensures k % m < |r'.buffer| && r'.buffer[k % m] == all[k]
    {
      if k < n {
        ModDiffers(k, n, m);
      }
    }
  }

  /** A receiver gets the oldest message it has not seen that is still there, under its own
      index, and nothing exactly when it has seen everything. */
  lemma RecvIsOldestUnseen<T>(r: Ring<T>, pushed: seq<T>, lastSeen: Option<nat>)
    requires Holds(r, pushed)
    ensures Desired(lastSeen) >= |pushed| ==> Recv(r, lastSeen) == None
    ensures Desired(lastSeen) < |pushed| ==>
              var i := Max(Desired(lastSeen), |pushed| - r.capacity);
              0 <= i < |pushed| && Recv(r, lastSeen) == Some((i, pushed[i]))
  {
  }

  // --- the objects --------------------------------------------------------------------------

  /** One answer sent over a parked or fresh channel. */
  datatype Sent<T> = Sent(chan: nat, index: nat, message: T)

  function AnswerAll<T>(chans: seq<nat>, index: nat, message: T): seq<Sent<T>> {
    if chans == [] then []
    else [Sent(chans[|chans| - 1], index, message)] + AnswerAll(chans[..|chans| - 1], index, message)
  }

  /** Each channel gets the message exactly once, the one parked last first. */
  ghost predicate AnswersEach<T>(answers: seq<Sent<T>>, chans: seq<nat>, index: nat, message: T) {
    && |answers| == |chans|
    && forall i :: 0 <= i < |answers| ==> answers[i] == Sent(chans[|chans| - 1 - i], index, message)
  }

  lemma {:induction false} AnswerAllReachesAll<T>(chans: seq<nat>, index: nat, message: T)
    ensures AnswersEach(AnswerAll(chans, index, message), chans, index, message)
    decreases |chans|
  {
    if chans == [] {
    } else {
      AnswerAllReachesAll(chans[..|chans| - 1], index, message);
    }
  }

  /** The ring with the channels of receivers that wait for its next message. `closed` are the
      channels whose receiver has gone away: a send on them fails. */
  class RecvBuffer<T> {
    const capacity: nat
    var nextIndex: nat
    var buffer: seq<T>
    var pending: seq<nat>
    ghost var pushed: seq<T>
    ghost var sent: seq<Sent<T>>

    ghost predicate Valid()
      reads this
    {
      Holds(Ring(nextIndex, capacity, buffer), pushed)
    }

    constructor (capacity: nat)
      ensures Valid() && pushed == [] && pending == [] && sent == []
      ensures this.capacity == if capacity == 0 then USIZE_MAX else capacity
    {
      this.capacity := if capacity == 0 then USIZE_MAX else capacity;
      nextIndex, buffer, pending := 0, [], [];
      pushed, sent := [], [];
    }

    method PushRing(message: T) returns (index: nat)
      requires Valid()
      modifies this`nextIndex, this`buffer, this`pushed
      ensures Valid() && pushed == old(pushed) + [message] && index == |old(pushed)|
    {
      PushHolds(Ring(nextIndex, capacity, buffer), pushed, message);
      index := nextIndex;
      nextIndex := nextIndex + 1;
      if |buffer| < capacity {
        buffer := buffer + [message];
      } else {
        buffer := buffer[index % capacity := message];
      }
      pushed := pushed + [message];
    }

    /** Every waiter is answered exactly once with the new message, the one parked last first, whether
        or not its receiver is still there; a value that comes back from a failed send is used for
        the next one. */
    method Insert(data: T, closed: set<nat>)
      requires Valid()
      modifies this
      ensures Valid() && pushed == old(pushed) + [data] && pending == []
      ensures old(sent) <= sent && AnswersEach(sent[|old(sent)|..], old(pending), |old(pushed)|, data)
    {
      AnswerAllReachesAll(pending, |pushed|, data);
      if pending == [] {
        var _ := PushRing(data);
      } else {
        var index := PushRing(data);
        var nextData: Option<T> := None;
        while |pending| > 1
          invariant Valid() && pushed == old(pushed) + [data] && pending != []
          invariant nextData.Some? ==> nextData.value == data
          invariant sent + AnswerAll(pending, index, data) == old(sent) + AnswerAll(old(pending), index, data)
          decreases |pending|
        {
          var chan := pending[|pending| - 1];
          pending := pending[..|pending| - 1];
          var value := if nextData.Some? then nextData.value else data;
          nextData := if chan in closed then Some(value) else None;
          sent := sent + [Sent(chan, index, value)];
        }
        var chan := pending[|pending| - 1];
        pending := pending[..|pending| - 1];
        assert pending == [];
        sent := sent + [Sent(chan, index, data)];
        assert sent == old(sent) + AnswerAll(old(pending), index, data);
        assert sent[|old(sent)|..] == AnswerAll(old(pending), index, data);
      }
    }

    /** Answers at once with the oldest unseen message, or parks the channel. */
    method RespondToRecvRequest(lastSeen: Option<nat>, chan: nat)
      requires Valid()
      modifies this`pending, this`sent
      ensures Valid()
      ensures if Desired(lastSeen) >= |pushed| then
                pending == old(pending) + [chan] && sent == old(sent)
              else
                var i := Max(Desired(lastSeen), |pushed| - capacity);
                && 0 <= i < |pushed|
                && pending == old(pending) && sent == old(sent) + [Sent(chan, i, pushed[i])]
    {
      RecvIsOldestUnseen(Ring(nextIndex, capacity, buffer), pushed, lastSeen);
      var desired := Desired(lastSeen);
      if desired >= nextIndex {
        pending := pending + [chan];
        return;
      }
      var begin := if nextIndex < capacity then 0 else nextIndex - capacity;
      var index := if desired < begin then begin else desired;
      PositionInBuffer(Ring(nextIndex, capacity, buffer), index);
      sent := sent + [Sent(chan, index, buffer[index % capacity])];
    }
  }
}

/** The acknowledgment aggregator as an object. It knows which run it is in, so conservation holds of
    its fields after every event. */
module DackObject {
  import opened Common
  import opened DackAggregator

  class Aggregator {
    var queue: seq<Entry>
    ghost var batches: seq<Batch>
    ghost const initial: seq<Entry>
    ghost var trace: seq<State>
    ghost var events: seq<Event>

    ghost function View(): State
      reads this
    {
      State(queue, batches)
    }

    ghost predicate Valid()
      reads this
    {
      IsRun(initial, trace, events) && trace[|events|] == View()
    }

    /** Every entry ever written has left the queue or is still in it, in order; each is in exactly one
        batch or queued if and only if every tick has removed what it took. */
    ghost predicate IsConserved()
      reads this
    {
      && initial + Written(events) == Removed(batches) + queue
      && (initial + Written(events) == Submitted(batches) + queue <==> AllRemoved(batches))
    }

    constructor (stored: seq<Entry>)
      ensures Valid() && events == [] && initial == stored && IsConserved()
    {
      queue, batches := stored, [];
      initial, trace, events := stored, [State(stored, [])], [];
    }

    /** Adds an event whose effect is done. */
    ghost method Record(e: Event, before: State)
      requires IsRun(initial, trace, events) && trace[|events|] == before
      requires Enabled(before, e) && View() == Step(before, e)
      modifies this`trace, this`events
      ensures Valid() && events == old(events) + [e] && IsConserved()
    {
      hide Enabled, Step;
      trace, events := trace + [View()], events + [e];
      Conservation(initial, trace, events);
      ExactlyOnceExactly(initial, trace, events);
    }

    /** The sender is answered whether or not the acknowledgment could be written. */
    method OnDack(dack: Dack, written: bool)
      requires Valid()
      modifies this
      ensures Valid() && events == old(events) + [Add(dack, written)] && IsConserved()
    {
      hide IsRun;
      ghost var before := View();
      if written {
        queue := queue + [Good(dack)];
      }
      Record(Add(dack, written), before);
    }

    /** Adds entries up per service until one has no room. */
    method Collect() returns (n: nat, sums: Sums)
      ensures IsTake(queue, n) && Collected(queue[..n], sums)
    {
      hide Collected, DacksOf;
      n := 0;
      sums := Sums(map[], map[], map[]);
      assert Collected(queue[..0], sums) by { CollectNone(); }
      while n < |queue|
        invariant n <= |queue|
        invariant forall m :: 0 <= m < n ==> !IsOverfull(queue[..m], queue[m])
        invariant Collected(queue[..n], sums)
      {
        var e := queue[n];
        assert queue[..n + 1] == queue[..n] + [e];
        if e.Good? {
          var s := e.dack.service;
          CountIs(queue[..n], sums, s);
          var count := if s in sums.proofs then |sums.proofs[s]| else 0;
          if count >= MAX_ACKNOWLEDGMENTS {
            break;
          }
          CollectDack(queue[..n], sums, e.dack);
          sums := AddDack(sums, e.dack);
        } else {
          CollectGarbage(queue[..n], sums);
        }
        n := n + 1;
      }
    }

    /** Removes up to n entries from the front. The i-th removal may fail; after a crash all the rest do. */
    method RemoveTaken(n: nat, fails: nat -> bool) returns (ghost removed: nat)
      requires n <= |queue|
      modifies this`queue
      ensures removed <= n && queue == old(queue)[removed..]
      ensures (forall i: nat :: i < n ==> !fails(i)) ==> removed == n
    {
      removed := 0;
      var i := 0;
      while i < n
        invariant i <= n && removed <= i && queue == old(queue)[removed..]
        invariant (forall k: nat :: k < i ==> !fails(k)) ==> removed == i
      {
        if !fails(i) {
          queue := queue[1..];
          removed := removed + 1;
        }
        i := i + 1;
      }
    }

    /** The tick arm: something is taken if there is anything, and all of it is removed if no removal
        fails. */
    method OnTick(fails: nat -> bool) returns (n: nat, txs: map<Service, Tx>, ghost removed: nat)
      requires Valid()
      modifies this
      ensures Valid() && events == old(events) + [Tick(n, txs, removed)] && IsConserved()
      ensures old(queue) != [] ==> n >= 1
      ensures (forall i: nat :: i < n ==> !fails(i)) ==> removed == n
    {
      hide IsRun, IsOverfull, Aggregates, Collected;
      ghost var before := View();
      var sums;
      n, sums := Collect();
      TakeFits(queue, n);
      txs := Assemble(queue[..n], sums);
      ghost var taken := queue[..n];
      removed := RemoveTaken(n, fails);
      batches := batches + [Batch(taken, txs, removed)];
      Record(Tick(n, txs, removed), before);
    }
  }

  /** The running totals of a tick, per service. */
  datatype Sums = Sums(proofs: map<Service, seq<Proof>>, commodity: map<Service, u128>, metadata: map<Service, seq<byte>>)

  function AddDack(sums: Sums, d: Dack): Sums {
    var s := d.service;
    var proofs := (if s in sums.proofs then sums.proofs[s] else []) + [d.proof];
    var commodity := Wrap((if s in sums.commodity then sums.commodity[s] else 0) + d.commodity);
    Sums(sums.proofs[s := proofs],
         sums.commodity[s := commodity],
         if d.metadata.None? then sums.metadata
         else sums.metadata[s := (if s in sums.metadata then sums.metadata[s] else []) + d.metadata.value])
  }

  /** The totals hold the parts of the service's aggregate. */
  ghost predicate CollectedFor(entries: seq<Entry>, sums: Sums, s: Service) {
    var ds := DacksOf(entries, s);
    && (s in sums.proofs <==> ds != []) && (s in sums.commodity <==> ds != [])
    && (s in sums.proofs ==> sums.proofs[s] == Proofs(ds))
    && (s in sums.commodity ==> sums.commodity[s] == Wrap(Total(ds)))
    && (if s in sums.metadata then Some(sums.metadata[s]) else None) == Metadata(ds)
  }

  ghost predicate Collected(entries: seq<Entry>, sums: Sums) {
    forall s :: CollectedFor(entries, sums, s)
  }

  lemma CollectNone()
    ensures Collected([], Sums(map[], map[], map[]))
  {
  }

  lemma CountIs(entries: seq<Entry>, sums: Sums, s: Service)
    requires Collected(entries, sums)
    ensures |DacksOf(entries, s)| == if s in sums.proofs then |sums.proofs[s]| else 0
  {
    assert CollectedFor(entries, sums, s);
  }

  lemma CollectGarbage(entries: seq<Entry>, sums: Sums)
    requires Collected(entries, sums)
    ensures Collected(entries + [Garbage], sums)
  {
    forall s ensures CollectedFor(entries + [Garbage], sums, s) {
      assert CollectedFor(entries, sums, s);
      OthersUnchanged(entries, Garbage, s);
    }
  }

  lemma CollectDack(entries: seq<Entry>, sums: Sums, d: Dack)
    requires Collected(entries, sums)
    ensures Collected(entries + [Good(d)], AddDack(sums, d))
  {
    hide DacksOf, Proofs, Total, Metadata;
    forall s ensures CollectedFor(entries + [Good(d)], AddDack(sums, d), s) {
      assert CollectedFor(entries, sums, s);
      if s == d.service {
        CollectOwn(entries, sums, d);
      } else {
        OthersUnchanged(entries, Good(d), s);
      }
    }
  }

  lemma OthersUnchanged(entries: seq<Entry>, e: Entry, s: Service)
    requires e.Good? ==> e.dack.service != s
    ensures DacksOf(entries + [e], s) == DacksOf(entries, s)
  {
    assert (entries + [e])[..|entries|] == entries;
  }

  lemma AddModulo(a: nat, b: nat)
    ensures Wrap(Wrap(a) + b) == Wrap(a + b)
    ensures Wrap(0 + b) == Wrap(b)
  {
  }

  lemma OwnAdded(entries: seq<Entry>, d: Dack)
    ensures DacksOf(entries + [Good(d)], d.service) == DacksOf(entries, d.service) + [d]
  {
    assert (entries + [Good(d)])[..|entries|] == entries;
  }

  lemma PartsAdded(ds: seq<Dack>, d: Dack)
    ensures Proofs(ds + [d]) == Proofs(ds) + [d.proof]
    ensures Total(ds + [d]) == Total(ds) + d.commodity
    ensures Metadata(ds + [d]) == Extend(Metadata(ds), d.metadata)
    ensures Proofs([]) == [] && Total([]) == 0
  {
    assert (ds + [d])[..|ds|] == ds;
  }

  lemma CollectOwn(entries: seq<Entry>, sums: Sums, d: Dack)
    requires CollectedFor(entries, sums, d.service)
    ensures CollectedFor(entries + [Good(d)], AddDack(sums, d), d.service)
  {
    hide DacksOf, Proofs, Total, Metadata, Wrap;
    OwnAdded(entries, d);
    PartsAdded(DacksOf(entries, d.service), d);
    AddModulo(Total(DacksOf(entries, d.service)), d.commodity);
  }

  /** One transaction for each service with proofs. */
  method Assemble(ghost entries: seq<Entry>, sums: Sums) returns (txs: map<Service, Tx>)
    requires Collected(entries, sums)
    ensures Aggregates(entries, txs)
  {
    hide DacksOf, Proofs, Total, Metadata;
    txs := map[];
    var todo := sums.proofs.Keys;
    while todo != {}
      invariant todo <= sums.proofs.Keys
      invariant forall s :: s in txs <==> s in sums.proofs && s !in todo
      invariant forall s :: s in txs ==> txs[s] == AggregateOf(entries, s)
      decreases |todo|
    {
      var s :| s in todo;
      todo := todo - {s};
      assert CollectedFor(entries, sums, s);
      txs := txs[s := Tx(s, sums.commodity[s], sums.proofs[s],
                         if s in sums.metadata then Some(sums.metadata[s]) else None)];
    }
    forall s ensures s in txs <==> DacksOf(entries, s) != [] {
      assert CollectedFor(entries, sums, s);
    }
  }
}

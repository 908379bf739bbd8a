/** Batching of a durable queue of delivery acknowledgments into bounded transactions, one per
    service and tick. */
module DackAggregator {
  import opened Common

  type Service = nat
  type Proof = nat

  const MAX_ACKNOWLEDGMENTS := 1000
  const U128_RANGE := 0x1_0000_0000_0000_0000_0000_0000_0000_0000

  type u128 = x: int | 0 <= x < U128_RANGE

  datatype Dack = Dack(service: Service, commodity: u128, proof: Proof, metadata: Option<seq<byte>>)

  /** An entry of the queue file; one that does not decode is skipped. */
  datatype Entry = Good(dack: Dack) | Garbage

  datatype Tx = Tx(service: Service, commodity: u128, proofs: seq<Proof>, metadata: Option<seq<byte>>)

  // --- what a batch means ---------------------------------------------------------------------

  /** The acknowledgments of a service, in queue order. */
  function DacksOf(entries: seq<Entry>, s: Service): (ds: seq<Dack>)
    ensures |ds| <= |entries|
  {
    if entries == [] then []
    else
      var rest := DacksOf(entries[..|entries| - 1], s);
      var e := entries[|entries| - 1];
      if e.Good? && e.dack.service == s then rest + [e.dack] else rest
  }

  function Proofs(ds: seq<Dack>): seq<Proof> {
    seq(|ds|, i requires 0 <= i < |ds| => ds[i].proof)
  }

  function Total(ds: seq<Dack>): nat {
    if ds == [] then 0 else Total(ds[..|ds| - 1]) + ds[|ds| - 1].commodity
  }

  /** The metadata of all that have some, one after another. */
  function Metadata(ds: seq<Dack>): Option<seq<byte>> {
    if ds == [] then None else Extend(Metadata(ds[..|ds| - 1]), ds[|ds| - 1].metadata)
  }

  function Extend(data: Option<seq<byte>>, more: Option<seq<byte>>): Option<seq<byte>> {
    if more.None? then data
    else Some((if data.Some? then data.value else []) + more.value)
  }

  /** The bytes of all metadata from first to last. */
  function AllBytes(ds: seq<Dack>): seq<byte> {
    if ds == [] then [] else (if ds[0].metadata.Some? then ds[0].metadata.value else []) + AllBytes(ds[1..])
  }

  lemma {:induction false} AllBytesAppend(ds: seq<Dack>, d: Dack)
    ensures AllBytes(ds + [d]) == AllBytes(ds) + if d.metadata.Some? then d.metadata.value else []
    decreases |ds|
  {
    if ds == [] {
      assert ds + [d] == [d];
    } else {
      assert (ds + [d])[1..] == ds[1..] + [d];
      AllBytesAppend(ds[1..], d);
    }
  }

  /** The metadata is all bytes in order, and there is none exactly if nobody has any. */
  lemma {:induction false} MetadataKeepsOrder(ds: seq<Dack>)
    ensures Metadata(ds).None? <==> forall i :: 0 <= i < |ds| ==> ds[i].metadata.None?
    ensures Metadata(ds).Some? ==> Metadata(ds).value == AllBytes(ds)
    ensures Metadata(ds).None? ==> AllBytes(ds) == []
    decreases |ds|
  {
    if ds == [] {
    } else {
      var front, d := ds[..|ds| - 1], ds[|ds| - 1];
      MetadataKeepsOrder(front);
      AllBytesAppend(front, d);
      assert ds == front + [d];
    }
  }

  /** Sums are kept in 128 bits. */
  function Wrap(x: nat): u128 {
    x % U128_RANGE
  }

  function AggregateOf(entries: seq<Entry>, s: Service): Tx {
    var ds := DacksOf(entries, s);
    Tx(s, Wrap(Total(ds)), Proofs(ds), Metadata(ds))
  }

  /** One transaction for each service that has acknowledgments among the entries. */
  ghost predicate Aggregates(entries: seq<Entry>, txs: map<Service, Tx>) {
    forall s :: (s in txs <==> DacksOf(entries, s) != []) && (s in txs ==> txs[s] == AggregateOf(entries, s))
  }

  ghost predicate Fits(entries: seq<Entry>) {
    forall s :: |DacksOf(entries, s)| <= MAX_ACKNOWLEDGMENTS
  }

  /** The entry belongs to a service that is already full. */
  ghost predicate IsOverfull(entries: seq<Entry>, e: Entry) {
    e.Good? && |DacksOf(entries, e.dack.service)| >= MAX_ACKNOWLEDGMENTS
  }

  /** How many entries one tick takes: up to the first that its service has no room for. */
  ghost predicate IsTake(queue: seq<Entry>, n: nat) {
    && n <= |queue|
    && (forall m :: 0 <= m < n ==> !IsOverfull(queue[..m], queue[m]))
    && (n < |queue| ==> IsOverfull(queue[..n], queue[n]))
  }

  lemma TakeIsUnique(queue: seq<Entry>, m: nat, n: nat)
    requires IsTake(queue, m) && IsTake(queue, n)
    ensures m == n
  {
  }

  /** A take fits, is the longest prefix that does, and is not empty if the queue is not. */
  lemma TakeFits(queue: seq<Entry>, n: nat)
    requires IsTake(queue, n)
    ensures Fits(queue[..n])
    ensures n < |queue| ==> !Fits(queue[..n + 1])
    ensures queue != [] ==> n > 0
  {
    if n < |queue| {
      var e := queue[n];
      assert queue[..n + 1][..n] == queue[..n];
      assert |DacksOf(queue[..n + 1], e.dack.service)| == |DacksOf(queue[..n], e.dack.service)| + 1;
    }
    TakePrefixFits(queue, n);
  }

  lemma {:induction false} TakePrefixFits(queue: seq<Entry>, n: nat)
    requires n <= |queue| && forall m :: 0 <= m < n ==> !IsOverfull(queue[..m], queue[m])
    ensures Fits(queue[..n])
  {
    if n == 0 {
    } else {
      TakePrefixFits(queue, n - 1);
      assert queue[..n][..n - 1] == queue[..n - 1];
      forall s ensures |DacksOf(queue[..n], s)| <= MAX_ACKNOWLEDGMENTS {
        assert |DacksOf(queue[..n - 1], s)| <= MAX_ACKNOWLEDGMENTS;
        assert !IsOverfull(queue[..n - 1], queue[n - 1]);
      }
    }
  }

  lemma {:induction false} DacksOfConcat(a: seq<Entry>, b: seq<Entry>, s: Service)
    ensures DacksOf(a + b, s) == DacksOf(a, s) + DacksOf(b, s)
    decreases |b|
  {
    if b == [] {
      assert a + b == a;
    } else {
      var n := |b| - 1;
      assert (a + b)[..|a + b| - 1] == a + b[..n];
      DacksOfConcat(a, b[..n], s);
    }
  }

  // --- runs -----------------------------------------------------------------------------------

  /** What one tick took, what it submitted, and how many entries it then managed to remove. */
  datatype Batch = Batch(entries: seq<Entry>, txs: map<Service, Tx>, removed: nat)

  datatype State = State(queue: seq<Entry>, batches: seq<Batch>)

  /** An acknowledgment may fail to be written. A tick may remove fewer entries than it took: removals
      fail, or the node crashes after submitting. */
  datatype Event = Add(dack: Dack, written: bool) | Tick(n: nat, txs: map<Service, Tx>, removed: nat)

  ghost predicate Enabled(s: State, e: Event) {
    e.Tick? ==> IsTake(s.queue, e.n) && Aggregates(s.queue[..e.n], e.txs) && e.removed <= e.n
  }

  ghost function Step(s: State, e: Event): State
    requires Enabled(s, e)
  {
    match e
    case Add(dack, written) => if written then s.(queue := s.queue + [Good(dack)]) else s
    case Tick(n, txs, removed) => State(s.queue[removed..], s.batches + [Batch(s.queue[..n], txs, removed)])
  }

  /** The queue file may hold anything at the start. */
  ghost predicate IsRun(initial: seq<Entry>, trace: seq<State>, events: seq<Event>) {
    && |trace| == |events| + 1 && trace[0] == State(initial, [])
    && forall i :: 0 <= i < |events| ==> Enabled(trace[i], events[i]) && trace[i + 1] == Step(trace[i], events[i])
  }

  function WrittenBy(e: Event): seq<Entry> {
    if e.Add? && e.written then [Good(e.dack)] else []
  }

  /** Everything written to the queue. */
  function Written(events: seq<Event>): seq<Entry> {
    if events == [] then [] else Written(events[..|events| - 1]) + WrittenBy(events[|events| - 1])
  }

  /** Everything submitted, batch after batch. */
  function Submitted(batches: seq<Batch>): seq<Entry> {
    if batches == [] then [] else Submitted(batches[..|batches| - 1]) + batches[|batches| - 1].entries
  }

  function RemovedFrom(b: Batch): seq<Entry> {
    if b.removed <= |b.entries| then b.entries[..b.removed] else b.entries
  }

  /** Everything that has left the queue. */
  function Removed(batches: seq<Batch>): seq<Entry> {
    if batches == [] then [] else Removed(batches[..|batches| - 1]) + RemovedFrom(batches[|batches| - 1])
  }

  ghost predicate GoodBatch(b: Batch) {
    Fits(b.entries) && Aggregates(b.entries, b.txs) && b.removed <= |b.entries|
  }

  ghost predicate GoodBatches(batches: seq<Batch>) {
    forall i :: 0 <= i < |batches| ==> GoodBatch(batches[i])
  }

  /** In every run, whatever fails: what was written is what has left the queue and then what is still
      in it, in order; and every batch is what its entries add up to. */
  lemma {:induction false} Conservation(initial: seq<Entry>, trace: seq<State>, events: seq<Event>)
    requires IsRun(initial, trace, events)
    ensures var s := trace[|events|]; initial + Written(events) == Removed(s.batches) + s.queue && GoodBatches(s.batches)
    decreases |events|
  {
    hide GoodBatch, Enabled, Step;
    if events == [] {
      assert trace[0] == State(initial, []);
    } else {
      var k := |events| - 1;
      Conservation(initial, trace[..k + 1], events[..k]);
      var s, e := trace[k], events[k];
      assert Enabled(s, e) && trace[k + 1] == Step(s, e);
      StepConserves(s, e);
      assert initial + Written(events) == (initial + Written(events[..k])) + WrittenBy(e);
      assert (Removed(s.batches) + s.queue) + WrittenBy(e) == Removed(s.batches) + (s.queue + WrittenBy(e));
    }
  }

  lemma StepConserves(s: State, e: Event)
    requires Enabled(s, e)
    ensures Removed(Step(s, e).batches) + Step(s, e).queue == Removed(s.batches) + (s.queue + WrittenBy(e))
    ensures GoodBatches(s.batches) ==> GoodBatches(Step(s, e).batches)
  {
    hide GoodBatch, Aggregates, IsOverfull;
    if e.Tick? {
      TickIsGood(s.queue, e.n, e.txs, e.removed);
      var b := Batch(s.queue[..e.n], e.txs, e.removed);
      assert (s.batches + [b])[..|s.batches|] == s.batches;
      assert RemovedFrom(b) == s.queue[..e.removed];
      assert s.queue == s.queue[..e.removed] + s.queue[e.removed..];
    }
  }

  lemma TickIsGood(queue: seq<Entry>, n: nat, txs: map<Service, Tx>, removed: nat)
    requires IsTake(queue, n) && Aggregates(queue[..n], txs) && removed <= n
    ensures GoodBatch(Batch(queue[..n], txs, removed))
  {
    TakeFits(queue, n);
  }

  // --- exactly once ---------------------------------------------------------------------------

  /** Every tick removed all it had taken. */
  predicate AllRemoved(batches: seq<Batch>) {
    forall i :: 0 <= i < |batches| ==> batches[i].removed == |batches[i].entries|
  }

  lemma {:induction false} RemovedOfSubmitted(batches: seq<Batch>)
    requires forall i :: 0 <= i < |batches| ==> batches[i].removed <= |batches[i].entries|
    ensures |Removed(batches)| <= |Submitted(batches)|
    ensures |Removed(batches)| == |Submitted(batches)| <==> AllRemoved(batches)
    ensures AllRemoved(batches) ==> Removed(batches) == Submitted(batches)
    decreases |batches|
  {
    if batches == [] {
    } else {
      var n := |batches| - 1;
      RemovedOfSubmitted(batches[..n]);
      assert AllRemoved(batches) <==> AllRemoved(batches[..n]) && batches[n].removed == |batches[n].entries|;
    }
  }

  /** In every run every entry is in exactly one batch or still queued, in order, if and only if every
      tick removed all it had taken. */
  lemma ExactlyOnceExactly(initial: seq<Entry>, trace: seq<State>, events: seq<Event>)
    requires IsRun(initial, trace, events)
    ensures var s := trace[|events|];
            initial + Written(events) == Submitted(s.batches) + s.queue <==> AllRemoved(s.batches)
  {
    hide Enabled, Step, Fits, Aggregates;
    Conservation(initial, trace, events);
    var s := trace[|events|];
    assert forall i :: 0 <= i < |s.batches| ==> GoodBatch(s.batches[i]);
    RemovedOfSubmitted(s.batches);
  }

  /** A crash between submitting and removing makes the next tick submit the same entry again. */
  lemma CrashSubmitsTwice(d: Dack) returns (trace: seq<State>, events: seq<Event>)
    ensures IsRun([Good(d)], trace, events)
    ensures ProofsSent(trace[|events|].batches, d.service) == [d.proof, d.proof] && trace[|events|].queue == []
  {
    hide DacksOf, Proofs, Metadata, Total, Wrap;
    var queue := [Good(d)];
    var txs := map[d.service := AggregateOf(queue, d.service)];
    OneDack(d);
    var crashed, retried := Tick(1, txs, 0), Tick(1, txs, 1);
    assert queue[..1] == queue && queue[..0] == [] && queue[0..] == queue;
    events := [crashed, retried];
    var s0 := State(queue, []);
    assert Enabled(s0, crashed);
    var s1 := Step(s0, crashed);
    var s2 := Step(s1, retried);
    trace := [s0, s1, s2];
    var b := s2.batches;
    assert b[..1] == [b[0]] && b[..1][..0] == [];
    assert ProofsSent(b[..1], d.service) == [d.proof];
  }

  lemma OneDack(d: Dack)
    ensures DacksOf([], d.service) == []
    ensures forall s :: DacksOf([Good(d)], s) == if s == d.service then [d] else []
    ensures Proofs([d]) == [d.proof]
  {
    assert [Good(d)][..0] == [];
  }

  // --- the transactions -----------------------------------------------------------------------

  /** Every transaction of every run carries the proofs and metadata of its service's entries of one
      batch in queue order, between one and the maximum of proofs, and the exact sum of the
      commodities if and only if that fits 128 bits. */
  lemma EveryTransactionIsRight(initial: seq<Entry>, trace: seq<State>, events: seq<Event>, i: nat, s: Service)
    requires IsRun(initial, trace, events)
    ensures var batches := trace[|events|].batches;
            i < |batches| && s in batches[i].txs ==>
              var tx, ds := batches[i].txs[s], DacksOf(batches[i].entries, s);
              && tx.service == s && tx.proofs == Proofs(ds) && tx.metadata == Metadata(ds)
              && 1 <= |tx.proofs| <= MAX_ACKNOWLEDGMENTS
              && (tx.commodity == Total(ds) <==> Total(ds) < U128_RANGE)
  {
    hide DacksOf, Metadata, Total;
    Conservation(initial, trace, events);
    var batches := trace[|events|].batches;
    if i < |batches| && s in batches[i].txs {
      assert GoodBatch(batches[i]);
      SmallMod(Total(DacksOf(batches[i].entries, s)), U128_RANGE);
    }
  }

  /** Two acknowledgments of half the range each: their aggregate claims nothing was served. */
  lemma SumWrapsToZero(s: Service, p: Proof, q: Proof)
    ensures var half := U128_RANGE / 2;
            var entries := [Good(Dack(s, half, p, None)), Good(Dack(s, half, q, None))];
            AggregateOf(entries, s).commodity == 0 && Total(DacksOf(entries, s)) == U128_RANGE
  {
    var half := U128_RANGE / 2;
    var d, e := Dack(s, half, p, None), Dack(s, half, q, None);
    var entries := [Good(d), Good(e)];
    assert entries[..1] == [Good(d)] && entries[..1][..0] == [];
    assert DacksOf(entries[..1], s) == [d];
    assert DacksOf(entries, s) == [d, e];
    assert [d, e][..1] == [d] && [d][..0] == [];
    assert Total([d]) == half && Total([d, e]) == half + half;
  }

  /** The proofs of a service over the batches, in order of submission. */
  function ProofsSent(batches: seq<Batch>, s: Service): seq<Proof> {
    if batches == [] then []
    else
      var b := batches[|batches| - 1];
      ProofsSent(batches[..|batches| - 1], s) + if s in b.txs then b.txs[s].proofs else []
  }

  lemma {:induction false} ProofsSentAreSubmitted(batches: seq<Batch>, s: Service)
    requires GoodBatches(batches)
    ensures ProofsSent(batches, s) == Proofs(DacksOf(Submitted(batches), s))
    decreases |batches|
  {
    if batches == [] {
    } else {
      var front, b := batches[..|batches| - 1], batches[|batches| - 1];
      ProofsSentAreSubmitted(front, s);
      DacksOfConcat(Submitted(front), b.entries, s);
      assert GoodBatch(b);
      ProofsConcat(DacksOf(Submitted(front), s), DacksOf(b.entries, s));
    }
  }

  lemma ProofsConcat(a: seq<Dack>, b: seq<Dack>)
    ensures Proofs(a + b) == Proofs(a) + Proofs(b)
  {
  }

  /** For every service, the proofs sent are those of the entries submitted, in order; and while every
      tick removes what it took, the proofs sent and then those still queued are all its proofs. */
  lemma EveryProofIsSentOnceInOrder(initial: seq<Entry>, trace: seq<State>, events: seq<Event>, s: Service)
    requires IsRun(initial, trace, events)
    ensures var last := trace[|events|];
            && ProofsSent(last.batches, s) == Proofs(DacksOf(Submitted(last.batches), s))
            && (AllRemoved(last.batches) ==>
                  Proofs(DacksOf(initial + Written(events), s)) ==
                  ProofsSent(last.batches, s) + Proofs(DacksOf(last.queue, s)))
  {
    hide Proofs, Enabled, Step;
    Conservation(initial, trace, events);
    ExactlyOnceExactly(initial, trace, events);
    var last := trace[|events|];
    DacksOfConcat(Submitted(last.batches), last.queue, s);
    ProofsConcat(DacksOf(Submitted(last.batches), s), DacksOf(last.queue, s));
    ProofsSentAreSubmitted(last.batches, s);
  }

  /** Every tick on a non-empty queue takes something, and shortens the queue by what it removes. */
  lemma TickMakesProgress(s: State, e: Event)
    requires e.Tick? && Enabled(s, e) && s.queue != []
    ensures e.n >= 1 && Step(s, e).queue == s.queue[e.removed..]
    ensures e.removed == e.n ==> |Step(s, e).queue| < |s.queue|
  {
    TakeFits(s.queue, e.n);
  }
}

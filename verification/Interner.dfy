/** The digest interner: numbers digests with 16 bit ids and wraps around. */
module Interner {
  import opened Common

  type Digest = nat

  const CAPACITY: nat := 65536

  /** The id of a digest on the wire. */
  type Id = i: int | 0 <= i < CAPACITY

  datatype Table = Table(next: Id, data: seq<Digest>)

  const EMPTY := Table(0, [])

  function Get(t: Table, id: Id): Option<Digest> {
    if id < |t.data| then Some(t.data[id]) else None
  }

  function Insert(t: Table, d: Digest): Table
    requires |t.data| <= CAPACITY && (|t.data| < CAPACITY ==> t.next == |t.data|)
  {
    Table((t.next + 1) % CAPACITY,
          if |t.data| < CAPACITY then t.data + [d] else t.data[t.next := d])
  }

  /** The id the k-th inserted digest got. */
  function IdOf(k: nat): Id {
    k % CAPACITY
  }

  /** The k-th insertion is recent: fewer than 65,536 digests have been inserted since. */
  predicate Recent(inserted: seq<Digest>, k: nat) {
    k < |inserted| <= k + CAPACITY
  }

  /** The table after inserting all of `inserted`: every recent insertion is still under its id. */
  ghost predicate Holds(t: Table, inserted: seq<Digest>) {
    && t.next == |inserted| % CAPACITY
    && |t.data| == (if |inserted| < CAPACITY then |inserted| else CAPACITY)
    && forall k: nat :: Recent(inserted, k) ==> t.data[IdOf(k)] == inserted[k]
  }

  /** Inserting evicts exactly the digest inserted 65,536 insertions ago. */
  lemma InsertHolds(t: Table, inserted: seq<Digest>, d: Digest)
    requires Holds(t, inserted)
    ensures Holds(Insert(t, d), inserted + [d])
    ensures Get(Insert(t, d), t.next) == Some(d)
  {
    var t', all := Insert(t, d), inserted + [d];
    var n := |inserted|;
    forall k: nat | Recent(all, k) ensures IdOf(k) < |t'.data| && t'.data[IdOf(k)] == all[k] {
      if k < n {
        assert Recent(inserted, k);
        assert IdOf(k) != t.next;
      }
    }
  }

  /** A lookup finds the k-th digest under its id for as long as the insertion is recent, and
      once it no longer is, finds the digest that took the id over. */
  lemma LookupIsExact(t: Table, inserted: seq<Digest>, k: nat)
    requires Holds(t, inserted) && k < |inserted|
    ensures Recent(inserted, k) ==> Get(t, IdOf(k)) == Some(inserted[k])
    ensures exists j: nat :: Recent(inserted, j) && IdOf(j) == IdOf(k) && Get(t, IdOf(k)) == Some(inserted[j])
  {
    var n := |inserted|;
    var j := n - 1 - (n - 1 - k) % CAPACITY;
    assert (n - 1 - k) / CAPACITY * CAPACITY == (n - 1 - k) - (n - 1 - k) % CAPACITY;
    SameId(k, (n - 1 - k) / CAPACITY);
    assert Recent(inserted, j);
  }

  lemma {:induction false} SameId(k: nat, laps: nat)
    ensures IdOf(k + laps * CAPACITY) == IdOf(k)
  {
    if laps == 0 {
    } else {
      SameId(k, laps - 1);
    }
  }

  /** The interner object. */
  class DigestInterner {
    var next: Id
    var data: seq<Digest>
    ghost var inserted: seq<Digest>

    ghost predicate Valid()
      reads this
    {
      Holds(Table(next, data), inserted)
    }

    constructor ()
      ensures Valid() && inserted == []
    {
      next, data, inserted := 0, [], [];
    }

    method InsertDigest(d: Digest) returns (id: Id)
      requires Valid()
      modifies this
      ensures Valid() && inserted == old(inserted) + [d] && id == IdOf(|old(inserted)|)
      ensures Table(next, data) == Insert(old(Table(next, data)), d)
    {
      InsertHolds(Table(next, data), inserted, d);
      id := next;
      next := (id + 1) % CAPACITY;
      if |data| < CAPACITY {
        data := data + [d];
      } else {
        data := data[id := d];
      }
      inserted := inserted + [d];
    }

    method Lookup(id: Id) returns (r: Option<Digest>)
      requires Valid()
      ensures r == Get(Table(next, data), id)
      ensures forall k: nat :: Recent(inserted, k) && IdOf(k) == id ==> r == Some(inserted[k])
    {
      r := if id < |data| then Some(data[id]) else None;
    }
  }
}

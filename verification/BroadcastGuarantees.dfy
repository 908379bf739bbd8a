/** What the gossip protocol promises, stated over every run. */
module BroadcastGuarantees {
  import opened Common
  import opened Interner
  import opened PendingStore
  import opened BroadcastContext
  import opened BroadcastSafety
  import opened BroadcastDelivery

  lemma RunInserted(env: Env, events: seq<Event>, k: nat)
    requires k <= |events|
    ensures |Run(env, events[..k]).history.inserted| <= |Run(env, events).history.inserted|
    decreases |events|
  {
    hide Ready, Enabled;
    if k < |events| {
      var prefix, e := events[..|events| - 1], events[|events| - 1];
      assert prefix[..k] == events[..k];
      RunInserted(env, prefix, k);
      InsertedGrows(env, Run(env, prefix), e);
    } else {
      assert events[..k] == events;
    }
  }

  lemma InsertedGrows(env: Env, s: Context, e: Event)
    requires Ready(s)
    ensures s.history.inserted <= Step(env, s, e).history.inserted
  {
    hide Holds, Insert, Get, RemoveMessage, ReceivedMessage, ApplyTick, RetryWants, ToShared, ToDigest, InsertPending,
      InsertRequest;
  }

  /** The invariants that hold whatever the interner and the cache do. */
  lemma {:induction false} RunKeeps(env: Env, events: seq<Event>)
    ensures IdentityInv(env, Run(env, events))
    ensures PendingInv(Run(env, events))
    ensures AcceptInv(env, Run(env, events))
    ensures AdvertInv(Run(env, events))
  {
    hide IdentityInv, PendingInv, AcceptInv, AdvertInv, Step, Ready;
    if events == [] {
      InitialKeeps(env);
    } else {
      var s, e := Run(env, events[..|events| - 1]), events[|events| - 1];
      RunKeeps(env, events[..|events| - 1]);
      StepKeepsIdentity(env, s, e);
      StepKeepsPending(env, s, e);
      StepKeepsAccept(env, s, e);
      StepKeepsAdverts(env, s, e);
    }
  }

  lemma InitialKeeps(env: Env)
    ensures IdentityInv(env, INITIAL) && PendingInv(INITIAL) && AcceptInv(env, INITIAL) && AdvertInv(INITIAL)
  {
  }

  /** The invariants of runs in which the interner has not wrapped. */
  lemma {:induction false} RunKeepsWants(env: Env, events: seq<Event>)
    requires NoWrap(Run(env, events).history.inserted)
    ensures WantInv(Run(env, events)) && RetiredInv(Run(env, events))
  {
    hide WantInv, RetiredInv, Step, Ready;
    if events == [] {
      InitialKeepsWants();
    } else {
      var s, e := Run(env, events[..|events| - 1]), events[|events| - 1];
      RunInserted(env, events, |events| - 1);
      RunKeepsWants(env, events[..|events| - 1]);
      RunKeeps(env, events[..|events| - 1]);
      if Enabled(s, e) {
        StepKeepsWants(env, s, e);
        StepKeepsRetired(env, s, e);
      }
    }
  }

  lemma InitialKeepsWants()
    ensures WantInv(INITIAL) && RetiredInv(INITIAL)
  {
  }

  // --- guarantees ---------------------------------------------------------------------------

  /** Outgoing wants are sound. In a run with at most 65,536 interned digests, every want sent, at
      first or on retry, carries the id under which that very peer advertised the digest our
      interner holds under the local id. */
  lemma OutgoingWantsAreSound(env: Env, events: seq<Event>, i: nat)
    requires NoWrap(Run(env, events).history.inserted)
    requires i < |Run(env, events).outbox| && Run(env, events).outbox[i].SentWant?
    ensures var s, w := Run(env, events), Run(env, events).outbox[i];
            && Get(s.interner, w.local).Some?
            && Advr(w.to, w.remote, Get(s.interner, w.local).value) in s.history.advrs
  {
    hide Run;
    var s := Run(env, events);
    RunKeepsWants(env, events);
    RunKeeps(env, events);
    assert GoodOut(s.history, s.outbox[i]);
    var local := s.outbox[i].local;
    assert IdOf(local) == local && Recent(s.history.inserted, local);
    LookupIsExact(s.interner, s.history.inserted, local);
  }

  /** The retry lookup never misses: every peer a tick selects has told us its id for the digest, so
      each request of the tick becomes a want to the peer selected. */
  lemma {:induction false} RetryLookupNeverMisses(env: Env, events: seq<Event>, now: nat, sel: map<Id, NodeIndex>,
                                                  requests: seq<(Id, NodeIndex)>)
    requires IsSelection(Run(env, events).pending, now, sel)
    requires forall i :: 0 <= i < |requests| ==> requests[i].0 in sel && sel[requests[i].0] == requests[i].1
    ensures var wants := RetryWants(Run(env, events).peers, requests);
            && |wants| == |requests|
            && forall i :: 0 <= i < |wants| ==>
                 wants[i].SentWant? && wants[i].to == requests[i].1 && wants[i].local == requests[i].0
    decreases |requests|
  {
    hide Run, IsSelection;
    if requests == [] {
    } else {
      SelectedIsMapped(env, events, now, sel, requests[0].0);
      RetryLookupNeverMisses(env, events, now, sel, requests[1..]);
    }
  }

  lemma SelectedIsMapped(env: Env, events: seq<Event>, now: nat, sel: map<Id, NodeIndex>, id: Id)
    requires IsSelection(Run(env, events).pending, now, sel) && id in sel
    ensures var peers := Run(env, events).peers; sel[id] in peers && id in peers[sel[id]]
  {
    hide Run, Due, Candidates, IdentityInv, AcceptInv, AdvertInv;
    RunKeeps(env, events);
    assert sel[id] in Candidates(Run(env, events).pending, id);
  }

  /** Incoming wants are answered right. A want for the id the k-th interned digest got, received
      while fewer than 65,536 digests have been interned since, is answered with a message of
      exactly that digest, and it is answered whenever the message is in the database. */
  lemma IncomingWantsAnsweredRight(env: Env, events: seq<Event>, sender: NodeIndex, k: nat)
    requires Recent(Run(env, events).history.inserted, k)
    ensures var s := Run(env, events);
            var d := s.history.inserted[k];
            var s' := HandleWant(s, sender, IdOf(k));
            if GetMessage(s.db, d).None? then s' == s
            else
              var m := GetMessage(s.db, d).value;
              ToDigest(env, m) == d && s'.outbox == s.outbox + [SentMessage(sender, IdOf(k), m)]
  {
    hide Run;
    var s := Run(env, events);
    RunKeeps(env, events);
    LookupIsExact(s.interner, s.history.inserted, k);
    var d := s.history.inserted[k];
    if d in s.db {
      assert GoodEntry(env, s.history.inserted, d, s.db[d]);
    }
  }

  ghost predicate AnsweredWith(env: Env, s: Context, sender: NodeIndex, id: Id, d: Digest) {
    exists m :: ToDigest(env, m) == d && HandleWant(s, sender, id).outbox == s.outbox + [SentMessage(sender, id, m)]
  }

  /** An advertised id serves its digest, for as long as that is not evicted, exactly while the
      interner still holds the digest under the id. Sending checks this before it reuses an id;
      propagating does not. */
  lemma AdvertisedIdIsServedExactly(env: Env, events: seq<Event>, i: nat, sender: NodeIndex)
    requires i < |Run(env, events).outbox| && Run(env, events).outbox[i].Advertised?
    requires Run(env, events).outbox[i].digest !in Run(env, events).history.evicted
    ensures var s, a := Run(env, events), Run(env, events).outbox[i];
            && Assigned(s.history.inserted, a.digest, a.id)
            && (AnsweredWith(env, s, sender, a.id, a.digest) <==> Get(s.interner, a.id) == Some(a.digest))
  {
    hide Run, Holds, Assigned;
    var s := Run(env, events);
    RunKeeps(env, events);
    assert GoodAdvert(s, s.outbox[i]);
    var d, id := s.outbox[i].digest, s.outbox[i].id;
    if Get(s.interner, id) == Some(d) {
      assert GoodEntry(env, s.history.inserted, d, s.db[d]);
      var m := GetMessage(s.db, d).value;
      assert ToDigest(env, m) == d;
    }
    if AnsweredWith(env, s, sender, id, d) {
      var m :| ToDigest(env, m) == d && HandleWant(s, sender, id).outbox == s.outbox + [SentMessage(sender, id, m)];
      var x := Get(s.interner, id).value;
      assert (s.outbox + [SentMessage(sender, id, m)])[|s.outbox|] == SentMessage(sender, id, m);
      assert GoodEntry(env, s.history.inserted, x, s.db[x]);
    }
  }

  /** Bounded local delivery: a digest that is not evicted reaches the topic rings at most once,
      plus once for every clean-up and every invalid-sender mark of it. */
  lemma {:induction false} BoundedLocalDelivery(env: Env, events: seq<Event>, d: Digest)
    ensures DeliveryBound(Run(env, events), d)
    ensures d !in Run(env, events).history.evicted ==>
              Count(Run(env, events).published, d) <=
              1 + Run(env, events).history.cleanUps[d] + Run(env, events).history.invalidMarks[d]
  {
    hide Step, Ready;
    if events == [] {
    } else {
      var s, e := Run(env, events[..|events| - 1]), events[|events| - 1];
      BoundedLocalDelivery(env, events[..|events| - 1], d);
      StepKeepsBound(env, s, e, d);
    }
  }

  /** Event i brought the message, and it passed all checks then, by the directory of that moment. */
  ghost predicate ArrivedAt(env: Env, events: seq<Event>, i: int, m: Message, keys: Directory) {
    && 0 <= i < |events| && events[i].RecvMessage? && events[i].message == m && events[i].keys == keys
    && Accepts(env, Run(env, events[..i]), m, keys)
  }

  lemma {:induction false} AcceptedOnArrival(env: Env, events: seq<Event>, m: Message, keys: Directory)
    requires (m, keys) in Run(env, events).history.accepted
    ensures exists i :: ArrivedAt(env, events, i, m, keys)
    decreases |events|
  {
    hide Step, Ready, Accepts, Enabled;
    if events == [] {
    } else {
      var n := |events| - 1;
      var s := Run(env, events[..n]);
      if (m, keys) in s.history.accepted {
        AcceptedOnArrival(env, events[..n], m, keys);
        var i :| ArrivedAt(env, events[..n], i, m, keys);
        assert events[..n][..i] == events[..i];
        assert ArrivedAt(env, events, i, m, keys);
      } else {
        StepAccepts(env, s, events[n]);
        assert ArrivedAt(env, events, n, m, keys);
      }
    }
  }

  /** Everything published came from a message of the run that, when it arrived, was not yet stored, had
      an interned id, and carried a signature that the key of its own origin verifies, by the
      directory of that moment. */
  lemma PublishedWasVerified(env: Env, events: seq<Event>, i: nat)
    requires i < |Run(env, events).published|
    ensures var p := Run(env, events).published[i];
            exists j, m, keys ::
              && ArrivedAt(env, events, j, m, keys)
              && p == ToShared(ToDigest(env, m), m)
              && p.origin in keys && env.verify(keys[p.origin], m.signature, p.digest)
  {
    hide Run;
    var s := Run(env, events);
    RunKeeps(env, events);
    assert FromAccepted(env, s.history.accepted, s.published[i]);
    var m, keys :| (m, keys) in s.history.accepted && s.published[i] == ToShared(ToDigest(env, m), m);
    AcceptedOnArrival(env, events, m, keys);
    var j :| ArrivedAt(env, events, j, m, keys);
  }

  /** Once a message has been propagated no tick asks for it again, as long as the interner has not
      wrapped and the message is not evicted. */
  lemma NoRetryAfterPropagation(env: Env, events: seq<Event>, d: Digest, now: nat, sel: map<Id, NodeIndex>)
    requires NoWrap(Run(env, events).history.inserted)
    ensures var s := Run(env, events);
            d in s.history.propagated && d !in s.history.evicted && IsSelection(s.pending, now, sel) ==>
              GetId(s.db, d).Some? && GetId(s.db, d).value !in sel
  {
    hide Run;
    RunKeepsWants(env, events);
    var s := Run(env, events);
    if d in s.history.propagated && d !in s.history.evicted {
      assert Retired(s, d);
    }
  }
}

/** The beacon listener as an object over its durable tables. What it reads from the chain comes in as
    arguments. */
module BeaconListener {
  import opened Common
  import opened CommitteeBeacon

  /** One look at the chain while waiting for a transaction. */
  datatype Poll = Poll(landed: bool, timedOut: bool)

  /** How often a transaction is sent again before it lands or the watch ends. */
  function Retries(polls: seq<Poll>): nat {
    if polls == [] || polls[0].landed then 0 else (if polls[0].timedOut then 1 else 0) + Retries(polls[1..])
  }

  function Copies(tx: Sent, n: nat): seq<Sent> {
    seq(n, _ => tx)
  }

  /** What a handler reads from the chain, one after another. */
  datatype Seen = Seen(
    changeEpoch: bool, epoch: Epoch, onCommittee: bool, phase: Phase, nonRevealing: bool, onChain: Option<OnChain>)

  datatype Effect = Effect(db: Db, sent: seq<Sent>)

  function CommitEffect(build: Build, db: Db, seen: Seen, drawn: Reveal, polls: seq<Poll>): Effect
    requires seen.phase.CommitPhase?
  {
    var e, r := seen.epoch, seen.phase.round;
    if seen.nonRevealing || e != seen.phase.epoch || seen.onChain.Some? then Effect(db, [])
    else
      var c := if (e, r) in db.commits then db.commits[(e, r)] else build(e, r, drawn);
      Effect(if (e, r) in db.commits then db else SetBeacon(db, e, r, c, drawn),
             Copies(SentCommit(e, r, c), 1 + Retries(polls)))
  }

  function RevealEffect(db: Db, seen: Seen, polls: seq<Poll>): Effect
    requires seen.phase.RevealPhase?
  {
    var e := seen.epoch;
    if e == seen.phase.epoch && seen.onChain.Some? && seen.onChain.value.preimage.None?
       && (e, seen.onChain.value.commit) in db.beacons
    then
      var c := seen.onChain.value.commit;
      Effect(db, Copies(SentReveal(e, seen.phase.round, c, db.beacons[(e, c)]), 1 + Retries(polls)))
    else Effect(db, [])
  }

  /** What one executed block makes the listener save and send. */
  function BlockEffect(build: Build, db: Db, seen: Seen, drawn: Reveal, polls: seq<Poll>): Effect {
    if seen.changeEpoch then Effect(if seen.epoch > 0 then ClearBefore(db, seen.epoch) else db, [])
    else if !seen.onCommittee || seen.phase.NoPhase? then Effect(db, [])
    else if seen.phase.CommitPhase? then CommitEffect(build, db, seen, drawn, polls)
    else RevealEffect(db, seen, polls)
  }

  // --- what a block obliges the listener to do --------------------------------------------------

  /** The looks at the chain that found the wait too long, before one found the transaction landed. */
  ghost function Timeouts(polls: seq<Poll>): set<nat> {
    set i: nat | i < |polls| && polls[i].timedOut && NoneLanded(polls, i + 1)
  }

  ghost predicate NoneLanded(polls: seq<Poll>, n: nat)
    requires n <= |polls|
  {
    forall j :: 0 <= j < n ==> !polls[j].landed
  }

  /** Exactly n copies of the transaction have been sent, and nothing else. */
  ghost predicate SentMore(before: seq<Sent>, after: seq<Sent>, tx: Sent, n: nat) {
    && |after| == |before| + n && before <= after
    && forall i :: |before| <= i < |after| ==> after[i] == tx
  }

  /** In the reveal phase of its epoch a committee member with an unrevealed commit on chain reveals the
      value saved for that commit, once and again after each timeout; otherwise it sends nothing. */
  ghost predicate RevealsAsDue(db: Db, seen: Seen, polls: seq<Poll>, before: seq<Sent>, after: seq<Sent>)
    requires seen.phase.RevealPhase?
  {
    if seen.epoch == seen.phase.epoch && seen.onChain.Some? && seen.onChain.value.preimage.None?
       && (seen.epoch, seen.onChain.value.commit) in db.beacons
    then
      var c := seen.onChain.value.commit;
      SentMore(before, after, SentReveal(seen.epoch, seen.phase.round, c, db.beacons[(seen.epoch, c)]),
               1 + |Timeouts(polls)|)
    else after == before
  }

  /** In the commit phase of its epoch a committee member that may commit and has not yet done so sends the
      commit it has saved for the round, or saves the one for the value drawn and sends that, once and
      again after each timeout; otherwise it sends and saves nothing. */
  ghost predicate CommitsAsDue(build: Build, db: Db, db': Db, seen: Seen, drawn: Reveal, polls: seq<Poll>,
                               before: seq<Sent>, after: seq<Sent>)
    requires seen.phase.CommitPhase?
  {
    var slot := (seen.epoch, seen.phase.round);
    if !seen.nonRevealing && seen.epoch == seen.phase.epoch && seen.onChain.None? then
      && slot in db'.commits
      && SentMore(before, after, SentCommit(slot.0, slot.1, db'.commits[slot]), 1 + |Timeouts(polls)|)
      && (slot in db.commits ==> db' == db)
      && (slot !in db.commits ==>
            var c := build(slot.0, slot.1, drawn);
            db'.commits == db.commits[slot := c] && db'.beacons == db.beacons[(slot.0, c) := drawn])
    else db' == db && after == before
  }

  /** What an executed block obliges the listener to do, phase by phase. */
  ghost predicate DoesItsDuty(build: Build, db: Db, db': Db, seen: Seen, drawn: Reveal, polls: seq<Poll>,
                              before: seq<Sent>, after: seq<Sent>)
  {
    if seen.changeEpoch then
      && after == before
      && (forall k :: k in db'.commits <==> k in db.commits && (k.0 >= seen.epoch))
      && (forall k :: k in db'.commits ==> db'.commits[k] == db.commits[k])
      && (forall b :: b in db'.beacons <==> b in db.beacons && (b.0 >= seen.epoch))
      && (forall b :: b in db'.beacons ==> db'.beacons[b] == db.beacons[b])
    else if seen.onCommittee && seen.phase.CommitPhase? then
      CommitsAsDue(build, db, db', seen, drawn, polls, before, after)
    else if seen.onCommittee && seen.phase.RevealPhase? then db' == db && RevealsAsDue(db, seen, polls, before, after)
    else db' == db && after == before
  }

  lemma {:induction false} RetriesAppend(polls: seq<Poll>, p: Poll)
    ensures Retries(polls + [p]) ==
            Retries(polls) + if NoneLanded(polls, |polls|) && !p.landed && p.timedOut then 1 else 0
    decreases |polls|
  {
    if polls == [] {
      assert (polls + [p])[1..] == [];
    } else {
      assert (polls + [p])[1..] == polls[1..] + [p];
      RetriesAppend(polls[1..], p);
      if !polls[0].landed && NoneLanded(polls[1..], |polls| - 1) {
        forall j | 0 <= j < |polls| ensures !polls[j].landed {
          assert j > 0 ==> polls[1..][j - 1] == polls[j];
        }
      }
    }
  }

  lemma NoneLandedBefore(polls: seq<Poll>, p: Poll, n: nat)
    requires n <= |polls|
    ensures NoneLanded(polls + [p], n) <==> NoneLanded(polls, n)
    ensures NoneLanded(polls + [p], |polls| + 1) <==> NoneLanded(polls, |polls|) && !p.landed
  {
    var all := polls + [p];
    assert all[|polls|] == p;
    assert forall j :: 0 <= j < |polls| ==> all[j] == polls[j];
    if NoneLanded(all, n) {
      forall j | 0 <= j < n ensures !polls[j].landed {
        assert !all[j].landed;
      }
    }
    if NoneLanded(all, |polls| + 1) {
      forall j | 0 <= j < |polls| ensures !polls[j].landed {
        assert !all[j].landed;
      }
    }
  }

  lemma TimeoutsAppend(polls: seq<Poll>, p: Poll)
    ensures Timeouts(polls + [p]) ==
            Timeouts(polls) + if NoneLanded(polls, |polls|) && !p.landed && p.timedOut then {|polls|} else {}
  {
    hide NoneLanded;
    var all := polls + [p];
    NoneLandedBefore(polls, p, |polls|);
    forall i: nat | i < |polls| ensures i in Timeouts(all) <==> i in Timeouts(polls) {
      NoneLandedBefore(polls, p, i + 1);
    }
  }

  lemma {:induction false} RetriesAreTimeouts(polls: seq<Poll>)
    ensures Retries(polls) == |Timeouts(polls)|
    decreases |polls|
  {
    hide NoneLanded;
    if polls == [] {
      assert Timeouts(polls) == {};
    } else {
      var n := |polls| - 1;
      var front, p := polls[..n], polls[n];
      RetriesAreTimeouts(front);
      assert polls == front + [p];
      RetriesAppend(front, p);
      TimeoutsAppend(front, p);
      assert n !in Timeouts(front);
    }
  }

  lemma CopiesAreSent(before: seq<Sent>, tx: Sent, polls: seq<Poll>)
    ensures SentMore(before, before + Copies(tx, 1 + Retries(polls)), tx, 1 + |Timeouts(polls)|)
  {
    hide Retries, Timeouts;
    RetriesAreTimeouts(polls);
  }

  /** The effect of a block is its duty. */
  lemma BlockDoesItsDuty(build: Build, db: Db, seen: Seen, drawn: Reveal, polls: seq<Poll>, before: seq<Sent>)
    ensures var effect := BlockEffect(build, db, seen, drawn, polls);
            DoesItsDuty(build, db, effect.db, seen, drawn, polls, before, before + effect.sent)
  {
    hide Copies, Retries, Timeouts, SentMore;
    assert before + [] == before;
    if !seen.changeEpoch && seen.onCommittee {
      if seen.phase.CommitPhase? {
        var slot := (seen.epoch, seen.phase.round);
        var c := if slot in db.commits then db.commits[slot] else build(slot.0, slot.1, drawn);
        CopiesAreSent(before, SentCommit(slot.0, slot.1, c), polls);
      } else if seen.phase.RevealPhase? && seen.onChain.Some? && (seen.epoch, seen.onChain.value.commit) in db.beacons {
        var c := seen.onChain.value.commit;
        CopiesAreSent(before, SentReveal(seen.epoch, seen.phase.round, c, db.beacons[(seen.epoch, c)]), polls);
      }
    }
  }

  class Listener {
    var beacons: map<(Epoch, Commit), Reveal>
    var commits: map<Slot, Commit>
    ghost var sent: seq<Sent>

    function Contents(): Db
      reads this
    {
      Db(beacons, commits)
    }

    constructor ()
      ensures Contents() == Db(map[], map[]) && sent == []
    {
      beacons, commits, sent := map[], map[], [];
    }

    /** Removes every entry of an older epoch, one key after another. */
    method ClearBeaconsBefore(epoch: Epoch)
      modifies this`beacons, this`commits
      ensures Contents() == ClearBefore(old(Contents()), epoch)
    {
      RemoveOldBeacons(epoch);
      RemoveOldCommits(epoch);
    }

    method RemoveOldBeacons(epoch: Epoch)
      modifies this`beacons
      ensures beacons == ClearBefore(old(Contents()), epoch).beacons
    {
      var todo := beacons.Keys;
      while todo != {}
        invariant todo <= old(beacons.Keys)
        invariant forall b :: b in beacons <==> b in old(beacons) && (b in todo || b.0 >= epoch)
        invariant forall b :: b in beacons ==> beacons[b] == old(beacons)[b]
        decreases |todo|
      {
        var b: (Epoch, Commit) :| b in todo;
        todo := todo - {b};
        if b.0 < epoch {
          beacons := beacons - {b};
        }
      }
    }

    method RemoveOldCommits(epoch: Epoch)
      modifies this`commits
      ensures commits == ClearBefore(old(Contents()), epoch).commits
    {
      var todo := commits.Keys;
      while todo != {}
        invariant todo <= old(commits.Keys)
        invariant forall k :: k in commits <==> k in old(commits) && (k in todo || k.0 >= epoch)
        invariant forall k :: k in commits ==> commits[k] == old(commits)[k]
        decreases |todo|
      {
        var k: Slot :| k in todo;
        todo := todo - {k};
        if k.0 < epoch {
          commits := commits - {k};
        }
      }
    }

    /** Sends a transaction, and again after every timeout, until it lands. */
    method Persevere(tx: Sent, polls: seq<Poll>)
      modifies this`sent
      ensures sent == old(sent) + Copies(tx, 1 + Retries(polls))
      ensures SentMore(old(sent), sent, tx, 1 + |Timeouts(polls)|)
    {
      CopiesAreSent(sent, tx, polls);
      sent := sent + [tx];
      ghost var n := 0;
      var i := 0;
      while i < |polls| && !polls[i].landed
        invariant i <= |polls|
        invariant sent == old(sent) + Copies(tx, 1 + n) && n + Retries(polls[i..]) == Retries(polls)
      {
        assert polls[i..][1..] == polls[i + 1..];
        if polls[i].timedOut {
          sent := sent + [tx];
          n := n + 1;
        }
        i := i + 1;
      }
    }

    /** A commit already saved for the slot is sent again; otherwise a fresh one is saved first. */
    method HandleCommitPhase(build: Build, seen: Seen, drawn: Reveal, polls: seq<Poll>)
      requires seen.phase.CommitPhase?
      modifies this
      ensures var effect := CommitEffect(build, old(Contents()), seen, drawn, polls);
              Contents() == effect.db && sent == old(sent) + effect.sent
      ensures CommitsAsDue(build, old(Contents()), Contents(), seen, drawn, polls, old(sent), sent)
    {
      hide Retries, Copies, Timeouts, SentMore;
      var epoch, round := seen.epoch, seen.phase.round;
      if seen.nonRevealing {
        return;
      }
      if epoch != seen.phase.epoch {
        return;
      }
      if seen.onChain.Some? {
        return;
      }
      var commit;
      if (epoch, round) in commits {
        commit := commits[(epoch, round)];
      } else {
        commit := build(epoch, round, drawn);
        beacons := beacons[(epoch, commit) := drawn];
        commits := commits[(epoch, round) := commit];
      }
      Persevere(SentCommit(epoch, round, commit), polls);
    }

    /** A value is revealed only if it is saved for the commit that is on chain. */
    method HandleRevealPhase(seen: Seen, polls: seq<Poll>)
      requires seen.phase.RevealPhase?
      modifies this`sent
      ensures sent == old(sent) + RevealEffect(Contents(), seen, polls).sent
      ensures RevealsAsDue(Contents(), seen, polls, old(sent), sent)
    {
      hide Retries, Copies, Timeouts, SentMore;
      var epoch := seen.epoch;
      if epoch != seen.phase.epoch || seen.onChain.None? || seen.onChain.value.preimage.Some? {
        return;
      }
      var commit := seen.onChain.value.commit;
      if (epoch, commit) !in beacons {
        return;
      }
      Persevere(SentReveal(epoch, seen.phase.round, commit, beacons[(epoch, commit)]), polls);
    }

    /** A block makes the listener do its duty in the phase it finds, and no more. No commit saved for this epoch or a later one is lost or replaced,
        and everything sent is in the tables. */
    method HandleExecutedBlock(build: Build, seen: Seen, drawn: Reveal, polls: seq<Poll>)
      modifies this
      ensures var effect := BlockEffect(build, old(Contents()), seen, drawn, polls);
              Contents() == effect.db && sent == old(sent) + effect.sent
      ensures DoesItsDuty(build, old(Contents()), Contents(), seen, drawn, polls, old(sent), sent)
      ensures forall k :: k in old(commits) && k.0 >= seen.epoch ==> k in commits && commits[k] == old(commits)[k]
      ensures forall i :: |old(sent)| <= i < |sent| ==> Backed(Contents(), sent[i])
    {
      hide Retries, DoesItsDuty;
      BlockKeepsAndBacks(build, Contents(), seen, drawn, polls);
      BlockDoesItsDuty(build, Contents(), seen, drawn, polls, sent);
      if seen.changeEpoch {
        if seen.epoch > 0 {
          ClearBeaconsBefore(seen.epoch);
        }
        return;
      }
      if !seen.onCommittee {
        return;
      }
      match seen.phase {
        case NoPhase =>
        case CommitPhase(_, _) => HandleCommitPhase(build, seen, drawn, polls);
        case RevealPhase(_, _) => HandleRevealPhase(seen, polls);
      }
    }
  }

  /** The transaction repeats what the tables hold. */
  predicate Backed(db: Db, tx: Sent) {
    match tx
    case SentCommit(e, r, c) => (e, r) in db.commits && db.commits[(e, r)] == c
    case SentReveal(e, _, c, x) => (e, c) in db.beacons && db.beacons[(e, c)] == x
  }

  lemma BlockKeepsAndBacks(build: Build, db: Db, seen: Seen, drawn: Reveal, polls: seq<Poll>)
    ensures var after := BlockEffect(build, db, seen, drawn, polls);
            && (forall k :: k in db.commits && k.0 >= seen.epoch ==>
                 k in after.db.commits && after.db.commits[k] == db.commits[k])
            && (forall i :: 0 <= i < |after.sent| ==> Backed(after.db, after.sent[i]))
  {
    hide Retries;
  }

  // --- the handler is a run of the state machine ----------------------------------------------

  function StepAll(build: Build, s: State, events: seq<Event>): State
    decreases |events|
  {
    if events == [] then s else StepAll(build, Step(build, s, events[0]), events[1..])
  }

  lemma {:induction false} StepAllConcat(build: Build, s: State, a: seq<Event>, b: seq<Event>)
    ensures StepAll(build, s, a + b) == StepAll(build, StepAll(build, s, a), b)
    decreases |a|
  {
    hide Step;
    if a == [] {
      assert a + b == b;
    } else {
      assert (a + b)[1..] == a[1..] + b;
      StepAllConcat(build, Step(build, s, a[0]), a[1..], b);
    }
  }

  function Submits(n: nat): seq<Event> {
    seq(n, _ => Submit)
  }

  function InHand(pc: Pc): Sent
    requires pc.Submitting? || pc.Revealing?
  {
    if pc.Submitting? then SentCommit(pc.epoch, pc.round, pc.commit)
    else SentReveal(pc.epoch, pc.round, pc.commit, pc.preimage)
  }

  lemma {:induction false} SubmitMany(build: Build, s: State, n: nat)
    requires s.pc.Submitting? || s.pc.Revealing?
    ensures StepAll(build, s, Submits(n)) == s.(past := s.past.(sent := s.past.sent + Copies(InHand(s.pc), n)))
    decreases n
  {
    if n == 0 {
      assert s.past.sent + [] == s.past.sent;
    } else {
      var s1 := Step(build, s, Submit);
      assert Submits(n)[1..] == Submits(n - 1);
      SubmitMany(build, s1, n - 1);
      assert s1.past.sent + Copies(InHand(s.pc), n - 1) == s.past.sent + Copies(InHand(s.pc), n);
    }
  }

  /** From here, sending n times and stopping. */
  lemma SendAndStop(build: Build, s: State, n: nat)
    requires s.pc.Submitting? || s.pc.Revealing?
    ensures StepAll(build, s, Submits(n) + [Stop(false)]) ==
            s.(pc := Idle, past := s.past.(sent := s.past.sent + Copies(InHand(s.pc), n)))
  {
    hide Copies;
    StepAllConcat(build, s, Submits(n), [Stop(false)]);
    SubmitMany(build, s, n);
    var s1 := s.(past := s.past.(sent := s.past.sent + Copies(InHand(s.pc), n)));
    assert StepAll(build, s1, [Stop(false)]) == Step(build, s1, Stop(false));
  }

  /** The effect of a block, when the chain stands still meanwhile, is that of a run of the state machine
      from any idle state. */
  lemma HandlerIsRun(build: Build, s: State, seen: Seen, drawn: Reveal, polls: seq<Poll>) returns (events: seq<Event>)
    requires s.pc.Idle? && seen.epoch == s.chain.epoch && seen.phase == s.chain.phase && seen.onChain == s.chain.beacon
    ensures var s', effect := StepAll(build, s, events), BlockEffect(build, s.db, seen, drawn, polls);
            s'.db == effect.db && s'.past.sent == s.past.sent + effect.sent && s'.pc.Idle? && s'.chain == s.chain
  {
    hide Copies, Retries, ClearBefore;
    var n := 1 + Retries(polls);
    assert s.past.sent + [] == s.past.sent;
    if seen.changeEpoch {
      events := [BeginBlock(true), ClearOld];
      TwoSteps(build, s, BeginBlock(true), ClearOld);
    } else if !seen.onCommittee || seen.phase.NoPhase? {
      events := [];
    } else if BlockEffect(build, s.db, seen, drawn, polls).sent == [] {
      events := [];
      NoEffect(build, s.db, seen, drawn, polls);
    } else {
      events := SendingRun(build, s, seen, drawn, polls);
    }
  }

  lemma TwoSteps(build: Build, s: State, a: Event, b: Event)
    ensures StepAll(build, s, [a, b]) == Step(build, Step(build, s, a), b)
  {
    hide Step;
    assert [a, b][1..] == [b] && [b][1..] == [];
    assert StepAll(build, Step(build, s, a), [b]) == Step(build, Step(build, s, a), b);
  }

  lemma NoEffect(build: Build, db: Db, seen: Seen, drawn: Reveal, polls: seq<Poll>)
    requires !seen.changeEpoch && BlockEffect(build, db, seen, drawn, polls).sent == []
    ensures BlockEffect(build, db, seen, drawn, polls).db == db
  {
    hide Retries;
  }

  /** Up to the point where there is something to send. */
  lemma ReachHand(build: Build, s: State, seen: Seen, drawn: Reveal, polls: seq<Poll>) returns (events: seq<Event>)
    requires s.pc.Idle? && seen.epoch == s.chain.epoch && seen.phase == s.chain.phase && seen.onChain == s.chain.beacon
    requires !seen.changeEpoch && seen.onCommittee && !seen.phase.NoPhase?
    requires BlockEffect(build, s.db, seen, drawn, polls).sent != []
    ensures var h, effect := StepAll(build, s, events), BlockEffect(build, s.db, seen, drawn, polls);
            && (h.pc.Submitting? || h.pc.Revealing?) && h.chain == s.chain
            && h.db == effect.db && h.past.sent == s.past.sent
            && effect.sent == Copies(InHand(h.pc), 1 + Retries(polls))
  {
    hide Copies, Retries;
    var look := if seen.phase.CommitPhase? then CheckCommitted else CheckBeacon;
    var s2 := Step(build, s.(pc := Checking(seen.epoch)), ReadPhase);
    var s3 := Step(build, s2, look);
    TwoSteps(build, s, BeginBlock(false), ReadPhase);
    StepAllConcat(build, s, [BeginBlock(false), ReadPhase], [look]);
    OneStep(build, s2, look);
    events := [BeginBlock(false), ReadPhase] + [look];
    if s3.pc.Blank? {
      TwoSteps(build, s3, Draw(drawn), Persist);
      StepAllConcat(build, s, events, [Draw(drawn), Persist]);
      events := events + [Draw(drawn), Persist];
    }
  }

  lemma SendingRun(build: Build, s: State, seen: Seen, drawn: Reveal, polls: seq<Poll>) returns (events: seq<Event>)
    requires s.pc.Idle? && seen.epoch == s.chain.epoch && seen.phase == s.chain.phase && seen.onChain == s.chain.beacon
    requires !seen.changeEpoch && seen.onCommittee && !seen.phase.NoPhase?
    requires BlockEffect(build, s.db, seen, drawn, polls).sent != []
    ensures var s', effect := StepAll(build, s, events), BlockEffect(build, s.db, seen, drawn, polls);
            s'.db == effect.db && s'.past.sent == s.past.sent + effect.sent && s'.pc.Idle? && s'.chain == s.chain
  {
    hide Copies, Retries, StepAll, BlockEffect, Step;
    var n := 1 + Retries(polls);
    events := ReachHand(build, s, seen, drawn, polls);
    SendAndStop(build, StepAll(build, s, events), n);
    StepAllConcat(build, s, events, Submits(n) + [Stop(false)]);
    events := events + (Submits(n) + [Stop(false)]);
  }

  lemma OneStep(build: Build, s: State, e: Event)
    ensures StepAll(build, s, [e]) == Step(build, s, e)
  {
    hide Step;
    assert [e][1..] == [];
    assert StepAll(build, Step(build, s, e), []) == Step(build, s, e);
  }
}

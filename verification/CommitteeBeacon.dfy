/** A node taking part in the commit/reveal beacon, with its durable database, crashes at any point,
    and the part of the chain that it reads and writes. Transactions may execute late or never. */
module CommitteeBeacon {
  import opened Common

  type Epoch = nat
  type Round = nat
  type Commit = nat
  type Reveal = nat
  type Slot = (Epoch, Round)

  /** How a commit is built from epoch, round and reveal. Any function will do here. */
  type Build = (Epoch, Round, Reveal) -> Commit

  datatype Db = Db(beacons: map<(Epoch, Commit), Reveal>, commits: map<Slot, Commit>)

  function SetBeacon(db: Db, epoch: Epoch, round: Round, commit: Commit, preimage: Reveal): Db {
    Db(db.beacons[(epoch, commit) := preimage], db.commits[(epoch, round) := commit])
  }

  function ClearBefore(db: Db, epoch: Epoch): Db {
    var beacons := map b | b in db.beacons && b.0 >= epoch :: db.beacons[b];
    var commits := map k | k in db.commits && k.0 >= epoch :: db.commits[k];
    Db(beacons, commits)
  }

  datatype Phase = NoPhase | CommitPhase(epoch: Epoch, round: Round) | RevealPhase(epoch: Epoch, round: Round)

  datatype OnChain = OnChain(commit: Commit, preimage: Option<Reveal>)

  datatype Chain = Chain(epoch: Epoch, phase: Phase, beacon: Option<OnChain>)

  /** Where the handler is: everything it has read or drawn so far is lost in a crash. */
  datatype Pc =
    | Idle
    | Clearing(epoch: Epoch)
    | Checking(epoch: Epoch)
    | Choosing(epoch: Epoch, round: Round)
    | Blank(epoch: Epoch, round: Round)
    | Drawn(epoch: Epoch, round: Round, preimage: Reveal)
    | Submitting(epoch: Epoch, round: Round, commit: Commit)
    | Looking(epoch: Epoch, round: Round)
    | Revealing(epoch: Epoch, round: Round, commit: Commit, preimage: Reveal)

  datatype Sent =
    | SentCommit(epoch: Epoch, round: Round, commit: Commit)
    | SentReveal(epoch: Epoch, round: Round, commit: Commit, preimage: Reveal)

  datatype Made = Made(commit: Commit, preimage: Reveal)

  /** Every beacon ever saved, every transaction sent, every commit that was ever on chain, every draw
      and every draw lost unsaved. */
  datatype History = History(
    made: map<Slot, Made>,
    sent: seq<Sent>,
    landed: set<Commit>,
    draws: multiset<Slot>,
    dropped: multiset<Slot>,
    cleared: Epoch)

  datatype State = State(db: Db, pc: Pc, chain: Chain, past: History)

  const INITIAL := State(Db(map[], map[]), Idle, Chain(0, NoPhase, None), History(map[], [], {}, multiset{}, multiset{}, 0))

  datatype Event =
    | OpenCommitPhase
    | CommitTimeout(sufficient: bool)
    | RevealTimeout(othersRevealed: bool)
    | Execute(tx: nat)
    | BeginBlock(changeEpoch: bool)
    | ClearOld
    | ReadPhase
    | CheckCommitted
    | Draw(value: Reveal)
    | Persist
    | Submit
    | CheckBeacon
    | Stop(crash: bool)

  // --- the chain ------------------------------------------------------------------------------

  function Restart(c: Chain, round: Round): Chain {
    c.(phase := CommitPhase(c.epoch, round), beacon := None)
  }

  function StepChain(build: Build, c: Chain, sent: seq<Sent>, e: Event): Chain {
    match e
    case OpenCommitPhase => if c.phase.NoPhase? then c.(phase := CommitPhase(c.epoch, 0)) else c
    case CommitTimeout(sufficient) =>
      if !c.phase.CommitPhase? then c
      else if sufficient then c.(phase := RevealPhase(c.epoch, c.phase.round))
      else Restart(c, c.phase.round + 1)
    case RevealTimeout(othersRevealed) =>
      if !c.phase.RevealPhase? then c
      else if othersRevealed && (c.beacon.Some? ==> c.beacon.value.preimage.Some?) then Chain(c.epoch + 1, NoPhase, None)
      else Restart(c, c.phase.round + 1)
    case Execute(tx) => if tx < |sent| then ExecuteTx(build, c, sent[tx]) else c
    case _ => c
  }

  /** A reveal is checked against the round of the current phase, a commit is not checked at all. */
  function ExecuteTx(build: Build, c: Chain, tx: Sent): Chain {
    match tx
    case SentCommit(_, _, commit) =>
      if c.phase.CommitPhase? && c.beacon.None? then c.(beacon := Some(OnChain(commit, None))) else c
    case SentReveal(_, _, _, preimage) => if Accepts(build, c, preimage) then Revealed(c, preimage) else c
  }

  predicate Accepts(build: Build, c: Chain, preimage: Reveal) {
    && c.phase.RevealPhase? && c.beacon.Some? && c.beacon.value.preimage.None?
    && build(c.epoch, c.phase.round, preimage) == c.beacon.value.commit
  }

  function Revealed(c: Chain, preimage: Reveal): Chain
    requires c.beacon.Some?
  {
    c.(beacon := Some(OnChain(c.beacon.value.commit, Some(preimage))))
  }

  // --- the node -------------------------------------------------------------------------------

  function Begin(s: State, changeEpoch: bool): State {
    var pc := if changeEpoch then Clearing(s.chain.epoch) else Checking(s.chain.epoch);
    s.(pc := pc)
  }

  function Clear(s: State): State
    requires s.pc.Clearing?
  {
    if s.pc.epoch > 0 then
      s.(db := ClearBefore(s.db, s.pc.epoch), pc := Idle, past := s.past.(cleared := s.pc.epoch))
    else s.(pc := Idle)
  }

  /** The handlers go on only if the phase is for the epoch read earlier. */
  function Dispatch(s: State): State
    requires s.pc.Checking?
  {
    var e := s.pc.epoch;
    match s.chain.phase
    case CommitPhase(epoch, round) => if epoch == e then s.(pc := Choosing(e, round)) else s.(pc := Idle)
    case RevealPhase(epoch, round) => if epoch == e then s.(pc := Looking(e, round)) else s.(pc := Idle)
    case NoPhase => s.(pc := Idle)
  }

  function Choose(s: State): State
    requires s.pc.Choosing?
  {
    var k := (s.pc.epoch, s.pc.round);
    if s.chain.beacon.Some? then s.(pc := Idle)
    else if k in s.db.commits then s.(pc := Submitting(k.0, k.1, s.db.commits[k]))
    else s.(pc := Blank(k.0, k.1))
  }

  function DrawReveal(s: State, x: Reveal): State
    requires s.pc.Blank?
  {
    s.(pc := Drawn(s.pc.epoch, s.pc.round, x),
       past := s.past.(draws := s.past.draws + multiset{(s.pc.epoch, s.pc.round)}))
  }

  function Save(build: Build, s: State): State
    requires s.pc.Drawn?
  {
    var e, r, x := s.pc.epoch, s.pc.round, s.pc.preimage;
    var c := build(e, r, x);
    s.(db := SetBeacon(s.db, e, r, c, x), pc := Submitting(e, r, c),
       past := s.past.(made := s.past.made[(e, r) := Made(c, x)]))
  }

  /** Sends the transaction and stays: it is sent again on every timeout. */
  function Send(s: State): State {
    if s.pc.Submitting? then
      s.(past := s.past.(sent := s.past.sent + [SentCommit(s.pc.epoch, s.pc.round, s.pc.commit)]))
    else if s.pc.Revealing? then
      s.(past := s.past.(sent := s.past.sent + [SentReveal(s.pc.epoch, s.pc.round, s.pc.commit, s.pc.preimage)]))
    else s
  }

  function Look(s: State): State
    requires s.pc.Looking?
  {
    var e := s.pc.epoch;
    if s.chain.beacon.None? || s.chain.beacon.value.preimage.Some? then s.(pc := Idle)
    else
      var c := s.chain.beacon.value.commit;
      if (e, c) in s.db.beacons then s.(pc := Revealing(e, s.pc.round, c, s.db.beacons[(e, c)])) else s.(pc := Idle)
  }

  /** The handler returns, or the node crashes and restarts. It does not return between drawing a
      value and saving it. */
  function Halt(s: State, crash: bool): State {
    if !s.pc.Drawn? then s.(pc := Idle)
    else if crash then
      s.(pc := Idle, past := s.past.(dropped := s.past.dropped + multiset{(s.pc.epoch, s.pc.round)}))
    else s
  }

  function Step(build: Build, s: State, e: Event): State {
    match e
    case BeginBlock(changeEpoch) => if s.pc.Idle? then Begin(s, changeEpoch) else s
    case ClearOld => if s.pc.Clearing? then Clear(s) else s
    case ReadPhase => if s.pc.Checking? then Dispatch(s) else s
    case CheckCommitted => if s.pc.Choosing? then Choose(s) else s
    case Draw(x) => if s.pc.Blank? then DrawReveal(s, x) else s
    case Persist => if s.pc.Drawn? then Save(build, s) else s
    case Submit => Send(s)
    case CheckBeacon => if s.pc.Looking? then Look(s) else s
    case Stop(crash) => Halt(s, crash)
    case _ => Observe(s, StepChain(build, s.chain, s.past.sent, e))
  }

  function Observe(s: State, c: Chain): State {
    var now := if c.beacon.Some? then {c.beacon.value.commit} else {};
    s.(chain := c, past := s.past.(landed := s.past.landed + now))
  }

  // --- invariant ------------------------------------------------------------------------------

  /** The value is the node's own for some round of the epoch. */
  ghost predicate MadeFor(made: map<Slot, Made>, epoch: Epoch, round: Round, commit: Commit, preimage: Reveal) {
    (epoch, round) in made && made[(epoch, round)] == Made(commit, preimage)
  }

  ghost predicate MadeInEpoch(made: map<Slot, Made>, epoch: Epoch, commit: Commit, preimage: Reveal) {
    exists round :: MadeFor(made, epoch, round, commit, preimage)
  }

  ghost predicate GoodDb(build: Build, db: Db, past: History) {
    && (forall k :: k in db.commits ==> k in past.made && past.made[k].commit == db.commits[k])
    && (forall k :: k in past.made ==> past.made[k].commit == build(k.0, k.1, past.made[k].preimage))
    && (forall k :: k in past.made && k.0 >= past.cleared ==>
         k in db.commits && (k.0, past.made[k].commit) in db.beacons)
    && (forall b :: b in db.beacons ==> MadeInEpoch(past.made, b.0, b.1, db.beacons[b]))
  }

  ghost predicate GoodPc(s: State) {
    && s.past.cleared <= s.chain.epoch
    && (!s.pc.Idle? ==> s.past.cleared <= s.pc.epoch <= s.chain.epoch)
    && (s.pc.Blank? || s.pc.Drawn? ==> (s.pc.epoch, s.pc.round) !in s.past.made)
    && (s.pc.Submitting? ==>
         (s.pc.epoch, s.pc.round) in s.past.made && s.past.made[(s.pc.epoch, s.pc.round)].commit == s.pc.commit)
    && (s.pc.Revealing? ==>
         MadeInEpoch(s.past.made, s.pc.epoch, s.pc.commit, s.pc.preimage) && s.pc.commit in s.past.landed)
  }

  ghost predicate GoodSent(made: map<Slot, Made>, landed: set<Commit>, tx: Sent) {
    match tx
    case SentCommit(e, r, c) => (e, r) in made && made[(e, r)].commit == c
    case SentReveal(e, _, c, x) => MadeInEpoch(made, e, c, x) && c in landed
  }

  ghost predicate SentOut(sent: seq<Sent>, commit: Commit) {
    exists i :: 0 <= i < |sent| && sent[i].SentCommit? && sent[i].commit == commit
  }

  ghost predicate DrawsAreCounted(s: State) {
    forall k: Slot :: s.past.draws[k] == s.past.dropped[k] + (if k in s.past.made then 1 else 0) +
                                         if s.pc.Drawn? && (s.pc.epoch, s.pc.round) == k then 1 else 0
  }

  ghost predicate Inv(build: Build, s: State) {
    && GoodDb(build, s.db, s.past)
    && GoodPc(s)
    && (forall i :: 0 <= i < |s.past.sent| ==> GoodSent(s.past.made, s.past.landed, s.past.sent[i]))
    && (s.chain.beacon.Some? ==> s.chain.beacon.value.commit in s.past.landed)
    && (forall c :: c in s.past.landed ==> SentOut(s.past.sent, c))
    && DrawsAreCounted(s)
  }

  lemma SaveKeepsDb(build: Build, s: State)
    requires Inv(build, s) && s.pc.Drawn?
    ensures GoodDb(build, Save(build, s).db, Save(build, s).past)
  {
    var s' := Save(build, s);
    var e, r, x := s.pc.epoch, s.pc.round, s.pc.preimage;
    forall b | b in s'.db.beacons ensures MadeInEpoch(s'.past.made, b.0, b.1, s'.db.beacons[b]) {
      if b == (e, build(e, r, x)) {
        assert MadeFor(s'.past.made, e, r, b.1, x);
      } else {
        MoreMade(s.past.made, (e, r), Made(build(e, r, x), x), b.0, b.1, s.db.beacons[b]);
      }
    }
  }

  lemma MoreMade(made: map<Slot, Made>, k: Slot, m: Made, epoch: Epoch, commit: Commit, preimage: Reveal)
    requires MadeInEpoch(made, epoch, commit, preimage) && k !in made
    ensures MadeInEpoch(made[k := m], epoch, commit, preimage)
  {
    var round :| MadeFor(made, epoch, round, commit, preimage);
    assert MadeFor(made[k := m], epoch, round, commit, preimage);
  }

  lemma SaveKeepsInv(build: Build, s: State)
    requires Inv(build, s) && s.pc.Drawn?
    ensures Inv(build, Save(build, s))
  {
    hide GoodDb;
    SaveKeepsDb(build, s);
    var s' := Save(build, s);
    var k := (s.pc.epoch, s.pc.round);
    var m := s'.past.made[k];
    forall i | 0 <= i < |s.past.sent| ensures GoodSent(s'.past.made, s'.past.landed, s.past.sent[i]) {
      var tx := s.past.sent[i];
      assert GoodSent(s.past.made, s.past.landed, tx);
      if tx.SentReveal? {
        MoreMade(s.past.made, k, m, tx.epoch, tx.commit, tx.preimage);
      }
    }
  }

  lemma ClearKeepsInv(build: Build, s: State)
    requires Inv(build, s) && s.pc.Clearing?
    ensures Inv(build, Clear(s))
  {
    hide GoodSent, MadeInEpoch;
  }

  lemma SendKeepsInv(build: Build, s: State)
    requires Inv(build, s)
    ensures Inv(build, Send(s))
  {
    hide GoodDb, MadeInEpoch;
    var s' := Send(s);
    assert GoodDb(build, s'.db, s'.past) by { SameDb(build, s, s'); }
    forall i | 0 <= i < |s'.past.sent| ensures GoodSent(s'.past.made, s'.past.landed, s'.past.sent[i]) {
      assert i < |s.past.sent| ==> GoodSent(s.past.made, s.past.landed, s.past.sent[i]);
    }
    forall c | c in s.past.landed ensures SentOut(s'.past.sent, c) {
      var i :| 0 <= i < |s.past.sent| && s.past.sent[i].SentCommit? && s.past.sent[i].commit == c;
      assert s'.past.sent[i] == s.past.sent[i];
    }
  }

  lemma ChooseKeepsInv(build: Build, s: State)
    requires Inv(build, s) && s.pc.Choosing?
    ensures Inv(build, Choose(s))
  {
    hide GoodSent, MadeInEpoch, SentOut;
  }

  lemma LookKeepsInv(build: Build, s: State)
    requires Inv(build, s) && s.pc.Looking?
    ensures Inv(build, Look(s))
  {
    hide GoodSent, MadeInEpoch, SentOut;
  }

  lemma DrawKeepsInv(build: Build, s: State, x: Reveal)
    requires Inv(build, s) && s.pc.Blank?
    ensures Inv(build, DrawReveal(s, x))
  {
    hide GoodDb, GoodSent, MadeInEpoch, SentOut;
    var s' := DrawReveal(s, x);
    assert GoodDb(build, s'.db, s'.past) by { SameDb(build, s, s'); }
  }

  lemma HaltKeepsInv(build: Build, s: State, crash: bool)
    requires Inv(build, s)
    ensures Inv(build, Halt(s, crash))
  {
    hide GoodDb, GoodSent, MadeInEpoch, SentOut;
    var s' := Halt(s, crash);
    assert GoodDb(build, s'.db, s'.past) by { SameDb(build, s, s'); }
  }

  lemma SameDb(build: Build, s: State, s': State)
    requires GoodDb(build, s.db, s.past)
    requires s'.db == s.db && s'.past.made == s.past.made && s'.past.cleared == s.past.cleared
    ensures GoodDb(build, s'.db, s'.past)
  {
    hide MadeInEpoch;
  }

  lemma ChainKeepsInv(build: Build, s: State, e: Event)
    requires Inv(build, s)
    ensures Inv(build, Observe(s, StepChain(build, s.chain, s.past.sent, e)))
  {
    hide GoodDb, MadeInEpoch;
    var s' := Observe(s, StepChain(build, s.chain, s.past.sent, e));
    assert GoodDb(build, s'.db, s'.past) by { SameDb(build, s, s'); }
    forall i | 0 <= i < |s.past.sent| ensures GoodSent(s'.past.made, s'.past.landed, s.past.sent[i]) {
      assert GoodSent(s.past.made, s.past.landed, s.past.sent[i]);
    }
    if e.Execute? && e.tx < |s.past.sent| && s.past.sent[e.tx].SentCommit? {
      assert SentOut(s.past.sent, s.past.sent[e.tx].commit);
    }
  }

  lemma ReadKeepsInv(build: Build, s: State, e: Event)
    requires Inv(build, s) && (e.BeginBlock? || e.ReadPhase?)
    ensures Inv(build, Step(build, s, e))
  {
    hide GoodDb, GoodSent, MadeInEpoch, SentOut;
  }

  lemma StepKeepsInv(build: Build, s: State, e: Event)
    requires Inv(build, s)
    ensures Inv(build, Step(build, s, e))
  {
    hide Inv, DrawReveal, Save, Clear, Send, Halt, Choose, Look, StepChain, Begin, Dispatch, Observe;
    match e
    case ClearOld => if s.pc.Clearing? { ClearKeepsInv(build, s); }
    case CheckCommitted => if s.pc.Choosing? { ChooseKeepsInv(build, s); }
    case Draw(x) => if s.pc.Blank? { DrawKeepsInv(build, s, x); }
    case Persist => if s.pc.Drawn? { SaveKeepsInv(build, s); }
    case Submit => SendKeepsInv(build, s);
    case CheckBeacon => if s.pc.Looking? { LookKeepsInv(build, s); }
    case Stop(crash) => HaltKeepsInv(build, s, crash);
    case BeginBlock(_) => ReadKeepsInv(build, s, e);
    case ReadPhase => ReadKeepsInv(build, s, e);
    case _ => ChainKeepsInv(build, s, e);
  }

  // --- guarantees over every run --------------------------------------------------------------

  function Run(build: Build, events: seq<Event>): State {
    if events == [] then INITIAL
    else Step(build, Run(build, events[..|events| - 1]), events[|events| - 1])
  }

  lemma {:induction false} RunKeepsInv(build: Build, events: seq<Event>)
    ensures Inv(build, Run(build, events))
    decreases |events|
  {
    hide Inv, Step;
    if events == [] {
      InitialIsGood(build);
    } else {
      RunKeepsInv(build, events[..|events| - 1]);
      StepKeepsInv(build, Run(build, events[..|events| - 1]), events[|events| - 1]);
    }
  }

  lemma InitialIsGood(build: Build)
    ensures Inv(build, INITIAL)
  {
  }

  /** Two commits for one epoch and round. */
  predicate SameSlot(tx: Sent, ux: Sent) {
    tx.SentCommit? && ux.SentCommit? && tx.epoch == ux.epoch && tx.round == ux.round
  }

  /** At most one commit is ever sent for an epoch and round, however often it is sent. */
  lemma NeverEquivocates(build: Build, events: seq<Event>)
    ensures var sent := Run(build, events).past.sent;
            forall i, j :: 0 <= i < j < |sent| && SameSlot(sent[i], sent[j]) ==> sent[i] == sent[j]
  {
    hide Run, GoodDb, GoodPc, SentOut;
    RunKeepsInv(build, events);
    var s := Run(build, events);
    assert forall i :: 0 <= i < |s.past.sent| ==> GoodSent(s.past.made, s.past.landed, s.past.sent[i]);
  }

  ghost predicate Opens(build: Build, epoch: Epoch, commit: Commit, preimage: Reveal) {
    exists round: Round :: commit == build(epoch, round, preimage)
  }

  ghost predicate CanOpen(build: Build, db: Db, epoch: Epoch, commit: Commit) {
    (epoch, commit) in db.beacons && Opens(build, epoch, commit, db.beacons[(epoch, commit)])
  }

  /** The preimage of every commit sent for the current epoch, or a later one, is in the database. */
  lemma KeepsItsPreimages(build: Build, events: seq<Event>)
    ensures var s := Run(build, events);
            forall i :: 0 <= i < |s.past.sent| && s.past.sent[i].SentCommit? && s.past.sent[i].epoch >= s.chain.epoch ==>
              CanOpen(build, s.db, s.past.sent[i].epoch, s.past.sent[i].commit)
  {
    hide Run, SentOut, Opens, MadeInEpoch;
    RunKeepsInv(build, events);
    var s := Run(build, events);
    forall i | 0 <= i < |s.past.sent| && s.past.sent[i].SentCommit? && s.past.sent[i].epoch >= s.chain.epoch
      ensures CanOpen(build, s.db, s.past.sent[i].epoch, s.past.sent[i].commit)
    {
      var tx := s.past.sent[i];
      assert GoodSent(s.past.made, s.past.landed, tx);
      var k := (tx.epoch, tx.round);
      assert k in s.past.made && k.0 >= s.past.cleared;
      MadeOpens(build, s, tx.epoch, tx.commit, s.db.beacons[(tx.epoch, tx.commit)]);
    }
  }

  lemma MadeOpens(build: Build, s: State, epoch: Epoch, commit: Commit, preimage: Reveal)
    requires Inv(build, s) && MadeInEpoch(s.past.made, epoch, commit, preimage)
    ensures Opens(build, epoch, commit, preimage)
  {
    var round :| MadeFor(s.past.made, epoch, round, commit, preimage);
    assert commit == build(epoch, round, preimage);
  }

  /** Every reveal sent opens the commit it was sent for, which had been on chain and is one of the
      node's own. */
  lemma RevealsOpenTheirCommits(build: Build, events: seq<Event>)
    ensures var s := Run(build, events);
            forall i :: 0 <= i < |s.past.sent| && s.past.sent[i].SentReveal? ==>
              var tx := s.past.sent[i];
              Opens(build, tx.epoch, tx.commit, tx.preimage) && tx.commit in s.past.landed
              && SentOut(s.past.sent, tx.commit)
  {
    hide Run, SentOut, Opens, MadeInEpoch, GoodDb, GoodPc;
    RunKeepsInv(build, events);
    var s := Run(build, events);
    forall i | 0 <= i < |s.past.sent| && s.past.sent[i].SentReveal?
      ensures var tx := s.past.sent[i];
              Opens(build, tx.epoch, tx.commit, tx.preimage) && tx.commit in s.past.landed
              && SentOut(s.past.sent, tx.commit)
    {
      var tx := s.past.sent[i];
      assert GoodSent(s.past.made, s.past.landed, tx);
      MadeOpens(build, s, tx.epoch, tx.commit, tx.preimage);
    }
  }

  /** What is on chain for the node is a commit the node sent. */
  lemma ChainHoldsOwnCommit(build: Build, events: seq<Event>)
    ensures var s := Run(build, events); s.chain.beacon.Some? ==> SentOut(s.past.sent, s.chain.beacon.value.commit)
  {
    hide Run, SentOut;
    RunKeepsInv(build, events);
    var s := Run(build, events);
    if s.chain.beacon.Some? {
      assert s.chain.beacon.value.commit in s.past.landed;
    }
  }

  ghost predicate CollisionFree(build: Build) {
    forall e, r, x, e', r', x' :: build(e, r, x) == build(e', r', x') ==> (e, r, x) == (e', r', x')
  }

  /** The handler holds a reveal for the commit on chain, in the reveal phase it was told of. */
  predicate IsRevealing(s: State) {
    && s.pc.Revealing? && s.chain.phase == RevealPhase(s.pc.epoch, s.pc.round)
    && s.chain.epoch == s.pc.epoch && s.chain.beacon == Some(OnChain(s.pc.commit, None))
  }

  /** The commit in hand is the one the database has for the round in hand. */
  predicate SavedForRound(s: State)
    requires s.pc.Revealing?
  {
    (s.pc.epoch, s.pc.round) in s.db.commits && s.db.commits[(s.pc.epoch, s.pc.round)] == s.pc.commit
  }

  /** A reveal that has been looked up for the commit on chain is accepted exactly if the node's
      database has that commit for the round now being revealed, when commits do not collide. The
      node could look before it sends. */
  lemma AcceptedExactlyInItsRound(build: Build, events: seq<Event>)
    requires CollisionFree(build)
    ensures var s := Run(build, events); IsRevealing(s) ==> (Accepts(build, s.chain, s.pc.preimage) <==> SavedForRound(s))
  {
    hide Run, CollisionFree, GoodSent, SentOut, DrawsAreCounted;
    RunKeepsInv(build, events);
    var s := Run(build, events);
    if IsRevealing(s) {
      var round :| MadeFor(s.past.made, s.pc.epoch, round, s.pc.commit, s.pc.preimage);
      var e, x := s.pc.epoch, s.pc.preimage;
      assert build(e, round, x) == s.pc.commit;
      if Accepts(build, s.chain, x) {
        NoCollision(build, (e, round, x), (e, s.pc.round, x));
        assert MadeFor(s.past.made, e, s.pc.round, s.pc.commit, x) && e >= s.past.cleared;
      } else if SavedForRound(s) {
        assert (e, s.pc.round) in s.past.made;
        NoCollision(build, (e, round, x), (e, s.pc.round, s.past.made[(e, s.pc.round)].preimage));
      }
    }
  }

  lemma NoCollision(build: Build, a: (Epoch, Round, Reveal), b: (Epoch, Round, Reveal))
    requires CollisionFree(build) && build(a.0, a.1, a.2) == build(b.0, b.1, b.2)
    ensures a == b
  {
  }

  /** Values are drawn again for an epoch and round only after a crash lost the last draw unsaved. */
  lemma DrawsAgainOnlyAfterCrash(build: Build, events: seq<Event>, k: Slot)
    ensures var s := Run(build, events);
            && s.past.draws[k] <= 1 + s.past.dropped[k]
            && (k in s.past.made ==> s.past.draws[k] == 1 + s.past.dropped[k])
  {
    hide Run, GoodDb, GoodSent, SentOut;
    RunKeepsInv(build, events);
    var s := Run(build, events);
    assert s.pc.Drawn? ==> (s.pc.epoch, s.pc.round) !in s.past.made;
  }
}

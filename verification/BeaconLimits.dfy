/** Runs that show where the beacon's plainest promises end: a commit that lands a round late, and a
    crash between drawing a value and saving it. */
module BeaconLimits {
  import opened Common
  import opened CommitteeBeacon

  lemma Extend(build: Build, events: seq<Event>, e: Event) returns (more: seq<Event>)
    ensures more == events + [e] && Run(build, more) == Step(build, Run(build, events), e)
  {
    hide Step;
    more := events + [e];
    assert more[..|more| - 1] == events;
  }

  /** The start of a commit phase, up to the point where a value has to be drawn. */
  lemma ReachBlank(build: Build) returns (events: seq<Event>)
    ensures Run(build, events) == INITIAL.(pc := Blank(0, 0), chain := Chain(0, CommitPhase(0, 0), None))
  {
    hide Run;
    events := Extend(build, [], OpenCommitPhase);
    assert Run(build, []) == INITIAL by { EmptyRun(build); }
    events := Extend(build, events, BeginBlock(false));
    events := Extend(build, events, ReadPhase);
    events := Extend(build, events, CheckCommitted);
  }

  lemma EmptyRun(build: Build)
    ensures Run(build, []) == INITIAL
  {
  }

  /** A commit made and sent in round 0 is still in flight when the round is restarted, and then
      executes in the commit phase of round 1. */
  lemma ReachLateCommit(build: Build, x: Reveal) returns (events: seq<Event>)
    ensures var c := build(0, 0, x);
            Run(build, events) == State(
              Db(map[(0, c) := x], map[(0, 0) := c]), Submitting(0, 0, c),
              Chain(0, RevealPhase(0, 1), Some(OnChain(c, None))),
              History(map[(0, 0) := Made(c, x)], [SentCommit(0, 0, c)], {c}, multiset{(0, 0)}, multiset{}, 0))
  {
    hide Run;
    events := ReachBlank(build);
    events := Extend(build, events, Draw(x));
    events := Extend(build, events, Persist);
    events := Extend(build, events, Submit);
    events := Extend(build, events, CommitTimeout(false));
    events := Extend(build, events, Execute(0));
    events := Extend(build, events, CommitTimeout(true));
  }

  /** A commit that executes only in the round after its own is later revealed, and the reveal is
      refused, whenever the two rounds give different commits. */
  lemma LateCommitCannotBeRevealed(build: Build, x: Reveal) returns (events: seq<Event>)
    requires build(0, 0, x) != build(0, 1, x)
    ensures var s := Run(build, events);
            && s.pc == Revealing(0, 1, build(0, 0, x), x) && s.chain.phase == RevealPhase(0, 1)
            && s.chain.beacon == Some(OnChain(s.pc.commit, None)) && !Accepts(build, s.chain, x)
  {
    hide Run;
    events := ReachLateCommit(build, x);
    events := Extend(build, events, Stop(false));
    events := Extend(build, events, BeginBlock(false));
    events := Extend(build, events, ReadPhase);
    events := Extend(build, events, CheckBeacon);
  }

  /** A crash between drawing and saving makes the node draw twice for one epoch and round. */
  lemma CrashDrawsTwice(build: Build, x: Reveal, y: Reveal) returns (events: seq<Event>)
    ensures Run(build, events).past.draws[(0, 0)] == 2 && Run(build, events).pc == Drawn(0, 0, y)
  {
    hide Run;
    events := ReachBlank(build);
    events := Extend(build, events, Draw(x));
    events := Extend(build, events, Stop(true));
    events := Extend(build, events, BeginBlock(false));
    events := Extend(build, events, ReadPhase);
    events := Extend(build, events, CheckCommitted);
    events := Extend(build, events, Draw(y));
  }
}

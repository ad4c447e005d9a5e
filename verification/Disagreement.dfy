/** A run of four correct nodes, one of them slow, that ends in two different blocks for epoch 0.
    Node 3 leads round 0 but its broadcast is late: the others say no and go on, and yet complete
    the broadcast, so that node 2, which has not processed the leader, halts on it. Meanwhile the
    others decide round 1, which node 0 leads. */
module Disagreement {
  import opened Messages
  import opened Committee
  import opened Votes
  import N = Node
  import opened System
  import L = Local
  import opened Runs
  import opened Byzantine
  import opened Benign
  import opened Agreement
  import opened Schedules
  import opened Broadcasts
  import opened Trios
  import opened Rounds
  import opened Openings

  /** Four nodes; node 3 leads round 0 and node 0 leads round 1 of epoch 0. */
  ghost predicate Split(c: N.Cfg) {
    Led(c) && N.Elected(c, S1) == 0
  }

  // --------------------------------------------- nodes 0, 1 and 3 vote round 0 down

  lemma {:induction false} EarlyHaltless(c: N.Cfg, acts: seq<Sched>)
    requires Split(c) && Calm(c, acts) && Counting(acts, EARLY, EARLY)
    ensures forall i :: 0 <= i < c.n ==> Haltless(c, At(c, acts), i)
  {
    forall i | 0 <= i < c.n ensures Haltless(c, At(c, acts), i) {
      forall sl ensures Muted(c, At(c, acts), i, EARLY, EARLY, sl) {
        assert Inst(sl.e, sl.r, N.Elected(c, sl)) in EARLY ==> sl == S0;
      }
      MuteIsHaltless(c, acts, i, EARLY, EARLY);
    }
  }

  lemma {:induction false} SomeDone(c: N.Cfg, acts: seq<Sched>) returns (acts': seq<Sched>)
    requires Split(c) && Finished(c, acts, EARLY)
    ensures Calm(c, acts') && AllStarted(c, At(c, acts')) && Counting(acts', EARLY, EARLY) && By(acts, acts', {0, 1, 3})
    ensures SaidDones(c, At(c, acts'), S0)
  {
    EarlyHaltless(c, acts);
    var ms := [F(0, 0), F(1, 0), F(2, 0)];
    acts' := AllHear(c, acts, ms, EARLY, EARLY);
    assert ms[0] in ms && ms[1] in ms && ms[2] in ms;
    FinishesToDone(c, acts', 0, S0, F(0, 0), F(1, 0), F(2, 0));
    FinishesToDone(c, acts', 1, S0, F(0, 0), F(1, 0), F(2, 0));
    FinishesToDone(c, acts', 3, S0, F(0, 0), F(1, 0), F(2, 0));
  }

  lemma {:induction false} SomePrevote(c: N.Cfg, acts: seq<Sched>) returns (acts': seq<Sched>)
    requires Split(c) && Calm(c, acts) && AllStarted(c, At(c, acts)) && Counting(acts, EARLY, EARLY)
    requires SaidDones(c, At(c, acts), S0)
    ensures Calm(c, acts') && AllStarted(c, At(c, acts')) && Counting(acts', EARLY, EARLY) && By(acts, acts', {0, 1, 3})
    ensures Said(c, At(c, acts'), NoVote(c, 0, S0)) && Said(c, At(c, acts'), NoVote(c, 1, S0)) && Said(c, At(c, acts'), NoVote(c, 3, S0))
  {
    EarlyHaltless(c, acts);
    acts' := AllHearDones(c, acts, S0, EARLY, EARLY);
    PrevotesNo(c, acts', EARLY, EARLY, 0, S0);
    PrevotesNo(c, acts', EARLY, EARLY, 1, S0);
    PrevotesNo(c, acts', EARLY, EARLY, 3, S0);
  }

  lemma {:induction false} SomeNo(c: N.Cfg, acts: seq<Sched>) returns (acts': seq<Sched>, v0: Msg, v1: Msg, v3: Msg)
    requires Split(c) && Calm(c, acts) && AllStarted(c, At(c, acts)) && Counting(acts, EARLY, EARLY)
    requires Said(c, At(c, acts), NoVote(c, 0, S0)) && Said(c, At(c, acts), NoVote(c, 1, S0)) && Said(c, At(c, acts), NoVote(c, 3, S0))
    ensures Calm(c, acts') && AllStarted(c, At(c, acts')) && Counting(acts', EARLY, EARLY) && By(acts, acts', {0, 1, 3})
    ensures v0.FinVote? && v1.FinVote? && v3.FinVote? && v0.author == 0 && v1.author == 1 && v3.author == 3
    ensures forall m :: m in [v0, v1, v3] ==> SlotOf(m) == S0 && Said(c, At(c, acts'), m)
  {
    EarlyHaltless(c, acts);
    var p0, p1, p3 := NoVote(c, 0, S0), NoVote(c, 1, S0), NoVote(c, 3, S0);
    acts' := AllHear(c, acts, [p0, p1, p3], EARLY, EARLY);
    v0 := CastsNo(c, acts', EARLY, EARLY, 0, S0, p0, p1, p3);
    v1 := CastsNo(c, acts', EARLY, EARLY, 1, S0, p0, p1, p3);
    v3 := CastsNo(c, acts', EARLY, EARLY, 3, S0, p0, p1, p3);
  }

  /** Round 0 has come out as a no at nodes 0, 1 and 3, who have prevoted and proposed again. */
  ghost predicate VotedDown(c: N.Cfg, s: State)
    requires c.n == 4 && Wf(c, s)
  {
    && Decides(c, s, 0, S0, ActionNo) && Decides(c, s, 1, S0, ActionNo) && Decides(c, s, 3, S0, ActionNo)
    && Said(c, s, NoVote(c, 0, S0)) && Said(c, s, NoVote(c, 1, S0)) && Said(c, s, NoVote(c, 3, S0))
    && Said(c, s, P(0, 1)) && Said(c, s, P(1, 1)) && Said(c, s, P(3, 1))
  }

  lemma {:induction false} NoFinYet(c: N.Cfg, acts: seq<Sched>, i: int)
    requires Split(c) && Silent(c) && FewFinish(c, At(c, acts), S0, 1, 3) && 0 <= i < c.n
    ensures N.RoundOf(At(c, acts).nodes[i], S0).fin == []
  {
    var fin := N.RoundOf(At(c, acts).nodes[i], S0).fin;
    if fin != [] {
      FinWasSaid(c, acts, i, S0, fin[0]);
      var pv := FinVoteSource(c, acts, fin[0]);
      SentByCorrect(c, acts, pv.author, Env(NONE, pv));
      FewFinishNotReady(c, acts, S0, 1, 3, pv.author);
    }
  }

  lemma {:induction false} SomeReopen(c: N.Cfg, start: seq<Sched>, acts: seq<Sched>, v0: Msg, v1: Msg, v3: Msg) returns (acts': seq<Sched>)
    requires Split(c) && Finished(c, start, EARLY) && start <= acts
    requires Calm(c, acts) && AllStarted(c, At(c, acts)) && Counting(acts, EARLY, EARLY)
    requires v0.FinVote? && v1.FinVote? && v3.FinVote? && v0.author == 0 && v1.author == 1 && v3.author == 3
    requires forall m :: m in [v0, v1, v3] ==> SlotOf(m) == S0 && Said(c, At(c, acts), m)
    ensures Calm(c, acts') && AllStarted(c, At(c, acts')) && Counting(acts', EARLY, EARLY) && By(acts, acts', {0, 1, 3})
    ensures var s := At(c, acts');
            && Decides(c, s, 0, S0, ActionNo) && Decides(c, s, 1, S0, ActionNo) && Decides(c, s, 3, S0, ActionNo)
            && Said(c, s, P(0, 1)) && Said(c, s, P(1, 1)) && Said(c, s, P(3, 1))
  {
    hide At;
    EarlyHaltless(c, acts);
    acts' := AllHear(c, acts, [v0, v1, v3], EARLY, EARLY);
    forall i | i in [0, 1, 3] ensures Decides(c, At(c, acts'), i, S0, ActionNo) && Said(c, At(c, acts'), P(i, 1)) {
      ComesOutNo(c, acts', EARLY, EARLY, i, S0, v0, v1, v3);
      NoFinYet(c, start, i);
      OpensRound(c, start, acts', i, S0, B(i));
    }
    assert 0 in [0, 1, 3] && 1 in [0, 1, 3] && 3 in [0, 1, 3];
  }

  lemma {:induction false} VoteDown(c: N.Cfg, acts: seq<Sched>) returns (acts': seq<Sched>)
    requires Split(c) && Finished(c, acts, EARLY)
    ensures Calm(c, acts') && AllStarted(c, At(c, acts')) && Counting(acts', EARLY, EARLY) && By(acts, acts', {0, 1, 3})
    ensures VotedDown(c, At(c, acts')) && SaidDones(c, At(c, acts'), S0)
  {
    hide At;
    var a1 := SomeDone(c, acts);
    var a2 := SomePrevote(c, a1);
    var a3, v0, v1, v3 := SomeNo(c, a2);
    acts' := SomeReopen(c, acts, a3, v0, v1, v3);
    ByJoin(acts, a1, a2, {0, 1, 3});
    ByJoin(acts, a2, a3, {0, 1, 3});
    ByJoin(acts, a3, acts', {0, 1, 3});
    SaidDonesLater(c, a1, acts', S0);
    SaidLater(c, a2, acts', NoVote(c, 0, S0));
    SaidLater(c, a2, acts', NoVote(c, 1, S0));
    SaidLater(c, a2, acts', NoVote(c, 3, S0));
  }

  // ------------------------------------------- the broadcast of node 3, and node 2 halts

  /** Nodes that have voted round 0 down have halted neither in it nor, while two nodes cannot
      have finished it, in round 1. */
  lemma {:induction false} LateMute(c: N.Cfg, s: State, i: int, ones: set<Inst>, twos: set<Inst>)
    requires Split(c) && Wf(c, s) && (i == 0 || i == 1 || i == 3) && VotedDown(c, s)
    requires ones <= LATE + {K(0, 1), K(1, 1), K(3, 1)}
    requires K(0, 1) !in ones || Unfinished(c, twos, S1, 1, 3) || Unfinished(c, twos, S1, 2, 3)
    ensures Mute(c, s, i, ones, twos)
  {
    L.NumMember(s.out[i], Env(NONE, NoVote(c, i, S0)), L.KPrevote, S0);
    forall sl ensures Muted(c, s, i, ones, twos, sl) {
      assert Inst(sl.e, sl.r, N.Elected(c, sl)) in ones ==> sl == S0 || sl == S1;
    }
  }

  lemma {:induction false} VotedDownLater(c: N.Cfg, acts: seq<Sched>, acts': seq<Sched>)
    requires Split(c) && Silent(c) && acts <= acts' && VotedDown(c, At(c, acts))
    ensures VotedDown(c, At(c, acts'))
  {
    forall i | i in [0, 1, 3]
      ensures Decides(c, At(c, acts'), i, S0, ActionNo) && Said(c, At(c, acts'), NoVote(c, i, S0)) && Said(c, At(c, acts'), P(i, 1))
    {
      DecidesLater(c, acts, acts', i, S0, ActionNo);
      SaidLater(c, acts, acts', NoVote(c, i, S0));
      SaidLater(c, acts, acts', P(i, 1));
    }
    assert 0 in [0, 1, 3] && 1 in [0, 1, 3] && 3 in [0, 1, 3];
  }

  lemma {:induction false} LateGroup(c: N.Cfg, acts: seq<Sched>, p: int, y: int, z: int, ones: set<Inst>, twos: set<Inst>)
    requires Split(c) && Calm(c, acts) && Counting(acts, ones, twos) && AllStarted(c, At(c, acts)) && VotedDown(c, At(c, acts))
    requires {p, y, z} == {0, 1, 3} && Distinct(p, y, z) && ones <= LATE + {K(0, 1), K(1, 1), K(3, 1)}
    requires K(0, 1) !in ones || Unfinished(c, twos, S1, 1, 3) || Unfinished(c, twos, S1, 2, 3)
    ensures Group(c, acts, p, y, z, ones, twos)
    ensures Haltless(c, At(c, acts), 0) && Haltless(c, At(c, acts), 1) && Haltless(c, At(c, acts), 3)
  {
    assert p in {0, 1, 3} && y in {0, 1, 3} && z in {0, 1, 3};
    LateMute(c, At(c, acts), 0, ones, twos);
    LateMute(c, At(c, acts), 1, ones, twos);
    LateMute(c, At(c, acts), 3, ones, twos);
    MuteIsHaltless(c, acts, 0, ones, twos);
    MuteIsHaltless(c, acts, 1, ones, twos);
    MuteIsHaltless(c, acts, 3, ones, twos);
  }

  lemma {:induction false} LateFinish(c: N.Cfg, acts: seq<Sched>) returns (acts': seq<Sched>)
    requires Split(c) && Calm(c, acts) && AllStarted(c, At(c, acts)) && Counting(acts, EARLY, EARLY)
    requires VotedDown(c, At(c, acts)) && Said(c, At(c, acts), P(3, 0))
    ensures Calm(c, acts') && AllStarted(c, At(c, acts')) && Counting(acts', LATE, LATE) && By(acts, acts', {0, 1, 3})
    ensures VotedDown(c, At(c, acts')) && Said(c, At(c, acts'), F(3, 0))
  {
    hide VotedDown, Wf, N.Step;
    LateGroup(c, acts, 3, 0, 1, LATE, EARLY);
    var mid, a := Broadcast(c, acts, 3, 0, 1, LATE, EARLY, 0);
    acts' := a;
    assert {3, 0, 1} == {0, 1, 3};
    AllStartedLater(c, acts, a);
    VotedDownLater(c, acts, a);
  }

  /** What node 2 has not read of the logs of 0, 1 and 2 it has not read later either. */
  lemma {:induction false} NotReadYet(c: N.Cfg, start: seq<Sched>, acts: seq<Sched>)
    requires Split(c) && Finished(c, start, EARLY) && start <= acts && Calm(c, acts)
    requires forall j :: 0 <= j < 3 ==> At(c, acts).cur[2][j] == At(c, start).cur[2][j]
    ensures !N.RoundOf(At(c, acts).nodes[2], S0).ready
  {
    hide At;
    var rd := N.RoundOf(At(c, acts).nodes[2], S0);
    DoneAuthors(c, acts, 2, S0);
    forall x | x in rd.done ensures x in {3} {
      assert Heard(c, At(c, acts), 2, Done(x, 0, 0));
      if x != 3 {
        LogLater(c, start, acts, 2, x);
        assert Heard(c, At(c, start), 2, Done(x, 0, 0));
        DoneWasSent(c, start, 2, x, S0);
        FewFinishNoDone(c, start, S0, 1, 3, x);
      }
    }
    SubsetSize(rd.done, {3});
    Projection(c, acts, 2);
    L.ReadyExactly(c, 2, Events(c, acts, 2), S0);
  }

  /** Node 2 reads the proposal and the finish of node 3, and is not ready. */
  lemma {:induction false} SlowHears(c: N.Cfg, start: seq<Sched>, acts: seq<Sched>) returns (acts': seq<Sched>)
    requires Split(c) && Finished(c, start, EARLY) && By(start, acts, {0, 1, 3})
    requires Calm(c, acts) && AllStarted(c, At(c, acts)) && Counting(acts, LATE, LATE)
    requires Haltless(c, At(c, acts), 3) && Said(c, At(c, acts), F(3, 0)) && Said(c, At(c, acts), P(3, 0))
    ensures Calm(c, acts') && AllStarted(c, At(c, acts')) && Counting(acts', LATE, LATE) && By(acts, acts', {2})
    ensures B(3) in At(c, acts').nodes[2].store
    ensures Unprevoted(c, At(c, acts').nodes[2], At(c, acts').out[2], S0)
  {
    hide At;
    Still(c, start, acts, {0, 1, 3}, 2);
    var a1 := Hear(c, acts, acts, 2, P(3, 0));
    AllStartedLater(c, acts, a1);
    acts' := Hear(c, acts, a1, 2, F(3, 0));
    AllStartedLater(c, a1, acts');
    ByTrans(acts, a1, acts', {2}, 2);
    HeardLater(c, a1, acts', 2, P(3, 0));
    HeardKept(c, acts', 2, P(3, 0));
    HeardCounts(c, acts', 2, F(3, 0));
    NotReadYet(c, start, acts');
    NotReadyUnprevoted(c, acts', 2, S0);
  }

  /** A node that has the leader's finish and reads the dones and shares halts. */
  lemma {:induction false} HaltsOnFinish(c: N.Cfg, ref: seq<Sched>, acts: seq<Sched>, i: int, sl: Slot, ones: set<Inst>, twos: set<Inst>)
    returns (acts': seq<Sched>, h: Msg)
    requires c.n == 4 && ref <= acts && Calm(c, acts) && AllStarted(c, At(c, acts)) && Counting(acts, ones, twos)
    requires 0 <= i < c.n && sl.e == 0 && SaidDones(c, At(c, ref), sl)
    requires Haltless(c, At(c, ref), 0) && Haltless(c, At(c, ref), 1) && Haltless(c, At(c, ref), 3)
    requires Unprevoted(c, At(c, acts).nodes[i], At(c, acts).out[i], sl)
    ensures Calm(c, acts') && AllStarted(c, At(c, acts')) && Counting(acts', ones, twos) && By(acts, acts', {i})
    ensures h.Halt? && h.author == i && SlotOf(h) == sl && Said(c, At(c, acts'), h)
  {
    acts' := HearDones(c, ref, acts, i, sl, ones, twos);
    StaysUnprevoted(c, acts, acts', i, sl);
    h := HaltIsSent(c, acts', i, sl);
  }

  /** Round 0 voted down, and node 2 halted in it. */
  ghost predicate NoPlusHalt(c: N.Cfg, acts: seq<Sched>, h: Msg)
    requires c.n == 4
  {
    && Calm(c, acts) && AllStarted(c, At(c, acts)) && Counting(acts, LATE, LATE) && VotedDown(c, At(c, acts))
    && h.Halt? && h.author == 2 && SlotOf(h) == S0 && Said(c, At(c, acts), h) && B(3) in At(c, acts).nodes[2].store
    && Has(At(c, acts).nodes[0], K(0, 0), B(0)) && Said(c, At(c, acts), P(3, 0))
  }

  /** Up to the finish of node 3; start is the run before round 0 was voted down. */
  lemma {:induction false} ReachLateFinish(c: N.Cfg) returns (start: seq<Sched>, acts: seq<Sched>)
    requires Split(c)
    ensures Finished(c, start, EARLY) && By(start, acts, {0, 1, 3})
    ensures Calm(c, acts) && AllStarted(c, At(c, acts)) && Counting(acts, LATE, LATE) && VotedDown(c, At(c, acts))
    ensures Said(c, At(c, acts), F(3, 0)) && Said(c, At(c, acts), P(3, 0)) && SaidDones(c, At(c, acts), S0)
  {
    start := ReachFinished(c, 3, false);
    var a2 := VoteDown(c, start);
    SaidLater(c, start, a2, P(3, 0));
    acts := LateFinish(c, a2);
    ByJoin(start, a2, acts, {0, 1, 3});
    SaidLater(c, a2, acts, P(3, 0));
    SaidDonesLater(c, a2, acts, S0);
  }

  lemma {:induction false} ReachNoPlusHalt(c: N.Cfg) returns (acts: seq<Sched>, h: Msg)
    requires Split(c)
    ensures NoPlusHalt(c, acts, h)
  {
    hide At, Finished;
    var a1, a3 := ReachLateFinish(c);
    assert {3, 0, 1} == {0, 1, 3};
    LateGroup(c, a3, 3, 0, 1, LATE, LATE);
    var a4 := SlowHears(c, a1, a3);
    acts, h := HaltsOnFinish(c, a3, a4, 2, S0, LATE, LATE);
    LifeLater(c, a4, acts, 2);
    VotedDownLater(c, a3, acts);
    HasLater(c, a1, acts, 0, K(0, 0), B(0));
    SaidLater(c, a1, acts, P(3, 0));
  }
}

/** Late commits that go astray, as whole runs of four correct nodes: a node that lacks the payloads of
    the decided block when it halts commits another block of the epoch afterwards. */
module Astray {
  import opened Messages
  import opened Committee
  import N = Node
  import opened System
  import L = Local
  import opened Runs
  import opened Benign
  import opened Agreement
  import C = Committor
  import T = TotalOrder
  import opened Schedules
  import opened Broadcasts
  import opened Trios
  import opened Rounds
  import opened Openings
  import opened Commits
  import opened Disagreement
  import opened Divergence
  import opened Endings

  /** Node 2 is about to read the halt of node j, and so is node j; after it the recorded leader of
      round 0 is q, of which node 2 has read nothing. */
  ghost predicate Ending(c: N.Cfg, acts: seq<Sched>, j: int, b: Block, q: int)
    requires c.n == 4
  {
    && Calm(c, acts) && 0 <= j < 4 && 0 <= q < 4 && j != q && j != 2 && q != 2 && var s := At(c, acts);
       && HaltNext(c, s, 2, j, b) && HaltNext(c, s, j, j, b) && Unread(c, s, q)
       && var h := s.out[j][s.cur[2][j]].msg;
          q == if SlotOf(h) == S0 then h.leader else N.RoundOf(s.nodes[2], S0).leader
  }

  /** Node 2 halts without the payloads. */
  lemma {:induction false} EndEarly(c: N.Cfg, acts: seq<Sched>, j: int, b: Block, q: int) returns (acts': seq<Sched>)
    requires Led(c) && Ending(c, acts, j, b, q)
    ensures acts' == acts + [Deliver(2, j, Lacking(2))] && Orderly(c, acts')
    ensures var nd := At(c, acts').nodes[2]; nd.started && nd.submitted == [] && 0 in nd.halted && N.RoundOf(nd, S0).leader == q
    ensures Unread(c, At(c, acts'), q) && HaltNext(c, At(c, acts'), j, j, b) && Fresh(At(c, acts').nodes[j])
  {
    hide At, Calm, N.RoundOf;
    LedIsSilent(c);
    var d := Deliver(2, j, Lacking(2));
    acts' := acts + [d];
    CalmIsOrderly(c, acts);
    CalmNode(c, acts, 2);
    CalmNode(c, acts, j);
    ReadHaltEarly(c, At(c, acts), 2, j, b);
    Projection(c, acts, 2);
    OrderlyAppend(c, acts, d);
    Append(c, acts, d);
    Still(c, acts, acts', {2}, j);
    Still(c, acts, acts', {2}, q);
  }

  /** Then it reads the proposal of q. */
  lemma {:induction false} EndSlow(c: N.Cfg, acts: seq<Sched>, j: int, b: Block, q: int) returns (acts': seq<Sched>)
    requires Led(c) && Ending(c, acts, j, b, q)
    ensures acts' == acts + [Deliver(2, j, Lacking(2))] + [Deliver(2, q, FINE)] && Orderly(c, acts')
    ensures At(c, acts').nodes[2].submitted == [B(q)] && 0 <= j < 4 && j != 2
    ensures HaltNext(c, At(c, acts'), j, j, b) && Fresh(At(c, acts').nodes[j])
  {
    hide At, N.RoundOf, Ending, HaltNext;
    LedIsSilent(c);
    EndingParts(c, acts, j, b, q);
    var a1 := EndEarly(c, acts, j, b, q);
    var d := Deliver(2, q, FINE);
    ReadLate(c, At(c, a1), 2, q);
    OrderlyAppend(c, a1, d);
    Append(c, a1, d);
    acts' := a1 + [d];
    Still(c, a1, acts', {2}, j);
    NextStays(c, At(c, a1), At(c, acts'), j, b);
  }

  lemma NextStays(c: N.Cfg, s: State, s': State, j: int, b: Block)
    requires Wf(c, s) && Wf(c, s') && 0 <= j < c.n && HaltNext(c, s, j, j, b)
    requires s'.nodes[j] == s.nodes[j] && s'.out[j] == s.out[j] && s'.cur[j] == s.cur[j]
    ensures HaltNext(c, s', j, j, b)
  {
  }

  /** And node j reads its halt. */
  lemma {:induction false} EndLate(c: N.Cfg, acts: seq<Sched>, j: int, b: Block, q: int) returns (acts': seq<Sched>)
    requires Led(c) && Ending(c, acts, j, b, q)
    ensures Silent(c) && Orderly(c, acts') && acts <= acts' && forall a :: a in acts' && a.Run? ==> a in acts
    ensures At(c, acts').nodes[2].submitted == [B(q)] && 0 <= j < 4 && At(c, acts').nodes[j].submitted == [b]
  {
    hide N.Step, Events;
    hide At, N.RoundOf, Ending;
    LedIsSilent(c);
    var a2 := EndSlow(c, acts, j, b, q);
    var d := Deliver(j, j, Own(j, 1));
    ReadHalt(c, At(c, a2), j, j, b);
    Projection(c, a2, j);
    OrderlyAppend(c, a2, d);
    Append(c, a2, d);
    acts' := a2 + [d];
    Still(c, a2, acts', {j}, 2);
  }

  lemma EndingParts(c: N.Cfg, acts: seq<Sched>, j: int, b: Block, q: int)
    requires c.n == 4 && Ending(c, acts, j, b, q)
    ensures 0 <= j < 4 && 0 <= q < 4 && j != q && j != 2 && q != 2
  {
  }

  // ----------------------------------------------------- a halt that names the wrong leader

  lemma {:induction false} NextLater(c: N.Cfg, acts: seq<Sched>, acts': seq<Sched>, i: int, j: int, b: Block)
    requires Led(c) && By(acts, acts', {j}) && i != j && 0 <= i < 4 && 0 <= j < 4 && HaltNext(c, At(c, acts), i, j, b)
    ensures HaltNext(c, At(c, acts'), i, j, b)
    ensures At(c, acts').out[j][At(c, acts').cur[i][j]] == At(c, acts).out[j][At(c, acts).cur[i][j]]
  {
    hide At;
    Still(c, acts, acts', {j}, i);
    LogLater(c, acts, acts', i, j);
  }

  /** Node 1 has committed; node 2 knows the block of node 3 and has read nothing of node q. */
  lemma {:induction false} ReachSlow(c: N.Cfg) returns (acts: seq<Sched>)
    requires Led(c)
    ensures OneCommitted(c, acts) && Unread(c, At(c, acts), 0) && B(3) in At(c, acts).nodes[2].store
  {
    hide At, Finished, OneCommitted, DoneUnready, LeaderLocked, GoodLeader.GoodSet;
    LedIsSilent(c);
    var start, a := ReachDone(c, 0, true);
    acts := ToCommit(c, start, a);
    ByJoin(start, a, acts, {0, 1, 3});
    Still(c, start, acts, {0, 1, 3}, 2);
    UnreadLater(c, start, acts, 0);
  }

  /** Node 2 reads the log of node 1 up to the halt. */
  lemma {:induction false} SlowReadsOn(c: N.Cfg, acts: seq<Sched>) returns (acts': seq<Sched>)
    requires Led(c) && OneCommitted(c, acts) && Unread(c, At(c, acts), 0) && B(3) in At(c, acts).nodes[2].store
    ensures OneCommitted(c, acts') && Unread(c, At(c, acts'), 0) && HaltNext(c, At(c, acts'), 2, 1, B(3))
    ensures At(c, acts').out[1][At(c, acts').cur[2][1]] == Env(NONE, WrongHalt())
  {
    hide At, Said, Counting;
    LedIsSilent(c);
    acts' := ReachNext(c, acts, 2, 1, B(3), WrongHalt());
    UnreadLater(c, acts, acts', 0);
    Still(c, acts, acts', {2}, 1);
    AllStartedLater(c, acts, acts');
    CountingSame(acts, acts', LATE, EARLY);
    SaidLater(c, acts, acts', WrongHalt());
    SaidLater(c, acts, acts', P(0, 0));
    SaidLater(c, acts, acts', P(3, 0));
  }

  /** Nodes 1 and 2 are about to read the halt of node 1. */
  lemma {:induction false} ReachWrongHalt(c: N.Cfg) returns (acts: seq<Sched>)
    requires Led(c)
    ensures Ending(c, acts, 1, B(3), 0) && Counting(acts, LATE, EARLY) && Said(c, At(c, acts), P(3, 0))
  {
    hide At, Said, Counting, HaltNext;
    LedIsSilent(c);
    var a := ReachSlow(c);
    var a1 := SlowReadsOn(c, a);
    acts := ReachNext(c, a1, 1, 1, B(3), WrongHalt());
    NextLater(c, a1, acts, 2, 1, B(3));
    Still(c, a1, acts, {1}, 2);
    UnreadLater(c, a1, acts, 0);
    CountingSame(a1, acts, LATE, EARLY);
    SaidLater(c, a1, acts, P(3, 0));
  }

  /** Node 3 leads round 0, and node 1 commits its block. The halt of node 1 names node 0 as leader,
      as every halt on a commit does. It reaches node 2 before the payloads of the block, and the
      proposal of node 0 reaches node 2 after that: node 2 commits the block of node 0, though
      every halt names that of node 3. */
  lemma {:induction false} LateCommitOfAnother(c: N.Cfg) returns (acts: seq<Sched>)
    requires Led(c)
    ensures Silent(c) && Orderly(c, acts)
    ensures forall h: Msg :: h.Halt? && Said(c, At(c, acts), h) ==> h.hash == HashOf(B(3))
    ensures At(c, acts).nodes[1].submitted == [B(3)] && C.After(At(c, acts).nodes[1].submitted).emitted == [B(3)]
    ensures At(c, acts).nodes[2].submitted == [B(0)] && C.After(At(c, acts).nodes[2].submitted).emitted == [B(0)]
  {
    hide At, Counting, Ending, C.After;
    var a := ReachWrongHalt(c);
    acts := EndLate(c, a, 1, B(3), 0);
    CountingSame(a, acts, LATE, EARLY);
    SaidLater(c, a, acts, P(3, 0));
    forall h: Msg | h.Halt? && Said(c, At(c, acts), h) ensures h.hash == HashOf(B(3)) {
      HaltCause(c, acts, h);
      HaltedBlock(c, acts, h, B(3));
    }
    T.FirstIsEmitted(B(0));
    T.FirstIsEmitted(B(3));
  }

  // ----------------------------------------------------------------- a halt of a later round

  /** Node 2 has elected the leader of round 0 from the shares of 0, 1 and its own, and has
      prevoted no; it has read nothing of node 3. */
  ghost predicate SlowElected(c: N.Cfg, acts: seq<Sched>)
    requires c.n == 4
  {
    && Calm(c, acts) && AllStarted(c, At(c, acts)) && Counting(acts, EARLY, EARLY) && VotedDown(c, At(c, acts))
    && Said(c, At(c, acts), NoVote(c, 2, S0)) && |N.RoundOf(At(c, acts).nodes[2], S0).shares| >= High(c.n)
    && Unread(c, At(c, acts), 3) && B(0) in At(c, acts).nodes[2].store && B(0) in At(c, acts).nodes[0].store
    && Said(c, At(c, acts), P(0, 0)) && Said(c, At(c, acts), P(3, 0))
  }

  /** It reads the dones and shares of nodes 0 and 1, and then its own. */
  lemma {:induction false} SlowElects(c: N.Cfg, acts: seq<Sched>) returns (acts': seq<Sched>)
    requires Split(c) && Calm(c, acts) && AllStarted(c, At(c, acts)) && Counting(acts, EARLY, EARLY) && SaidDones(c, At(c, acts), S0)
    ensures acts <= acts' && Calm(c, acts') && Counting(acts', EARLY, EARLY) && At(c, acts').cur[2][3] == At(c, acts).cur[2][3]
    ensures HeardDones(c, At(c, acts'), 2, S0, 0, 1, 2)
  {
    hide Wf, Heard;
    hide At, Counting, Said, Haltless, SaidDones;
    SaidDonesParts(c, acts);
    LedIsSilent(c);
    EarlyHaltless(c, acts);
    var ms := [Done(0, 0, 0), ElectShare(0, 0, 0), Done(1, 0, 0), ElectShare(1, 0, 0)];
    var a1 := HearAll(c, acts, acts, 2, ms);
    assert ms[0] in ms && ms[1] in ms && ms[2] in ms && ms[3] in ms;
    CountingSame(acts, a1, EARLY, EARLY);
    TwoDones(c, a1);
    AllStartedLater(c, acts, a1);
    EarlyHaltless(c, a1);
    var own := [Done(2, 0, 0), ElectShare(2, 0, 0)];
    acts' := HearAll(c, a1, a1, 2, own);
    assert own[0] in own && own[1] in own;
    CountingSame(a1, acts', EARLY, EARLY);
    HeardLater(c, a1, acts', 2, ms[0]);
    HeardLater(c, a1, acts', 2, ms[1]);
    HeardLater(c, a1, acts', 2, ms[2]);
    HeardLater(c, a1, acts', 2, ms[3]);
  }

  lemma {:induction false} SharesHeard(c: N.Cfg, acts: seq<Sched>)
    requires Led(c) && Calm(c, acts) && HeardDones(c, At(c, acts), 2, S0, 0, 1, 2)
    ensures |N.RoundOf(At(c, acts).nodes[2], S0).shares| >= High(c.n)
  {
    LedIsSilent(c);
    HeardCounts(c, acts, 2, ElectShare(0, 0, 0));
    HeardCounts(c, acts, 2, ElectShare(1, 0, 0));
    HeardCounts(c, acts, 2, ElectShare(2, 0, 0));
    ThreeIn(N.RoundOf(At(c, acts).nodes[2], S0).shares, 0, 1, 2);
  }

  lemma {:induction false} ReachSlowElected(c: N.Cfg) returns (acts: seq<Sched>)
    requires Split(c)
    ensures SlowElected(c, acts)
  {
    hide At, Said, VotedDown, Counting, SaidDones, HeardDones;
    LedIsSilent(c);
    var start := ReachFinished(c, 3, true);
    var a := VoteDown(c, start);
    Still(c, start, a, {0, 1, 3}, 2);
    UnreadLater(c, start, a, 3);
    acts := SlowElects(c, a);
    AllStartedLater(c, a, acts);
    UnreadLater(c, a, acts, 3);
    VotedDownLater(c, a, acts);
    LifeLater(c, a, acts, 2);
    LifeLater(c, start, acts, 0);
    SaidLater(c, start, acts, P(0, 0));
    SaidLater(c, start, acts, P(3, 0));
    SharesHeard(c, acts);
    DonesToBody(c, acts, 2, S0, 0, 1, 2);
    PrevotesNo(c, acts, EARLY, EARLY, 2, S0);
  }

  /** Nodes 0, 1 and 3 decide round 1. */
  ghost predicate SecondDecided(c: N.Cfg, acts: seq<Sched>, h: Msg)
    requires c.n == 4
  {
    && Going(c, acts, THREE, THREE) && h.Halt? && h.author == 0 && Said(c, At(c, acts), h)
    && Said(c, At(c, acts), NoVote(c, 2, S0)) && |N.RoundOf(At(c, acts).nodes[2], S0).shares| >= High(c.n)
    && Unread(c, At(c, acts), 3) && B(0) in At(c, acts).nodes[2].store && B(0) in At(c, acts).nodes[0].store
    && Said(c, At(c, acts), P(0, 0)) && Said(c, At(c, acts), P(3, 0))
  }

  lemma {:induction false} ReachSecondDecided(c: N.Cfg) returns (acts: seq<Sched>, h: Msg)
    requires Split(c)
    ensures SecondDecided(c, acts, h)
  {
    hide At, Said, VotedDown, Counting;
    LedIsSilent(c);
    var a := ReachSlowElected(c);
    CountingMore(a, EARLY, EARLY, LATE, LATE);
    acts, h := RoundOne(c, a);
    Still(c, a, acts, {0, 1, 3}, 2);
    UnreadLater(c, a, acts, 3);
    LifeLater(c, a, acts, 0);
    SaidLater(c, a, acts, NoVote(c, 2, S0));
    SaidLater(c, a, acts, P(0, 0));
    SaidLater(c, a, acts, P(3, 0));
  }

  /** Nodes 0 and 2 are about to read the halt of node 0. */
  lemma {:induction false} ReachRightHalt(c: N.Cfg) returns (acts: seq<Sched>, h: Msg)
    requires Split(c)
    ensures SecondDecided(c, acts, h) && Ending(c, acts, 0, B(0), 3)
  {
    hide At, Said, Going, HaltNext, Names;
    LedIsSilent(c);
    var a;
    a, h := ReachSecondDecided(c);
    HaltsOfZero(c, a, h);
    var a1 := ReachNext(c, a, 2, 0, B(0), h);
    UnreadLater(c, a, a1, 3);
    DecidedLater(c, a, a1, h);
    HaltsOfZero(c, a1, h);
    acts := ReachNext(c, a1, 0, 0, B(0), h);
    NextLater(c, a1, acts, 2, 0, B(0));
    Still(c, a1, acts, {0}, 2);
    UnreadLater(c, a1, acts, 3);
    DecidedLater(c, a1, acts, h);
    EndsInThree(c, acts, h);
  }

  /** The halts of node 0 are of round 1 and name its block. */
  lemma {:induction false} HaltsOfZero(c: N.Cfg, acts: seq<Sched>, h: Msg)
    requires Split(c) && SecondDecided(c, acts, h)
    ensures Calm(c, acts) && AllStarted(c, At(c, acts)) && SlotOf(h) == S1
    ensures forall x :: x in At(c, acts).out[0] && x.msg.Halt? ==> SlotOf(x.msg) == S1 && Names(x, 0, B(0))
  {
    hide At;
    LedIsSilent(c);
    CalmIsOrderly(c, acts);
    FastSlot(c, acts);
    HaltsName(c, acts, 0, B(0));
    assert Env(NONE, h) in At(c, acts).out[0];
  }

  lemma {:induction false} DecidedLater(c: N.Cfg, acts: seq<Sched>, acts': seq<Sched>, h: Msg)
    requires Split(c) && SecondDecided(c, acts, h) && acts <= acts' && Calm(c, acts') && (forall a :: a in acts' && a.Run? ==> a in acts)
    requires Unread(c, At(c, acts'), 3)
    ensures SecondDecided(c, acts', h)
  {
    hide At, Said, VotedDown;
    LedIsSilent(c);
    CountingSame(acts, acts', THREE, THREE);
    GoesOn(c, acts, acts', THREE, THREE, THREE, THREE);
    LifeLater(c, acts, acts', 0);
    LifeLater(c, acts, acts', 2);
    SaidLater(c, acts, acts', h);
    SaidLater(c, acts, acts', NoVote(c, 2, S0));
    SaidLater(c, acts, acts', P(0, 0));
    SaidLater(c, acts, acts', P(3, 0));
    RoundLater(c, acts, acts', 2, S0);
    SubsetSize(N.RoundOf(At(c, acts).nodes[2], S0).shares, N.RoundOf(At(c, acts').nodes[2], S0).shares);
  }

  /** Node 2 has recorded node 3 as the leader of round 0, and the halt is of round 1. */
  lemma {:induction false} EndsInThree(c: N.Cfg, acts: seq<Sched>, h: Msg)
    requires Split(c) && HaltNext(c, At(c, acts), 2, 0, B(0)) && HaltNext(c, At(c, acts), 0, 0, B(0)) && SecondDecided(c, acts, h)
    ensures Ending(c, acts, 0, B(0), 3)
  {
    hide VotedDown, Going;
    hide At, L.After;
    LedIsSilent(c);
    HaltsOfZero(c, acts, h);
    CalmFinds(c, acts, 2);
    CalmNode(c, acts, 2);
    Projection(c, acts, 2);
    L.LeaderExactly(c, 2, Events(c, acts, 2), S0);
  }

  /** All four have prevoted no in round 0, so nobody halts in it. */
  lemma {:induction false} HaltsNameZero(c: N.Cfg, acts: seq<Sched>, h: Msg)
    requires Split(c) && Silent(c) && Orderly(c, acts) && Counting(acts, THREE, THREE) && VotedDown(c, At(c, acts))
    requires Said(c, At(c, acts), NoVote(c, 2, S0)) && Said(c, At(c, acts), P(0, 0)) && h.Halt? && Said(c, At(c, acts), h)
    ensures h.hash == HashOf(B(0))
  {
    hide Decides, K, N.RoundOf, High, InstOf, N.OnShare, N.GetBlock;
    hide At;
    HaltSlot(c, acts, THREE, THREE, h);
    SentByCorrect(c, acts, h.author, Env(NONE, h));
    var i := h.author;
    L.NumMember(At(c, acts).out[i], Env(NONE, NoVote(c, i, S0)), L.KPrevote, S0);
    if SlotOf(h) == S0 {
      PrevotedNoHalt(c, acts, i, 0, h);
    }
    HaltedBlock(c, acts, h, B(0));
  }

  /** The same with halts that are right about their leader. Node 3 leads round 0, which is voted
      down, and node 0 leads round 1. The halt of round 1 reaches node 2 before the payloads of the
      block of node 0, and the proposal of node 3 for round 0 after that: node 2 commits the block
      of node 3, though every halt names that of node 0. */
  lemma {:induction false} LateCommitOfAnotherRound(c: N.Cfg) returns (acts: seq<Sched>)
    requires Split(c)
    ensures Silent(c) && Orderly(c, acts)
    ensures forall h: Msg :: h.Halt? && Said(c, At(c, acts), h) ==> h.hash == HashOf(B(0))
    ensures At(c, acts).nodes[0].submitted == [B(0)] && C.After(At(c, acts).nodes[0].submitted).emitted == [B(0)]
    ensures At(c, acts).nodes[2].submitted == [B(3)] && C.After(At(c, acts).nodes[2].submitted).emitted == [B(3)]
  {
    hide At, Said, Counting, Ending, VotedDown, C.After;
    LedIsSilent(c);
    var a, h0 := ReachRightHalt(c);
    acts := EndLate(c, a, 0, B(0), 3);
    CountingSame(a, acts, THREE, THREE);
    VotedDownLater(c, a, acts);
    SaidLater(c, a, acts, NoVote(c, 2, S0));
    SaidLater(c, a, acts, P(0, 0));
    forall h: Msg | h.Halt? && Said(c, At(c, acts), h) ensures h.hash == HashOf(B(0)) {
      HaltsNameZero(c, acts, h);
    }
    T.FirstIsEmitted(B(0));
    T.FirstIsEmitted(B(3));
  }
}

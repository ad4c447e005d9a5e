/** Why halts must find their blocks: a run of four correct nodes in which a node without the block
    of a halt takes over its wrong leader, and two halts of one slot name different blocks. */
module Orphans {
  import opened Messages
  import opened Committee
  import N = Node
  import opened System
  import L = Local
  import opened Origins
  import opened Runs
  import opened Byzantine
  import opened Benign
  import opened Blocks
  import opened Agreement
  import opened Quorums
  import opened GoodLeader
  import T = TotalOrder
  import opened Schedules
  import opened Broadcasts
  import opened Rounds
  import opened Openings
  import opened Commits
  import opened Endings

  // ------------------------------------------------------------ node 2 lacks the block

  /** A stored block was read in a one-phase proposal. */
  lemma {:induction false} StoredWasHeard(c: N.Cfg, acts: seq<Sched>, i: int, b: Block) returns (m: Msg)
    requires Silent(c) && 0 <= i < c.n && b in At(c, acts).nodes[i].store
    ensures m.Proposal? && m.phase == ONE_PHASE && m.b == b && Heard(c, At(c, acts), i, m)
  {
    m := P(0, 0);
    if acts != [] {
      var init := acts[..|acts| - 1];
      var s, a := At(c, init), acts[|acts| - 1];
      var ev := EventAt(c, s, a, i);
      if b in s.nodes[i].store {
        m := StoredWasHeard(c, init, i, b);
        HeardStays(c, s, a, i, m);
      } else if ev == [] {
        StepElsewhere(c, s, a, i);
      } else {
        StepHere(c, s, a, i);
        StoreStep(c, i, s.nodes[i], ev[0], b);
        m := ev[0].m;
        ReceivedIsHeard(c, s, a, i);
      }
    }
  }

  /** Nobody proposes for a second round. */
  lemma {:induction false} NoSecondRound(c: N.Cfg, acts: seq<Sched>, m: Msg)
    requires Led(c) && Backing(c, acts) && GoodSet(c, At(c, acts), S0, {0, 1, 3})
    requires m.Proposal? && m.phase == ONE_PHASE && m.epoch == 0 && Said(c, At(c, acts), m)
    ensures m.round == 0 && m.b.proposer == m.author
  {
    hide At, GoodSet;
    LedIsSilent(c);
    CalmIsOrderly(c, acts);
    SentByCorrect(c, acts, m.author, Env(NONE, m));
    var sl := Slot(m.epoch, m.round - 1);
    if |N.RoundOf(At(c, acts).nodes[m.author], sl).fin| >= High(c.n) {
      if sl == S0 {
        assert acts + [] == acts;
        GoodLeaderCommits(c, acts, [], S0, {0, 1, 3}, m.author);
      } else {
        NobodyVotes(c, acts, m.author, sl);
      }
    }
  }

  lemma {:induction false} NobodyVotes(c: N.Cfg, acts: seq<Sched>, i: int, sl: Slot)
    requires Led(c) && Silent(c) && Counting(acts, LATE, EARLY) && sl != S0 && 0 <= i < c.n
    ensures N.RoundOf(At(c, acts).nodes[i], sl).fin == []
  {
    hide At;
    var fin := N.RoundOf(At(c, acts).nodes[i], sl).fin;
    if fin != [] {
      FinWasSaid(c, acts, i, sl, fin[0]);
      var pv := FinVoteSource(c, acts, fin[0]);
      SentByCorrect(c, acts, pv.author, Env(NONE, pv));
      UnfinishedIsFew(c, acts, LATE, EARLY, sl, 1, 3);
      FewFinishNotReady(c, acts, sl, 1, 3, pv.author);
    }
  }

  lemma {:induction false} BlockLacking(c: N.Cfg, acts: seq<Sched>)
    requires Led(c) && Backing(c, acts) && GoodSet(c, At(c, acts), S0, {0, 1, 3}) && At(c, acts).cur[2][3] == 0
    ensures B(3) !in At(c, acts).nodes[2].store
  {
    LedIsSilent(c);
    if B(3) in At(c, acts).nodes[2].store {
      var m := StoredWasHeard(c, acts, 2, B(3));
      HeardProposalSaid(c, acts, 2, m);
      ProposalOk(c, acts, m);
      NoSecondRound(c, acts, m);
    }
  }

  // ------------------------------------------------------- node 2 is one done short

  /** Node 2 has not read its own done, nor anything of node 3. */
  ghost predicate Short(c: N.Cfg, s: State)
    requires c.n == 4 && Wf(c, s)
  {
    s.cur[2][3] == 0 && !Heard(c, s, 2, Done(2, 0, 0))
  }

  lemma {:induction false} ShortUnready(c: N.Cfg, acts: seq<Sched>)
    requires Led(c) && Silent(c) && Short(c, At(c, acts))
    ensures var rd := N.RoundOf(At(c, acts).nodes[2], S0); rd.done <= {0, 1} && !rd.ready
  {
    hide At, L.After, Low;
    LedIsSilent(c);
    var rd := N.RoundOf(At(c, acts).nodes[2], S0);
    DoneAuthors(c, acts, 2, S0);
    forall x | x in rd.done ensures x in {0, 1} {
      assert Heard(c, At(c, acts), 2, Done(x, 0, 0));
    }
    SubsetSize(rd.done, {0, 1});
    Projection(c, acts, 2);
    L.ReadyExactly(c, 2, Events(c, acts, 2), S0);
  }

  lemma {:induction false} NotDoneAtFirst(c: N.Cfg, acts: seq<Sched>)
    requires Led(c) && Finished(c, acts, LATE) && At(c, acts).cur[2][3] == 0
    ensures Short(c, At(c, acts))
  {
    LedIsSilent(c);
    if Heard(c, At(c, acts), 2, Done(2, 0, 0)) {
      DoneWasSent(c, acts, 2, 2, S0);
      FewFinishNoDone(c, acts, S0, 1, 3, 2);
    }
  }

  /** Node 2 reads the finish of node 0 and the dones of nodes 0 and 1, and is done. */
  lemma {:induction false} SlowDone(c: N.Cfg, start: seq<Sched>, acts: seq<Sched>) returns (acts': seq<Sched>)
    requires Led(c) && Finished(c, start, LATE) && By(start, acts, {0, 1, 3}) && DoneUnready(c, acts) && Unread(c, At(c, start), 3)
    ensures acts <= acts' && DoneUnready(c, acts') && Short(c, At(c, acts')) && Said(c, At(c, acts'), Done(2, 0, 0))
    ensures Heard(c, At(c, acts'), 2, F(0, 0)) && Heard(c, At(c, acts'), 2, Done(0, 0, 0)) && Heard(c, At(c, acts'), 2, Done(1, 0, 0))
  {
    hide At, Said, Haltless, SaidDones, Counting;
    LedIsSilent(c);
    NotDoneAtFirst(c, start);
    Still(c, start, acts, {0, 1, 3}, 2);
    SaidLater(c, start, acts, F(0, 0));
    SaidDonesParts(c, acts);
    var ms := [F(0, 0), Done(0, 0, 0), Done(1, 0, 0)];
    acts' := HearAll(c, acts, acts, 2, ms);
    assert ms[0] in ms && ms[1] in ms && ms[2] in ms;
    CountingSame(acts, acts', LATE, EARLY);
    BacksOn(c, acts, acts');
    OwnUnheard(c, start, acts');
    TwoDones(c, acts');
    StaysUnready(c, acts, acts');
  }

  /** Node 2 has read no more of its own log than at the start. */
  lemma {:induction false} OwnUnheard(c: N.Cfg, start: seq<Sched>, acts: seq<Sched>)
    requires c.n == 4 && start <= acts && Short(c, At(c, start))
    requires At(c, acts).cur[2][2] == At(c, start).cur[2][2] && At(c, acts).cur[2][3] == At(c, start).cur[2][3]
    ensures Short(c, At(c, acts))
  {
    LogLater(c, start, acts, 2, 2);
    var s, s' := At(c, start), At(c, acts);
    assert s'.out[2][..s'.cur[2][2]] == s.out[2][..s.cur[2][2]];
  }

  /** After node 2 alone has read on, nobody is ready. */
  lemma {:induction false} StaysUnready(c: N.Cfg, acts: seq<Sched>, acts': seq<Sched>)
    requires Led(c) && DoneUnready(c, acts) && By(acts, acts', {2}) && Backing(c, acts') && Short(c, At(c, acts'))
    requires Behind(c, At(c, acts'), At(c, acts))
    ensures DoneUnready(c, acts')
  {
    hide At, SaidDones, Counting;
    LedIsSilent(c);
    ShortUnready(c, acts');
    Still(c, acts, acts', {2}, 0);
    Still(c, acts, acts', {2}, 1);
    Still(c, acts, acts', {2}, 3);
    SaidDonesLater(c, acts, acts', S0);
    UnreadyVoteless(c, acts);
    AllHaltless(c, acts, acts');
  }

  /** The next message of its own that node 2 reads is its done. */
  ghost predicate DoneNext(c: N.Cfg, s: State)
    requires c.n == 4 && Wf(c, s)
  {
    s.cur[2][2] < |s.out[2]| && s.out[2][s.cur[2][2]] == Env(NONE, Done(2, 0, 0))
  }

  lemma {:induction false} FirstDone(out: seq<Envelope>, x: Envelope) returns (k: nat)
    requires x in out
    ensures k < |out| && out[k].msg == x.msg && forall l :: 0 <= l < k ==> out[l].msg != x.msg
  {
    k := 0;
    while out[k].msg != x.msg
      invariant k < |out| && forall l :: 0 <= l < k ==> out[l].msg != x.msg
      decreases |out| - k
    {
      var j :| 0 <= j < |out| && out[j] == x;
      assert k < j;
      k := k + 1;
    }
  }

  /** Node 2 reads its own log up to its done. */
  lemma {:induction false} SlowReadsOwn(c: N.Cfg, acts: seq<Sched>) returns (acts': seq<Sched>)
    requires Led(c) && DoneUnready(c, acts) && Short(c, At(c, acts)) && Said(c, At(c, acts), Done(2, 0, 0))
    ensures acts <= acts' && DoneUnready(c, acts') && Short(c, At(c, acts')) && DoneNext(c, At(c, acts'))
  {
    hide At, Said, SaidDones, Counting;
    LedIsSilent(c);
    var x := Env(NONE, Done(2, 0, 0));
    var out := At(c, acts).out[2];
    SaidIsSent(c, acts, Done(2, 0, 0));
    var k := FirstDone(out, x);
    NotYetAt(c, acts, k);
    if k == 0 {
      acts' := acts;
    } else {
      acts' := ReadTo(c, acts, acts, 2, 2, k - 1);
      LogLater(c, acts, acts', 2, 2);
    }
    CountingSame(acts, acts', LATE, EARLY);
    BacksOn(c, acts, acts');
    StillShort(c, acts, acts', k);
    BehindItself(c, acts);
    StaysUnready(c, acts, acts');
  }

  lemma SaidIsSent(c: N.Cfg, acts: seq<Sched>, m: Msg)
    requires c.n >= 1 && Said(c, At(c, acts), m)
    ensures Env(NONE, m) in At(c, acts).out[m.author]
  {
  }

  lemma {:induction false} NotYetAt(c: N.Cfg, acts: seq<Sched>, k: nat)
    requires Led(c) && Silent(c) && Short(c, At(c, acts)) && k < |At(c, acts).out[2]| && At(c, acts).out[2][k].msg == Done(2, 0, 0)
    ensures At(c, acts).cur[2][2] <= k && At(c, acts).out[2][k] == Env(NONE, Done(2, 0, 0))
  {
    var s := At(c, acts);
    SentByCorrect(c, acts, 2, s.out[2][k]);
  }

  lemma {:induction false} StillShort(c: N.Cfg, acts: seq<Sched>, acts': seq<Sched>, k: nat)
    requires c.n == 4 && acts <= acts' && Short(c, At(c, acts)) && k < |At(c, acts).out[2]|
    requires forall l :: 0 <= l < k ==> At(c, acts).out[2][l].msg != Done(2, 0, 0)
    requires At(c, acts').cur[2][2] == k && At(c, acts').cur[2][3] == At(c, acts).cur[2][3]
    ensures Short(c, At(c, acts'))
  {
    LogLater(c, acts, acts', 2, 2);
    var s := At(c, acts');
    forall x | x in s.out[2][..k] ensures x.msg != Done(2, 0, 0) {
      var l :| 0 <= l < k && s.out[2][l] == x;
      assert s.out[2][l] == At(c, acts).out[2][l];
    }
  }

  // ------------------------------------------------------------------- the wrong leader

  /** Node 2 has two dones and the finish of node 0, lacks the block of node 3, and is about to read
      the halt of node 1 and then its own done. */
  ghost predicate Orphan(c: N.Cfg, s: State)
    requires c.n == 4 && Wf(c, s)
  {
    && s.nodes[2].started && Fresh(s.nodes[2]) && B(3) !in s.nodes[2].store && DoneNext(c, s)
    && s.cur[2][1] < |s.out[1]| && s.out[1][s.cur[2][1]] == Env(NONE, WrongHalt())
    && var rd := N.RoundOf(s.nodes[2], S0);
       rd.done == {0, 1} && !rd.ready && 0 in rd.finish && rd.finish[0] == HashOf(B(0))
  }

  lemma {:induction false} FinishOfZero(c: N.Cfg, acts: seq<Sched>)
    requires Led(c) && Calm(c, acts) && Heard(c, At(c, acts), 2, F(0, 0)) && Said(c, At(c, acts), P(0, 0))
    ensures var rd := N.RoundOf(At(c, acts).nodes[2], S0); 0 in rd.finish && rd.finish[0] == HashOf(B(0))
  {
    hide At;
    LedIsSilent(c);
    CalmIsOrderly(c, acts);
    HeardCounts(c, acts, 2, F(0, 0));
    var m := Finish(0, N.RoundOf(At(c, acts).nodes[2], S0).finish[0], 0, 0);
    HeldWasSaid(c, acts, 2, m);
    FinishIsAuthors(c, acts, m);
    CreatedOnce(c, acts, B(0), m.hash.block);
  }

  /** Node 2 after the commit of node 1. */
  lemma {:induction false} ReachShort(c: N.Cfg) returns (acts: seq<Sched>)
    requires Led(c)
    ensures GoodSet(c, At(c, acts), S0, {0, 1, 3}) && OneCommitted(c, acts) && Short(c, At(c, acts)) && DoneNext(c, At(c, acts))
    ensures Heard(c, At(c, acts), 2, F(0, 0)) && Heard(c, At(c, acts), 2, Done(0, 0, 0)) && Heard(c, At(c, acts), 2, Done(1, 0, 0))
  {
    hide At, Finished, LeaderLocked, DoneUnready, OneCommitted, GoodSet, Said, Heard;
    LedIsSilent(c);
    var start, a := ReachDone(c, 3, false);
    var a1 := SlowDone(c, start, a);
    var a2 := SlowReadsOwn(c, a1);
    acts := ToCommit(c, start, a2);
    HeardLater(c, a1, acts, 2, F(0, 0));
    HeardLater(c, a1, acts, 2, Done(0, 0, 0));
    HeardLater(c, a1, acts, 2, Done(1, 0, 0));
    Still(c, a2, acts, {0, 1, 3}, 2);
    OwnUnheard(c, a2, acts);
  }

  lemma {:induction false} ReachOrphan(c: N.Cfg) returns (acts: seq<Sched>)
    requires Led(c)
    ensures Calm(c, acts) && Orphan(c, At(c, acts)) && Said(c, At(c, acts), WrongHalt())
  {
    hide At, GoodSet, Counting, Said, Heard;
    LedIsSilent(c);
    var a := ReachShort(c);
    acts := ReadToHalt(c, a, 2, 1, WrongHalt());
    CountingSame(a, acts, LATE, EARLY);
    BacksOn(c, a, acts);
    StaysGood(c, a, acts);
    LogLater(c, a, acts, 2, 2);
    LogLater(c, a, acts, 2, 1);
    OwnUnheard(c, a, acts);
    ShortUnready(c, acts);
    BlockLacking(c, acts);
    CalmNode(c, acts, 2);
    SaidLater(c, a, acts, WrongHalt());
    SaidLater(c, a, acts, P(0, 0));
    HeardLater(c, a, acts, 2, F(0, 0));
    HeardLater(c, a, acts, 2, Done(0, 0, 0));
    HeardLater(c, a, acts, 2, Done(1, 0, 0));
    HeardCounts(c, acts, 2, Done(0, 0, 0));
    HeardCounts(c, acts, 2, Done(1, 0, 0));
    FinishOfZero(c, acts);
    assert At(c, acts).out[1][At(c, acts).cur[2][1]] == At(c, a).out[1][At(c, acts).cur[2][1]];
  }

  /** The halt leaves node 2 in the epoch, with node 0 as leader. */
  lemma {:induction false} TakesWrongLeader(c: N.Cfg, s: State)
    requires Led(c) && Wf(c, s) && Orphan(c, s)
    ensures var s', nd := Apply(c, s, Deliver(2, 1, FINE)), s.nodes[2];
            && s'.nodes[2] == nd.(rounds := nd.rounds[S0 := N.RoundOf(nd, S0).(leader := 0)])
            && s'.out == s.out && s'.cur[2][2] == s.cur[2][2]
    ensures EventAt(c, s, Deliver(2, 1, FINE), 2) == [N.Recv(WrongHalt(), FINE)] && !L.HaltFindsBlock(s.nodes[2], N.Recv(WrongHalt(), FINE))
  {
    var s', r := Apply(c, s, Deliver(2, 1, FINE)), N.Step(c, 2, s.nodes[2], N.Recv(WrongHalt(), FINE));
    StepHere(c, s, Deliver(2, 1, FINE), 2);
    assert r.sends == [];
    assert s'.out[2] == s.out[2] + [] == s.out[2];
  }

  /** Its done makes it ready, and it halts on the finish of node 0. */
  lemma {:induction false} HaltsOnWrong(c: N.Cfg, s: State)
    requires Led(c) && Wf(c, s) && DoneNext(c, s) && s.nodes[2].started && s.nodes[2].epoch == 0
    requires var rd := N.RoundOf(s.nodes[2], S0);
             rd.done == {0, 1} && 0 in rd.finish && rd.finish[0] == HashOf(B(0)) && rd.leader == 0
    ensures Env(NONE, Halt(2, 0, 0, 0, HashOf(B(0)))) in Apply(c, s, Deliver(2, 2, FINE)).out[2]
  {
    LedIsSilent(c);
    StepHere(c, s, Deliver(2, 2, FINE), 2);
    var ev := N.Recv(Done(2, 0, 0), FINE);
    L.Touched(c, 2, s.nodes[2], ev, S0);
    assert {0, 1} + {2} == {0, 1, 2};
  }

  /** Halts must find their blocks: in this run node 1 halts on its commit of the block of node 3,
      node 2 reads that halt without the block, and then halts in the same slot with the block of
      node 0. */
  lemma {:induction false} HaltsDisagree(c: N.Cfg) returns (acts: seq<Sched>, h: Msg, h': Msg)
    requires Led(c)
    ensures Silent(c) && !Orderly(c, acts) && h.Halt? && h'.Halt? && SlotOf(h) == SlotOf(h') == S0
    ensures Said(c, At(c, acts), h) && Said(c, At(c, acts), h') && h.hash == HashOf(B(3)) && h'.hash == HashOf(B(0))
  {
    hide At, Calm;
    LedIsSilent(c);
    var a := ReachOrphan(c);
    var d, d' := Deliver(2, 1, FINE), Deliver(2, 2, FINE);
    TakesWrongLeader(c, At(c, a));
    Append(c, a, d);
    HaltsOnWrong(c, At(c, a + [d]));
    Append(c, a + [d], d');
    acts := a + [d] + [d'];
    h, h' := WrongHalt(), Halt(2, 0, 0, 0, HashOf(B(0)));
    SaidLater(c, a, acts, h);
    NotOrderly(c, a, d, d');
  }

  lemma {:induction false} NotOrderly(c: N.Cfg, acts: seq<Sched>, d: Sched, d': Sched)
    requires Led(c) && Silent(c) && EventAt(c, At(c, acts), d, 2) == [N.Recv(WrongHalt(), FINE)]
    requires !L.HaltFindsBlock(At(c, acts).nodes[2], N.Recv(WrongHalt(), FINE))
    ensures !Orderly(c, acts + [d] + [d'])
  {
    hide At, EventAt, L.HaltFindsBlock, L.After, L.HaltsFindBlocks;
    NextEvent(c, acts, d, N.Recv(WrongHalt(), FINE));
    if Orderly(c, acts + [d] + [d']) {
      assert (acts + [d] + [d'])[..|acts| + 1] == acts + [d];
      T.OrderlyPrefix(c, acts + [d] + [d']);
    }
  }

  lemma {:induction false} NextEvent(c: N.Cfg, acts: seq<Sched>, d: Sched, ev: N.Event)
    requires Led(c) && Silent(c) && EventAt(c, At(c, acts), d, 2) == [ev] && !L.HaltFindsBlock(At(c, acts).nodes[2], ev)
    ensures !L.HaltsFindBlocks(c, 2, Events(c, acts + [d], 2))
  {
    hide At, EventAt, L.HaltFindsBlock, L.After, L.HaltsFindBlocks;
    Projection(c, acts, 2);
    assert (acts + [d])[..|acts|] == acts;
    assert Events(c, acts + [d], 2) == Events(c, acts, 2) + [ev];
    T.Extend(c, 2, Events(c, acts, 2), ev);
  }
}

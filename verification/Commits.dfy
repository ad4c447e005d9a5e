/** The opening with the leader locked: nodes 0, 1 and 3 lock node 3 but nobody counts their votes, so
    node 3 does not finish round 0. They become ready, prevote and vote yes, and node 1 commits. */
module Commits {
  import opened Messages
  import opened Committee
  import opened Votes
  import Spb
  import N = Node
  import opened System
  import L = Local
  import opened Sent
  import opened Ballots
  import opened Proposals
  import opened Runs
  import opened Benign
  import opened Blocks
  import opened Quorums
  import opened Agreement
  import opened GoodLeader
  import opened Schedules
  import opened Broadcasts
  import opened Trios
  import opened Rounds
  import opened Openings

  // ------------------------------------------------------------------------ the lock

  /** Nodes 0, 1 and 3 hold the lock of node 3, and node 1 knows its block. */
  ghost predicate LeaderLocked(c: N.Cfg, s: State)
    requires c.n == 4 && Wf(c, s)
  {
    && N.SpbOf(s.nodes[0], K(3, 0)).lock && N.SpbOf(s.nodes[1], K(3, 0)).lock && N.SpbOf(s.nodes[3], K(3, 0)).lock
    && Has(s.nodes[1], K(3, 0), B(3))
  }

  lemma {:induction false} VoterLocks(c: N.Cfg, acts: seq<Sched>, i: int, k: Inst)
    requires Silent(c) && 0 <= i < c.n && Env(k.p, Spb.VoteTwo(i, k)) in At(c, acts).out[i]
    ensures N.SpbOf(At(c, acts).nodes[i], k).lock
  {
    SentByCorrect(c, acts, i, Env(k.p, Spb.VoteTwo(i, k)));
  }

  lemma {:induction false} LockedLater(c: N.Cfg, acts: seq<Sched>, acts': seq<Sched>)
    requires c.n == 4 && Silent(c) && acts <= acts' && LeaderLocked(c, At(c, acts))
    ensures LeaderLocked(c, At(c, acts'))
  {
    SpbLater(c, acts, acts', 0, K(3, 0));
    SpbLater(c, acts, acts', 1, K(3, 0));
    SpbLater(c, acts, acts', 3, K(3, 0));
    HasLater(c, acts, acts', 1, K(3, 0), B(3));
  }

  lemma {:induction false} LockLeader(c: N.Cfg, acts: seq<Sched>) returns (acts': seq<Sched>)
    requires Led(c) && Calm(c, acts) && Counting(acts, EARLY, {K(2, 0), K(0, 0)}) && AllStarted(c, At(c, acts))
    requires Said(c, At(c, acts), P(3, 0))
    ensures By(acts, acts', {0, 1, 3}) && Calm(c, acts') && Counting(acts', LATE, {K(2, 0), K(0, 0)})
    ensures LeaderLocked(c, At(c, acts'))
  {
    hide At;
    LedIsSilent(c);
    EarlyGroup(c, acts, 3, 0, 1, LATE, {K(2, 0), K(0, 0)});
    acts' := Prepare(c, acts, 3, 0, 1, LATE, {K(2, 0), K(0, 0)}, P(3, 0));
    assert {3, 0, 1} == {0, 1, 3};
    VoterLocks(c, acts', 0, K(3, 0));
    VoterLocks(c, acts', 1, K(3, 0));
    VoterLocks(c, acts', 3, K(3, 0));
  }

  /** The opening with the lock. */
  lemma {:induction false} ReachLocked(c: N.Cfg, q: int, slow: bool) returns (acts: seq<Sched>)
    requires Led(c) && (q == 0 || q == 3)
    ensures Finished(c, acts, LATE) && Unread(c, At(c, acts), q) && LeaderLocked(c, At(c, acts))
    ensures slow ==> B(3 - q) in At(c, acts).nodes[2].store
  {
    hide At, Said, LeaderLocked;
    LedIsSilent(c);
    var a2, a3 := ReachSecond(c, q, slow);
    var a4 := LockLeader(c, a3);
    AllStartedLater(c, a3, a4);
    SaidLater(c, a3, a4, P(0, 0));
    SaidLater(c, a3, a4, P(1, 0));
    SaidLater(c, a3, a4, P(3, 0));
    SaidLater(c, a3, a4, F(0, 0));
    SaidLater(c, a3, a4, F(2, 0));
    HasLater(c, a3, a4, 0, K(0, 0), B(0));
    HasLater(c, a3, a4, 3, K(3, 0), B(3));
    acts := ThirdFinish(c, a4, LATE);
    LockedLater(c, a4, acts);
    ByJoin(a2, a3, a4, {0, 1, 3});
    ByJoin(a2, a4, acts, {0, 1, 3});
    Still(c, a2, acts, {0, 1, 3}, 2);
    UnreadLater(c, a2, acts, q);
  }

  // --------------------------------------------------------- everybody backs the leader

  lemma {:induction false} BackedByFinish(c: N.Cfg, acts: seq<Sched>, p: int)
    requires Led(c) && Finished(c, acts, LATE) && 0 <= p < 4 && Said(c, At(c, acts), F(p, 0))
    ensures |Backed(c, At(c, acts), S0, p)| >= High(c.n)
  {
    LedIsSilent(c);
    var s := At(c, acts);
    FinishMeansLocked(c, acts, F(p, 0));
    var locked := Locked(c, s, K(p, 0), HashOf(B(p)));
    forall j | j in locked ensures j in Backed(c, s, S0, p) {
      Unbacked(c, acts, j, p);
    }
    SubsetSize(locked, Backed(c, s, S0, p));
  }

  lemma {:induction false} Unbacked(c: N.Cfg, acts: seq<Sched>, j: int, p: int)
    requires Led(c) && Finished(c, acts, LATE) && 0 <= j < 4
    ensures NoFor(j, S0, p) !in At(c, acts).out[j]
  {
    LedIsSilent(c);
    FewFinishNotReady(c, acts, S0, 1, 3, j);
    NotReadyUnprevoted(c, acts, j, S0);
    if NoFor(j, S0, p) in At(c, acts).out[j] {
      L.NumMember(At(c, acts).out[j], NoFor(j, S0, p), L.KPrevote, S0);
    }
  }

  lemma {:induction false} LeaderBacked(c: N.Cfg, acts: seq<Sched>)
    requires Led(c) && Finished(c, acts, LATE) && LeaderLocked(c, At(c, acts))
    ensures |Backed(c, At(c, acts), S0, 3)| >= High(c.n)
    ensures 0 in Backed(c, At(c, acts), S0, 3) && 1 in Backed(c, At(c, acts), S0, 3) && 3 in Backed(c, At(c, acts), S0, 3)
  {
    hide At, Finished;
    Unbacked(c, acts, 0, 3);
    Unbacked(c, acts, 1, 3);
    Unbacked(c, acts, 3, 3);
    var backed := Backed(c, At(c, acts), S0, 3);
    assert 0 in backed && 1 in backed && 3 in backed;
    ThreeIn(backed, 0, 1, 3);
  }

  lemma {:induction false} AllGood(c: N.Cfg, acts: seq<Sched>)
    requires Led(c) && Finished(c, acts, LATE) && LeaderLocked(c, At(c, acts))
    ensures GoodSet(c, At(c, acts), S0, {0, 1, 3})
  {
    hide At, Backed, LeaderLocked, Members, Interval, Finished, Said;
    LedIsSilent(c);
    TrioSize();
    FinishesSaid(c, acts);
    forall p | p in {0, 1, 3} ensures |Backed(c, At(c, acts), S0, p)| >= High(c.n) {
      if p == 3 {
        LeaderBacked(c, acts);
      } else {
        BackedByFinish(c, acts, p);
      }
    }
  }

  lemma FinishesSaid(c: N.Cfg, acts: seq<Sched>)
    requires c.n >= 1 && Finished(c, acts, LATE)
    ensures Said(c, At(c, acts), F(0, 0)) && Said(c, At(c, acts), F(1, 0))
  {
  }

  lemma TrioSize()
    ensures {0, 1, 3} <= Members(4) && |{0, 1, 3}| == 3
  {
  }

  /** In every continuation. */
  lemma {:induction false} StaysGood(c: N.Cfg, start: seq<Sched>, acts: seq<Sched>)
    requires Led(c) && Silent(c) && start <= acts && GoodSet(c, At(c, start), S0, {0, 1, 3})
    ensures GoodSet(c, At(c, acts), S0, {0, 1, 3})
  {
    hide At, GoodSet;
    assert acts == start + acts[|start|..];
    GoodForever(c, start, acts[|start|..], S0, {0, 1, 3});
  }

  // --------------------------------------------------------------------- why nobody halts

  /** Node 3 does not finish, so a halt is sent on a commit only. */
  lemma {:induction false} HaltCause(c: N.Cfg, acts: seq<Sched>, h: Msg)
    requires Led(c) && Silent(c) && Orderly(c, acts) && Counting(acts, LATE, EARLY) && h.Halt? && Said(c, At(c, acts), h)
    ensures SlotOf(h) == S0 && Decides(c, At(c, acts), h.author, S0, ActionCommit)
  {
    UnlockedNoHalt(c, acts, LATE, EARLY, h);
    SentByCorrect(c, acts, h.author, Env(NONE, h));
    HaltIsLeaders(c, acts, h);
    var rd := N.RoundOf(At(c, acts).nodes[h.author], S0);
    if h.leader in rd.finish && rd.finish[h.leader] == h.hash {
      var m := Finish(h.leader, h.hash, 0, 0);
      HeldWasSaid(c, acts, h.author, m);
      FinishIsAuthors(c, acts, m);
      NoFinish(c, acts, LATE, EARLY, m);
    }
  }

  /** No final vote has been cast. */
  ghost predicate Voteless(c: N.Cfg, s: State)
    requires Wf(c, s)
  {
    forall m: Msg :: m.FinVote? && Said(c, s, m) ==> SlotOf(m) != S0
  }

  lemma {:induction false} NothingCounted(c: N.Cfg, ref: seq<Sched>, acts: seq<Sched>, i: int)
    requires Led(c) && Silent(c) && ref <= acts && Behind(c, At(c, acts), At(c, ref)) && Voteless(c, At(c, ref)) && 0 <= i < c.n
    ensures N.RoundOf(At(c, acts).nodes[i], S0).fin == []
  {
    var fin := N.RoundOf(At(c, acts).nodes[i], S0).fin;
    if fin != [] {
      FinWasSaid(c, acts, i, S0, fin[0]);
      HeldIsHeard(c, acts, i, fin[0]);
      BehindSaid(c, ref, acts, i, fin[0]);
    }
  }

  lemma {:induction false} UncountedHaltless(c: N.Cfg, acts: seq<Sched>, i: int)
    requires Led(c) && Calm(c, acts) && Counting(acts, LATE, EARLY) && 0 <= i < c.n && N.RoundOf(At(c, acts).nodes[i], S0).fin == []
    ensures Haltless(c, At(c, acts), i)
  {
    CalmIsOrderly(c, acts);
    forall x | x in At(c, acts).out[i] ensures !x.msg.Halt? {
      if x.msg.Halt? {
        SentByCorrect(c, acts, i, x);
        HaltCause(c, acts, x.msg);
      }
    }
  }

  lemma {:induction false} AllHaltless(c: N.Cfg, ref: seq<Sched>, acts: seq<Sched>)
    requires Led(c) && ref <= acts && Calm(c, acts) && Counting(acts, LATE, EARLY)
    requires Behind(c, At(c, acts), At(c, ref)) && Voteless(c, At(c, ref))
    ensures forall i :: 0 <= i < c.n ==> Haltless(c, At(c, acts), i)
  {
    forall i | 0 <= i < c.n ensures Haltless(c, At(c, acts), i) {
      NothingCounted(c, ref, acts, i);
      UncountedHaltless(c, acts, i);
    }
  }

  /** While nobody is ready there are no votes. */
  lemma {:induction false} UnreadyVoteless(c: N.Cfg, acts: seq<Sched>)
    requires Led(c) && Silent(c) && forall i :: 0 <= i < c.n ==> !N.RoundOf(At(c, acts).nodes[i], S0).ready
    ensures Voteless(c, At(c, acts))
    ensures forall m: Msg :: m.Prevote? && Said(c, At(c, acts), m) ==> SlotOf(m) != S0
  {
    var s := At(c, acts);
    forall m: Msg | m.Prevote? && Said(c, s, m) ensures SlotOf(m) != S0 {
      SentByCorrect(c, acts, m.author, Env(NONE, m));
    }
    forall m: Msg | m.FinVote? && Said(c, s, m) ensures SlotOf(m) != S0 {
      var pv := FinVoteSource(c, acts, m);
    }
  }

  /** Votes are cast on prevotes that were read. */
  lemma {:induction false} UnprevotedVoteless(c: N.Cfg, ref: seq<Sched>, acts: seq<Sched>)
    requires Led(c) && Silent(c) && ref <= acts && Behind(c, At(c, acts), At(c, ref))
    requires forall m: Msg :: m.Prevote? && Said(c, At(c, ref), m) ==> SlotOf(m) != S0
    ensures Voteless(c, At(c, acts))
  {
    var s := At(c, acts);
    forall m: Msg | m.FinVote? && Said(c, s, m) ensures SlotOf(m) != S0 {
      SentByCorrect(c, acts, m.author, Env(NONE, m));
      var pv :| pv in N.RoundOf(s.nodes[m.author], SlotOf(m)).pre && Repeats(m, pv);
      Projection(c, acts, m.author);
      OneVoteEach(c, m.author, Events(c, acts, m.author), SlotOf(m));
      HeldIsHeard(c, acts, m.author, pv);
      BehindSaid(c, ref, acts, m.author, pv);
    }
  }

  // ------------------------------------------------------------- to the commit, step by step

  /** A calm run after the opening. */
  ghost predicate Backing(c: N.Cfg, acts: seq<Sched>)
    requires c.n == 4
  {
    Calm(c, acts) && AllStarted(c, At(c, acts)) && Counting(acts, LATE, EARLY)
  }

  lemma {:induction false} BacksOn(c: N.Cfg, acts: seq<Sched>, acts': seq<Sched>)
    requires Led(c) && Backing(c, acts) && acts <= acts' && Calm(c, acts') && Counting(acts', LATE, EARLY)
    ensures Backing(c, acts')
  {
    hide At, Counting;
    AllStartedLater(c, acts, acts');
  }

  /** Nodes 0, 1 and 3 are done in round 0, and nobody is ready. */
  ghost predicate DoneUnready(c: N.Cfg, acts: seq<Sched>)
    requires c.n == 4
  {
    && Backing(c, acts) && SaidDones(c, At(c, acts), S0)
    && forall i :: 0 <= i < c.n ==> Haltless(c, At(c, acts), i) && !N.RoundOf(At(c, acts).nodes[i], S0).ready
  }

  /** Nodes 0, 1 and 3 read the finishes and are done; nobody has prevoted. */
  lemma {:induction false} BackersDone(c: N.Cfg, acts: seq<Sched>) returns (acts': seq<Sched>)
    requires Led(c) && Finished(c, acts, LATE)
    ensures By(acts, acts', {0, 1, 3}) && DoneUnready(c, acts')
  {
    hide Heard;
    hide At, LeaderLocked, GoodSet, Said, FewFinish;
    LedIsSilent(c);
    forall i | 0 <= i < c.n ensures !N.RoundOf(At(c, acts).nodes[i], S0).ready {
      FewFinishNotReady(c, acts, S0, 1, 3, i);
    }
    UnreadyVoteless(c, acts);
    BehindItself(c, acts);
    AllHaltless(c, acts, acts);
    var ms := [F(0, 0), F(1, 0), F(2, 0)];
    acts' := AllHear(c, acts, ms, LATE, EARLY);
    assert ms[0] in ms && ms[1] in ms && ms[2] in ms;
    FinishesHeard(c, acts');
    forall i | 0 <= i < c.n ensures !N.RoundOf(At(c, acts').nodes[i], S0).ready {
      NoneReadyYet(c, acts, acts', S0, 1, 3, i);
    }
    AllHaltless(c, acts, acts');
    BacksOn(c, acts, acts');
  }

  lemma {:induction false} FinishesHeard(c: N.Cfg, acts: seq<Sched>)
    requires Led(c) && Calm(c, acts)
    requires forall i :: i in {0, 1, 3} ==> HeardThree(c, At(c, acts), i, F(0, 0), F(1, 0), F(2, 0))
    ensures SaidDones(c, At(c, acts), S0)
  {
    hide At, HeardThree;
    forall i | i in {0, 1, 3} ensures SaidDone(c, At(c, acts), i, S0) {
      FinishesToDone(c, acts, i, S0, F(0, 0), F(1, 0), F(2, 0));
    }
    assert 0 in {0, 1, 3} && 1 in {0, 1, 3} && 3 in {0, 1, 3};
  }

  lemma BehindItself(c: N.Cfg, acts: seq<Sched>)
    requires c.n >= 1
    ensures Behind(c, At(c, acts), At(c, acts))
  {
  }

  ghost predicate HasPrevoted(c: N.Cfg, s: State, i: int, pv: Msg)
    requires Wf(c, s)
  {
    pv.Prevote? && pv.author == i && SlotOf(pv) == S0 && Said(c, s, pv)
  }

  ghost predicate HasVoted(c: N.Cfg, s: State, i: int, v: Msg)
    requires Wf(c, s)
  {
    v.FinVote? && v.author == i && SlotOf(v) == S0 && Said(c, s, v)
  }

  /** A backer prevotes yes. */
  lemma {:induction false} BackerSaysYes(c: N.Cfg, acts: seq<Sched>, pv: Msg)
    requires Led(c) && Silent(c) && Orderly(c, acts) && pv.Prevote? && SlotOf(pv) == S0 && Said(c, At(c, acts), pv)
    requires pv.author in Backed(c, At(c, acts), S0, 3)
    ensures IsYes(pv)
  {
    assert NoFor(pv.author, S0, 3) !in At(c, acts).out[pv.author];
    SentByCorrect(c, acts, pv.author, Env(NONE, pv));
    SaidLeader(c, acts, pv);
  }

  /** A backer that has processed the leader has prevoted yes. */
  lemma {:induction false} BackerPrevotes(c: N.Cfg, acts: seq<Sched>, i: int) returns (pv: Msg)
    requires Led(c) && Calm(c, acts) && 0 <= i < c.n && i in Backed(c, At(c, acts), S0, 3)
    requires L.Bodies(At(c, acts).out[i], S0) >= 1 && Haltless(c, At(c, acts), i)
    ensures HasPrevoted(c, At(c, acts), i, pv)
  {
    CalmIsOrderly(c, acts);
    var out := At(c, acts).out[i];
    if L.Num(out, L.KHalt, S0) >= 1 {
      var y := L.SomeOfKind(out, L.KHalt, S0);
    }
    var x := L.SomeOfKind(out, L.KPrevote, S0);
    SentByCorrect(c, acts, i, x);
    pv := x.msg;
    BackerSaysYes(c, acts, pv);
  }

  lemma {:induction false} BackersPrevote(c: N.Cfg, start: seq<Sched>, acts: seq<Sched>)
    returns (acts': seq<Sched>, p0: Msg, p1: Msg)
    requires Led(c) && Finished(c, start, LATE) && LeaderLocked(c, At(c, start)) && start <= acts
    requires DoneUnready(c, acts)
    ensures Backing(c, acts') && By(acts, acts', {0, 1, 3}) && Voteless(c, At(c, acts'))
    ensures forall i :: 0 <= i < c.n ==> Haltless(c, At(c, acts'), i)
    ensures HasPrevoted(c, At(c, acts'), 0, p0) && HasPrevoted(c, At(c, acts'), 1, p1)
  {
    hide L.Bodies, SaidDones;
    hide At, LeaderLocked, GoodSet, Backed, Finished, Said;
    LedIsSilent(c);
    UnreadyVoteless(c, acts);
    acts' := AllHearDones(c, acts, S0, LATE, EARLY);
    BacksOn(c, acts, acts');
    AllHaltless(c, acts, acts');
    UnprevotedVoteless(c, acts, acts');
    LeaderBacked(c, start);
    StaysBackedLater(c, start, acts', 0);
    StaysBackedLater(c, start, acts', 1);
    p0 := BackerPrevotes(c, acts', 0);
    p1 := BackerPrevotes(c, acts', 1);
  }

  lemma {:induction false} StaysBackedLater(c: N.Cfg, acts: seq<Sched>, acts': seq<Sched>, j: int)
    requires Silent(c) && acts <= acts' && j in Backed(c, At(c, acts), S0, 3)
    ensures j in Backed(c, At(c, acts'), S0, 3)
    decreases |acts'|
  {
    if |acts| < |acts'| {
      var init := acts'[..|acts'| - 1];
      StaysBackedLater(c, acts, init, j);
      StaysBacked(c, At(c, init), acts'[|acts'| - 1], S0, 3, j);
    } else {
      assert acts == acts';
    }
  }

  /** A node that has read a yes prevote has voted yes. */
  lemma {:induction false} CastsYes(c: N.Cfg, acts: seq<Sched>, i: int, pv: Msg) returns (v: Msg)
    requires Led(c) && Calm(c, acts) && 0 <= i < c.n && pv.Prevote? && SlotOf(pv) == S0 && Heard(c, At(c, acts), i, pv)
    requires pv.author in Backed(c, At(c, acts), S0, 3)
    ensures HasVoted(c, At(c, acts), i, v)
  {
    hide At, L.After, Cast, Backed;
    CalmIsOrderly(c, acts);
    HeardCounts(c, acts, i, pv);
    var pre := N.RoundOf(At(c, acts).nodes[i], S0).pre;
    var m :| m in pre && m.author == pv.author;
    Projection(c, acts, i);
    OneVoteEach(c, i, Events(c, acts, i), S0);
    CastExactly(c, i, Events(c, acts, i), S0);
    CastShapes(i, pre, High(c.n));
    HeldWasSaid(c, acts, i, m);
    BackerSaysYes(c, acts, m);
    var k :| 0 <= k < |pre| && pre[k] == m;
    assert SomeYes(pre);
    v := FinVotes(At(c, acts).out[i], S0)[0];
    var x := FinVoteIn(At(c, acts).out[i], S0, v);
    SentByCorrect(c, acts, i, x);
  }

  /** Nodes 0, 1 and 3 read a prevote and vote. */
  lemma {:induction false} BackersVote(c: N.Cfg, start: seq<Sched>, acts: seq<Sched>, p0: Msg) returns (acts': seq<Sched>, v0: Msg, v1: Msg, v3: Msg)
    requires Led(c) && Finished(c, start, LATE) && LeaderLocked(c, At(c, start)) && start <= acts
    requires Backing(c, acts) && Voteless(c, At(c, acts)) && forall i :: 0 <= i < c.n ==> Haltless(c, At(c, acts), i)
    requires HasPrevoted(c, At(c, acts), 0, p0)
    ensures Backing(c, acts') && By(acts, acts', {0, 1, 3})
    ensures forall i :: 0 <= i < c.n ==> Haltless(c, At(c, acts'), i)
    ensures HasVoted(c, At(c, acts'), 0, v0) && HasVoted(c, At(c, acts'), 1, v1) && HasVoted(c, At(c, acts'), 3, v3)
  {
    hide At, LeaderLocked, GoodSet, Backed, Finished, Said;
    LedIsSilent(c);
    acts' := AllHear(c, acts, [p0], LATE, EARLY);
    BacksOn(c, acts, acts');
    AllHaltless(c, acts, acts');
    LeaderBacked(c, start);
    StaysBackedLater(c, start, acts', 0);
    assert p0 in [p0];
    v0 := CastsYes(c, acts', 0, p0);
    v1 := CastsYes(c, acts', 1, p0);
    v3 := CastsYes(c, acts', 3, p0);
  }

  /** The halt that node 1 broadcasts on its commit: it names node 0. */
  function WrongHalt(): Msg {
    Halt(1, 0, 0, 0, HashOf(B(3)))
  }

  /** Node 1 has read the three votes and has committed the block of node 3. */
  lemma {:induction false} NodeOneCommits(c: N.Cfg, acts: seq<Sched>, v0: Msg, v1: Msg, v3: Msg)
    requires Led(c) && Calm(c, acts) && Said(c, At(c, acts), P(3, 0)) && GoodSet(c, At(c, acts), S0, {0, 1, 3})
    requires v0.author == 0 && v1.author == 1 && v3.author == 3
    requires forall v :: v in [v0, v1, v3] ==> v.FinVote? && SlotOf(v) == S0 && Heard(c, At(c, acts), 1, v)
    ensures Said(c, At(c, acts), WrongHalt()) && Decides(c, At(c, acts), 1, S0, ActionCommit)
  {
    hide At, L.After, GoodSet, LeaderLocked;
    LedIsSilent(c);
    CalmIsOrderly(c, acts);
    assert v0 in [v0, v1, v3] && v1 in [v0, v1, v3] && v3 in [v0, v1, v3];
    HeardCounts(c, acts, 1, v0);
    HeardCounts(c, acts, 1, v1);
    HeardCounts(c, acts, 1, v3);
    var fin := N.RoundOf(At(c, acts).nodes[1], S0).fin;
    ThreeIn(Authors(fin), 0, 1, 3);
    Projection(c, acts, 1);
    OneVoteEach(c, 1, Events(c, acts, 1), S0);
    AuthorsSize(fin);
    assert acts + [] == acts;
    GoodLeaderCommits(c, acts, [], S0, {0, 1, 3}, 1);
    CommitAnnounced(c, acts, 1, S0);
    LastVote(c, acts, fin[2]);
  }

  /** A vote for the leader's block names no leader, that is, node 0. */
  lemma {:induction false} LastVote(c: N.Cfg, acts: seq<Sched>, v: Msg)
    requires Led(c) && Silent(c) && Orderly(c, acts) && Said(c, At(c, acts), P(3, 0))
    requires v in N.RoundOf(At(c, acts).nodes[1], S0).fin && LeadersBlock(c, At(c, acts), S0, VoteHash(v))
    ensures v.FinVote? && v.leader == 0 && v.hash == HashOf(B(3))
  {
    FinWasSaid(c, acts, 1, S0, v);
    SentByCorrect(c, acts, v.author, Env(NONE, v));
    CreatedOnce(c, acts, B(3), v.hash.block);
  }

  /** Node 1 has sent no other halt. */
  lemma {:induction false} OnlyHalt(c: N.Cfg, acts: seq<Sched>, p1: Msg, x: Envelope)
    requires Led(c) && Calm(c, acts) && Counting(acts, LATE, EARLY) && Said(c, At(c, acts), WrongHalt())
    requires HasPrevoted(c, At(c, acts), 1, p1)
    requires x in At(c, acts).out[1] && x.msg.Halt?
    ensures x == Env(NONE, WrongHalt())
  {
    hide At, L.After;
    LedIsSilent(c);
    CalmIsOrderly(c, acts);
    var out := At(c, acts).out[1];
    SentByCorrect(c, acts, 1, x);
    HaltCause(c, acts, x.msg);
    Projection(c, acts, 1);
    L.LeaderProcessedOnce(c, 1, Events(c, acts, 1), S0);
    L.NumMember(out, Env(NONE, p1), L.KPrevote, S0);
    OnlyOne(out, x, Env(NONE, WrongHalt()), L.KHalt, S0);
  }

  ghost predicate OneCommitted(c: N.Cfg, acts: seq<Sched>)
    requires c.n == 4
  {
    && Calm(c, acts) && AllStarted(c, At(c, acts)) && Counting(acts, LATE, EARLY)
    && Said(c, At(c, acts), WrongHalt()) && Said(c, At(c, acts), P(0, 0)) && Said(c, At(c, acts), P(3, 0))
    && Has(At(c, acts).nodes[1], K(3, 0), B(3))
    && (forall x :: x in At(c, acts).out[1] && x.msg.Halt? ==> x == Env(NONE, WrongHalt()))
  }

  lemma {:induction false} ReachDone(c: N.Cfg, q: int, slow: bool) returns (start: seq<Sched>, acts: seq<Sched>)
    requires Led(c) && (q == 0 || q == 3)
    ensures Finished(c, start, LATE) && LeaderLocked(c, At(c, start)) && Unread(c, At(c, start), q)
    ensures slow ==> B(3 - q) in At(c, start).nodes[2].store
    ensures By(start, acts, {0, 1, 3}) && DoneUnready(c, acts)
  {
    hide At, LeaderLocked, Said, Haltless, SaidDones;
    start := ReachLocked(c, q, slow);
    acts := BackersDone(c, start);
  }

  /** From there to the votes. */
  lemma {:induction false} ToVotes(c: N.Cfg, start: seq<Sched>, acts: seq<Sched>)
    returns (acts': seq<Sched>, p1: Msg, v0: Msg, v1: Msg, v3: Msg)
    requires Led(c) && Finished(c, start, LATE) && LeaderLocked(c, At(c, start)) && start <= acts && DoneUnready(c, acts)
    ensures By(acts, acts', {0, 1, 3}) && Backing(c, acts') && forall i :: 0 <= i < c.n ==> Haltless(c, At(c, acts'), i)
    ensures HasPrevoted(c, At(c, acts'), 1, p1)
    ensures HasVoted(c, At(c, acts'), 0, v0) && HasVoted(c, At(c, acts'), 1, v1) && HasVoted(c, At(c, acts'), 3, v3)
  {
    hide Finished, Wf;
    hide At, LeaderLocked, GoodSet, Said, Haltless, SaidDones;
    var a2, p0;
    a2, p0, p1 := BackersPrevote(c, start, acts);
    acts', v0, v1, v3 := BackersVote(c, start, a2, p0);
    SaidLater(c, a2, acts', p1);
    ByJoin(acts, a2, acts', {0, 1, 3});
  }

  /** And to the commit of node 1. */
  lemma {:induction false} ToCommit(c: N.Cfg, start: seq<Sched>, acts: seq<Sched>) returns (acts': seq<Sched>)
    requires Led(c) && Finished(c, start, LATE) && LeaderLocked(c, At(c, start)) && start <= acts && DoneUnready(c, acts)
    ensures By(acts, acts', {0, 1, 3}) && OneCommitted(c, acts') && GoodSet(c, At(c, acts'), S0, {0, 1, 3})
  {
    hide At, LeaderLocked, GoodSet, Said, Haltless, SaidDones;
    LedIsSilent(c);
    var a, p1, v0, v1, v3 := ToVotes(c, start, acts);
    acts' := HearAll(c, a, a, 1, [v0, v1, v3]);
    BacksOn(c, a, acts');
    ByTrans(acts, a, acts', {0, 1, 3}, 1);
    SaidLater(c, start, acts', P(0, 0));
    SaidLater(c, start, acts', P(3, 0));
    SaidLater(c, a, acts', p1);
    AllGood(c, start);
    StaysGood(c, start, acts');
    LockedLater(c, start, acts');
    NodeOneCommits(c, acts', v0, v1, v3);
    forall x | x in At(c, acts').out[1] && x.msg.Halt? ensures x == Env(NONE, WrongHalt()) {
      OnlyHalt(c, acts', p1, x);
    }
    LockerHas(c, acts');
  }

  lemma LockerHas(c: N.Cfg, acts: seq<Sched>)
    requires c.n == 4 && LeaderLocked(c, At(c, acts))
    ensures Has(At(c, acts).nodes[1], K(3, 0), B(3))
  {
  }
}

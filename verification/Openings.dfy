/** How the runs of four nodes begin. Three nodes start and carry the broadcast of node 2, the fourth
    starts late, and nodes 0 and 1 finish too; node 2 takes no further part. Node 3 leads round 0. */
module Openings {
  import opened Messages
  import opened Committee
  import N = Node
  import opened System
  import L = Local
  import opened Runs
  import opened Byzantine
  import opened Benign
  import opened Schedules
  import opened Broadcasts
  import opened Trios
  import opened Rounds

  /** Four correct nodes; node 3 leads round 0 of epoch 0. */
  ghost predicate Led(c: N.Cfg) {
    c.n == 4 && c.byz == {} && N.Elected(c, S0) == 3
  }

  const S0 := Slot(0, 0)
  const S1 := Slot(0, 1)

  /** The block, proposals, finishes and instances of node p in epoch 0. */
  function B(p: int): Block {
    Block(p, Load(p, 0), 0)
  }

  function P(p: int, r: int): Msg {
    Proposal(p, B(p), 0, r, ONE_PHASE)
  }

  function F(p: int, r: int): Msg {
    Finish(p, HashOf(B(p)), 0, r)
  }

  function K(p: int, r: int): Inst {
    Inst(0, r, p)
  }

  /** The instances of the three that finish, and with that of the leader. */
  const EARLY: set<Inst> := {K(0, 0), K(1, 0), K(2, 0)}
  const LATE: set<Inst> := EARLY + {K(3, 0)}

  lemma LedIsSilent(c: N.Cfg)
    requires Led(c)
    ensures Silent(c) && High(4) == 3 && Low(4) == 2
  {
  }

  // ----------------------------------------------------------------------------- tools

  /** Nobody has halted while the leader is not locked or two nodes cannot have finished. */
  lemma {:induction false} EarlyGroup(c: N.Cfg, acts: seq<Sched>, p: int, y: int, z: int, ones: set<Inst>, twos: set<Inst>)
    requires Led(c) && Calm(c, acts) && Counting(acts, ones, twos) && ones <= LATE
    requires K(3, 0) !in ones || Unfinished(c, twos, S0, 1, 3)
    requires 0 <= p < 4 && 0 <= y < 4 && 0 <= z < 4 && Distinct(p, y, z)
    requires var s := At(c, acts); s.nodes[p].started && s.nodes[y].started && s.nodes[z].started
    ensures Group(c, acts, p, y, z, ones, twos)
  {
    forall i, sl | i in {p, y, z} ensures Muted(c, At(c, acts), i, ones, twos, sl) {
      assert Inst(sl.e, sl.r, N.Elected(c, sl)) in ones ==> sl == S0;
    }
  }

  /** The whole broadcast of p; mid is the run before the votes for the lock are counted. */
  lemma {:induction false} Broadcast(c: N.Cfg, acts: seq<Sched>, p: int, y: int, z: int, ones: set<Inst>, twos: set<Inst>, r: int)
    returns (mid: seq<Sched>, acts': seq<Sched>)
    requires c.n >= 1 && Group(c, acts, p, y, z, ones, twos) && Said(c, At(c, acts), P(p, r)) && K(p, r) in ones
    requires !MayLack(y, p) && !MayLack(z, p)
    ensures acts <= mid <= acts' && Counting(mid, ones, twos) && Behind(c, At(c, acts'), At(c, mid))
    ensures Calm(c, acts') && By(acts, acts', {p, y, z}) && Counting(acts', ones, twos + {K(p, r)})
    ensures Said(c, At(c, acts'), F(p, r)) && Has(At(c, acts').nodes[p], K(p, r), B(p))
  {
    mid := Prepare(c, acts, p, y, z, ones, twos, P(p, r));
    acts' := FinishUp(c, mid, p, y, z, ones, twos, K(p, r), B(p));
    HasLater(c, mid, acts', p, K(p, r), B(p));
    ByTrans(acts, mid, acts', {p, y, z}, p);
  }

  /** What was heard behind an earlier state was said there. */
  lemma {:induction false} BehindSaid(c: N.Cfg, acts: seq<Sched>, acts': seq<Sched>, i: int, m: Msg)
    requires Silent(c) && acts <= acts' && Behind(c, At(c, acts'), At(c, acts)) && 0 <= i < c.n
    requires Heard(c, At(c, acts'), i, m) && !m.SpbVote?
    ensures Said(c, At(c, acts), m)
  {
    var s, s' := At(c, acts), At(c, acts');
    LogLater(c, acts, acts', i, m.author);
    var x := if Env(NONE, m) in s'.out[m.author][..s'.cur[i][m.author]] then Env(NONE, m) else Env(i, m);
    assert s'.out[m.author][..s'.cur[i][m.author]] <= s.out[m.author];
    assert x in s.out[m.author];
    SentByCorrect(c, acts, m.author, x);
  }

  lemma {:induction false} FewBehind(c: N.Cfg, mid: seq<Sched>, acts: seq<Sched>, ones: set<Inst>, twos: set<Inst>, sl: Slot, p: int, q: int)
    requires Silent(c) && mid <= acts && Behind(c, At(c, acts), At(c, mid))
    requires Counting(mid, ones, twos) && Unfinished(c, twos, sl, p, q)
    ensures FewFinish(c, At(c, acts), sl, p, q)
  {
    forall i, x, h | 0 <= i < c.n && (x == p || x == q) ensures !Heard(c, At(c, acts), i, Finish(x, h, sl.e, sl.r)) {
      var m := Finish(x, h, sl.e, sl.r);
      if Heard(c, At(c, acts), i, m) {
        BehindSaid(c, mid, acts, i, m);
        NoFinish(c, mid, ones, twos, m);
      }
    }
  }

  ghost predicate AllStarted(c: N.Cfg, s: State)
    requires Wf(c, s)
  {
    forall i :: 0 <= i < c.n ==> s.nodes[i].started
  }

  lemma {:induction false} AllStartedLater(c: N.Cfg, acts: seq<Sched>, acts': seq<Sched>)
    requires Silent(c) && acts <= acts' && AllStarted(c, At(c, acts))
    ensures AllStarted(c, At(c, acts'))
  {
    forall i | 0 <= i < c.n ensures At(c, acts').nodes[i].started {
      LifeLater(c, acts, acts', i);
    }
  }

  // ------------------------------------------------------------------------- starting

  /** A node that was not started has done nothing. */
  lemma {:induction false} Unstarted(c: N.Cfg, acts: seq<Sched>, i: int)
    requires Silent(c) && 0 <= i < c.n && !At(c, acts).nodes[i].started
    ensures At(c, acts).nodes[i] == N.INIT && At(c, acts).out[i] == []
  {
    if acts != [] {
      var init := acts[..|acts| - 1];
      var s, a := At(c, init), acts[|acts| - 1];
      LifeLater(c, init, acts, i);
      Unstarted(c, init, i);
      var ev := EventAt(c, s, a, i);
      if ev == [] {
        StepElsewhere(c, s, a, i);
      } else {
        StepHere(c, s, a, i);
      }
    }
  }

  lemma {:induction false} StartOne(c: N.Cfg, acts: seq<Sched>, i: int)
    requires Silent(c) && Calm(c, acts) && 0 <= i < c.n && !At(c, acts).nodes[i].started
    ensures var acts' := acts + [Start(i, Own(i, 0))];
            && Calm(c, acts') && By(acts, acts', {i})
            && At(c, acts').nodes[i].started && At(c, acts').out[i] == [Env(NONE, P(i, 0))]
  {
    CalmAppend(c, acts, Start(i, Own(i, 0)));
    Append(c, acts, Start(i, Own(i, 0)));
    Unstarted(c, acts, i);
    StepHere(c, At(c, acts), Start(i, Own(i, 0)), i);
  }

  lemma StartedSaid(c: N.Cfg, acts: seq<Sched>, i: int)
    requires c.n >= 1 && 0 <= i < c.n && At(c, acts).out[i] == [Env(NONE, P(i, 0))]
    ensures Said(c, At(c, acts), P(i, 0))
  {
  }

  lemma NobodyStarted(c: N.Cfg)
    requires Silent(c)
    ensures Calm(c, []) && forall i :: 0 <= i < c.n ==> !At(c, []).nodes[i].started
  {
  }

  /** Nodes 1, 2 and y are started, and nothing else has happened. */
  lemma {:induction false} StartThree(c: N.Cfg, y: int) returns (acts: seq<Sched>)
    requires Led(c) && (y == 0 || y == 3)
    ensures Calm(c, acts) && forall a :: a in acts ==> a.Start?
    ensures forall i :: i in {1, 2, y} ==> At(c, acts).nodes[i].started && At(c, acts).out[i] == [Env(NONE, P(i, 0))]
    ensures !At(c, acts).nodes[3 - y].started
  {
    hide At, Calm;
    LedIsSilent(c);
    NobodyStarted(c);
    var a1 := [] + [Start(1, Own(1, 0))];
    StartOne(c, [], 1);
    var a2 := a1 + [Start(2, Own(2, 0))];
    Still(c, [], a1, {1}, 2);
    StartOne(c, a1, 2);
    acts := a2 + [Start(y, Own(y, 0))];
    Still(c, [], a1, {1}, y);
    Still(c, a1, a2, {2}, y);
    StartOne(c, a2, y);
    Still(c, a1, a2, {2}, 1);
    Still(c, a2, acts, {y}, 1);
    Still(c, a2, acts, {y}, 2);
    Still(c, [], a1, {1}, 3 - y);
    Still(c, a1, a2, {2}, 3 - y);
    Still(c, a2, acts, {y}, 3 - y);
  }

  lemma {:induction false} NothingRead(c: N.Cfg, acts: seq<Sched>, i: int, j: int)
    requires c.n >= 1 && (forall a :: a in acts ==> a.Start?) && 0 <= i < c.n && 0 <= j < c.n
    ensures At(c, acts).cur[i][j] == 0
  {
    if acts != [] {
      var init := acts[..|acts| - 1];
      assert forall a :: a in init ==> a in acts;
      assert acts[|acts| - 1] in acts;
      NothingRead(c, init, i, j);
    }
  }

  /** Node 2 reads the proposal of y, whose payloads it lacks. */
  lemma {:induction false} SlowReads(c: N.Cfg, acts: seq<Sched>, y: int)
    requires Led(c) && Calm(c, acts) && MayLack(2, y) && At(c, acts).nodes[2].started
    requires At(c, acts).out[y] == [Env(NONE, P(y, 0))] && At(c, acts).cur[2][y] == 0
    ensures var acts' := acts + [Deliver(2, y, MISSING)];
            Calm(c, acts') && By(acts, acts', {2}) && B(y) in At(c, acts').nodes[2].store
  {
    var a := Deliver(2, y, MISSING);
    CalmAppend(c, acts, a);
    Append(c, acts, a);
    var s' := At(c, acts + [a]);
    StepHere(c, At(c, acts), a, 2);
    assert s'.out[y][..s'.cur[2][y]][0] == Env(NONE, P(y, 0));
    HeardKept(c, acts + [a], 2, P(y, 0));
  }

  // ----------------------------------------------------------------- the first finish

  /** Node 2 has finished with the help of 1 and y; node q is not started. */
  ghost predicate FirstFinished(c: N.Cfg, acts: seq<Sched>, q: int)
    requires c.n == 4
  {
    && Calm(c, acts) && Counting(acts, EARLY, {K(2, 0)}) && (q == 0 || q == 3) && var s := At(c, acts);
       && s.nodes[1].started && s.nodes[2].started && s.nodes[3 - q].started && !s.nodes[q].started
       && Said(c, s, P(1, 0)) && Said(c, s, P(3 - q, 0)) && Said(c, s, F(2, 0))
  }

  lemma {:induction false} FinishFirst(c: N.Cfg, q: int, slow: bool) returns (acts: seq<Sched>)
    requires Led(c) && (q == 0 || q == 3)
    ensures FirstFinished(c, acts, q)
    ensures slow ==> B(3 - q) in At(c, acts).nodes[2].store
  {
    hide At;
    LedIsSilent(c);
    var y := 3 - q;
    var a := StartThree(c, y);
    if slow {
      NothingRead(c, a, 2, y);
      SlowReads(c, a, y);
      var a' := a + [Deliver(2, y, MISSING)];
      Still(c, a, a', {2}, q);
      acts := FinishTwo(c, a, a', q);
      LifeLater(c, a', acts, 2);
    } else {
      acts := FinishTwo(c, a, a, q);
    }
  }

  lemma {:induction false} FinishTwo(c: N.Cfg, start: seq<Sched>, acts: seq<Sched>, q: int) returns (acts': seq<Sched>)
    requires Led(c) && (q == 0 || q == 3) && start <= acts && Calm(c, acts) && (forall a :: a in acts ==> !a.Run?)
    requires forall i :: i in {1, 2, 3 - q} ==> At(c, start).nodes[i].started && At(c, start).out[i] == [Env(NONE, P(i, 0))]
    requires !At(c, acts).nodes[q].started
    ensures FirstFinished(c, acts', q) && acts <= acts'
  {
    hide At;
    LedIsSilent(c);
    var y := 3 - q;
    forall i | i in {1, 2, y} ensures At(c, acts).nodes[i].started && Said(c, At(c, acts), P(i, 0)) {
      LifeLater(c, start, acts, i);
      SaidLater(c, start, acts, P(i, 0));
    }
    assert 1 in {1, 2, y} && 2 in {1, 2, y} && y in {1, 2, y};
    EarlyGroup(c, acts, 2, y, 1, EARLY, {});
    var mid, a := Broadcast(c, acts, 2, y, 1, EARLY, {}, 0);
    acts' := a;
    assert {} + {K(2, 0)} == {K(2, 0)};
    Still(c, acts, acts', {2, y, 1}, q);
    LifeLater(c, acts, acts', 1);
    LifeLater(c, acts, acts', 2);
    LifeLater(c, acts, acts', y);
    SaidLater(c, acts, acts', P(1, 0));
    SaidLater(c, acts, acts', P(y, 0));
  }

  // --------------------------------------------------------------- the fourth node starts

  /** Node 2 has read nothing of node q, whose log starts with its proposal. */
  ghost predicate Unread(c: N.Cfg, s: State, q: int)
    requires c.n == 4 && Wf(c, s) && 0 <= q < c.n
  {
    s.cur[2][q] == 0 && |s.out[q]| > 0 && s.out[q][0] == Env(NONE, P(q, 0))
  }

  lemma {:induction false} UnreadLater(c: N.Cfg, acts: seq<Sched>, acts': seq<Sched>, q: int)
    requires c.n == 4 && 0 <= q < c.n && Unread(c, At(c, acts), q) && acts <= acts'
    requires At(c, acts').cur[2][q] == At(c, acts).cur[2][q]
    ensures Unread(c, At(c, acts'), q)
  {
    LogLater(c, acts, acts', 2, q);
  }

  /** All are started; node 2 has finished, and has read nothing of node q. */
  ghost predicate Opened(c: N.Cfg, acts: seq<Sched>, q: int)
    requires c.n == 4
  {
    && Calm(c, acts) && Counting(acts, EARLY, {K(2, 0)}) && AllStarted(c, At(c, acts)) && (q == 0 || q == 3)
    && Said(c, At(c, acts), P(0, 0)) && Said(c, At(c, acts), P(1, 0)) && Said(c, At(c, acts), P(3, 0)) && Said(c, At(c, acts), F(2, 0))
    && Unread(c, At(c, acts), q)
  }

  lemma {:induction false} StartLast(c: N.Cfg, acts: seq<Sched>, q: int) returns (acts': seq<Sched>)
    requires Led(c) && FirstFinished(c, acts, q)
    ensures Opened(c, acts', q) && By(acts, acts', {q})
  {
    hide Load, B;
    hide At, Said, Calm;
    LedIsSilent(c);
    Unstarted(c, acts, q);
    StartOne(c, acts, q);
    acts' := acts + [Start(q, Own(q, 0))];
    StartedSaid(c, acts', q);
    Still(c, acts, acts', {q}, 1);
    Still(c, acts, acts', {q}, 2);
    Still(c, acts, acts', {q}, 3 - q);
    SaidLater(c, acts, acts', P(1, 0));
    SaidLater(c, acts, acts', P(3 - q, 0));
    SaidLater(c, acts, acts', F(2, 0));
  }

  // ------------------------------------------------------------------ the other finishes

  /** Nodes 0, 1 and 2 have finished round 0, and nobody has heard the finish of node 1. */
  ghost predicate Finished(c: N.Cfg, acts: seq<Sched>, ones: set<Inst>)
    requires c.n >= 1
  {
    && c.n == 4 && Calm(c, acts) && Counting(acts, ones, EARLY) && AllStarted(c, At(c, acts))
    && Said(c, At(c, acts), P(0, 0)) && Said(c, At(c, acts), P(3, 0))
    && Said(c, At(c, acts), F(0, 0)) && Said(c, At(c, acts), F(1, 0)) && Said(c, At(c, acts), F(2, 0))
    && Has(At(c, acts).nodes[0], K(0, 0), B(0)) && Has(At(c, acts).nodes[1], K(1, 0), B(1)) && Has(At(c, acts).nodes[3], K(3, 0), B(3))
    && FewFinish(c, At(c, acts), S0, 1, 3)
  }

  /** Node 3 takes its own proposal, and node 0 finishes. */
  lemma {:induction false} SecondFinish(c: N.Cfg, acts: seq<Sched>, q: int) returns (acts': seq<Sched>)
    requires Led(c) && Opened(c, acts, q)
    ensures By(acts, acts', {0, 1, 3}) && Calm(c, acts') && Counting(acts', EARLY, {K(2, 0), K(0, 0)}) && AllStarted(c, At(c, acts'))
    ensures Said(c, At(c, acts'), F(0, 0)) && Has(At(c, acts').nodes[0], K(0, 0), B(0)) && Has(At(c, acts').nodes[3], K(3, 0), B(3))
  {
    hide At;
    LedIsSilent(c);
    EarlyGroup(c, acts, 3, 0, 1, EARLY, {K(2, 0)});
    GroupHaltless(c, acts, 3, 0, 1, EARLY, {K(2, 0)});
    var a1 := TakeProposal(c, acts, 3, P(3, 0));
    AllStartedLater(c, acts, a1);
    SaidLater(c, acts, a1, P(0, 0));
    EarlyGroup(c, a1, 0, 1, 3, EARLY, {K(2, 0)});
    var mid, a2 := Broadcast(c, a1, 0, 1, 3, EARLY, {K(2, 0)}, 0);
    acts' := a2;
    assert {K(2, 0)} + {K(0, 0)} == {K(2, 0), K(0, 0)};
    AllStartedLater(c, a1, acts');
    HasLater(c, a1, acts', 3, K(3, 0), B(3));
    ByWiden(acts, a1, {3}, {0, 1, 3});
    ByJoin(acts, a1, acts', {0, 1, 3});
  }

  lemma ByWiden(acts: seq<Sched>, acts': seq<Sched>, who: set<int>, who': set<int>)
    requires By(acts, acts', who) && who <= who'
    ensures By(acts, acts', who')
  {
  }

  lemma {:induction false} ThirdFinish(c: N.Cfg, acts: seq<Sched>, ones: set<Inst>) returns (acts': seq<Sched>)
    requires Led(c) && Calm(c, acts) && Counting(acts, ones, {K(2, 0), K(0, 0)}) && AllStarted(c, At(c, acts)) && EARLY <= ones <= LATE
    requires Said(c, At(c, acts), P(0, 0)) && Said(c, At(c, acts), P(1, 0)) && Said(c, At(c, acts), P(3, 0))
    requires Said(c, At(c, acts), F(0, 0)) && Said(c, At(c, acts), F(2, 0))
    requires Has(At(c, acts).nodes[0], K(0, 0), B(0)) && Has(At(c, acts).nodes[3], K(3, 0), B(3))
    ensures Finished(c, acts', ones) && By(acts, acts', {0, 1, 3})
  {
    hide At;
    LedIsSilent(c);
    EarlyGroup(c, acts, 1, 0, 3, ones, {K(2, 0), K(0, 0)});
    var mid, a := Broadcast(c, acts, 1, 0, 3, ones, {K(2, 0), K(0, 0)}, 0);
    acts' := a;
    assert {1, 0, 3} == {0, 1, 3} && {K(2, 0), K(0, 0)} + {K(1, 0)} == EARLY;
    AllStartedLater(c, acts, acts');
    SaidLater(c, acts, acts', P(0, 0));
    SaidLater(c, acts, acts', P(3, 0));
    SaidLater(c, acts, acts', F(0, 0));
    SaidLater(c, acts, acts', F(2, 0));
    HasLater(c, acts, acts', 0, K(0, 0), B(0));
    HasLater(c, acts, acts', 3, K(3, 0), B(3));
    FewBehind(c, mid, acts', ones, {K(2, 0), K(0, 0)}, S0, 1, 3);
  }

  /** The opening, node q being late and node 2 lacking payloads if slow. */
  lemma {:induction false} ReachFinished(c: N.Cfg, q: int, slow: bool) returns (acts: seq<Sched>)
    requires Led(c) && (q == 0 || q == 3)
    ensures Finished(c, acts, EARLY) && Unread(c, At(c, acts), q)
    ensures slow ==> B(3 - q) in At(c, acts).nodes[2].store
  {
    hide At, Said;
    LedIsSilent(c);
    var a2, a3 := ReachSecond(c, q, slow);
    acts := ThirdFinish(c, a3, EARLY);
    ByJoin(a2, a3, acts, {0, 1, 3});
    Still(c, a2, acts, {0, 1, 3}, 2);
    UnreadLater(c, a2, acts, q);
  }

  /** The opening up to the second finish; full is the run when all are started. */
  lemma {:induction false} ReachSecond(c: N.Cfg, q: int, slow: bool) returns (full: seq<Sched>, acts: seq<Sched>)
    requires Led(c) && (q == 0 || q == 3)
    ensures Opened(c, full, q) && By(full, acts, {0, 1, 3}) && (slow ==> B(3 - q) in At(c, full).nodes[2].store)
    ensures Calm(c, acts) && Counting(acts, EARLY, {K(2, 0), K(0, 0)}) && AllStarted(c, At(c, acts))
    ensures Said(c, At(c, acts), P(0, 0)) && Said(c, At(c, acts), P(1, 0)) && Said(c, At(c, acts), P(3, 0))
    ensures Said(c, At(c, acts), F(0, 0)) && Said(c, At(c, acts), F(2, 0))
    ensures Has(At(c, acts).nodes[0], K(0, 0), B(0)) && Has(At(c, acts).nodes[3], K(3, 0), B(3))
  {
    hide At, Said;
    LedIsSilent(c);
    var first := FinishFirst(c, q, slow);
    full := StartLast(c, first, q);
    LifeLater(c, first, full, 2);
    acts := SecondFinish(c, full, q);
    SaidLater(c, full, acts, P(0, 0));
    SaidLater(c, full, acts, P(1, 0));
    SaidLater(c, full, acts, P(3, 0));
    SaidLater(c, full, acts, F(2, 0));
  }

  // ------------------------------------------------------------ three nodes read on

  /** Nodes 0, 1 and 3 read messages that are there already. */
  lemma {:induction false} AllHear(c: N.Cfg, acts: seq<Sched>, ms: seq<Msg>, ones: set<Inst>, twos: set<Inst>) returns (acts': seq<Sched>)
    requires c.n == 4 && Calm(c, acts) && AllStarted(c, At(c, acts)) && Counting(acts, ones, twos)
    requires forall m :: m in ms ==> Said(c, At(c, acts), m) && Haltless(c, At(c, acts), m.author)
    ensures Calm(c, acts') && AllStarted(c, At(c, acts')) && Counting(acts', ones, twos)
    ensures By(acts, acts', {0, 1, 3}) && Behind(c, At(c, acts'), At(c, acts))
    ensures forall m :: m in ms ==> Heard(c, At(c, acts'), 0, m) && Heard(c, At(c, acts'), 1, m) && Heard(c, At(c, acts'), 3, m)
  {
    var a0 := HearAll(c, acts, acts, 0, ms);
    AllStartedLater(c, acts, a0);
    var a1 := HearAll(c, acts, a0, 1, ms);
    AllStartedLater(c, a0, a1);
    acts' := HearAll(c, acts, a1, 3, ms);
    AllStartedLater(c, a1, acts');
    ByTrans(acts, a0, a1, {0, 1, 3}, 1);
    ByTrans(acts, a1, acts', {0, 1, 3}, 3);
    forall m | m in ms ensures Heard(c, At(c, acts'), 0, m) && Heard(c, At(c, acts'), 1, m) {
      HeardLater(c, a0, acts', 0, m);
      HeardLater(c, a1, acts', 1, m);
    }
  }

  /** Done and share of node i in a slot. */
  ghost predicate SaidDone(c: N.Cfg, s: State, i: int, sl: Slot)
    requires Wf(c, s)
  {
    Said(c, s, Done(i, sl.e, sl.r)) && Said(c, s, ElectShare(i, sl.e, sl.r))
  }

  /** The dones and shares of nodes 0, 1 and 3. */
  ghost predicate SaidDones(c: N.Cfg, s: State, sl: Slot)
    requires Wf(c, s)
  {
    SaidDone(c, s, 0, sl) && SaidDone(c, s, 1, sl) && SaidDone(c, s, 3, sl)
  }

  lemma {:induction false} SaidDonesLater(c: N.Cfg, acts: seq<Sched>, acts': seq<Sched>, sl: Slot)
    requires c.n >= 1 && acts <= acts' && SaidDones(c, At(c, acts), sl)
    ensures SaidDones(c, At(c, acts'), sl)
  {
    forall i | SaidDone(c, At(c, acts), i, sl) ensures SaidDone(c, At(c, acts'), i, sl) {
      SaidLater(c, acts, acts', Done(i, sl.e, sl.r));
      SaidLater(c, acts, acts', ElectShare(i, sl.e, sl.r));
    }
  }

  /** Node i reads the dones and shares of nodes 0, 1 and 3, and processes the leader. */
  lemma {:induction false} HearDones(c: N.Cfg, ref: seq<Sched>, acts: seq<Sched>, i: int, sl: Slot, ones: set<Inst>, twos: set<Inst>)
    returns (acts': seq<Sched>)
    requires c.n == 4 && ref <= acts && Calm(c, acts) && AllStarted(c, At(c, acts)) && Counting(acts, ones, twos)
    requires 0 <= i < c.n && sl.e == 0 && SaidDones(c, At(c, ref), sl)
    requires Haltless(c, At(c, ref), 0) && Haltless(c, At(c, ref), 1) && Haltless(c, At(c, ref), 3)
    ensures Calm(c, acts') && AllStarted(c, At(c, acts')) && Counting(acts', ones, twos) && By(acts, acts', {i})
    ensures L.Bodies(At(c, acts').out[i], sl) >= 1
    ensures Behind(c, At(c, acts), At(c, ref)) ==> Behind(c, At(c, acts'), At(c, ref))
  {
    hide At, Wf;
    var ds := [Done(0, sl.e, sl.r), Done(1, sl.e, sl.r), Done(3, sl.e, sl.r)];
    var a1 := HearAll(c, ref, acts, i, ds);
    assert ds[0] in ds && ds[1] in ds && ds[2] in ds;
    AllStartedLater(c, acts, a1);
    var es := [ElectShare(0, sl.e, sl.r), ElectShare(1, sl.e, sl.r), ElectShare(3, sl.e, sl.r)];
    acts' := HearAll(c, ref, a1, i, es);
    assert es[0] in es && es[1] in es && es[2] in es;
    AllStartedLater(c, a1, acts');
    HeardLater(c, a1, acts', i, ds[0]);
    HeardLater(c, a1, acts', i, ds[1]);
    HeardLater(c, a1, acts', i, ds[2]);
    ByTrans(acts, a1, acts', {i}, i);
    DonesToBody(c, acts', i, sl, 0, 1, 3);
  }

  /** All three do, reading what is there already. */
  lemma {:induction false} AllHearDones(c: N.Cfg, acts: seq<Sched>, sl: Slot, ones: set<Inst>, twos: set<Inst>) returns (acts': seq<Sched>)
    requires c.n == 4 && Calm(c, acts) && AllStarted(c, At(c, acts)) && Counting(acts, ones, twos)
    requires sl.e == 0 && SaidDones(c, At(c, acts), sl)
    requires Haltless(c, At(c, acts), 0) && Haltless(c, At(c, acts), 1) && Haltless(c, At(c, acts), 3)
    ensures Calm(c, acts') && AllStarted(c, At(c, acts')) && Counting(acts', ones, twos) && By(acts, acts', {0, 1, 3})
    ensures Behind(c, At(c, acts'), At(c, acts))
    ensures var s := At(c, acts'); L.Bodies(s.out[0], sl) >= 1 && L.Bodies(s.out[1], sl) >= 1 && L.Bodies(s.out[3], sl) >= 1
  {
    hide At, Said;
    var a0 := HearDones(c, acts, acts, 0, sl, ones, twos);
    var a1 := HearDones(c, acts, a0, 1, sl, ones, twos);
    acts' := HearDones(c, acts, a1, 3, sl, ones, twos);
    Still(c, a0, a1, {1}, 0);
    Still(c, a1, acts', {3}, 0);
    Still(c, a1, acts', {3}, 1);
    ByTrans(acts, a0, a1, {0, 1, 3}, 1);
    ByTrans(acts, a1, acts', {0, 1, 3}, 3);
  }

  lemma {:induction false} NotReadyUnprevoted(c: N.Cfg, acts: seq<Sched>, i: int, sl: Slot)
    requires Silent(c) && 0 <= i < c.n && !N.RoundOf(At(c, acts).nodes[i], sl).ready
    ensures L.Num(At(c, acts).out[i], L.KPrevote, sl) == 0
  {
    if L.Num(At(c, acts).out[i], L.KPrevote, sl) >= 1 {
      var x := L.SomeOfKind(At(c, acts).out[i], L.KPrevote, sl);
      SentByCorrect(c, acts, i, x);
    }
  }

  /** Nobody is ready as long as nobody reads what was sent after two finishes were out. */
  lemma {:induction false} NoneReadyYet(c: N.Cfg, start: seq<Sched>, acts: seq<Sched>, sl: Slot, p: int, q: int, i: int)
    requires Silent(c) && c.n == 4 && start <= acts && FewFinish(c, At(c, start), sl, p, q)
    requires Behind(c, At(c, acts), At(c, start)) && 0 <= i < c.n
    ensures !N.RoundOf(At(c, acts).nodes[i], sl).ready
  {
    var rd := N.RoundOf(At(c, acts).nodes[i], sl);
    DoneAuthors(c, acts, i, sl);
    if |rd.done| > 0 {
      var x := Outside(rd.done, {});
      BehindSaid(c, start, acts, i, Done(x, sl.e, sl.r));
      SentByCorrect(c, start, x, Env(NONE, Done(x, sl.e, sl.r)));
      FewFinishNoDone(c, start, sl, p, q, x);
    }
    Projection(c, acts, i);
    L.ReadyExactly(c, i, Events(c, acts, i), sl);
  }

  lemma SaidDonesParts(c: N.Cfg, acts: seq<Sched>)
    requires c.n >= 1 && SaidDones(c, At(c, acts), S0)
    ensures Said(c, At(c, acts), Done(0, 0, 0)) && Said(c, At(c, acts), ElectShare(0, 0, 0))
    ensures Said(c, At(c, acts), Done(1, 0, 0)) && Said(c, At(c, acts), ElectShare(1, 0, 0))
  {
  }

  /** Two dones make node 2 done. */
  lemma {:induction false} TwoDones(c: N.Cfg, acts: seq<Sched>)
    requires Led(c) && Calm(c, acts) && Heard(c, At(c, acts), 2, Done(0, 0, 0)) && Heard(c, At(c, acts), 2, Done(1, 0, 0))
    ensures Said(c, At(c, acts), Done(2, 0, 0)) && Said(c, At(c, acts), ElectShare(2, 0, 0))
  {
    LedIsSilent(c);
    HeardCounts(c, acts, 2, Done(0, 0, 0));
    HeardCounts(c, acts, 2, Done(1, 0, 0));
    SubsetSize({0, 1}, N.RoundOf(At(c, acts).nodes[2], S0).done);
    DoneIsSaid(c, acts, 2, S0);
  }
}

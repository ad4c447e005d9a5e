/** The run of Disagreement carried on: nodes 0, 1 and 3 decide round 1 while the halt of node 2 is
    on its way, and nodes 0 and 2 end with different blocks for epoch 0. */
module Divergence {
  import opened Messages
  import opened Votes
  import N = Node
  import opened System
  import L = Local
  import opened Runs
  import opened Benign
  import opened Agreement
  import C = Committor
  import Logs = Consistency
  import T = TotalOrder
  import opened Schedules
  import opened Broadcasts
  import opened Trios
  import opened Rounds
  import opened Openings
  import opened Endings
  import opened Disagreement

  // ------------------------------------------------------------- round 1, node 0 first

  const ONE: set<Inst> := LATE + {K(0, 1)}
  const TWO: set<Inst> := ONE + {K(1, 1)}
  const THREE: set<Inst> := TWO + {K(3, 1)}

  /** A calm run after round 0 was voted down. */
  ghost predicate Going(c: N.Cfg, acts: seq<Sched>, ones: set<Inst>, twos: set<Inst>)
    requires c.n == 4
  {
    Calm(c, acts) && AllStarted(c, At(c, acts)) && Counting(acts, ones, twos) && VotedDown(c, At(c, acts))
  }

  lemma {:induction false} GoesOn(c: N.Cfg, acts: seq<Sched>, acts': seq<Sched>, ones: set<Inst>, twos: set<Inst>, ones': set<Inst>, twos': set<Inst>)
    requires Split(c) && Going(c, acts, ones, twos) && acts <= acts' && Calm(c, acts') && Counting(acts', ones', twos')
    ensures Going(c, acts', ones', twos')
  {
    AllStartedLater(c, acts, acts');
    VotedDownLater(c, acts, acts');
  }

  /** Node 0 finishes round 1 and reads its own finish before anybody is ready. */
  lemma {:induction false} FirstFinish(c: N.Cfg, acts: seq<Sched>) returns (acts': seq<Sched>)
    requires Split(c) && Going(c, acts, LATE, LATE)
    ensures Going(c, acts', ONE, ONE) && By(acts, acts', {0, 1, 3}) && Said(c, At(c, acts'), F(0, 1))
    ensures Unprevoted(c, At(c, acts').nodes[0], At(c, acts').out[0], S1)
  {
    hide At, Apply, Decides;
    LateGroup(c, acts, 0, 1, 3, ONE, LATE);
    var mid, a := Broadcast(c, acts, 0, 1, 3, ONE, LATE, 1);
    GoesOn(c, acts, a, LATE, LATE, ONE, ONE);
    LateGroup(c, a, 0, 1, 3, ONE, ONE);
    acts' := Hear(c, a, a, 0, F(0, 1));
    GoesOn(c, a, acts', ONE, ONE, ONE, ONE);
    SaidLater(c, a, acts', F(0, 1));
    ByTrans(acts, a, acts', {0, 1, 3}, 0);
    HeardCounts(c, acts', 0, F(0, 1));
    UnfinishedIsFew(c, acts', ONE, ONE, S1, 1, 3);
    FewFinishNotReady(c, acts', S1, 1, 3, 0);
    NotReadyUnprevoted(c, acts', 0, S1);
  }

  /** Another of the three finishes round 1. */
  lemma {:induction false} AnotherFinish(c: N.Cfg, acts: seq<Sched>, p: int, y: int, z: int, ones: set<Inst>, twos: set<Inst>)
    returns (mid: seq<Sched>, acts': seq<Sched>)
    requires Split(c) && Going(c, acts, ones - {K(p, 1)}, twos) && ones <= THREE && K(p, 1) in ones
    requires {p, y, z} == {0, 1, 3} && Distinct(p, y, z) && Unfinished(c, twos, S1, 2, 3)
    ensures mid <= acts' && Counting(mid, ones, twos) && Behind(c, At(c, acts'), At(c, mid))
    ensures Going(c, acts', ones, twos + {K(p, 1)}) && By(acts, acts', {0, 1, 3}) && Said(c, At(c, acts'), F(p, 1))
  {
    hide Decides, At;
    assert p in {0, 1, 3};
    LateGroup(c, acts, p, y, z, ones, twos);
    var m, a := Broadcast(c, acts, p, y, z, ones, twos, 1);
    mid, acts' := m, a;
    GoesOn(c, acts, acts', ones - {K(p, 1)}, twos, ones, twos + {K(p, 1)});
  }

  /** Nodes 1 and 3 finish it too, and nobody has heard of the latter. */
  lemma {:induction false} OtherFinishes(c: N.Cfg, acts: seq<Sched>) returns (acts': seq<Sched>)
    requires Split(c) && Going(c, acts, ONE, ONE)
    ensures Going(c, acts', THREE, THREE) && By(acts, acts', {0, 1, 3})
    ensures Said(c, At(c, acts'), F(1, 1)) && Said(c, At(c, acts'), F(3, 1)) && FewFinish(c, At(c, acts'), S1, 2, 3)
  {
    hide At, Apply, Going, VotedDown;
    assert TWO - {K(1, 1)} == ONE && THREE - {K(3, 1)} == TWO;
    assert {1, 0, 3} == {0, 1, 3} && {3, 0, 1} == {0, 1, 3};
    var m1, a1 := AnotherFinish(c, acts, 1, 0, 3, TWO, ONE);
    var m3, a3 := AnotherFinish(c, a1, 3, 0, 1, THREE, TWO);
    acts' := a3;
    SaidLater(c, a1, a3, F(1, 1));
    ByJoin(acts, a1, a3, {0, 1, 3});
    FewBehind(c, m3, a3, THREE, TWO, S1, 2, 3);
  }

  // -------------------------------------------------------------------- nobody is ready

  /** While nobody is ready in round 1, nodes 0, 1 and 3 have not halted. */
  lemma {:induction false} NobodyHalts(c: N.Cfg, acts: seq<Sched>, i: int)
    requires Split(c) && Going(c, acts, THREE, THREE) && (i == 0 || i == 1 || i == 3)
    requires forall j :: 0 <= j < c.n ==> !N.RoundOf(At(c, acts).nodes[j], S1).ready
    ensures Haltless(c, At(c, acts), i)
  {
    CalmIsOrderly(c, acts);
    L.NumMember(At(c, acts).out[i], Env(NONE, NoVote(c, i, S0)), L.KPrevote, S0);
    forall x | x in At(c, acts).out[i] ensures !x.msg.Halt? {
      if x.msg.Halt? {
        SentByCorrect(c, acts, i, x);
        HaltSlot(c, acts, THREE, THREE, x.msg);
        if SlotOf(x.msg) == S0 {
          PrevotedNoHalt(c, acts, i, 0, x.msg);
        } else {
          NoneReadyNoHalt(c, acts, x.msg);
        }
      }
    }
  }

  lemma {:induction false} HaltSlot(c: N.Cfg, acts: seq<Sched>, ones: set<Inst>, twos: set<Inst>, h: Msg)
    requires Split(c) && Silent(c) && Orderly(c, acts) && Counting(acts, ones, twos) && ones <= THREE && h.Halt? && Said(c, At(c, acts), h)
    ensures SlotOf(h) == S0 || (SlotOf(h) == S1 && K(0, 1) in ones)
  {
    UnlockedNoHalt(c, acts, ones, twos, h);
  }

  // ----------------------------------------------------------------------- node 0 halts

  /** Nodes 0, 1 and 3 read the three finishes and are done; nobody is ready. */
  lemma {:induction false} RoundDone(c: N.Cfg, acts: seq<Sched>) returns (acts': seq<Sched>)
    requires Split(c) && Going(c, acts, THREE, THREE) && FewFinish(c, At(c, acts), S1, 2, 3)
    requires Said(c, At(c, acts), F(0, 1)) && Said(c, At(c, acts), F(1, 1)) && Said(c, At(c, acts), F(3, 1))
    ensures Going(c, acts', THREE, THREE) && By(acts, acts', {0, 1, 3}) && SaidDones(c, At(c, acts'), S1)
    ensures Haltless(c, At(c, acts'), 0) && Haltless(c, At(c, acts'), 1) && Haltless(c, At(c, acts'), 3)
  {
    hide At, VotedDown, Said, FewFinish, N.OnHalt;
    forall j | 0 <= j < c.n ensures !N.RoundOf(At(c, acts).nodes[j], S1).ready {
      FewFinishNotReady(c, acts, S1, 2, 3, j);
    }
    NobodyHalts(c, acts, 0);
    NobodyHalts(c, acts, 1);
    NobodyHalts(c, acts, 3);
    var ms := [F(0, 1), F(1, 1), F(3, 1)];
    acts' := AllHear(c, acts, ms, THREE, THREE);
    assert ms[0] in ms && ms[1] in ms && ms[2] in ms;
    GoesOn(c, acts, acts', THREE, THREE, THREE, THREE);
    FinishesToDone(c, acts', 0, S1, F(0, 1), F(1, 1), F(3, 1));
    FinishesToDone(c, acts', 1, S1, F(0, 1), F(1, 1), F(3, 1));
    FinishesToDone(c, acts', 3, S1, F(0, 1), F(1, 1), F(3, 1));
    forall j | 0 <= j < c.n ensures !N.RoundOf(At(c, acts').nodes[j], S1).ready {
      NoneReadyYet(c, acts, acts', S1, 2, 3, j);
    }
    NobodyHalts(c, acts', 0);
    NobodyHalts(c, acts', 1);
    NobodyHalts(c, acts', 3);
  }

  /** Two halts of epoch 0: node 2's for round 0 and node 0's for round 1. */
  ghost predicate TwoHalts(c: N.Cfg, acts: seq<Sched>, h: Msg, h': Msg)
    requires c.n == 4
  {
    && Going(c, acts, THREE, THREE)
    && h.Halt? && h.author == 2 && SlotOf(h) == S0 && Said(c, At(c, acts), h)
    && h'.Halt? && h'.author == 0 && SlotOf(h') == S1 && Said(c, At(c, acts), h')
    && B(3) in At(c, acts).nodes[2].store && B(0) in At(c, acts).nodes[0].store
    && Said(c, At(c, acts), P(3, 0)) && Said(c, At(c, acts), P(0, 0))
    && (forall x :: x in At(c, acts).out[2] && x.msg.Halt? ==> SlotOf(x.msg) == S0)
  }

  lemma {:induction false} RoundOne(c: N.Cfg, acts: seq<Sched>) returns (acts': seq<Sched>, h': Msg)
    requires Split(c) && Going(c, acts, LATE, LATE)
    ensures Going(c, acts', THREE, THREE) && By(acts, acts', {0, 1, 3})
    ensures h'.Halt? && h'.author == 0 && SlotOf(h') == S1 && Said(c, At(c, acts'), h')
  {
    var a1 := FirstFinish(c, acts);
    var a2 := OtherFinishes(c, a1);
    SaidLater(c, a1, a2, F(0, 1));
    var a3 := RoundDone(c, a2);
    StaysUnprevoted(c, a1, a3, 0, S1);
    acts', h' := HaltsOnFinish(c, a3, a3, 0, S1, THREE, THREE);
    GoesOn(c, a3, acts', THREE, THREE, THREE, THREE);
    ByJoin(acts, a1, a2, {0, 1, 3});
    ByJoin(acts, a2, a3, {0, 1, 3});
    ByTrans(acts, a3, acts', {0, 1, 3}, 0);
  }

  /** The halts of node 2 are of round 0. */
  lemma {:induction false} SlowSlot(c: N.Cfg, acts: seq<Sched>)
    requires Split(c) && Calm(c, acts) && Counting(acts, LATE, LATE)
    ensures forall x :: x in At(c, acts).out[2] && x.msg.Halt? ==> SlotOf(x.msg) == S0
  {
    CalmIsOrderly(c, acts);
    forall x | x in At(c, acts).out[2] && x.msg.Halt? ensures SlotOf(x.msg) == S0 {
      SentByCorrect(c, acts, 2, x);
      HaltSlot(c, acts, LATE, LATE, x.msg);
    }
  }

  lemma {:induction false} ReachTwoHalts(c: N.Cfg) returns (acts: seq<Sched>, h: Msg, h': Msg)
    requires Split(c)
    ensures TwoHalts(c, acts, h, h')
  {
    hide VotedDown, Apply;
    var a;
    a, h := ReachNoPlusHalt(c);
    SlowSlot(c, a);
    acts, h' := RoundOne(c, a);
    Still(c, a, acts, {0, 1, 3}, 2);
    SaidLater(c, a, acts, h);
    SaidLater(c, a, acts, P(3, 0));
    HasLater(c, a, acts, 0, K(0, 0), B(0));
    InstanceOk(c, acts, 0, K(0, 0));
  }

  // ------------------------------------------------------------------- the halts arrive

  /** The halts of node 0 are of round 1. */
  lemma {:induction false} FastSlot(c: N.Cfg, acts: seq<Sched>)
    requires Split(c) && Going(c, acts, THREE, THREE)
    ensures forall x :: x in At(c, acts).out[0] && x.msg.Halt? ==> SlotOf(x.msg) == S1
  {
    CalmIsOrderly(c, acts);
    L.NumMember(At(c, acts).out[0], Env(NONE, NoVote(c, 0, S0)), L.KPrevote, S0);
    forall x | x in At(c, acts).out[0] && x.msg.Halt? ensures SlotOf(x.msg) == S1 {
      SentByCorrect(c, acts, 0, x);
      HaltSlot(c, acts, THREE, THREE, x.msg);
      if SlotOf(x.msg) == S0 {
        PrevotedNoHalt(c, acts, 0, 0, x.msg);
      }
    }
  }

  /** Nodes 0 and 2 are about to read their own halts. */
  lemma {:induction false} ReachHalts(c: N.Cfg) returns (acts: seq<Sched>)
    requires Split(c)
    ensures Calm(c, acts) && HaltNext(c, At(c, acts), 0, 0, B(0)) && HaltNext(c, At(c, acts), 2, 2, B(3))
  {
    hide At, VotedDown, Said;
    LedIsSilent(c);
    var a, h, h' := ReachTwoHalts(c);
    CalmIsOrderly(c, a);
    FastSlot(c, a);
    HaltsName(c, a, 0, B(0));
    HaltsName(c, a, 2, B(3));
    var a0 := ReachNext(c, a, 0, 0, B(0), h');
    Still(c, a, a0, {0}, 2);
    SaidLater(c, a, a0, h);
    acts := ReachNext(c, a0, 2, 2, B(3), h);
    Still(c, a0, acts, {2}, 0);
  }

  /** Without any fault, and with every halt finding its block, two nodes emit different blocks
      for epoch 0. */
  lemma {:induction false} TotalOrderFails(c: N.Cfg) returns (acts: seq<Sched>)
    requires Split(c)
    ensures Silent(c) && Orderly(c, acts)
    ensures At(c, acts).nodes[0].submitted == [B(0)] && At(c, acts).nodes[2].submitted == [B(3)]
    ensures C.After(At(c, acts).nodes[0].submitted).emitted == [B(0)]
    ensures C.After(At(c, acts).nodes[2].submitted).emitted == [B(3)]
  {
    hide At, Apply, N.RoundOf, N.OnHalt, N.SpbOf, Authors;
    LedIsSilent(c);
    var a := ReachHalts(c);
    CalmIsOrderly(c, a);
    CalmNode(c, a, 0);
    CalmNode(c, a, 2);
    var d2, d0 := Deliver(2, 2, Own(2, 1)), Deliver(0, 0, Own(0, 1));
    ReadHalt(c, At(c, a), 2, 2, B(3));
    Projection(c, a, 2);
    OrderlyAppend(c, a, d2);
    Append(c, a, d2);
    Still(c, a, a + [d2], {2}, 0);
    ReadHalt(c, At(c, a + [d2]), 0, 0, B(0));
    Projection(c, a + [d2], 0);
    OrderlyAppend(c, a + [d2], d0);
    Append(c, a + [d2], d0);
    acts := a + [d2] + [d0];
    Still(c, a + [d2], acts, {0}, 2);
    T.FirstIsEmitted(B(0));
    T.FirstIsEmitted(B(3));
  }

  /** The log of one block with one payload. */
  lemma OneEntry(p: int, batch: Logs.Lookup)
    requires p >= 0 && batch(p) == Some((p, 0))
    ensures Logs.Log([B(p)], batch) == [(p, 0)] && Logs.Dedup([(p, 0)]) == [(p, 0)]
  {
    assert [B(p)][..0] == [] && [p][..0] == [] && [(p, 0)][..0] == [];
    assert Logs.BlockLog([p], batch) == [(p, 0)];
  }

  /** Then the logs that the nodes write do not pass the consistency checker. */
  lemma {:induction false} LogsDiverge(c: N.Cfg) returns (acts: seq<Sched>, batch: Logs.Lookup, logs: seq<seq<Logs.Entry>>)
    requires Split(c)
    ensures Silent(c) && Orderly(c, acts) && T.LogsOf(c, acts, batch, logs) && !Logs.Consistent(logs)
  {
    hide At;
    acts := TotalOrderFails(c);
    batch := Logs.Named();
    logs := seq(c.n, i requires 0 <= i < c.n => Logs.Log(C.After(At(c, acts).nodes[i].submitted).emitted, batch));
    OneEntry(0, batch);
    OneEntry(3, batch);
    assert Logs.Dedup(logs[0])[0] != Logs.Dedup(logs[2])[0];
    assert !Logs.Comparable(Logs.Dedup(logs[0]), Logs.Dedup(logs[2]));
  }

  /** There is such a committee. */
  lemma SplitExists() returns (c: N.Cfg)
    ensures Split(c)
  {
    var three, zero := Coin(0, 0, 3), Coin(0, 0, 0);
    assert N.Rand(three) == 3 && N.Rand(zero) == 0;
    c := N.Cfg(4, sl => if sl == S0 then three else zero, {});
    assert c.coin(S0) == three && c.coin(S1) == zero;
  }
}

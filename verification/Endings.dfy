/** How the runs end: halts are read and epochs end, with or without the payloads, and a proposal
    that was not read before is committed late. */
module Endings {
  import opened Messages
  import N = Node
  import opened System
  import L = Local
  import opened Runs
  import opened Benign
  import opened Agreement
  import T = TotalOrder
  import opened Schedules
  import opened Openings

  lemma {:induction false} OrderlyAppend(c: N.Cfg, acts: seq<Sched>, a: Sched)
    requires c.n >= 1 && Orderly(c, acts)
    requires forall i :: 0 <= i < c.n && EventAt(c, At(c, acts), a, i) != [] ==>
               L.HaltFindsBlock(L.After(c, i, Events(c, acts, i)).nd, EventAt(c, At(c, acts), a, i)[0])
    ensures Orderly(c, acts + [a])
  {
    assert (acts + [a])[..|acts|] == acts;
    forall i | 0 <= i < c.n ensures L.HaltsFindBlocks(c, i, Events(c, acts + [a], i)) {
      var ev := EventAt(c, At(c, acts), a, i);
      assert Events(c, acts + [a], i) == Events(c, acts, i) + ev;
      if ev != [] {
        assert ev == [ev[0]];
        T.Extend(c, i, Events(c, acts, i), ev[0]);
      } else {
        assert Events(c, acts, i) + ev == Events(c, acts, i);
      }
    }
  }

  /** Node i reads the log of node j up to its first halt. */
  lemma {:induction false} ReadToHalt(c: N.Cfg, acts: seq<Sched>, i: int, j: int, h: Msg) returns (acts': seq<Sched>)
    requires c.n >= 1 && Calm(c, acts) && 0 <= i < c.n && At(c, acts).nodes[i].started && h.Halt? && h.author == j && Said(c, At(c, acts), h)
    ensures Calm(c, acts') && By(acts, acts', {i}) && forall a :: a in acts' && a.Run? ==> a in acts
    ensures var s := At(c, acts');
            s.cur[i][j] < |At(c, acts).out[j]| <= |s.out[j]| && s.out[j][s.cur[i][j]].msg.Halt?
    ensures forall j' :: 0 <= j' < c.n && j' != j ==> At(c, acts').cur[i][j'] == At(c, acts).cur[i][j']
  {
    hide At, Apply, Calm;
    var out := At(c, acts).out[j];
    var k := FirstHalt(out, Env(NONE, h));
    NotPast(c, acts, i, j, k);
    if k == 0 {
      acts' := acts;
    } else {
      acts' := ReadTo(c, acts, acts, i, j, k - 1);
      LogLater(c, acts, acts', i, j);
      NotPast(c, acts', i, j, k);
    }
  }

  lemma {:induction false} FirstHalt(out: seq<Envelope>, x: Envelope) returns (k: nat)
    requires x in out && x.msg.Halt?
    ensures k < |out| && out[k].msg.Halt? && forall l :: 0 <= l < k ==> !out[l].msg.Halt?
  {
    k := 0;
    while !out[k].msg.Halt?
      invariant k < |out| && forall l :: 0 <= l < k ==> !out[l].msg.Halt?
      decreases |out| - k
    {
      var j :| 0 <= j < |out| && out[j] == x;
      assert k < j;
      k := k + 1;
    }
  }

  /** In a calm run no halt has been read. */
  lemma {:induction false} NotPast(c: N.Cfg, acts: seq<Sched>, i: int, j: int, k: nat)
    requires c.n >= 1 && Calm(c, acts) && 0 <= i < c.n && 0 <= j < c.n && k < |At(c, acts).out[j]| && At(c, acts).out[j][k].msg.Halt?
    ensures At(c, acts).cur[i][j] <= k
  {
    var s := At(c, acts);
    var x := s.out[j][k];
    SentByCorrect(c, acts, j, x);
    if s.cur[i][j] > k {
      assert s.out[j][..s.cur[i][j]][k] == x;
      assert Heard(c, s, i, x.msg);
    }
  }

  /** A halt of epoch 0 by node j that names b. */
  predicate Names(x: Envelope, j: int, b: Block) {
    x.to == NONE && x.msg.Halt? && x.msg.author == j && x.msg.epoch == 0 && x.msg.hash == HashOf(b)
  }

  /** The next message of node j for node i is a halt that names b, which node i has. */
  ghost predicate HaltNext(c: N.Cfg, s: State, i: int, j: int, b: Block)
    requires Wf(c, s) && 0 <= i < c.n && 0 <= j < c.n
  {
    s.nodes[i].started && b in s.nodes[i].store && s.cur[i][j] < |s.out[j]| && Names(s.out[j][s.cur[i][j]], j, b)
  }

  /** A halt with its block there submits the block alone. */
  lemma {:induction false} ReadHalt(c: N.Cfg, s: State, i: int, j: int, b: Block)
    requires Silent(c) && Wf(c, s) && 0 <= i < c.n && 0 <= j < c.n && Fresh(s.nodes[i]) && HaltNext(c, s, i, j, b)
    ensures Apply(c, s, Deliver(i, j, Own(i, 1))).nodes[i].submitted == [b]
    ensures EventAt(c, s, Deliver(i, j, Own(i, 1)), i) == [N.Recv(s.out[j][s.cur[i][j]].msg, Own(i, 1))]
  {
    StepHere(c, s, Deliver(i, j, Own(i, 1)), i);
  }

  /** Node i opens an epoch but lacks the payloads of the block before. */
  function Lacking(i: int): N.Oracle {
    N.Oracle(Load(i, 1), false, false, true)
  }

  /** A halt without the payloads ends the epoch, submits nothing and takes the leader over. */
  lemma {:induction false} ReadHaltEarly(c: N.Cfg, s: State, i: int, j: int, b: Block)
    requires Silent(c) && Wf(c, s) && 0 <= i < c.n && 0 <= j < c.n && Fresh(s.nodes[i]) && HaltNext(c, s, i, j, b)
    ensures var h, nd := s.out[j][s.cur[i][j]].msg, Apply(c, s, Deliver(i, j, Lacking(i))).nodes[i];
            && nd.started && nd.submitted == [] && 0 in nd.halted
            && N.RoundOf(nd, S0).leader == if SlotOf(h) == S0 then h.leader else N.RoundOf(s.nodes[i], S0).leader
    ensures EventAt(c, s, Deliver(i, j, Lacking(i)), i) == [N.Recv(s.out[j][s.cur[i][j]].msg, Lacking(i))]
  {
    StepHere(c, s, Deliver(i, j, Lacking(i)), i);
  }

  /** The proposal of the recorded leader, read after that, is committed late. */
  lemma {:induction false} ReadLate(c: N.Cfg, s: State, i: int, j: int)
    requires Silent(c) && Wf(c, s) && 0 <= i < c.n && 0 <= j < c.n && s.nodes[i].started && s.nodes[i].submitted == [] && 0 in s.nodes[i].halted
    requires N.RoundOf(s.nodes[i], S0).leader == j && s.cur[i][j] == 0 && |s.out[j]| > 0 && s.out[j][0] == Env(NONE, P(j, 0))
    ensures Apply(c, s, Deliver(i, j, FINE)).nodes[i].submitted == [B(j)]
    ensures EventAt(c, s, Deliver(i, j, FINE), i) == [N.Recv(P(j, 0), FINE)]
  {
    StepHere(c, s, Deliver(i, j, FINE), i);
  }

  lemma {:induction false} HaltedBlock(c: N.Cfg, acts: seq<Sched>, h: Msg, b: Block)
    requires Silent(c) && Orderly(c, acts) && h.Halt? && Said(c, At(c, acts), h) && h.epoch == b.epoch == 0
    requires Said(c, At(c, acts), Proposal(b.proposer, b, 0, 0, ONE_PHASE)) && b.proposer == N.Elected(c, SlotOf(h))
    ensures h.hash == HashOf(b)
  {
    T.DecidedExactly(c, acts, b, h);
  }

  /** Halts of rounds that elected the proposer of b name b. */
  lemma {:induction false} HaltsName(c: N.Cfg, acts: seq<Sched>, j: int, b: Block)
    requires Silent(c) && Orderly(c, acts) && 0 <= j < c.n && b.epoch == 0 && Said(c, At(c, acts), Proposal(b.proposer, b, 0, 0, ONE_PHASE))
    requires forall x :: x in At(c, acts).out[j] && x.msg.Halt? ==> x.msg.epoch == 0 && N.Elected(c, SlotOf(x.msg)) == b.proposer
    ensures forall x :: x in At(c, acts).out[j] && x.msg.Halt? ==> Names(x, j, b)
  {
    forall x | x in At(c, acts).out[j] && x.msg.Halt? ensures Names(x, j, b) {
      SentByCorrect(c, acts, j, x);
      HaltedBlock(c, acts, x.msg, b);
    }
  }

  /** Node i reads the log of node j, whose halts name b, up to the first of them. */
  lemma {:induction false} ReachNext(c: N.Cfg, acts: seq<Sched>, i: int, j: int, b: Block, h: Msg) returns (acts': seq<Sched>)
    requires Silent(c) && Calm(c, acts) && 0 <= i < c.n && 0 <= j < c.n && At(c, acts).nodes[i].started && b in At(c, acts).nodes[i].store
    requires h.Halt? && h.author == j && Said(c, At(c, acts), h)
    requires forall x :: x in At(c, acts).out[j] && x.msg.Halt? ==> Names(x, j, b)
    ensures Calm(c, acts') && By(acts, acts', {i}) && (forall a :: a in acts' && a.Run? ==> a in acts)
    ensures var s := At(c, acts'); HaltNext(c, s, i, j, b) && s.out[j][s.cur[i][j]] in At(c, acts).out[j]
    ensures forall j' :: 0 <= j' < c.n && j' != j ==> At(c, acts').cur[i][j'] == At(c, acts).cur[i][j']
  {
    hide At, Calm, Names;
    acts' := ReadToHalt(c, acts, i, j, h);
    LogLater(c, acts, acts', i, j);
    LifeLater(c, acts, acts', i);
    var s := At(c, acts');
    assert s.out[j][s.cur[i][j]] == At(c, acts).out[j][s.cur[i][j]];
  }
}

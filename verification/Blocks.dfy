/** With silent faults only: every node opens each round at most once, so it creates one
    block per epoch, and that is the block every instance of its holds anywhere. */
module Blocks {
  import opened Messages
  import N = Node
  import opened System
  import L = Local
  import opened Runs
  import opened Origins
  import opened Proposals
  import opened Benign

  // -------------------------------------------------------------- rounds start at 0

  ghost predicate RoundSource(nd: N.State, ev: N.Event, r: int) {
    || r == 0
    || (ev.Recv? && N.IsRoundMsg(ev.m) && (r == ev.m.round || r == ev.m.round + 1))
    || (IsTask(nd, ev) && r == ev.m.round)
  }

  lemma {:induction false} RunRound(c: N.Cfg, me: int, nd: N.State, m: Msg, x: Envelope)
    requires x in N.RunTask(c, me, nd, m).sends
    ensures m in nd.tasks && (m.Proposal? || m.SpbVote?) && x.msg.round == m.round
  {
  }

  lemma {:induction false} FrameRound(c: N.Cfg, me: int, nd: N.State, rd: N.Round, m: Msg, x: Envelope)
    requires c.n >= 1 && N.IsRoundMsg(m) && x in N.OnRound(c, me, nd, rd, m).sends
    ensures x.msg.round == m.round || x.msg.round == m.round + 1
  {
    L.Frame(c, me, nd, rd, m);
  }

  lemma {:induction false} HaltRound(me: int, nd: N.State, h: Msg, o: N.Oracle, x: Envelope)
    requires h.Halt? && x in N.OnHalt(me, nd, h, o).sends
    ensures x.msg.round == 0
  {
  }

  lemma {:induction false} SendRound(c: N.Cfg, me: int, nd: N.State, ev: N.Event, x: Envelope)
    requires c.n >= 1 && x in N.Step(c, me, nd, ev).sends
    ensures RoundSource(nd, ev, x.msg.round)
  {
    if ev.Run? {
      RunRound(c, me, nd, ev.m, x);
    } else if ev.Recv? && L.Touches(nd, ev, SlotOf(ev.m)) {
      L.Touched(c, me, nd, ev, SlotOf(ev.m));
      FrameRound(c, me, nd, N.RoundOf(nd, SlotOf(ev.m)), ev.m, x);
    } else if ev.Recv? && ev.m.Halt? && nd.started {
      HaltRound(me, nd, ev.m, ev.o, x);
    }
  }

  /** No message carries a negative round. */
  lemma {:induction false} RoundsNonNegative(c: N.Cfg, acts: seq<Sched>, i: int, x: Envelope)
    requires Silent(c) && 0 <= i < c.n && x in At(c, acts).out[i]
    ensures x.msg.round >= 0
    decreases |acts|, 0
  {
    if acts != [] {
      var init := acts[..|acts| - 1];
      var s, a := At(c, init), acts[|acts| - 1];
      var ev := EventAt(c, s, a, i);
      if x in s.out[i] {
        RoundsNonNegative(c, init, i, x);
      } else if ev == [] {
        StepElsewhere(c, s, a, i);
      } else {
        StepHere(c, s, a, i);
        SendRound(c, i, s.nodes[i], ev[0], x);
        if ev[0].Recv? && N.IsRoundMsg(ev[0].m) {
          HeardWasSaid(c, init, a, i);
          RoundsNonNegative(c, init, ev[0].m.author, Env(NONE, ev[0].m));
        } else if IsTask(s.nodes[i], ev[0]) {
          TaskRound(c, init, i, ev[0].m);
        }
      }
    }
  }

  lemma {:induction false} TaskRound(c: N.Cfg, acts: seq<Sched>, i: int, m: Msg)
    requires Silent(c) && 0 <= i < c.n && m in At(c, acts).nodes[i].tasks
    ensures m.round >= 0
    decreases |acts|, 1
  {
    TasksOk(c, acts, i, m);
    var s := At(c, acts);
    if m.round != 0 {
      var x :| x in s.out[m.author] && x.msg == m;
      RoundsNonNegative(c, acts, m.author, x);
    }
  }

  // ------------------------------------------------------------- one proposal, one block

  /** Every node proposes at most once in each epoch and round. */
  lemma {:induction false} OneProposalPerRound(c: N.Cfg, acts: seq<Sched>, i: int, sl: Slot)
    requires Silent(c) && 0 <= i < c.n
    ensures L.Num(At(c, acts).out[i], L.KProposal, sl) <= 1
  {
    Projection(c, acts, i);
    ProposalsBounded(c, i, Events(c, acts, i), sl);
    if sl.r == 0 {
      var fin := N.RoundOf(At(c, acts).nodes[i], Before(sl)).fin;
      if fin != [] {
        var v := fin[0];
        FinWasSaid(c, acts, i, Before(sl), v);
        RoundsNonNegative(c, acts, v.author, Env(NONE, v));
      }
    }
  }

  /** A node creates at most one block per epoch. */
  lemma {:induction false} CreatedOnce(c: N.Cfg, acts: seq<Sched>, b: Block, b': Block)
    requires Silent(c) && Created(c, At(c, acts), b) && Created(c, At(c, acts), b')
    requires b.proposer == b'.proposer && b.epoch == b'.epoch
    ensures b == b'
  {
    var sl := Slot(b.epoch, 0);
    OneProposalPerRound(c, acts, b.proposer, sl);
    OnlyOne(At(c, acts).out[b.proposer], Env(NONE, N.Replayed(b)), Env(NONE, N.Replayed(b')), L.KProposal, sl);
  }

  /** One block per proposer per epoch: wherever instances of proposer p in epoch e have a
      block hash, at any nodes and in any rounds, it is the hash of the one block p created
      for e. */
  lemma {:induction false} OneBlockPerEpoch(c: N.Cfg, acts: seq<Sched>, i: int, j: int, k: Inst, k': Inst)
    requires Silent(c) && 0 <= i < c.n && 0 <= j < c.n && k.p == k'.p && k.e == k'.e
    requires N.SpbOf(At(c, acts).nodes[i], k).hash.Some? && N.SpbOf(At(c, acts).nodes[j], k').hash.Some?
    ensures var h := N.SpbOf(At(c, acts).nodes[i], k).hash.value;
            && h == N.SpbOf(At(c, acts).nodes[j], k').hash.value
            && h.HashOf? && h.block.proposer == k.p && h.block.epoch == k.e && Created(c, At(c, acts), h.block)
  {
    InstanceOk(c, acts, i, k);
    InstanceOk(c, acts, j, k');
    CreatedOnce(c, acts, N.SpbOf(At(c, acts).nodes[i], k).hash.value.block,
                N.SpbOf(At(c, acts).nodes[j], k').hash.value.block);
  }
}

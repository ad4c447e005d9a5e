/** Committees whose faulty nodes are silent: every block in circulation was created by its
    proposer for its epoch, and every instance holds the block of its own proposer. */
module Benign {
  import opened Messages
  import opened Committee
  import opened Votes
  import N = Node
  import opened System
  import L = Local
  import opened Sent
  import opened Runs
  import opened Origins
  import opened Ballots

  /** 3f+1 nodes, f at least 1, none of which sends what the code would not. A silent node
      is one the schedule never starts. */
  ghost predicate Silent(c: N.Cfg) {
    c.n >= 4 && c.n == 3 * MaxFaults(c.n) + 1 && c.byz == {}
  }

  /** m has been broadcast by its author. */
  ghost predicate Said(c: N.Cfg, s: State, m: Msg)
    requires Wf(c, s)
  {
    0 <= m.author < c.n && Env(NONE, m) in s.out[m.author]
  }

  /** The block was proposed by its own proposer to open its epoch. */
  ghost predicate Created(c: N.Cfg, s: State, b: Block)
    requires Wf(c, s)
  {
    Said(c, s, N.Replayed(b))
  }

  lemma {:induction false} SaidStays(c: N.Cfg, s: State, a: Sched, m: Msg)
    requires c.n >= 1 && Wf(c, s) && Said(c, s, m)
    ensures Said(c, Apply(c, s, a), m)
  {
    LogsGrow(c, s, a, m.author, m.author);
  }

  /** A heard message that is not a vote was broadcast before the step in which it is read. */
  lemma {:induction false} HeardWasSaid(c: N.Cfg, acts: seq<Sched>, a: Sched, i: int)
    requires Silent(c)
    requires var ev := EventAt(c, At(c, acts), a, i); ev != [] && ev[0].Recv?
    ensures var m := EventAt(c, At(c, acts), a, i)[0].m;
            && 0 <= m.author < c.n
            && (m.SpbVote? ==> Env(m.proposer, m) in At(c, acts).out[m.author] && (m.proposer == i || m.proposer == NONE))
            && (!m.SpbVote? ==> Said(c, At(c, acts), m))
  {
    var s := At(c, acts);
    ReceivedIsHeard(c, s, a, i);
    var x := s.out[a.j][s.cur[i][a.j]];
    SentByCorrect(c, acts, a.j, x);
  }

  // ------------------------------------------------------------ what is known of tasks

  /** A task of node i: a one-phase proposal of a created block of its epoch, broadcast by
      its author unless it is for round 0; otherwise something heard; a vote is for i. */
  ghost predicate TaskOk(c: N.Cfg, s: State, i: int, m: Msg)
    requires Wf(c, s) && 0 <= i < c.n
  {
    if m.Proposal? && m.phase == ONE_PHASE then
      Created(c, s, m.b) && m.b.epoch == m.epoch && (m.round != 0 ==> Said(c, s, m))
    else Heard(c, s, i, m) && (m.SpbVote? ==> m.proposer == i)
  }

  lemma {:induction false} TaskOkStays(c: N.Cfg, s: State, a: Sched, i: int, m: Msg)
    requires c.n >= 1 && Wf(c, s) && 0 <= i < c.n && TaskOk(c, s, i, m)
    ensures TaskOk(c, Apply(c, s, a), i, m)
  {
    if m.Proposal? && m.phase == ONE_PHASE {
      SaidStays(c, s, a, N.Replayed(m.b));
      if m.round != 0 {
        SaidStays(c, s, a, m);
      }
    } else {
      HeardStays(c, s, a, i, m);
    }
  }

  /** The block hash of an instance is that of a block its proposer created for its epoch,
      and in a round other than 0 the proposer has proposed it in that round. */
  ghost predicate HashOk(c: N.Cfg, s: State, k: Inst, h: Digest)
    requires Wf(c, s)
  {
    && h.HashOf?
    && Created(c, s, h.block) && h.block.proposer == k.p && h.block.epoch == k.e
    && (k.r != 0 ==> Said(c, s, Proposal(k.p, h.block, k.e, k.r, ONE_PHASE)))
  }

  lemma {:induction false} HashOkStays(c: N.Cfg, s: State, a: Sched, k: Inst, h: Digest)
    requires c.n >= 1 && Wf(c, s) && HashOk(c, s, k, h)
    ensures HashOk(c, Apply(c, s, a), k, h)
  {
    SaidStays(c, s, a, N.Replayed(h.block));
    if k.r != 0 {
      SaidStays(c, s, a, Proposal(k.p, h.block, k.e, k.r, ONE_PHASE));
    }
  }

  // -------------------------------------------------------------- the joint induction

  lemma {:induction false} StoreOk(c: N.Cfg, acts: seq<Sched>, i: int, b: Block)
    requires Silent(c) && 0 <= i < c.n && b in At(c, acts).nodes[i].store
    ensures Created(c, At(c, acts), b)
    decreases |acts|, 0
  {
    if acts != [] {
      var init := acts[..|acts| - 1];
      var s, a := At(c, init), acts[|acts| - 1];
      var ev := EventAt(c, s, a, i);
      if b in s.nodes[i].store {
        StoreOk(c, init, i, b);
      } else if ev == [] {
        StepElsewhere(c, s, a, i);
      } else {
        StepHere(c, s, a, i);
        StoreStep(c, i, s.nodes[i], ev[0], b);
        HeardWasSaid(c, init, a, i);
        ProposalOk(c, init, ev[0].m);
      }
      SaidStays(c, s, a, N.Replayed(b));
    }
  }

  lemma {:induction false} InstanceOk(c: N.Cfg, acts: seq<Sched>, i: int, k: Inst)
    requires Silent(c) && 0 <= i < c.n && N.SpbOf(At(c, acts).nodes[i], k).hash.Some?
    ensures HashOk(c, At(c, acts), k, N.SpbOf(At(c, acts).nodes[i], k).hash.value)
    decreases |acts|, 0
  {
    if acts != [] {
      var init := acts[..|acts| - 1];
      var s, a := At(c, init), acts[|acts| - 1];
      var ev := EventAt(c, s, a, i);
      var h := N.SpbOf(At(c, acts).nodes[i], k).hash.value;
      if ev == [] {
        StepElsewhere(c, s, a, i);
        InstanceOk(c, init, i, k);
      } else {
        StepHere(c, s, a, i);
        L.SpbKeeps(c, i, s.nodes[i], ev[0], k);
        if N.SpbOf(s.nodes[i], k).hash.Some? {
          InstanceOk(c, init, i, k);
        } else {
          HashFrom(c, i, s.nodes[i], ev[0], k);
          TasksOk(c, init, i, ev[0].m);
        }
      }
      HashOkStays(c, s, a, k, h);
    }
  }

  lemma {:induction false} BuffersOk(c: N.Cfg, acts: seq<Sched>, i: int, k: Inst, m: Msg)
    requires Silent(c) && 0 <= i < c.n
    requires var s := N.SpbOf(At(c, acts).nodes[i], k); m in s.bufP || m in s.bufV || m in s.votes
    ensures (m.Proposal? || m.SpbVote?) && InstOf(m) == k && TaskOk(c, At(c, acts), i, m)
    ensures m.Proposal? ==> m.phase == TWO_PHASE
    ensures var s := N.SpbOf(At(c, acts).nodes[i], k); m in s.bufV || m in s.votes ==> m.SpbVote?
    decreases |acts|, 0
  {
    if acts != [] {
      var init := acts[..|acts| - 1];
      var s, a := At(c, init), acts[|acts| - 1];
      var ev := EventAt(c, s, a, i);
      var t := N.SpbOf(s.nodes[i], k);
      if ev == [] {
        StepElsewhere(c, s, a, i);
      } else {
        StepHere(c, s, a, i);
        BufferFrom(c, i, s.nodes[i], ev[0], k, m);
      }
      if m in t.bufP || m in t.bufV || m in t.votes {
        BuffersOk(c, init, i, k, m);
      } else {
        TasksOk(c, init, i, m);
      }
      TaskOkStays(c, s, a, i, m);
    }
  }

  lemma {:induction false} ReceivedOk(c: N.Cfg, init: seq<Sched>, a: Sched, i: int)
    requires Silent(c) && 0 <= i < c.n
    requires var ev := EventAt(c, At(c, init), a, i);
             ev != [] && ev[0].Recv? && (ev[0].m.Proposal? || ev[0].m.SpbVote?)
    ensures TaskOk(c, Apply(c, At(c, init), a), i, EventAt(c, At(c, init), a, i)[0].m)
    decreases |init|, 3
  {
    var s := At(c, init);
    var m := EventAt(c, s, a, i)[0].m;
    HeardWasSaid(c, init, a, i);
    ReceivedIsHeard(c, s, a, i);
    if m.SpbVote? {
      VoteIsForMember(c, init, m);
    } else if m.phase == ONE_PHASE {
      ProposalOk(c, init, m);
      SaidStays(c, s, a, N.Replayed(m.b));
      SaidStays(c, s, a, m);
    }
  }

  /** Votes are sent to committee members. */
  lemma {:induction false} VoteIsForMember(c: N.Cfg, acts: seq<Sched>, m: Msg)
    requires Silent(c) && m.SpbVote? && 0 <= m.author < c.n && Env(m.proposer, m) in At(c, acts).out[m.author]
    ensures 0 <= m.proposer < c.n
    decreases |acts|, 1
  {
    SentByCorrect(c, acts, m.author, Env(m.proposer, m));
    var k := InstOf(m);
    Projection(c, acts, m.author);
    L.LockHasHash(c, m.author, Events(c, acts, m.author), k);
    InstanceOk(c, acts, m.author, k);
  }

  lemma {:induction false} TasksOk(c: N.Cfg, acts: seq<Sched>, i: int, m: Msg)
    requires Silent(c) && 0 <= i < c.n && m in At(c, acts).nodes[i].tasks
    ensures TaskOk(c, At(c, acts), i, m)
    decreases |acts|, 0
  {
    if acts != [] {
      var init := acts[..|acts| - 1];
      var s, a := At(c, init), acts[|acts| - 1];
      var ev := EventAt(c, s, a, i);
      if m in s.nodes[i].tasks {
        TasksOk(c, init, i, m);
        TaskOkStays(c, s, a, i, m);
      } else if ev == [] {
        StepElsewhere(c, s, a, i);
      } else {
        StepHere(c, s, a, i);
        TaskFrom(c, i, s.nodes[i], ev[0], m);
        if ev[0].Recv? {
          ReceivedOk(c, init, a, i);
        } else if ev[0].Loop? {
          StoreOk(c, init, i, m.b);
          SaidStays(c, s, a, N.Replayed(m.b));
        } else {
          BuffersOk(c, init, i, InstOf(ev[0].m), m);
          TaskOkStays(c, s, a, i, m);
        }
      }
    }
  }

  // ------------------------------------------------------------- votes and proposals

  /** A prevote is a no with the zero digest, or carries the leader's block of the epoch. */
  ghost predicate BallotOk(c: N.Cfg, s: State, m: Msg, l: int)
    requires Wf(c, s) && (m.Prevote? || m.FinVote?)
  {
    || (m.flag == VOTE_NO && m.hash == Zero)
    || (m.flag == VOTE_YES && HashOk(c, s, Inst(m.epoch, m.round, l), m.hash))
  }

  lemma {:induction false} PrevoteOk(c: N.Cfg, acts: seq<Sched>, m: Msg)
    requires Silent(c) && m.Prevote? && Said(c, At(c, acts), m)
    ensures BallotOk(c, At(c, acts), m, m.leader)
    decreases |acts|, 1
  {
    SentByCorrect(c, acts, m.author, Env(NONE, m));
    if m.flag == VOTE_YES {
      InstanceOk(c, acts, m.author, Inst(m.epoch, m.round, m.leader));
    }
  }

  /** A message a node holds was broadcast. */
  lemma {:induction false} HeldWasSaid(c: N.Cfg, acts: seq<Sched>, i: int, q: Msg)
    requires Silent(c) && 0 <= i < c.n && N.IsRoundMsg(q)
    requires Holds(N.RoundOf(At(c, acts).nodes[i], SlotOf(q)), q)
    ensures Said(c, At(c, acts), q)
  {
    HeldIsHeard(c, acts, i, q);
    var s := At(c, acts);
    var x :| x in s.out[q.author][..s.cur[i][q.author]] && x.msg == q;
    SentByCorrect(c, acts, q.author, x);
  }

  /** A final vote repeats a prevote of its slot. */
  lemma {:induction false} FinVoteSource(c: N.Cfg, acts: seq<Sched>, m: Msg) returns (pv: Msg)
    requires Silent(c) && m.FinVote? && Said(c, At(c, acts), m)
    ensures pv.Prevote? && Said(c, At(c, acts), pv) && SlotOf(pv) == SlotOf(m) && Repeats(m, pv)
  {
    var i := m.author;
    SentByCorrect(c, acts, i, Env(NONE, m));
    var rd := N.RoundOf(At(c, acts).nodes[i], SlotOf(m));
    pv :| pv in rd.pre && Repeats(m, pv);
    Projection(c, acts, i);
    OneVoteEach(c, i, Events(c, acts, i), SlotOf(m));
    HeldWasSaid(c, acts, i, pv);
  }

  /** The votes a node has accepted in a slot were broadcast. */
  lemma {:induction false} FinWasSaid(c: N.Cfg, acts: seq<Sched>, i: int, sl: Slot, v: Msg)
    requires Silent(c) && 0 <= i < c.n && v in N.RoundOf(At(c, acts).nodes[i], sl).fin
    ensures v.FinVote? && SlotOf(v) == sl && Said(c, At(c, acts), v)
  {
    Projection(c, acts, i);
    OneVoteEach(c, i, Events(c, acts, i), sl);
    HeldWasSaid(c, acts, i, v);
  }

  lemma {:induction false} ProposalOk(c: N.Cfg, acts: seq<Sched>, m: Msg)
    requires Silent(c) && m.Proposal? && m.phase == ONE_PHASE && Said(c, At(c, acts), m)
    ensures Created(c, At(c, acts), m.b) && m.b.epoch == m.epoch
    decreases |acts|, 2
  {
    var i := m.author;
    var s := At(c, acts);
    SentByCorrect(c, acts, i, Env(NONE, m));
    var rd := N.RoundOf(s.nodes[i], Ground(m));
    if m.round == 0 && m.b.proposer == i && m.b.epoch == m.epoch {
      assert N.Replayed(m.b) == m;
    } else {
      StoreOk(c, acts, i, m.b);
      if Outcome(rd.fin, High(c.n)) == ActionNo {
        InstanceOk(c, acts, i, Inst(m.epoch, m.round - 1, i));
      } else {
        var v := rd.fin[High(c.n) - 1];
        FinWasSaid(c, acts, i, Ground(m), v);
        var pv := FinVoteSource(c, acts, v);
        PrevoteOk(c, acts, pv);
      }
    }
  }
}

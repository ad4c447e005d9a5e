/** Where the blocks, tasks and buffered messages of a node come from, one event at a time. */
module Origins {
  import opened Messages
  import opened Committee
  import Spb
  import opened Node
  import opened Local

  /** The event writes block b: it comes in a one-phase proposal of an epoch that is not over,
      and the write succeeds. */
  predicate Writes(nd: State, ev: Event, b: Block) {
    && ev.Recv? && nd.started && ev.m.Proposal? && ev.m.phase == ONE_PHASE
    && ev.m.b == b && ev.m.epoch >= nd.epoch && ev.o.writeOk
  }

  lemma {:induction false} ProposalWrites(nd: State, p: Msg, o: Oracle, b: Block)
    requires p.Proposal? && nd.started
    ensures b in OnProposal(nd, p, o).store <==> b in nd.store || Writes(nd, Recv(p, o), b)
  {
  }

  lemma {:induction false} StoreStep(c: Cfg, me: int, nd: State, ev: Event, b: Block)
    requires c.n >= 1
    ensures b in Step(c, me, nd, ev).nd.store <==> b in nd.store || Writes(nd, ev, b)
  {
    hide RunTask, OnHalt, OnProposal;
    if ev.Run? {
      TaskSends(c, me, nd, ev.m);
    } else if ev.Recv? && nd.started {
      if IsRoundMsg(ev.m) {
        RoundLeaves(c, me, nd, ev.m, ev.o);
      } else if ev.m.Halt? {
        HaltLeavesRest(me, nd, ev.m, ev.o);
      } else if ev.m.Proposal? {
        ProposalWrites(nd, ev.m, ev.o, b);
      }
    }
  }

  /** Neither a message about a slot nor a halt changes the store or an instance, or starts a task. */
  lemma {:induction false} RoundLeaves(c: Cfg, me: int, nd: State, m: Msg, o: Oracle)
    requires c.n >= 1 && IsRoundMsg(m)
    ensures var nd' := OnMessage(c, me, nd, m, o).nd; nd'.store == nd.store && nd'.tasks == nd.tasks && nd'.spb == nd.spb
  {
    if m.epoch >= nd.epoch {
      Touched(c, me, nd.(started := true), Recv(m, o), SlotOf(m));
    }
  }

  lemma {:induction false} HaltLeavesRest(me: int, nd: State, h: Msg, o: Oracle)
    requires h.Halt?
    ensures var nd' := OnHalt(me, nd, h, o).nd; nd'.store == nd.store && nd'.tasks == nd.tasks && nd'.spb == nd.spb
  {
  }

  predicate IsTask(nd: State, ev: Event) {
    ev.Run? && ev.m in nd.tasks && (ev.m.Proposal? || ev.m.SpbVote?)
  }

  /** A new task was received, replayed from the store, or released from a buffer. */
  ghost predicate TaskSource(nd: State, ev: Event, m: Msg) {
    || (ev.Recv? && nd.started && ev.m == m && (m.Proposal? || m.SpbVote?))
    || (ev.Loop? && m.Proposal? && m == Replayed(m.b) && m.b in nd.store)
    || (IsTask(nd, ev) && var s := SpbOf(nd, InstOf(ev.m)); m in s.bufP || m in s.bufV)
  }

  lemma {:induction false} RunSpawns(c: Cfg, me: int, nd: State, m: Msg, q: Msg)
    requires q in RunTask(c, me, nd, m).nd.tasks && q !in nd.tasks
    ensures m in nd.tasks && (m.Proposal? || m.SpbVote?)
    ensures var s := SpbOf(nd, InstOf(m)); q in s.bufP || q in s.bufV
  {
    var k := InstOf(m);
    var r := Spb.OnMessage(me, k, SpbOf(nd, k), m, High(c.n));
    assert q in multiset(r.spawn);
    assert q in r.spawn;
  }

  lemma {:induction false} TaskFrom(c: Cfg, me: int, nd: State, ev: Event, m: Msg)
    requires c.n >= 1 && m in Step(c, me, nd, ev).nd.tasks && m !in nd.tasks
    ensures TaskSource(nd, ev, m)
  {
    if ev.Run? {
      RunSpawns(c, me, nd, ev.m, m);
    } else if ev.Recv? && nd.started {
      if IsRoundMsg(ev.m) {
        RoundLeaves(c, me, nd, ev.m, ev.o);
      } else if ev.m.Halt? {
        HaltLeavesRest(me, nd, ev.m, ev.o);
      }
    }
  }

  lemma {:induction false} Buffered(me: int, k: Inst, s: Spb.State, x: Msg, th: nat, m: Msg)
    requires (x.Proposal? || x.SpbVote?) && k == InstOf(x)
    ensures var s' := Spb.OnMessage(me, k, s, x, th).st;
            && (m in s'.bufP && m !in s.bufP ==> m == x && m.Proposal? && m.phase == TWO_PHASE)
            && (m in s'.bufV && m !in s.bufV ==> m == x && m.SpbVote?)
            && (m in s'.votes && m !in s.votes ==> m == x && m.SpbVote?)
  {
  }

  /** An instance buffers and counts only what its tasks bring. */
  lemma {:induction false} BufferFrom(c: Cfg, me: int, nd: State, ev: Event, k: Inst, m: Msg)
    requires c.n >= 1
    ensures var s, s' := SpbOf(nd, k), SpbOf(Step(c, me, nd, ev).nd, k);
            var here := IsTask(nd, ev) && ev.m == m && InstOf(m) == k;
            && (m in s'.bufP && m !in s.bufP ==> here && m.Proposal? && m.phase == TWO_PHASE)
            && (m in s'.bufV && m !in s.bufV ==> here && m.SpbVote?)
            && (m in s'.votes && m !in s.votes ==> here && m.SpbVote?)
  {
    SpbStep(c, me, nd, ev, k);
    if IsTask(nd, ev) && InstOf(ev.m) == k {
      Buffered(me, k, SpbOf(nd, k), ev.m, High(c.n), m);
    }
  }

  /** A block hash is set by a one-phase proposal of the instance's own proposer. */
  lemma {:induction false} HashFrom(c: Cfg, me: int, nd: State, ev: Event, k: Inst)
    requires c.n >= 1
    requires SpbOf(nd, k).hash.None? && SpbOf(Step(c, me, nd, ev).nd, k).hash.Some?
    ensures IsTask(nd, ev) && ev.m.Proposal? && ev.m.phase == ONE_PHASE && InstOf(ev.m) == k
    ensures ev.m.b.proposer == k.p && SpbOf(Step(c, me, nd, ev).nd, k).hash == Some(HashOf(ev.m.b))
  {
    SpbStep(c, me, nd, ev, k);
  }
}

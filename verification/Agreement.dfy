/** What a round decides, with silent faults and halts that find their blocks: all halts of
    a round carry the leader's block, and a settled round binds the proposals that follow it. */
module Agreement {
  import opened Messages
  import opened Committee
  import opened Votes
  import N = Node
  import opened System
  import L = Local
  import opened Sent
  import opened Runs
  import Spb
  import opened Byzantine
  import opened Benign
  import opened Blocks
  import opened Leaders

  /** Every halt that a node acts on names a block the node has stored. */
  ghost predicate Orderly(c: N.Cfg, acts: seq<Sched>)
    requires c.n >= 1
  {
    forall i :: 0 <= i < c.n ==> L.HaltsFindBlocks(c, i, Events(c, acts, i))
  }

  /** h is the digest of the block the elected leader of a slot created for its epoch. */
  ghost predicate LeadersBlock(c: N.Cfg, s: State, sl: Slot, h: Digest)
    requires c.n >= 1 && Wf(c, s)
  {
    h.HashOf? && Created(c, s, h.block) && h.block.proposer == N.Elected(c, sl) && h.block.epoch == sl.e
  }

  lemma {:induction false} SaidLeader(c: N.Cfg, acts: seq<Sched>, m: Msg)
    requires Silent(c) && Orderly(c, acts) && Said(c, At(c, acts), m) && (m.Prevote? || m.Halt?)
    ensures LeaderFact(c, N.RoundOf(At(c, acts).nodes[m.author], SlotOf(m)), m)
  {
    Projection(c, acts, m.author);
    SentLeader(c, m.author, Events(c, acts, m.author), Env(NONE, m));
  }

  /** A yes vote, prevote or final, is for the leader's block; in a round other than 0 the
      leader has proposed that block in that round. */
  lemma {:induction false} YesIsForLeader(c: N.Cfg, acts: seq<Sched>, m: Msg)
    requires Silent(c) && Orderly(c, acts) && Said(c, At(c, acts), m) && (m.Prevote? || m.FinVote?)
    ensures BallotOk(c, At(c, acts), m, N.Elected(c, SlotOf(m)))
  {
    if m.Prevote? {
      SaidLeader(c, acts, m);
      PrevoteOk(c, acts, m);
    } else {
      var pv := FinVoteSource(c, acts, m);
      SaidLeader(c, acts, pv);
      PrevoteOk(c, acts, pv);
    }
  }

  /** The hash a commit is decided with is the leader's block. */
  lemma {:induction false} CommitIsLeaders(c: N.Cfg, acts: seq<Sched>, i: int, sl: Slot)
    requires Silent(c) && Orderly(c, acts) && 0 <= i < c.n
    requires Outcome(N.RoundOf(At(c, acts).nodes[i], sl).fin, High(c.n)) == ActionCommit
    ensures LeadersBlock(c, At(c, acts), sl, VoteHash(N.RoundOf(At(c, acts).nodes[i], sl).fin[High(c.n) - 1]))
  {
    var fin := N.RoundOf(At(c, acts).nodes[i], sl).fin;
    OutcomeMeaning(fin, High(c.n));
    var v := fin[High(c.n) - 1];
    FinWasSaid(c, acts, i, sl, v);
    YesIsForLeader(c, acts, v);
  }

  /** A finish carries the block of its author. */
  lemma {:induction false} FinishIsAuthors(c: N.Cfg, acts: seq<Sched>, m: Msg)
    requires Silent(c) && m.Finish? && Said(c, At(c, acts), m)
    ensures HashOk(c, At(c, acts), Inst(m.epoch, m.round, m.author), m.hash)
  {
    var i := m.author;
    SentByCorrect(c, acts, i, Env(NONE, m));
    var nd := At(c, acts).nodes[i];
    var p :| FinishedBy(c, nd, m, p);
    var k := Inst(m.epoch, m.round, p);
    var v := SomeVote(N.SpbOf(nd, k).votes);
    BuffersOk(c, acts, i, k, v);
    InstanceOk(c, acts, i, k);
  }

  lemma SomeVote(votes: seq<Msg>) returns (v: Msg)
    requires exists phase :: Spb.Count(votes, phase) >= 1
    ensures v in votes
  {
    var phase :| Spb.Count(votes, phase) >= 1;
    v := votes[0];
  }

  /** Halt agreement inside a round: every halt of a slot carries the leader's block, and
      there is only one such block. */
  lemma {:induction false} HaltsAgree(c: N.Cfg, acts: seq<Sched>, h: Msg, h': Msg)
    requires Silent(c) && Orderly(c, acts) && h.Halt? && h'.Halt? && SlotOf(h) == SlotOf(h')
    requires Said(c, At(c, acts), h) && Said(c, At(c, acts), h')
    ensures LeadersBlock(c, At(c, acts), SlotOf(h), h.hash) && h.hash == h'.hash
  {
    HaltIsLeaders(c, acts, h);
    HaltIsLeaders(c, acts, h');
    CreatedOnce(c, acts, h.hash.block, h'.hash.block);
  }

  /** A halt carries the block of its slot's elected leader, from a finish as from a commit. */
  lemma {:induction false} HaltIsLeaders(c: N.Cfg, acts: seq<Sched>, h: Msg)
    requires Silent(c) && Orderly(c, acts) && h.Halt? && Said(c, At(c, acts), h)
    ensures LeadersBlock(c, At(c, acts), SlotOf(h), h.hash)
  {
    SaidLeader(c, acts, h);
    var sl := SlotOf(h);
    var rd := N.RoundOf(At(c, acts).nodes[h.author], sl);
    var l := N.Elected(c, sl);
    if l in rd.finish && rd.finish[l] == h.hash {
      var m := Finish(l, h.hash, sl.e, sl.r);
      HeldWasSaid(c, acts, h.author, m);
      FinishIsAuthors(c, acts, m);
    } else {
      CommitIsLeaders(c, acts, h.author, sl);
    }
  }

  // ------------------------------------------------------- a decision binds later rounds

  ghost predicate Decides(c: N.Cfg, s: State, i: int, sl: Slot, action: Action)
    requires c.n >= 1 && Wf(c, s) && 0 <= i < c.n
  {
    Outcome(N.RoundOf(s.nodes[i], sl).fin, High(c.n)) == action
  }

  /** The digest a commit is announced with. */
  function CommitHash(c: N.Cfg, s: State, i: int, sl: Slot): Digest
    requires c.n >= 1 && Wf(c, s) && 0 <= i < c.n && |N.RoundOf(s.nodes[i], sl).fin| >= High(c.n)
  {
    VoteHash(N.RoundOf(s.nodes[i], sl).fin[High(c.n) - 1])
  }

  /** No node's final votes for the slot come out as a no. */
  ghost predicate NobodySaysNo(c: N.Cfg, s: State, sl: Slot)
    requires c.n >= 1 && Wf(c, s)
  {
    forall j :: 0 <= j < c.n ==> !Decides(c, s, j, sl, ActionNo)
  }

  /** The slot is settled on h: h is its leader's block, and nobody's final votes say no. */
  ghost predicate Settled(c: N.Cfg, s: State, sl: Slot, h: Digest)
    requires c.n >= 1 && Wf(c, s)
  {
    sl.r >= 0 && LeadersBlock(c, s, sl, h) && NobodySaysNo(c, s, sl)
  }

  /** A commit settles its slot, at whatever node. */
  lemma {:induction false} CommitSettles(c: N.Cfg, acts: seq<Sched>, i: int, sl: Slot)
    requires Silent(c) && Orderly(c, acts) && 0 <= i < c.n && Decides(c, At(c, acts), i, sl, ActionCommit)
    ensures Settled(c, At(c, acts), sl, CommitHash(c, At(c, acts), i, sl))
  {
    var v := N.RoundOf(At(c, acts).nodes[i], sl).fin[0];
    FinWasSaid(c, acts, i, sl, v);
    RoundsNonNegative(c, acts, v.author, Env(NONE, v));
    CommitIsLeaders(c, acts, i, sl);
    forall j | 0 <= j < c.n ensures !Decides(c, At(c, acts), j, sl, ActionNo) {
      CommitExcludesNo(c, acts, i, j, sl);
    }
  }

  /** In a settled slot's later rounds every proposal carries the settled block. */
  lemma {:induction false} SettledBinds(c: N.Cfg, acts: seq<Sched>, sl: Slot, h: Digest, m: Msg)
    requires Silent(c) && Orderly(c, acts) && Settled(c, At(c, acts), sl, h)
    requires m.Proposal? && m.phase == ONE_PHASE && Said(c, At(c, acts), m)
    requires m.epoch == sl.e && m.round > sl.r
    ensures HashOf(m.b) == h
    decreases m.round, 0
  {
    var s := At(c, acts);
    var j := m.author;
    SentByCorrect(c, acts, j, Env(NONE, m));
    ProposalOk(c, acts, m);
    var rd := N.RoundOf(s.nodes[j], Ground(m));
    if Outcome(rd.fin, High(c.n)) == ActionYes {
      var v := rd.fin[High(c.n) - 1];
      FinWasSaid(c, acts, j, Ground(m), v);
      YesIsForLeader(c, acts, v);
      if m.round == sl.r + 1 {
        CreatedOnce(c, acts, m.b, h.block);
      } else {
        BoundBefore(c, acts, sl, h, Inst(m.epoch, m.round - 1, N.Elected(c, Ground(m))), m.b);
      }
    } else {
      var k := Inst(m.epoch, m.round - 1, j);
      InstanceOk(c, acts, j, k);
      if m.round == sl.r + 1 {
        assert Decides(c, s, j, sl, ActionNo);
      } else {
        BoundBefore(c, acts, sl, h, k, m.b);
      }
    }
  }

  /** A block proposed by its own proposer in a bound round is the settled one. */
  lemma {:induction false} BoundBefore(c: N.Cfg, acts: seq<Sched>, sl: Slot, h: Digest, k: Inst, b: Block)
    requires Silent(c) && Orderly(c, acts) && Settled(c, At(c, acts), sl, h)
    requires k.e == sl.e && k.r > sl.r && HashOk(c, At(c, acts), k, HashOf(b))
    ensures HashOf(b) == h
    decreases k.r, 1
  {
    SettledBinds(c, acts, sl, h, Proposal(k.p, b, k.e, k.r, ONE_PHASE));
  }
}

/** A settled round is the last one of its epoch: nothing is decided after it, so that two halts
    of an epoch differ exactly when their rounds elected different leaders. */
module Finality {
  import opened Messages
  import opened Committee
  import opened Votes
  import N = Node
  import opened System
  import opened Sent
  import opened Runs
  import opened Byzantine
  import opened Benign
  import opened Blocks
  import opened Agreement

  /** sl' is a later round of the epoch of sl. */
  predicate Later(sl: Slot, sl': Slot) {
    sl'.e == sl.e && sl'.r > sl.r
  }

  /** In a later round only the settled leader can finish, as every proposal carries its block
      and an instance takes its own proposer's block only. */
  lemma {:induction false} OneFinisher(c: N.Cfg, acts: seq<Sched>, sl: Slot, h: Digest, m: Msg)
    requires Silent(c) && Orderly(c, acts) && Settled(c, At(c, acts), sl, h)
    requires m.Finish? && Said(c, At(c, acts), m) && Later(sl, SlotOf(m))
    ensures m.author == N.Elected(c, sl)
  {
    FinishIsAuthors(c, acts, m);
    BoundBefore(c, acts, sl, h, Inst(m.epoch, m.round, m.author), m.hash.block);
  }

  lemma {:induction false} NoLaterDone(c: N.Cfg, acts: seq<Sched>, sl: Slot, h: Digest, i: int, sl': Slot)
    requires Silent(c) && Orderly(c, acts) && Settled(c, At(c, acts), sl, h) && Later(sl, sl')
    ensures !HasDone(c, At(c, acts), i, sl')
  {
    if HasDone(c, At(c, acts), i, sl') {
      DoneHasACause(c, acts, i, sl');
      var j :| HasFinishes(c, At(c, acts), j, sl');
      var finish := N.RoundOf(At(c, acts).nodes[j], sl').finish;
      forall x | x in finish.Keys ensures x in {N.Elected(c, sl)} {
        var m := Finish(x, finish[x], sl'.e, sl'.r);
        HeldWasSaid(c, acts, j, m);
        OneFinisher(c, acts, sl, h, m);
      }
      SubsetSize(finish.Keys, {N.Elected(c, sl)});
    }
  }

  lemma {:induction false} NoLaterReady(c: N.Cfg, acts: seq<Sched>, sl: Slot, h: Digest, i: int, sl': Slot)
    requires Silent(c) && Orderly(c, acts) && Settled(c, At(c, acts), sl, h) && Later(sl, sl') && 0 <= i < c.n
    ensures !N.RoundOf(At(c, acts).nodes[i], sl').ready
  {
    if N.RoundOf(At(c, acts).nodes[i], sl').ready {
      var d := ReadyMeansSpread(c, acts, i, sl');
      var x := Outside(d, {});
      NoLaterDone(c, acts, sl, h, x, sl');
    }
  }

  lemma {:induction false} NoLaterFinVote(c: N.Cfg, acts: seq<Sched>, sl: Slot, h: Digest, m: Msg)
    requires Silent(c) && Orderly(c, acts) && Settled(c, At(c, acts), sl, h) && Later(sl, SlotOf(m)) && m.FinVote?
    ensures !Said(c, At(c, acts), m)
  {
    if Said(c, At(c, acts), m) {
      var pv := FinVoteSource(c, acts, m);
      SentByCorrect(c, acts, pv.author, Env(NONE, pv));
      NoLaterReady(c, acts, sl, h, pv.author, SlotOf(m));
    }
  }

  /** No final vote is accepted in a later round, so nothing is decided there. */
  lemma {:induction false} NothingDecidedLater(c: N.Cfg, acts: seq<Sched>, sl: Slot, h: Digest, i: int, sl': Slot)
    requires Silent(c) && Orderly(c, acts) && Settled(c, At(c, acts), sl, h) && Later(sl, sl') && 0 <= i < c.n
    ensures N.RoundOf(At(c, acts).nodes[i], sl').fin == []
  {
    var fin := N.RoundOf(At(c, acts).nodes[i], sl').fin;
    if fin != [] {
      FinWasSaid(c, acts, i, sl', fin[0]);
      NoLaterFinVote(c, acts, sl, h, fin[0]);
    }
  }

  /** Neither dones nor shares nor votes nor halts are broadcast for a later round. */
  lemma {:induction false} NothingLater(c: N.Cfg, acts: seq<Sched>, sl: Slot, h: Digest, m: Msg)
    requires Silent(c) && Orderly(c, acts) && Settled(c, At(c, acts), sl, h) && Later(sl, SlotOf(m))
    requires m.Done? || m.ElectShare? || m.Prevote? || m.FinVote? || m.Halt?
    ensures !Said(c, At(c, acts), m)
  {
    if m.FinVote? {
      NoLaterFinVote(c, acts, sl, h, m);
    } else if Said(c, At(c, acts), m) {
      SentByCorrect(c, acts, m.author, Env(NONE, m));
      NoLaterReady(c, acts, sl, h, m.author, SlotOf(m));
      NoLaterDone(c, acts, sl, h, m.author, SlotOf(m));
      NothingDecidedLater(c, acts, sl, h, m.author, SlotOf(m));
    }
  }

  /** One-phase proposals stop with the round after a settled one, and carry the settled block. */
  lemma {:induction false} SettledProposals(c: N.Cfg, acts: seq<Sched>, sl: Slot, h: Digest, m: Msg)
    requires Silent(c) && Orderly(c, acts) && Settled(c, At(c, acts), sl, h)
    requires m.Proposal? && m.phase == ONE_PHASE && Said(c, At(c, acts), m) && Later(sl, SlotOf(m))
    ensures m.round == sl.r + 1 && HashOf(m.b) == h
  {
    SettledBinds(c, acts, sl, h, m);
    SentByCorrect(c, acts, m.author, Env(NONE, m));
    if m.round > sl.r + 1 {
      var v := N.RoundOf(At(c, acts).nodes[m.author], Ground(m)).fin[0];
      FinWasSaid(c, acts, m.author, Ground(m), v);
      NothingLater(c, acts, sl, h, v);
    }
  }

  // ------------------------------------------------------------------ what this means

  /** After a commit at any node: in later rounds of the epoch nobody sets the Done flag, becomes
      ready or accepts a final vote, and the only proposals are those of the next round, with the
      committed block. */
  lemma {:induction false} CommitIsFinal(c: N.Cfg, acts: seq<Sched>, i: int, sl: Slot, j: int, sl': Slot)
    requires Silent(c) && Orderly(c, acts) && 0 <= i < c.n && Decides(c, At(c, acts), i, sl, ActionCommit)
    requires 0 <= j < c.n && Later(sl, sl')
    ensures var rd := N.RoundOf(At(c, acts).nodes[j], sl'); !rd.doneFlag && !rd.ready && rd.fin == []
    ensures forall m :: Said(c, At(c, acts), m) && m.Proposal? && m.phase == ONE_PHASE && SlotOf(m) == sl' ==>
              m.round == sl.r + 1 && HashOf(m.b) == CommitHash(c, At(c, acts), i, sl)
    ensures forall m :: Said(c, At(c, acts), m) && SlotOf(m) == sl' ==> !m.Prevote? && !m.FinVote? && !m.Halt?
  {
    var s, h := At(c, acts), CommitHash(c, At(c, acts), i, sl);
    CommitSettles(c, acts, i, sl);
    NoLaterDone(c, acts, sl, h, j, sl');
    NoLaterReady(c, acts, sl, h, j, sl');
    NothingDecidedLater(c, acts, sl, h, j, sl');
    forall m | Said(c, s, m) && m.Proposal? && m.phase == ONE_PHASE && SlotOf(m) == sl'
      ensures m.round == sl.r + 1 && HashOf(m.b) == h
    {
      SettledProposals(c, acts, sl, h, m);
    }
    forall m | Said(c, s, m) && SlotOf(m) == sl' ensures !m.Prevote? && !m.FinVote? && !m.Halt? {
      if m.Prevote? || m.FinVote? || m.Halt? {
        NothingLater(c, acts, sl, h, m);
      }
    }
  }

  /** All commits of an epoch are of one round and one block. */
  lemma {:induction false} CommitsAgree(c: N.Cfg, acts: seq<Sched>, i: int, j: int, sl: Slot, sl': Slot)
    requires Silent(c) && Orderly(c, acts) && 0 <= i < c.n && 0 <= j < c.n && sl.e == sl'.e
    requires Decides(c, At(c, acts), i, sl, ActionCommit) && Decides(c, At(c, acts), j, sl', ActionCommit)
    ensures sl == sl' && CommitHash(c, At(c, acts), i, sl) == CommitHash(c, At(c, acts), j, sl')
  {
    var s := At(c, acts);
    CommitSettles(c, acts, i, sl);
    CommitSettles(c, acts, j, sl');
    if Later(sl, sl') {
      NothingDecidedLater(c, acts, sl, CommitHash(c, s, i, sl), j, sl');
    } else if Later(sl', sl) {
      NothingDecidedLater(c, acts, sl', CommitHash(c, s, j, sl'), i, sl);
    } else {
      CreatedOnce(c, acts, CommitHash(c, s, i, sl).block, CommitHash(c, s, j, sl').block);
    }
  }

  /** A halt that is not of an earlier round than a commit is of the same round and block. */
  lemma {:induction false} HaltAfterCommit(c: N.Cfg, acts: seq<Sched>, i: int, sl: Slot, h: Msg)
    requires Silent(c) && Orderly(c, acts) && 0 <= i < c.n && Decides(c, At(c, acts), i, sl, ActionCommit)
    requires h.Halt? && Said(c, At(c, acts), h) && h.epoch == sl.e && h.round >= sl.r
    ensures h.round == sl.r && h.hash == CommitHash(c, At(c, acts), i, sl)
  {
    CommitSettles(c, acts, i, sl);
    if h.round > sl.r {
      NothingLater(c, acts, sl, CommitHash(c, At(c, acts), i, sl), h);
    }
    HaltIsLeaders(c, acts, h);
    CreatedOnce(c, acts, h.hash.block, CommitHash(c, At(c, acts), i, sl).block);
  }

  /** Halts of two rounds of an epoch are both broadcast only if the earlier round comes out as a
      no at some node. */
  lemma {:induction false} TwoRoundsMeanNo(c: N.Cfg, acts: seq<Sched>, h: Msg, h': Msg) returns (j: int)
    requires Silent(c) && Orderly(c, acts) && h.Halt? && h'.Halt? && Later(SlotOf(h), SlotOf(h'))
    requires Said(c, At(c, acts), h) && Said(c, At(c, acts), h')
    ensures 0 <= j < c.n && Decides(c, At(c, acts), j, SlotOf(h), ActionNo)
  {
    var s := At(c, acts);
    if NobodySaysNo(c, s, SlotOf(h)) {
      HaltIsLeaders(c, acts, h);
      RoundsNonNegative(c, acts, h.author, Env(NONE, h));
      NothingLater(c, acts, SlotOf(h), h.hash, h');
    }
    j :| 0 <= j < c.n && Decides(c, s, j, SlotOf(h), ActionNo);
  }

  /** Agreement, exactly: two halts of an epoch carry the same block if and only if their rounds
      elected the same leader. */
  lemma {:induction false} HaltsAgreeExactly(c: N.Cfg, acts: seq<Sched>, h: Msg, h': Msg)
    requires Silent(c) && Orderly(c, acts) && h.Halt? && h'.Halt? && h.epoch == h'.epoch
    requires Said(c, At(c, acts), h) && Said(c, At(c, acts), h')
    ensures h.hash == h'.hash <==> N.Elected(c, SlotOf(h)) == N.Elected(c, SlotOf(h'))
  {
    HaltIsLeaders(c, acts, h);
    HaltIsLeaders(c, acts, h');
    if N.Elected(c, SlotOf(h)) == N.Elected(c, SlotOf(h')) {
      CreatedOnce(c, acts, h.hash.block, h'.hash.block);
    }
  }
}

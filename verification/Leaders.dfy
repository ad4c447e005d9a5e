/** Which leader a node's prevotes and halts are about, as long as the halts it acts on
    name blocks it has stored. */
module Leaders {
  import opened Messages
  import opened Committee
  import opened Votes
  import opened Node
  import opened Local
  import opened Sent

  /** A prevote names the elected leader; a halt carries the elected leader's finish or
      the hash of a commit. */
  ghost predicate LeaderFact(c: Cfg, rd: Round, m: Msg)
    requires c.n >= 1
  {
    match m
    case Prevote(_, l, _, _, _, _) => l == Elected(c, SlotOf(m))
    case Halt(_, _, _, _, h) =>
      var l := Elected(c, SlotOf(m));
      || (l in rd.finish && rd.finish[l] == h)
      || (Outcome(rd.fin, High(c.n)) == ActionCommit && VoteHash(rd.fin[High(c.n) - 1]) == h)
    case _ => true
  }

  lemma {:induction false} LeaderFactStays(c: Cfg, rd: Round, rd': Round, m: Msg)
    requires c.n >= 1 && RoundGrows(rd, rd') && LeaderFact(c, rd, m)
    ensures LeaderFact(c, rd', m)
  {
    if m.Halt? && |rd.fin| >= High(c.n) {
      OutcomeGrows(rd.fin, rd'.fin, High(c.n));
    }
  }

  lemma {:induction false} NewFromLeader(c: Cfg, me: int, nd: State, sl: Slot, rd: Round, x: Envelope)
    requires c.n >= 1 && LeaderInv(c, rd, sl) && x in ProcessLeader(me, nd, sl, rd)
    ensures LeaderFact(c, rd, x.msg)
  {
  }

  lemma {:induction false} NewOnDone(c: Cfg, me: int, nd: State, rd: Round, m: Msg, x: Envelope)
    requires c.n >= 1 && m.Done? && LeaderInv(c, rd, SlotOf(m)) && x in OnDone(c, me, nd, rd, m).sends
    ensures LeaderFact(c, OnDone(c, me, nd, rd, m).rd, x.msg)
  {
    if !x.msg.Done? && !x.msg.ElectShare? {
      NewFromLeader(c, me, nd, SlotOf(m), OnDone(c, me, nd, rd, m).rd, x);
    }
  }

  lemma {:induction false} NewOnShare(c: Cfg, me: int, nd: State, rd: Round, m: Msg, x: Envelope)
    requires c.n >= 1 && m.ElectShare? && LeaderInv(c, rd, SlotOf(m)) && x in OnShare(c, me, nd, rd, m).sends
    ensures LeaderFact(c, OnShare(c, me, nd, rd, m).rd, x.msg)
  {
    NewFromLeader(c, me, nd, SlotOf(m), OnShare(c, me, nd, rd, m).rd, x);
  }

  lemma {:induction false} NewCommitHalt(c: Cfg, rd: Round, m: Msg)
    requires c.n >= 1 && m.FinVote? && FinAction(rd.fin, m, High(c.n)) == ActionCommit
    ensures LeaderFact(c, rd.(fin := rd.fin + [m]), Halt(0, m.epoch, m.round, 0, m.hash))
  {
    Fires(rd.fin, m, High(c.n));
  }

  lemma {:induction false} NewOnFinVote(c: Cfg, me: int, nd: State, rd: Round, m: Msg, x: Envelope)
    requires c.n >= 1 && m.FinVote? && x in OnFinVote(c, me, nd, rd, m).sends
    ensures LeaderFact(c, OnFinVote(c, me, nd, rd, m).rd, x.msg)
  {
    if FinAction(rd.fin, m, High(c.n)) == ActionCommit {
      NewCommitHalt(c, rd, m);
      assert OnFinVote(c, me, nd, rd, m).rd == rd.(fin := rd.fin + [m]);
    } else {
      FinVoteShape(c, me, nd, rd, m);
    }
  }

  lemma {:induction false} LeaderOnRound(c: Cfg, me: int, nd: State, rd: Round, m: Msg, x: Envelope)
    requires c.n >= 1 && IsRoundMsg(m) && LeaderInv(c, rd, SlotOf(m)) && x in OnRound(c, me, nd, rd, m).sends
    ensures LeaderFact(c, OnRound(c, me, nd, rd, m).rd, x.msg)
  {
    match m
    case Done(_, _, _) => NewOnDone(c, me, nd, rd, m, x);
    case ElectShare(_, _, _) => NewOnShare(c, me, nd, rd, m, x);
    case FinVote(_, _, _, _, _, _) => NewOnFinVote(c, me, nd, rd, m, x);
    case _ => Frame(c, me, nd, rd, m);
  }

  /** The event that sends a prevote or a halt is a message of the same slot. */
  lemma {:induction false} SentBySlot(c: Cfg, me: int, nd: State, ev: Event, x: Envelope)
    requires c.n >= 1 && x in Step(c, me, nd, ev).sends && (x.msg.Prevote? || x.msg.Halt?)
    ensures Touches(nd, ev, SlotOf(x.msg))
  {
    if !Touches(nd, ev, SlotOf(x.msg)) {
      Untouched(c, me, nd, ev, SlotOf(x.msg));
      QuietExcludes(Step(c, me, nd, ev).sends, SlotOf(x.msg), x);
    }
  }

  lemma QuietExcludes(sends: seq<Envelope>, sl: Slot, x: Envelope)
    requires Quiet(sends, sl) && x in sends
    ensures !OfRound(x.msg, sl)
  {
  }

  lemma {:induction false} SentLeader(c: Cfg, me: int, evs: seq<Event>, x: Envelope)
    requires c.n >= 1 && HaltsFindBlocks(c, me, evs) && x in After(c, me, evs).sends
    requires x.msg.Prevote? || x.msg.Halt?
    ensures LeaderFact(c, RoundOf(After(c, me, evs).nd, SlotOf(x.msg)), x.msg)
  {
    var init := evs[..|evs| - 1];
    var o, ev := After(c, me, init), evs[|evs| - 1];
    var sl := SlotOf(x.msg);
    if x in o.sends {
      SentLeader(c, me, init, x);
      RoundKeeps(c, me, o.nd, ev, sl);
      LeaderFactStays(c, RoundOf(o.nd, sl), RoundOf(After(c, me, evs).nd, sl), x.msg);
    } else {
      SentBySlot(c, me, o.nd, ev, x);
      Touched(c, me, o.nd, ev, sl);
      LeaderExactly(c, me, init, sl);
      LeaderOnRound(c, me, o.nd, RoundOf(o.nd, sl), ev.m, x);
    }
  }
}

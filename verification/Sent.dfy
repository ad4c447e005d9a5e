/** Why a node has sent what is in its log: for every kind of message, the fact about
    the node's own state that a message of that kind proves, from then on. */
module Sent {
  import opened Messages
  import opened Committee
  import opened Votes
  import Spb
  import opened Node
  import opened Local

  // ----------------------------------------------------------- records only grow

  ghost predicate RoundGrows(rd: Round, rd': Round) {
    && (forall a :: a in rd.finish ==> a in rd'.finish && rd'.finish[a] == rd.finish[a])
    && rd.done <= rd'.done
    && rd.shares <= rd'.shares
    && rd.pre <= rd'.pre
    && rd.fin <= rd'.fin
    && (rd.doneFlag ==> rd'.doneFlag)
    && (rd.ready ==> rd'.ready)
  }

  lemma {:induction false} GrowFinish(c: Cfg, me: int, rd: Round, m: Msg)
    requires m.Finish?
    ensures RoundGrows(rd, OnFinish(c, me, rd, m).rd)
  {}

  lemma {:induction false} GrowDone(c: Cfg, me: int, nd: State, rd: Round, m: Msg)
    requires m.Done?
    ensures RoundGrows(rd, OnDone(c, me, nd, rd, m).rd)
  {}

  lemma {:induction false} GrowShare(c: Cfg, me: int, nd: State, rd: Round, m: Msg)
    requires c.n >= 1 && m.ElectShare?
    ensures RoundGrows(rd, OnShare(c, me, nd, rd, m).rd)
  {}

  lemma {:induction false} GrowPrevote(c: Cfg, me: int, rd: Round, m: Msg)
    requires m.Prevote?
    ensures RoundGrows(rd, OnPrevote(c, me, rd, m).rd)
  {}

  lemma {:induction false} GrowFinVote(c: Cfg, me: int, nd: State, rd: Round, m: Msg)
    requires m.FinVote?
    ensures RoundGrows(rd, OnFinVote(c, me, nd, rd, m).rd)
  {}

  lemma {:induction false} RoundKeeps(c: Cfg, me: int, nd: State, ev: Event, sl: Slot)
    requires c.n >= 1
    ensures RoundGrows(RoundOf(nd, sl), RoundOf(Step(c, me, nd, ev).nd, sl))
  {
    if Touches(nd, ev, sl) {
      Touched(c, me, nd, ev, sl);
      var rd := RoundOf(nd, sl);
      match ev.m
      case Finish(_, _, _, _) => GrowFinish(c, me, rd, ev.m);
      case Done(_, _, _) => GrowDone(c, me, nd, rd, ev.m);
      case ElectShare(_, _, _) => GrowShare(c, me, nd, rd, ev.m);
      case Prevote(_, _, _, _, _, _) => GrowPrevote(c, me, rd, ev.m);
      case FinVote(_, _, _, _, _, _) => GrowFinVote(c, me, nd, rd, ev.m);
    } else {
      Untouched(c, me, nd, ev, sl);
    }
  }

  lemma {:induction false} LifeKeeps(c: Cfg, me: int, nd: State, ev: Event)
    requires c.n >= 1
    ensures var nd' := Step(c, me, nd, ev).nd;
            nd.store <= nd'.store && nd.epoch <= nd'.epoch && (nd.started ==> nd'.started)
  {
    EpochStep(c, me, nd, ev);
    if ev.Recv? && ev.m.Halt? {
    } else if ev.Run? {
      TaskSends(c, me, nd, ev.m);
    }
  }

  // ------------------------------------------------------------- justifications

  function VoteHash(v: Msg): Digest {
    if v.FinVote? || v.Prevote? then v.hash else Zero
  }

  /** A one-phase proposal opens an epoch with a block of the node's own, or follows a
      final-vote outcome: the block voted for, or after a no the node's own. */
  ghost predicate Justified(c: Cfg, me: int, nd: State, rd: Round, m: Msg)
    requires m.Proposal?
  {
    || (m.round == 0 && m.b.proposer == me && m.b.epoch == m.epoch && nd.started && m.epoch <= nd.epoch)
    || (&& |rd.fin| >= High(c.n)
        && m.b in nd.store
        && match Outcome(rd.fin, High(c.n))
           case ActionYes => VoteHash(rd.fin[High(c.n) - 1]) == HashOf(m.b)
           case ActionNo => SpbOf(nd, Inst(m.epoch, m.round - 1, me)).hash == Some(HashOf(m.b))
           case _ => false)
  }

  /** An instance in which one phase has collected a quorum of votes. */
  ghost predicate Collected(c: Cfg, nd: State, k: Inst, phase: int) {
    SpbOf(nd, k).hash.Some? && Spb.Count(SpbOf(nd, k).votes, phase) >= High(c.n)
  }

  ghost predicate FinishedBy(c: Cfg, nd: State, m: Msg, p: int)
    requires m.Finish?
  {
    Collected(c, nd, Inst(m.epoch, m.round, p), TWO_PHASE) &&
    SpbOf(nd, Inst(m.epoch, m.round, p)).hash == Some(m.hash)
  }

  /** The prevote a final vote repeats. */
  predicate Repeats(fv: Msg, pv: Msg)
    requires fv.FinVote?
  {
    pv.Prevote? && fv.hash == pv.hash && fv.flag == (if IsYes(pv) then VOTE_YES else VOTE_NO)
  }

  /** The slot whose record justifies a message. */
  function Ground(m: Msg): Slot {
    if m.Proposal? && m.phase == ONE_PHASE then Slot(m.epoch, m.round - 1) else SlotOf(m)
  }

  /** What a message in the log of node me says about that node; rd is the record of the
      message's ground. */
  ghost predicate Fact(c: Cfg, me: int, nd: State, rd: Round, x: Envelope) {
    var m := x.msg;
    && m.author == me
    && x.to == (if m.SpbVote? then m.proposer else NONE)
    && match m
       case Proposal(_, b, e, r, phase) =>
         if phase == ONE_PHASE then Justified(c, me, nd, rd, m)
         else m == Spb.PhaseTwo(me, Inst(e, r, b.proposer)) && Collected(c, nd, Inst(e, r, b.proposer), ONE_PHASE)
       case SpbVote(_, p, h, e, r, phase) =>
         var k := Inst(e, r, p);
         || (m == Spb.VoteOne(me, k, h) && SpbOf(nd, k).hash == Some(h))
         || (m == Spb.VoteTwo(me, k) && SpbOf(nd, k).lock)
       case Finish(_, _, _, _) => exists p :: FinishedBy(c, nd, m, p)
       case Done(_, _, _) => rd.doneFlag
       case ElectShare(_, _, _) => rd.doneFlag
       case Prevote(_, l, e, r, flag, h) =>
         && rd.ready
         && (flag == VOTE_YES || flag == VOTE_NO)
         && (flag == VOTE_YES ==> SpbOf(nd, Inst(e, r, l)).lock && SpbOf(nd, Inst(e, r, l)).hash == Some(h))
         && (flag == VOTE_NO ==> h == Zero)
       case FinVote(_, l, _, _, _, _) => l == 0 && exists pv :: pv in rd.pre && Repeats(m, pv)
       case Halt(_, _, _, l, h) =>
         || (rd.ready && l in rd.finish && rd.finish[l] == h)
         || (Outcome(rd.fin, High(c.n)) == ActionCommit && VoteHash(rd.fin[High(c.n) - 1]) == h)
  }

  // -------------------------------------------------------- facts, once true, stay

  lemma {:induction false} CountGrows(vs: seq<Msg>, vs': seq<Msg>, phase: int)
    requires vs <= vs'
    ensures Spb.Count(vs, phase) <= Spb.Count(vs', phase)
  {
    if vs != vs' {
      var init := vs'[..|vs'| - 1];
      assert vs <= init;
      CountGrows(vs, init, phase);
    }
  }

  lemma {:induction false} CollectedStays(c: Cfg, me: int, nd: State, ev: Event, k: Inst, phase: int)
    requires c.n >= 1 && Collected(c, nd, k, phase)
    ensures Collected(c, Step(c, me, nd, ev).nd, k, phase)
    ensures SpbOf(Step(c, me, nd, ev).nd, k).hash == SpbOf(nd, k).hash
  {
    SpbKeeps(c, me, nd, ev, k);
    CountGrows(SpbOf(nd, k).votes, SpbOf(Step(c, me, nd, ev).nd, k).votes, phase);
  }

  lemma {:induction false} OutcomeGrows(acc: seq<Msg>, acc': seq<Msg>, th: nat)
    requires 1 <= th <= |acc| && acc <= acc'
    ensures Outcome(acc', th) == Outcome(acc, th) && acc'[th - 1] == acc[th - 1]
  {
    assert acc'[..th - 1] == acc[..th - 1];
  }

  lemma {:induction false} SpbFactStays(c: Cfg, me: int, nd: State, ev: Event, rd: Round, rd': Round, x: Envelope)
    requires c.n >= 1 && Fact(c, me, nd, rd, x)
    requires x.msg.SpbVote? || x.msg.Finish? || (x.msg.Proposal? && x.msg.phase != ONE_PHASE)
    ensures Fact(c, me, Step(c, me, nd, ev).nd, rd', x)
  {
    var m := x.msg;
    match m
    case Proposal(_, b, e, r, phase) => CollectedStays(c, me, nd, ev, Inst(e, r, b.proposer), ONE_PHASE);
    case SpbVote(_, p, h, e, r, _) => SpbKeeps(c, me, nd, ev, Inst(e, r, p));
    case Finish(_, h, e, r) =>
      var p :| FinishedBy(c, nd, m, p);
      CollectedStays(c, me, nd, ev, Inst(e, r, p), TWO_PHASE);
      assert FinishedBy(c, Step(c, me, nd, ev).nd, m, p);
  }

  lemma {:induction false} RoundFactStays(c: Cfg, me: int, nd: State, nd': State, rd: Round, rd': Round, x: Envelope)
    requires Fact(c, me, nd, rd, x) && RoundGrows(rd, rd')
    requires x.msg.Done? || x.msg.ElectShare? || x.msg.FinVote? || x.msg.Halt?
    ensures Fact(c, me, nd', rd', x)
  {
    if x.msg.Halt? && |rd.fin| >= High(c.n) {
      OutcomeGrows(rd.fin, rd'.fin, High(c.n));
    }
  }

  lemma {:induction false} MixedFactStays(c: Cfg, me: int, nd: State, nd': State, rd: Round, rd': Round, x: Envelope, k: Inst)
    requires Fact(c, me, nd, rd, x) && RoundGrows(rd, rd')
    requires x.msg.Prevote? || (x.msg.Proposal? && x.msg.phase == ONE_PHASE)
    requires k == if x.msg.Prevote? then Inst(x.msg.epoch, x.msg.round, x.msg.leader) else Inst(x.msg.epoch, x.msg.round - 1, me)
    requires nd.store <= nd'.store && nd.epoch <= nd'.epoch && (nd.started ==> nd'.started)
    requires SpbOf(nd, k).hash.Some? ==> SpbOf(nd', k).hash == SpbOf(nd, k).hash
    requires SpbOf(nd, k).lock ==> SpbOf(nd', k).lock
    ensures Fact(c, me, nd', rd', x)
  {
    if |rd.fin| >= High(c.n) {
      OutcomeGrows(rd.fin, rd'.fin, High(c.n));
    }
  }

  lemma {:induction false} FactStays(c: Cfg, me: int, nd: State, ev: Event, x: Envelope)
    requires c.n >= 1 && Fact(c, me, nd, RoundOf(nd, Ground(x.msg)), x)
    ensures var nd' := Step(c, me, nd, ev).nd; Fact(c, me, nd', RoundOf(nd', Ground(x.msg)), x)
  {
    var nd' := Step(c, me, nd, ev).nd;
    var rd, rd' := RoundOf(nd, Ground(x.msg)), RoundOf(nd', Ground(x.msg));
    RoundKeeps(c, me, nd, ev, Ground(x.msg));
    var m := x.msg;
    if m.SpbVote? || m.Finish? || (m.Proposal? && m.phase != ONE_PHASE) {
      SpbFactStays(c, me, nd, ev, rd, rd', x);
    } else if m.Prevote? || m.Proposal? {
      var k := if m.Prevote? then Inst(m.epoch, m.round, m.leader) else Inst(m.epoch, m.round - 1, me);
      SpbKeeps(c, me, nd, ev, k);
      LifeKeeps(c, me, nd, ev);
      MixedFactStays(c, me, nd, nd', rd, rd', x, k);
    } else {
      RoundFactStays(c, me, nd, nd', rd, rd', x);
    }
  }

  // ---------------------------------------------------------- facts of new messages

  /** A ready slot whose leader is processed yields a halt, a prevote, or nothing. */
  lemma {:induction false} NewLeader(c: Cfg, me: int, nd: State, sl: Slot, rd: Round, x: Envelope)
    requires rd.ready && x in ProcessLeader(me, nd, sl, rd)
    ensures Fact(c, me, nd, rd, x) && Ground(x.msg) == sl
  {
    hide Justified, Outcome;
  }

  lemma {:induction false} NewInvoke(c: Cfg, me: int, nd: State, sl: Slot, rd: Round, x: Envelope)
    requires x in InvokeDone(me, sl, rd).sends
    ensures Fact(c, me, nd, InvokeDone(me, sl, rd).rd, x) && Ground(x.msg) == sl
  {
    hide Justified, Outcome;
  }

  lemma {:induction false} NewDone(c: Cfg, me: int, nd: State, rd: Round, m: Msg, x: Envelope)
    requires m.Finish? || m.Done?
    requires c.n >= 1 && x in OnRound(c, me, nd, rd, m).sends
    ensures Fact(c, me, nd, OnRound(c, me, nd, rd, m).rd, x) && Ground(x.msg) == SlotOf(m)
  {
    hide Fact, Ground, InvokeDone, ProcessLeader;
    var sl := SlotOf(m);
    if m.Finish? {
      NewInvoke(c, me, nd, sl, rd.(finish := rd.finish[m.author := m.hash]), x);
    } else {
      var rd' := rd.(done := rd.done + {m.author});
      if |rd'.done| == Low(c.n) {
        NewInvoke(c, me, nd, sl, rd', x);
      } else {
        NewLeader(c, me, nd, sl, rd'.(ready := true), x);
      }
    }
  }

  lemma {:induction false} NewShare(c: Cfg, me: int, nd: State, rd: Round, m: Msg, x: Envelope)
    requires m.ElectShare?
    requires c.n >= 1 && x in OnShare(c, me, nd, rd, m).sends
    ensures Fact(c, me, nd, OnShare(c, me, nd, rd, m).rd, x) && Ground(x.msg) == SlotOf(m)
  {
    hide Fact, Ground;
    NewLeader(c, me, nd, SlotOf(m), OnShare(c, me, nd, rd, m).rd, x);
  }

  lemma {:induction false} NewFinVote(c: Cfg, me: int, nd: State, rd: Round, m: Msg, x: Envelope)
    requires m.Prevote?
    requires x in OnPrevote(c, me, rd, m).sends
    ensures Fact(c, me, nd, OnPrevote(c, me, rd, m).rd, x) && Ground(x.msg) == SlotOf(m)
  {
    var r := OnPrevote(c, me, rd, m);
    assert m in r.rd.pre && Repeats(x.msg, m);
  }

  lemma {:induction false} NewProposal(c: Cfg, me: int, nd: State, rd: Round, sl: Slot, a: Action, voted: Digest, x: Envelope)
    requires x in NextRound(me, nd, sl, a, voted)
    requires |rd.fin| >= High(c.n) && Outcome(rd.fin, High(c.n)) == a
    requires (a == ActionYes && VoteHash(rd.fin[High(c.n) - 1]) == voted) || (a == ActionNo && voted == Zero)
    ensures Fact(c, me, nd, rd, x) && Ground(x.msg) == sl
  {
  }

  lemma {:induction false} NewCommit(c: Cfg, me: int, nd: State, rd: Round, m: Msg)
    requires m.FinVote? && FinAction(rd.fin, m, High(c.n)) == ActionCommit
    ensures Fact(c, me, nd, rd.(fin := rd.fin + [m]), Env(NONE, Halt(me, m.epoch, m.round, m.leader, m.hash)))
  {
    Fires(rd.fin, m, High(c.n));
  }

  lemma {:induction false} NewNextRound(c: Cfg, me: int, nd: State, rd: Round, m: Msg, x: Envelope)
    requires m.FinVote?
    requires x in OnFinVote(c, me, nd, rd, m).sends
    ensures Fact(c, me, nd, OnFinVote(c, me, nd, rd, m).rd, x) && Ground(x.msg) == SlotOf(m)
  {
    hide High, FinAction;
    var a := FinAction(rd.fin, m, High(c.n));
    var rd' := rd.(fin := rd.fin + [m]);
    assert OnFinVote(c, me, nd, rd, m).rd == rd' && a != ActionNone;
    assert a == ActionCommit ==> x == Env(NONE, Halt(me, m.epoch, m.round, m.leader, m.hash));
    assert a == ActionYes ==> x in NextRound(me, nd, SlotOf(m), a, m.hash);
    assert a == ActionNo ==> x in NextRound(me, nd, SlotOf(m), a, Zero);
    if a == ActionCommit {
      NewCommit(c, me, nd, rd, m);
    } else {
      Fires(rd.fin, m, High(c.n));
      NewProposal(c, me, nd, rd', SlotOf(m), a, if a == ActionYes then m.hash else Zero, x);
    }
  }

  /** Facts read the instances and the store of a node, not its other slots. */
  lemma {:induction false} FactLocal(c: Cfg, me: int, nd: State, nd': State, rd: Round, x: Envelope)
    requires Fact(c, me, nd, rd, x)
    requires nd' == nd.(rounds := nd'.rounds)
    ensures Fact(c, me, nd', rd, x)
  {
    if x.msg.Finish? {
      var p :| FinishedBy(c, nd, x.msg, p);
      assert FinishedBy(c, nd', x.msg, p);
    }
  }

  lemma {:induction false} NewOnRound(c: Cfg, me: int, nd: State, rd: Round, m: Msg, x: Envelope)
    requires c.n >= 1 && IsRoundMsg(m) && x in OnRound(c, me, nd, rd, m).sends
    ensures Fact(c, me, nd, OnRound(c, me, nd, rd, m).rd, x) && Ground(x.msg) == SlotOf(m)
  {
    match m
    case ElectShare(_, _, _) => NewShare(c, me, nd, rd, m, x);
    case Prevote(_, _, _, _, _, _) => NewFinVote(c, me, nd, rd, m, x);
    case FinVote(_, _, _, _, _, _) => NewNextRound(c, me, nd, rd, m, x);
    case _ => NewDone(c, me, nd, rd, m, x);
  }

  lemma {:induction false} NewRound(c: Cfg, me: int, nd: State, ev: Event, sl: Slot, x: Envelope)
    requires c.n >= 1 && Touches(nd, ev, sl) && x in Step(c, me, nd, ev).sends
    ensures var nd' := Step(c, me, nd, ev).nd; Fact(c, me, nd', RoundOf(nd', Ground(x.msg)), x)
  {
    Touched(c, me, nd, ev, sl);
    var r := OnRound(c, me, nd, RoundOf(nd, sl), ev.m);
    NewOnRound(c, me, nd, RoundOf(nd, sl), ev.m, x);
    FactLocal(c, me, nd, Step(c, me, nd, ev).nd, r.rd, x);
  }

  /** What an instance sends goes with its state afterwards. */
  lemma {:induction false} SpbFacts(me: int, k: Inst, s: Spb.State, m: Msg, th: nat, x: Envelope)
    requires (m.Proposal? || m.SpbVote?) && k == InstOf(m) && x in Spb.OnMessage(me, k, s, m, th).sends
    ensures var s' := Spb.OnMessage(me, k, s, m, th).st;
            && s'.hash.Some?
            && (|| x == Env(k.p, Spb.VoteOne(me, k, s'.hash.value))
                || (x == Env(k.p, Spb.VoteTwo(me, k)) && s'.lock)
                || (x == Env(NONE, Spb.PhaseTwo(me, k)) && Spb.Count(s'.votes, ONE_PHASE) == th)
                || (x == Env(NONE, Finish(me, s'.hash.value, k.e, k.r)) && Spb.Count(s'.votes, TWO_PHASE) == th))
  {
    hide Spb.Count;
  }

  lemma {:induction false} NewSpb(c: Cfg, me: int, nd: State, m: Msg, rd: Round, x: Envelope)
    requires c.n >= 1 && x in RunTask(c, me, nd, m).sends
    ensures Fact(c, me, RunTask(c, me, nd, m).nd, rd, x)
  {
    hide Spb.OnMessage, Spb.Count, Justified, Outcome;
    var nd' := RunTask(c, me, nd, m).nd;
    SpbFacts(me, InstOf(m), SpbOf(nd, InstOf(m)), m, High(c.n), x);
    if x.msg.Finish? {
      assert FinishedBy(c, nd', x.msg, InstOf(m).p);
    }
  }

  lemma {:induction false} NewEpoch(c: Cfg, me: int, nd: State, h: Msg, o: Oracle, rd: Round, x: Envelope)
    requires h.Halt? && nd.started && x in OnHalt(me, nd, h, o).sends
    ensures Fact(c, me, OnHalt(me, nd, h, o).nd, rd, x)
  {
  }

  lemma {:induction false} NewSent(c: Cfg, me: int, nd: State, ev: Event, x: Envelope)
    requires c.n >= 1 && x in Step(c, me, nd, ev).sends
    ensures var nd' := Step(c, me, nd, ev).nd; Fact(c, me, nd', RoundOf(nd', Ground(x.msg)), x)
  {
    var rd := RoundOf(Step(c, me, nd, ev).nd, Ground(x.msg));
    match ev
    case Run(m) => NewSpb(c, me, nd, m, rd, x);
    case Recv(m, o) =>
      if IsRoundMsg(m) {
        NewRound(c, me, nd, ev, SlotOf(m), x);
      } else if m.Halt? {
        NewEpoch(c, me, nd, m, o, rd, x);
      }
    case Start(o) =>
    case Loop(_, _) =>
  }

  /** Every message in a node's log is backed by the node's state. */
  lemma {:induction false} SentFact(c: Cfg, me: int, evs: seq<Event>, x: Envelope)
    requires c.n >= 1 && x in After(c, me, evs).sends
    ensures var nd := After(c, me, evs).nd; Fact(c, me, nd, RoundOf(nd, Ground(x.msg)), x)
  {
    var o := After(c, me, evs[..|evs| - 1]);
    var ev := evs[|evs| - 1];
    if x in o.sends {
      SentFact(c, me, evs[..|evs| - 1], x);
      FactStays(c, me, o.nd, ev, x);
    } else {
      NewSent(c, me, o.nd, ev, x);
    }
  }
}

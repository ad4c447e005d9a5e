/** Which rounds a node opens, with which block, and that it opens each at most once. */
module Proposals {
  import opened Messages
  import opened Committee
  import opened Votes
  import opened Node
  import opened Local
  import opened Sent

  function Before(sl: Slot): Slot {
    Slot(sl.e, sl.r - 1)
  }

  // ------------------------------------------------------------------ entering an epoch

  /** The payloads handed out as the node enters epoch e: it starts there, or acts on a halt of
      the epoch before whose block it has stored. */
  function Entering(nd: State, ev: Event, e: int): Option<seq<nat>> {
    match ev
    case Start(o) => if !nd.started && nd.epoch == e then Some(o.payloads) else None
    case Recv(m, o) =>
      if nd.started && m.Halt? && m.epoch + 1 == e && m.epoch >= nd.epoch && m.epoch !in nd.halted
         && m.hash.HashOf? && m.hash.block in nd.store
      then Some(o.payloads) else None
    case _ => None
  }

  /** The payloads with which the node has opened epoch e. */
  function Entry(c: Cfg, me: int, evs: seq<Event>, e: int): Option<seq<nat>>
    requires c.n >= 1
  {
    if evs == [] then None
    else
      var init := evs[..|evs| - 1];
      var was := Entry(c, me, init, e);
      if was.Some? then was else Entering(After(c, me, init).nd, evs[|evs| - 1], e)
  }

  // -------------------------------------------------------- the outcome of the round before

  /** The block a digest names, if the node has stored it. */
  function Kept(nd: State, d: Option<Digest>): Option<Block> {
    if d.Some? && d.value.HashOf? && d.value.block in nd.store then Some(d.value.block) else None
  }

  /** The block that the 2f+1st final vote of slot sl calls for: none if every vote is a yes, the
      node's own if none is, otherwise the block that vote names. */
  ghost function Called(c: Cfg, me: int, nd: State, ev: Event, sl: Slot): Option<Block> {
    var fin := RoundOf(nd, sl).fin;
    if !Touches(nd, ev, sl) || !ev.m.FinVote? || ev.m.author in Authors(fin) || |fin| + 1 != High(c.n) then None
    else
      var votes := fin + [ev.m];
      if forall i :: 0 <= i < |votes| ==> IsYes(votes[i]) then None
      else if forall i :: 0 <= i < |votes| ==> !IsYes(votes[i]) then Kept(nd, SpbOf(nd, Inst(sl.e, sl.r, me)).hash)
      else Kept(nd, Some(ev.m.hash))
  }

  /** The block that the outcome of slot sl has called for. */
  ghost function Opening(c: Cfg, me: int, evs: seq<Event>, sl: Slot): Option<Block>
    requires c.n >= 1
  {
    if evs == [] then None
    else
      var init := evs[..|evs| - 1];
      var was := Opening(c, me, init, sl);
      if was.Some? then was else Called(c, me, After(c, me, init).nd, evs[|evs| - 1], sl)
  }

  // --------------------------------------------------------------------------- one event

  /** The one-phase proposals for slot sl in what one event sends: at most one for each reason. */
  predicate Proposes(me: int, sends: seq<Envelope>, sl: Slot, called: Option<Block>, payloads: Option<seq<nat>>) {
    && |sends| <= 2
    && NumSent(sends, KProposal, sl) == Unit(called.Some?) + Unit(payloads.Some?)
    && (called.Some? ==> Env(NONE, Proposal(me, called.value, sl.e, sl.r, ONE_PHASE)) in sends)
    && (payloads.Some? ==> Env(NONE, Proposal(me, Block(me, payloads.value, sl.e), sl.e, sl.r, ONE_PHASE)) in sends)
  }

  /** Round 0 is opened on entering the epoch, no other round is. */
  function ForRound<T>(x: Option<T>, r: int): Option<T> {
    if r == 0 then x else None
  }

  lemma {:induction false} VoteCalls(c: Cfg, me: int, nd: State, ev: Event, sl: Slot)
    requires Touches(nd, ev, Before(sl)) && ev.m.FinVote?
    ensures var r := OnFinVote(c, me, nd, RoundOf(nd, Before(sl)), ev.m);
            Proposes(me, r.sends, sl, Called(c, me, nd, ev, Before(sl)), None)
  {
    hide YesCount;
    YesCountAll(RoundOf(nd, Before(sl)).fin + [ev.m]);
  }

  lemma {:induction false} RoundProposes(c: Cfg, me: int, nd: State, ev: Event, sl: Slot)
    requires c.n >= 1 && ev.Recv? && Touches(nd, ev, SlotOf(ev.m))
    ensures Proposes(me, Step(c, me, nd, ev).sends, sl, Called(c, me, nd, ev, Before(sl)), None)
  {
    hide Step;
    Touched(c, me, nd, ev, SlotOf(ev.m));
    if ev.m.FinVote? && Before(sl) == SlotOf(ev.m) {
      VoteCalls(c, me, nd, ev, sl);
    } else {
      Frame(c, me, nd, RoundOf(nd, SlotOf(ev.m)), ev.m);
    }
  }

  lemma {:induction false} EntryProposes(c: Cfg, me: int, nd: State, ev: Event, sl: Slot)
    requires c.n >= 1 && (ev.Start? || (ev.Recv? && ev.m.Halt?))
    ensures Proposes(me, Step(c, me, nd, ev).sends, sl, None, ForRound(Entering(nd, ev, sl.e), sl.r))
  {
  }

  lemma {:induction false} StepProposes(c: Cfg, me: int, nd: State, ev: Event, sl: Slot)
    requires c.n >= 1
    ensures Proposes(me, Step(c, me, nd, ev).sends, sl, Called(c, me, nd, ev, Before(sl)), ForRound(Entering(nd, ev, sl.e), sl.r))
  {
    if ev.Recv? && Touches(nd, ev, SlotOf(ev.m)) {
      RoundProposes(c, me, nd, ev, sl);
    } else if ev.Run? {
      TaskSends(c, me, nd, ev.m);
    } else if ev.Start? || (ev.Recv? && ev.m.Halt?) {
      EntryProposes(c, me, nd, ev, sl);
    }
  }

  // --------------------------------------------------------------------------- whole runs

  /** A round whose outcome has called for a block has its 2f+1 votes; an epoch that was opened
      is not ahead of the node. */
  lemma {:induction false} CalledOnce(c: Cfg, me: int, evs: seq<Event>, sl: Slot)
    requires c.n >= 1
    ensures Opening(c, me, evs, sl).Some? ==> |RoundOf(After(c, me, evs).nd, sl).fin| >= High(c.n)
  {
    if evs != [] {
      var nd, ev := After(c, me, evs[..|evs| - 1]).nd, evs[|evs| - 1];
      CalledOnce(c, me, evs[..|evs| - 1], sl);
      if Touches(nd, ev, sl) {
        Touched(c, me, nd, ev, sl);
        CountsVote(c, me, nd, RoundOf(nd, sl), ev.m);
      } else {
        Untouched(c, me, nd, ev, sl);
      }
    }
  }

  lemma {:induction false} CountsVote(c: Cfg, me: int, nd: State, rd: Round, m: Msg)
    requires c.n >= 1 && IsRoundMsg(m)
    ensures OnRound(c, me, nd, rd, m).rd.fin == if m.FinVote? && m.author !in Authors(rd.fin) then rd.fin + [m] else rd.fin
  {
    Frame(c, me, nd, rd, m);
    if m.FinVote? {
      FinVoteShape(c, me, nd, rd, m);
    }
  }

  lemma {:induction false} EnteredOnce(c: Cfg, me: int, evs: seq<Event>, e: int)
    requires c.n >= 1
    ensures var nd := After(c, me, evs).nd; Entry(c, me, evs, e).Some? ==> nd.started && e <= nd.epoch
  {
    if evs != [] {
      var nd, ev := After(c, me, evs[..|evs| - 1]).nd, evs[|evs| - 1];
      EnteredOnce(c, me, evs[..|evs| - 1], e);
      LifeKeeps(c, me, nd, ev);
      EpochStep(c, me, nd, ev);
    }
  }

  /** The one-phase proposals of a slot in a log, exactly: one for the block the outcome of the
      round before called for, and in round 0 one for a new block holding the payloads with which
      the node entered the epoch. */
  lemma {:induction false} RoundsOpenExactly(c: Cfg, me: int, evs: seq<Event>, sl: Slot)
    requires c.n >= 1
    ensures var o, called := After(c, me, evs), Opening(c, me, evs, Before(sl));
            var payloads := ForRound(Entry(c, me, evs, sl.e), sl.r);
            && Num(o.sends, KProposal, sl) == Unit(called.Some?) + Unit(payloads.Some?)
            && (called.Some? ==> Env(NONE, Proposal(me, called.value, sl.e, sl.r, ONE_PHASE)) in o.sends)
            && (payloads.Some? ==> Env(NONE, Proposal(me, Block(me, payloads.value, sl.e), sl.e, sl.r, ONE_PHASE)) in o.sends)
  {
    if evs != [] {
      var init, ev := evs[..|evs| - 1], evs[|evs| - 1];
      var o := After(c, me, init);
      RoundsOpenExactly(c, me, init, sl);
      CalledOnce(c, me, init, Before(sl));
      EnteredOnce(c, me, init, sl.e);
      StepProposes(c, me, o.nd, ev, sl);
      NumSends(o.sends, Step(c, me, o.nd, ev).sends, KProposal, sl);
    }
  }

  /** So there is at most one for entering the epoch and at most one for the round before. */
  lemma {:induction false} ProposalsBounded(c: Cfg, me: int, evs: seq<Event>, sl: Slot)
    requires c.n >= 1
    ensures var o := After(c, me, evs);
            Num(o.sends, KProposal, sl) <=
            Unit(sl.r == 0 && o.nd.started && sl.e <= o.nd.epoch) + Unit(|RoundOf(o.nd, Before(sl)).fin| >= High(c.n))
  {
    RoundsOpenExactly(c, me, evs, sl);
    CalledOnce(c, me, evs, Before(sl));
    EnteredOnce(c, me, evs, sl.e);
  }

  /** Two messages of a kind of which a log holds at most one are the same. */
  lemma {:induction false} OnlyOne(out: seq<Envelope>, x: Envelope, y: Envelope, k: Kind, sl: Slot)
    requires x in out && y in out && OfKind(x.msg, k, sl) && OfKind(y.msg, k, sl)
    requires Num(out, k, sl) <= 1
    ensures x == y
  {
    var init, z := out[..|out| - 1], out[|out| - 1];
    if x == z && y == z {
    } else if x != z && y != z {
      OnlyOne(init, x, y, k, sl);
    } else {
      NumMember(init, if x == z then y else x, k, sl);
    }
  }
}

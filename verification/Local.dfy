/** What holds of one node after any sequence of events at all, whatever the other
    nodes send it and in whatever order. */
module Local {
  import opened Messages
  import opened Committee
  import opened Votes
  import Spb
  import opened Node

  /** The state and the log of a node after a sequence of events. */
  function After(c: Cfg, me: int, evs: seq<Event>): Out
    requires c.n >= 1
  {
    if evs == [] then Out(INIT, [])
    else
      var o := After(c, me, evs[..|evs| - 1]);
      var r := Step(c, me, o.nd, evs[|evs| - 1]);
      Out(r.nd, o.sends + r.sends)
  }

  /** A halt that is acted on names a block the node has stored. */
  predicate HaltFindsBlock(nd: State, ev: Event) {
    ev.Recv? && ev.m.Halt? && nd.started && ev.m.epoch >= nd.epoch ==> GetBlock(nd, ev.m.hash).Some?
  }

  predicate HaltsFindBlocks(c: Cfg, me: int, evs: seq<Event>)
    requires c.n >= 1
  {
    evs == [] ||
    (HaltsFindBlocks(c, me, evs[..|evs| - 1]) &&
     HaltFindsBlock(After(c, me, evs[..|evs| - 1]).nd, evs[|evs| - 1]))
  }

  datatype Kind = KProposal | KDone | KShare | KPrevote | KFinVote | KHalt

  predicate OfKind(m: Msg, k: Kind, sl: Slot) {
    SlotOf(m) == sl &&
    match k
    case KProposal => m.Proposal? && m.phase == ONE_PHASE
    case KDone => m.Done?
    case KShare => m.ElectShare?
    case KPrevote => m.Prevote?
    case KFinVote => m.FinVote?
    case KHalt => m.Halt?
  }

  function Unit(b: bool): nat {
    if b then 1 else 0
  }

  /** How many messages of one kind and slot a log holds. */
  function Num(out: seq<Envelope>, k: Kind, sl: Slot): nat {
    if out == [] then 0
    else Num(out[..|out| - 1], k, sl) + Unit(OfKind(out[|out| - 1].msg, k, sl))
  }

  /** The same for the at most two messages of one event. */
  function NumSent(sends: seq<Envelope>, k: Kind, sl: Slot): nat {
    (if |sends| >= 1 then Unit(OfKind(sends[0].msg, k, sl)) else 0) +
    (if |sends| >= 2 then Unit(OfKind(sends[1].msg, k, sl)) else 0)
  }

  lemma NumSends(out: seq<Envelope>, sends: seq<Envelope>, k: Kind, sl: Slot)
    requires |sends| <= 2
    ensures Num(out + sends, k, sl) == Num(out, k, sl) + NumSent(sends, k, sl)
  {
    if |sends| == 0 {
      assert out + sends == out;
    } else if |sends| == 1 {
      assert (out + sends)[..|out|] == out;
    } else {
      var one := out + sends[..1];
      assert one[..|out|] == out;
      assert (out + sends)[..|out| + 1] == one;
    }
  }

  /** A message of a slot that a log holds one of. */
  lemma {:induction false} SomeOfKind(out: seq<Envelope>, k: Kind, sl: Slot) returns (x: Envelope)
    requires Num(out, k, sl) >= 1
    ensures x in out && OfKind(x.msg, k, sl)
  {
    x := out[|out| - 1];
    if !OfKind(x.msg, k, sl) {
      x := SomeOfKind(out[..|out| - 1], k, sl);
    }
  }

  /** A log without messages of a kind counts none; a log with one counts it. */
  lemma {:induction false} NumMember(out: seq<Envelope>, x: Envelope, k: Kind, sl: Slot)
    requires x in out && OfKind(x.msg, k, sl)
    ensures Num(out, k, sl) >= 1
  {
    if out[|out| - 1] != x {
      assert x in out[..|out| - 1];
      NumMember(out[..|out| - 1], x, k, sl);
    }
  }

  /** No message of the slot, where a slot's messages are those of its round handlers. */
  predicate OfRound(m: Msg, sl: Slot) {
    SlotOf(m) == sl && (m.Done? || m.ElectShare? || m.Prevote? || m.FinVote? || m.Halt?)
  }

  predicate Quiet(sends: seq<Envelope>, sl: Slot) {
    && |sends| <= 2
    && (|sends| >= 1 ==> !OfRound(sends[0].msg, sl))
    && (|sends| >= 2 ==> !OfRound(sends[1].msg, sl))
  }

  lemma NumQuiet(out: seq<Envelope>, sends: seq<Envelope>, k: Kind, sl: Slot)
    requires Quiet(sends, sl) && k != KProposal
    ensures Num(out + sends, k, sl) == Num(out, k, sl)
  {
    NumSends(out, sends, k, sl);
  }

  // ---------------------------------------------------- which events touch a slot

  /** The event hands the node a message that updates the record of slot sl. */
  predicate Touches(nd: State, ev: Event, sl: Slot) {
    ev.Recv? && nd.started && IsRoundMsg(ev.m) && SlotOf(ev.m) == sl && ev.m.epoch >= nd.epoch
  }

  /** The event is a halt of slot sl that the node acts on. */
  predicate Halts(nd: State, ev: Event, sl: Slot) {
    ev.Recv? && nd.started && ev.m.Halt? && SlotOf(ev.m) == sl && ev.m.epoch >= nd.epoch && ev.m.epoch !in nd.halted
  }

  /** What a round handler may send on a message m: which kinds, and for which slot. */
  predicate MaySend(x: Msg, m: Msg) {
    match m
    case Finish(_, _, _, _) => OfRound(x, SlotOf(m)) && (x.Done? || x.ElectShare?)
    case Done(_, _, _) => OfRound(x, SlotOf(m)) && !x.FinVote?
    case ElectShare(_, _, _) => OfRound(x, SlotOf(m)) && (x.Prevote? || x.Halt?)
    case Prevote(_, _, _, _, _, _) => OfRound(x, SlotOf(m)) && x.FinVote?
    case FinVote(_, _, _, _, _, _) =>
      (OfRound(x, SlotOf(m)) && x.Halt?) || OfKind(x, KProposal, Slot(m.epoch, m.round + 1))
    case _ => false
  }

  /** The fields a round handler leaves alone, and the shape of what it sends. */
  predicate RoundFrame(rd: Round, m: Msg, r: RoundOut) {
    && (!m.Finish? ==> r.rd.finish == rd.finish)
    && (!m.Done? ==> r.rd.done == rd.done && r.rd.ready == rd.ready)
    && (!m.Finish? && !m.Done? ==> r.rd.doneFlag == rd.doneFlag && |r.sends| <= 1)
    && (!m.ElectShare? ==> r.rd.shares == rd.shares && r.rd.leader == rd.leader)
    && (!m.Prevote? ==> r.rd.pre == rd.pre)
    && (!m.FinVote? ==> r.rd.fin == rd.fin)
    && |r.sends| <= 2
    && (|r.sends| >= 1 ==> MaySend(r.sends[0].msg, m))
    && (|r.sends| >= 2 ==> MaySend(r.sends[1].msg, m))
  }

  lemma {:induction false} FrameFinish(c: Cfg, me: int, rd: Round, m: Msg)
    requires m.Finish?
    ensures RoundFrame(rd, m, OnFinish(c, me, rd, m))
  {}

  lemma {:induction false} FrameDone(c: Cfg, me: int, nd: State, rd: Round, m: Msg)
    requires m.Done?
    ensures RoundFrame(rd, m, OnDone(c, me, nd, rd, m))
  {}

  lemma {:induction false} FrameShare(c: Cfg, me: int, nd: State, rd: Round, m: Msg)
    requires m.ElectShare? && c.n >= 1
    ensures RoundFrame(rd, m, OnShare(c, me, nd, rd, m))
  {}

  lemma {:induction false} FramePrevote(c: Cfg, me: int, rd: Round, m: Msg)
    requires m.Prevote?
    ensures RoundFrame(rd, m, OnPrevote(c, me, rd, m))
  {}

  lemma {:induction false} NextRoundSends(me: int, nd: State, sl: Slot, action: Action, voted: Digest)
    ensures var s := NextRound(me, nd, sl, action, voted);
            |s| <= 1 && (|s| == 1 ==> OfKind(s[0].msg, KProposal, Slot(sl.e, sl.r + 1)))
  {
  }

  lemma {:induction false} FrameFinVote(c: Cfg, me: int, nd: State, rd: Round, m: Msg)
    requires m.FinVote?
    ensures RoundFrame(rd, m, OnFinVote(c, me, nd, rd, m))
  {
    if m.author !in Authors(rd.fin) {
      match FinAction(rd.fin, m, High(c.n))
      case ActionYes => NextRoundSends(me, nd, SlotOf(m), ActionYes, m.hash);
      case ActionNo => NextRoundSends(me, nd, SlotOf(m), ActionNo, Zero);
      case _ =>
    }
  }

  lemma {:induction false} Frame(c: Cfg, me: int, nd: State, rd: Round, m: Msg)
    requires c.n >= 1 && IsRoundMsg(m)
    ensures RoundFrame(rd, m, OnRound(c, me, nd, rd, m))
  {
    match m
    case Finish(_, _, _, _) => FrameFinish(c, me, rd, m);
    case Done(_, _, _) => FrameDone(c, me, nd, rd, m);
    case ElectShare(_, _, _) => FrameShare(c, me, nd, rd, m);
    case Prevote(_, _, _, _, _, _) => FramePrevote(c, me, rd, m);
    case FinVote(_, _, _, _, _, _) => FrameFinVote(c, me, nd, rd, m);
  }

  lemma {:induction false} SpbSends(me: int, k: Inst, s: Spb.State, m: Msg, th: nat)
    requires (m.Proposal? || m.SpbVote?) && k == InstOf(m)
    ensures var sends := Spb.OnMessage(me, k, s, m, th).sends;
            && |sends| <= 1
            && (|sends| == 1 ==>
                  var x := sends[0].msg; x.SpbVote? || x.Finish? || (x.Proposal? && x.phase == TWO_PHASE))
  {
  }

  lemma {:induction false} TaskSends(c: Cfg, me: int, nd: State, m: Msg)
    ensures var r := RunTask(c, me, nd, m);
            && |r.sends| <= 1
            && (|r.sends| == 1 ==>
                  var x := r.sends[0].msg; x.SpbVote? || x.Finish? || (x.Proposal? && x.phase == TWO_PHASE))
            && r.nd == nd.(spb := r.nd.spb, tasks := r.nd.tasks)
  {
    if m in nd.tasks && (m.Proposal? || m.SpbVote?) {
      SpbSends(me, InstOf(m), SpbOf(nd, InstOf(m)), m, High(c.n));
    }
  }

  /** An event that does not touch a slot leaves its record alone, except that a halt
      sets the leader, and sends nothing for it. */
  predicate LeavesAlone(nd: State, r: Out, sl: Slot) {
    RoundOf(r.nd, sl) == RoundOf(nd, sl) && Quiet(r.sends, sl)
  }

  lemma {:induction false} HaltLeaves(me: int, nd: State, h: Msg, o: Oracle, sl: Slot)
    requires h.Halt?
    ensures var r := OnHalt(me, nd, h, o);
            && Quiet(r.sends, sl)
            && RoundOf(r.nd, sl) == RoundOf(nd, sl).(leader := RoundOf(r.nd, sl).leader)
            && (SlotOf(h) != sl || h.epoch < nd.epoch || h.epoch in nd.halted ==> RoundOf(r.nd, sl) == RoundOf(nd, sl))
  {
  }

  /** Proposals and loopbacks touch only the store, what waits to run and what is submitted. */
  lemma {:induction false} ProposalStays(nd: State, p: Msg, o: Oracle)
    requires p.Proposal?
    ensures var nd' := OnProposal(nd, p, o);
            nd' == nd.(store := nd'.store, tasks := nd'.tasks, submitted := nd'.submitted)
  {
  }

  lemma {:induction false} LoopStays(nd: State, d: Digest, o: Oracle)
    ensures var nd' := OnLoopBack(nd, d, o);
            nd' == nd.(store := nd'.store, tasks := nd'.tasks, submitted := nd'.submitted)
  {
  }

  lemma {:induction false} FrameIsQuiet(rd: Round, m: Msg, r: RoundOut, sl: Slot)
    requires RoundFrame(rd, m, r) && SlotOf(m) != sl
    ensures Quiet(r.sends, sl)
  {
  }

  lemma {:induction false} OthersLeave(c: Cfg, me: int, nd: State, ev: Event, sl: Slot)
    requires c.n >= 1 && !Touches(nd, ev, sl) && !(ev.Recv? && ev.m.Halt?)
    ensures LeavesAlone(nd, Step(c, me, nd, ev), sl)
  {
    hide OnRound, RoundFrame, OnHalt, OnProposal, OnLoopBack, RunTask;
    if ev.Recv? {
      if IsRoundMsg(ev.m) {
        if nd.started && ev.m.epoch >= nd.epoch {
          var rd := RoundOf(nd, SlotOf(ev.m));
          Frame(c, me, nd, rd, ev.m);
          FrameIsQuiet(rd, ev.m, OnRound(c, me, nd, rd, ev.m), sl);
        }
      } else if ev.m.Proposal? {
        ProposalStays(nd, ev.m, ev.o);
      }
    } else if ev.Run? {
      TaskSends(c, me, nd, ev.m);
    } else if ev.Loop? {
      LoopStays(nd, ev.d, ev.o);
    }
  }

  lemma {:induction false} Untouched(c: Cfg, me: int, nd: State, ev: Event, sl: Slot)
    requires c.n >= 1 && !Touches(nd, ev, sl)
    ensures var r := Step(c, me, nd, ev);
            && Quiet(r.sends, sl)
            && RoundOf(r.nd, sl) == RoundOf(nd, sl).(leader := RoundOf(r.nd, sl).leader)
            && (!Halts(nd, ev, sl) ==> RoundOf(r.nd, sl) == RoundOf(nd, sl))
  {
    if ev.Recv? && ev.m.Halt? {
      HaltLeaves(me, nd, ev.m, ev.o, sl);
    } else {
      OthersLeave(c, me, nd, ev, sl);
    }
  }

  lemma {:induction false} Touched(c: Cfg, me: int, nd: State, ev: Event, sl: Slot)
    requires c.n >= 1 && Touches(nd, ev, sl)
    ensures var r := OnRound(c, me, nd, RoundOf(nd, sl), ev.m);
            Step(c, me, nd, ev) == Out(nd.(rounds := nd.rounds[sl := r.rd]), r.sends)
  {
  }

  // ------------------------------------------------------------- Done and shares

  /** The Done flag of a slot is set exactly when 2f+1 finishes or f+1 dones are recorded,
      and exactly then one Done and one coin share have been sent. */
  ghost predicate DoneInv(c: Cfg, me: int, rd: Round, out: seq<Envelope>, sl: Slot) {
    && (rd.doneFlag <==> |rd.finish| >= High(c.n) || |rd.done| >= Low(c.n))
    && Num(out, KDone, sl) == Num(out, KShare, sl) == Unit(rd.doneFlag)
  }

  lemma {:induction false} DoneOnFinish(c: Cfg, me: int, rd: Round, m: Msg, out: seq<Envelope>)
    requires m.Finish? && DoneInv(c, me, rd, out, SlotOf(m))
    ensures var r := OnFinish(c, me, rd, m); DoneInv(c, me, r.rd, out + r.sends, SlotOf(m))
  {
    FrameFinish(c, me, rd, m);
    NumSends(out, OnFinish(c, me, rd, m).sends, KDone, SlotOf(m));
    NumSends(out, OnFinish(c, me, rd, m).sends, KShare, SlotOf(m));
  }

  lemma {:induction false} DoneShape(c: Cfg, me: int, nd: State, rd: Round, m: Msg)
    requires m.Done?
    ensures var r := OnDone(c, me, nd, rd, m);
            && (r.rd.doneFlag <==> rd.doneFlag || |rd.done| < Low(c.n) <= |r.rd.done|)
            && NumSent(r.sends, KDone, SlotOf(m)) == NumSent(r.sends, KShare, SlotOf(m))
               == Unit(r.rd.doneFlag) - Unit(rd.doneFlag)
            && |r.rd.done| == |rd.done| + Unit(m.author !in rd.done)
  {
  }

  lemma {:induction false} DoneOnDone(c: Cfg, me: int, nd: State, rd: Round, m: Msg, out: seq<Envelope>)
    requires m.Done? && DoneInv(c, me, rd, out, SlotOf(m))
    ensures var r := OnDone(c, me, nd, rd, m); DoneInv(c, me, r.rd, out + r.sends, SlotOf(m))
  {
    var r := OnDone(c, me, nd, rd, m);
    FrameDone(c, me, nd, rd, m);
    DoneShape(c, me, nd, rd, m);
    NumSends(out, r.sends, KDone, SlotOf(m));
    NumSends(out, r.sends, KShare, SlotOf(m));
  }

  lemma {:induction false} DoneElse(c: Cfg, me: int, rd: Round, m: Msg, r: RoundOut, out: seq<Envelope>)
    requires RoundFrame(rd, m, r) && !m.Finish? && !m.Done? && DoneInv(c, me, rd, out, SlotOf(m))
    ensures DoneInv(c, me, r.rd, out + r.sends, SlotOf(m))
  {
    FrameDones(rd, m, r);
    NumSends(out, r.sends, KDone, SlotOf(m));
    NumSends(out, r.sends, KShare, SlotOf(m));
  }

  lemma FrameDones(rd: Round, m: Msg, r: RoundOut)
    requires RoundFrame(rd, m, r) && !m.Finish? && !m.Done?
    ensures NumSent(r.sends, KDone, SlotOf(m)) == NumSent(r.sends, KShare, SlotOf(m)) == 0
  {
  }

  lemma {:induction false} DoneRound(c: Cfg, me: int, nd: State, rd: Round, m: Msg, out: seq<Envelope>)
    requires c.n >= 1 && IsRoundMsg(m) && DoneInv(c, me, rd, out, SlotOf(m))
    ensures var r := OnRound(c, me, nd, rd, m); DoneInv(c, me, r.rd, out + r.sends, SlotOf(m))
  {
    if m.Finish? {
      DoneOnFinish(c, me, rd, m, out);
    } else if m.Done? {
      DoneOnDone(c, me, nd, rd, m, out);
    } else {
      Frame(c, me, nd, rd, m);
      DoneElse(c, me, rd, m, OnRound(c, me, nd, rd, m), out);
    }
  }

  lemma {:induction false} DoneExactly(c: Cfg, me: int, evs: seq<Event>, sl: Slot)
    requires c.n >= 1
    ensures DoneInv(c, me, RoundOf(After(c, me, evs).nd, sl), After(c, me, evs).sends, sl)
  {
    if evs != [] {
      var o := After(c, me, evs[..|evs| - 1]);
      var ev := evs[|evs| - 1];
      DoneExactly(c, me, evs[..|evs| - 1], sl);
      if Touches(o.nd, ev, sl) {
        Touched(c, me, o.nd, ev, sl);
        DoneRound(c, me, o.nd, RoundOf(o.nd, sl), ev.m, o.sends);
      } else {
        Untouched(c, me, o.nd, ev, sl);
        NumQuiet(o.sends, Step(c, me, o.nd, ev).sends, KDone, sl);
        NumQuiet(o.sends, Step(c, me, o.nd, ev).sends, KShare, sl);
      }
    }
  }

  // ----------------------------------------------------------------- readiness

  lemma {:induction false} ReadyRound(c: Cfg, me: int, nd: State, rd: Round, m: Msg)
    requires c.n >= 4 && m.Done? && (rd.ready <==> |rd.done| >= High(c.n))
    ensures var r := OnDone(c, me, nd, rd, m); r.rd.ready <==> |r.rd.done| >= High(c.n)
  {
  }

  /** With at least four nodes, a slot is ready exactly when 2f+1 dones are recorded. */
  lemma {:induction false} ReadyExactly(c: Cfg, me: int, evs: seq<Event>, sl: Slot)
    requires c.n >= 4
    ensures var rd := RoundOf(After(c, me, evs).nd, sl); rd.ready <==> |rd.done| >= High(c.n)
  {
    if evs != [] {
      var o := After(c, me, evs[..|evs| - 1]);
      var ev := evs[|evs| - 1];
      ReadyExactly(c, me, evs[..|evs| - 1], sl);
      if Touches(o.nd, ev, sl) {
        Touched(c, me, o.nd, ev, sl);
        if ev.m.Done? {
          ReadyRound(c, me, o.nd, RoundOf(o.nd, sl), ev.m);
        } else {
          Frame(c, me, o.nd, RoundOf(o.nd, sl), ev.m);
        }
      } else {
        Untouched(c, me, o.nd, ev, sl);
      }
    }
  }

  // --------------------------------------------------------------------- epochs

  lemma {:induction false} HaltEpoch(me: int, nd: State, h: Msg, o: Oracle)
    requires h.Halt?
    ensures var nd' := OnHalt(me, nd, h, o).nd;
            if h.epoch >= nd.epoch && h.epoch !in nd.halted && GetBlock(nd, h.hash).Some?
            then nd'.epoch == h.epoch + 1 && nd'.halted == nd.halted + {h.epoch}
            else nd'.epoch == nd.epoch && nd'.halted == nd.halted
  {
  }

  lemma {:induction false} SameEpoch(c: Cfg, me: int, nd: State, ev: Event)
    requires c.n >= 1 && !(ev.Recv? && ev.m.Halt?)
    ensures var nd' := Step(c, me, nd, ev).nd; nd'.epoch == nd.epoch && nd'.halted == nd.halted
  {
    hide OnRound, OnHalt, OnProposal, OnLoopBack, Spb.OnMessage;
    if ev.Recv? && ev.m.Proposal? {
      ProposalStays(nd, ev.m, ev.o);
    } else if ev.Loop? {
      LoopStays(nd, ev.d, ev.o);
    }
  }

  /** A halt that finds its block moves the node past the halted epoch; nothing moves it back. */
  lemma {:induction false} EpochStep(c: Cfg, me: int, nd: State, ev: Event)
    requires c.n >= 1
    ensures var nd' := Step(c, me, nd, ev).nd;
            && nd.epoch <= nd'.epoch
            && (nd.epoch != nd'.epoch || nd.halted != nd'.halted ==>
                  && ev.Recv? && Halts(nd, ev, SlotOf(ev.m))
                  && GetBlock(nd, ev.m.hash).Some?)
            && (ev.Recv? && Halts(nd, ev, SlotOf(ev.m)) && GetBlock(nd, ev.m.hash).Some? ==>
                  nd'.epoch == ev.m.epoch + 1 && nd'.halted == nd.halted + {ev.m.epoch})
  {
    if ev.Recv? && ev.m.Halt? {
      HaltEpoch(me, nd, ev.m, ev.o);
    } else {
      SameEpoch(c, me, nd, ev);
    }
  }

  /** Every halted epoch is below the current one. */
  lemma {:induction false} HaltedBelow(c: Cfg, me: int, evs: seq<Event>, e: int)
    requires c.n >= 1 && e in After(c, me, evs).nd.halted
    ensures e < After(c, me, evs).nd.epoch
  {
    if evs != [] {
      var o := After(c, me, evs[..|evs| - 1]);
      EpochStep(c, me, o.nd, evs[|evs| - 1]);
      if e in o.nd.halted {
        HaltedBelow(c, me, evs[..|evs| - 1], e);
      }
    }
  }

  lemma {:induction false} EpochGrows(c: Cfg, me: int, evs: seq<Event>, k: nat)
    requires c.n >= 1 && k <= |evs|
    ensures After(c, me, evs[..k]).nd.epoch <= After(c, me, evs).nd.epoch
  {
    if k == |evs| {
      assert evs[..k] == evs;
    } else {
      var init := evs[..|evs| - 1];
      assert init[..k] == evs[..k];
      EpochGrows(c, me, init, k);
      EpochStep(c, me, After(c, me, init).nd, evs[|evs| - 1]);
    }
  }

  /** The k-th event of a run is a halt that ends its epoch. */
  ghost predicate EndsEpoch(c: Cfg, me: int, evs: seq<Event>, k: nat)
    requires c.n >= 1 && k < |evs|
  {
    var nd := After(c, me, evs[..k]).nd;
    evs[k].Recv? && Halts(nd, evs[k], SlotOf(evs[k].m)) && GetBlock(nd, evs[k].m.hash).Some?
  }

  /** Epochs end in strictly increasing order, so each ends at most once. */
  lemma {:induction false} EpochsEndInOrder(c: Cfg, me: int, evs: seq<Event>, i: nat, j: nat)
    requires c.n >= 1 && i < j < |evs|
    requires EndsEpoch(c, me, evs, i) && EndsEpoch(c, me, evs, j)
    ensures evs[i].m.epoch < evs[j].m.epoch
  {
    EpochStep(c, me, After(c, me, evs[..i]).nd, evs[i]);
    assert evs[..i + 1][..i] == evs[..i];
    assert evs[..j][..i + 1] == evs[..i + 1];
    EpochGrows(c, me, evs[..j], i + 1);
  }

  // ------------------------------------------------------------------ the leader

  ghost predicate LeaderInv(c: Cfg, rd: Round, sl: Slot)
    requires c.n >= 1
  {
    rd.leader == if |rd.shares| >= High(c.n) then Elected(c, sl) else NONE
  }

  lemma {:induction false} LeaderRound(c: Cfg, me: int, nd: State, rd: Round, m: Msg)
    requires c.n >= 1 && m.ElectShare? && LeaderInv(c, rd, SlotOf(m))
    ensures LeaderInv(c, OnShare(c, me, nd, rd, m).rd, SlotOf(m))
  {
  }

  /** While a node is in the epoch, its leader is the elected one from the moment 2f+1
      shares are recorded, and none before. */
  lemma {:induction false} LeaderExactly(c: Cfg, me: int, evs: seq<Event>, sl: Slot)
    requires c.n >= 1 && HaltsFindBlocks(c, me, evs)
    ensures var nd := After(c, me, evs).nd; sl.e >= nd.epoch ==> LeaderInv(c, RoundOf(nd, sl), sl)
  {
    if evs != [] {
      var o := After(c, me, evs[..|evs| - 1]);
      var ev := evs[|evs| - 1];
      LeaderExactly(c, me, evs[..|evs| - 1], sl);
      EpochStep(c, me, o.nd, ev);
      if Touches(o.nd, ev, sl) {
        Touched(c, me, o.nd, ev, sl);
        if ev.m.ElectShare? {
          LeaderRound(c, me, o.nd, RoundOf(o.nd, sl), ev.m);
        } else {
          Frame(c, me, o.nd, RoundOf(o.nd, sl), ev.m);
        }
      } else {
        Untouched(c, me, o.nd, ev, sl);
      }
    }
  }

  /** A halt whose block is missing does break this: the node stays in the epoch and
      takes the leader the halt names. */
  lemma HaltWithoutBlock(me: int, nd: State, h: Msg, o: Oracle)
    requires h.Halt? && h.epoch >= nd.epoch && h.epoch !in nd.halted
    ensures var nd' := OnHalt(me, nd, h, o).nd;
            && RoundOf(nd', SlotOf(h)).leader == h.leader
            && (nd'.epoch == nd.epoch <==> GetBlock(nd, h.hash).None?)
  {
  }

  // ------------------------------------------------------------------- instances

  /** A locked instance has its block hash, so processLeader does not panic; votes are
      counted only after the hash is known, and nothing is buffered then. */
  ghost predicate SpbShape(s: Spb.State) {
    && (s.hash.None? ==> !s.lock && s.votes == [])
    && (s.hash.Some? ==> s.bufP == [] && s.bufV == [])
  }

  /** What a task does to its own instance; other events change no instance. */
  lemma {:induction false} SpbStep(c: Cfg, me: int, nd: State, ev: Event, k: Inst)
    requires c.n >= 1
    ensures var r := Step(c, me, nd, ev);
            if ev.Run? && ev.m in nd.tasks && (ev.m.Proposal? || ev.m.SpbVote?) && InstOf(ev.m) == k
            then
              var q := Spb.OnMessage(me, k, SpbOf(nd, k), ev.m, High(c.n));
              SpbOf(r.nd, k) == q.st && r.sends == q.sends &&
              r.nd.tasks == nd.tasks - multiset{ev.m} + multiset(q.spawn)
            else SpbOf(r.nd, k) == SpbOf(nd, k)
  {
    hide OnRound, OnProposal, OnLoopBack, Spb.OnMessage;
    if ev.Recv? && ev.m.Proposal? {
      ProposalStays(nd, ev.m, ev.o);
    } else if ev.Loop? {
      LoopStays(nd, ev.d, ev.o);
    }
  }

  /** Once set, a block hash stays and a lock stays. */
  lemma {:induction false} SpbKeeps(c: Cfg, me: int, nd: State, ev: Event, k: Inst)
    requires c.n >= 1
    ensures var s, s' := SpbOf(nd, k), SpbOf(Step(c, me, nd, ev).nd, k);
            && (s.hash.Some? ==> s'.hash == s.hash)
            && (s.lock ==> s'.lock)
            && s.votes <= s'.votes
            && (SpbShape(s) ==> SpbShape(s'))
  {
    SpbStep(c, me, nd, ev, k);
  }

  lemma {:induction false} LockHasHash(c: Cfg, me: int, evs: seq<Event>, k: Inst)
    requires c.n >= 1
    ensures SpbShape(SpbOf(After(c, me, evs).nd, k))
  {
    if evs != [] {
      LockHasHash(c, me, evs[..|evs| - 1], k);
      SpbKeeps(c, me, After(c, me, evs[..|evs| - 1]).nd, evs[|evs| - 1], k);
    }
  }

  // ------------------------------------------------------ the leader is processed once

  /** The body of processLeader has run exactly when the slot is ready and its leader is
      elected; each run and each commit sends one prevote or halt, and nothing else does. */
  ghost predicate BodyInv(c: Cfg, rd: Round, out: seq<Envelope>, sl: Slot) {
    Bodies(out, sl) == Unit(rd.ready && |rd.shares| >= High(c.n)) + Unit(Outcome(rd.fin, High(c.n)) == ActionCommit)
  }

  /** The prevotes and halts of a slot in a log. */
  function Bodies(out: seq<Envelope>, sl: Slot): nat {
    Num(out, KPrevote, sl) + Num(out, KHalt, sl)
  }

  function BodiesSent(sends: seq<Envelope>, sl: Slot): nat {
    NumSent(sends, KPrevote, sl) + NumSent(sends, KHalt, sl)
  }

  lemma BodiesAppend(out: seq<Envelope>, sends: seq<Envelope>, sl: Slot)
    requires |sends| <= 2
    ensures Bodies(out + sends, sl) == Bodies(out, sl) + BodiesSent(sends, sl)
  {
    NumSends(out, sends, KPrevote, sl);
    NumSends(out, sends, KHalt, sl);
  }

  /** The step of the count: what is sent is what newly falls due. */
  lemma BodyMoves(c: Cfg, rd: Round, r: RoundOut, out: seq<Envelope>, sl: Slot, led: bool, commit: bool)
    requires BodyInv(c, rd, out, sl) && |r.sends| <= 2
    requires BodiesSent(r.sends, sl) == Unit(led) + Unit(commit)
    requires Unit(r.rd.ready && |r.rd.shares| >= High(c.n)) == Unit(rd.ready && |rd.shares| >= High(c.n)) + Unit(led)
    requires Unit(Outcome(r.rd.fin, High(c.n)) == ActionCommit) == Unit(Outcome(rd.fin, High(c.n)) == ActionCommit) + Unit(commit)
    ensures BodyInv(c, r.rd, out + r.sends, sl)
  {
    BodiesAppend(out, r.sends, sl);
  }

  lemma {:induction false} LeaderSends(c: Cfg, me: int, nd: State, sl: Slot, rd: Round)
    requires c.n >= 1 && LeaderInv(c, rd, sl)
    requires SpbShape(SpbOf(nd, Inst(sl.e, sl.r, rd.leader)))
    ensures var s := ProcessLeader(me, nd, sl, rd);
            |s| <= 1 && BodiesSent(s, sl) == Unit(rd.ready && |rd.shares| >= High(c.n))
  {
  }

  /** A done that does not make the slot ready sends neither prevote nor halt. */
  lemma {:induction false} ReadyShape(c: Cfg, me: int, nd: State, rd: Round, m: Msg)
    requires c.n >= 4 && m.Done? && (rd.ready <==> |rd.done| >= High(c.n))
    ensures var r := OnDone(c, me, nd, rd, m);
            && r.rd.fin == rd.fin && r.rd.shares == rd.shares && r.rd.leader == rd.leader
            && (rd.ready ==> r.rd.ready)
            && (if r.rd.ready && !rd.ready then r.sends == ProcessLeader(me, nd, SlotOf(m), r.rd)
                else |r.sends| <= 2 && BodiesSent(r.sends, SlotOf(m)) == 0)
  {
  }

  lemma {:induction false} BodyOnDone(c: Cfg, me: int, nd: State, rd: Round, m: Msg, out: seq<Envelope>)
    requires c.n >= 4 && m.Done? && BodyInv(c, rd, out, SlotOf(m)) && LeaderInv(c, rd, SlotOf(m))
    requires rd.ready <==> |rd.done| >= High(c.n)
    requires SpbShape(SpbOf(nd, Inst(m.epoch, m.round, rd.leader)))
    ensures var r := OnDone(c, me, nd, rd, m); BodyInv(c, r.rd, out + r.sends, SlotOf(m))
  {
    var r := OnDone(c, me, nd, rd, m);
    ReadyShape(c, me, nd, rd, m);
    var led := r.rd.ready && !rd.ready && |rd.shares| >= High(c.n);
    if r.rd.ready && !rd.ready {
      LeaderSends(c, me, nd, SlotOf(m), r.rd);
    }
    BodyMoves(c, rd, r, out, SlotOf(m), led, false);
  }

  lemma {:induction false} BodyOnShare(c: Cfg, me: int, nd: State, rd: Round, m: Msg, out: seq<Envelope>)
    requires c.n >= 1 && m.ElectShare? && BodyInv(c, rd, out, SlotOf(m)) && LeaderInv(c, rd, SlotOf(m))
    requires SpbShape(SpbOf(nd, Inst(m.epoch, m.round, Elected(c, SlotOf(m)))))
    ensures var r := OnShare(c, me, nd, rd, m); BodyInv(c, r.rd, out + r.sends, SlotOf(m))
  {
    var r := OnShare(c, me, nd, rd, m);
    var elected := |rd.shares| < High(c.n) <= |r.rd.shares|;
    if elected {
      LeaderSends(c, me, nd, SlotOf(m), r.rd);
    }
    BodyMoves(c, rd, r, out, SlotOf(m), elected && rd.ready, false);
  }

  /** A new final vote is recorded; a commit sends a halt, anything else sends none. */
  predicate FinShape(rd: Round, m: Msg, r: RoundOut, commit: bool)
    requires m.FinVote?
  {
    && r.rd == rd.(fin := rd.fin + [m])
    && |r.sends| <= 1
    && (commit ==> |r.sends| == 1)
    && (|r.sends| == 1 ==>
          if commit then r.sends[0].msg.Halt? && SlotOf(r.sends[0].msg) == SlotOf(m) else r.sends[0].msg.Proposal?)
  }

  lemma {:induction false} FinVoteShape(c: Cfg, me: int, nd: State, rd: Round, m: Msg)
    requires m.FinVote?
    ensures var r := OnFinVote(c, me, nd, rd, m);
            if m.author in Authors(rd.fin) then r == RoundOut(rd, [])
            else FinShape(rd, m, r, FinAction(rd.fin, m, High(c.n)) == ActionCommit)
  {
    FrameFinVote(c, me, nd, rd, m);
  }

  lemma {:induction false} BodyOnFinVote(c: Cfg, rd: Round, m: Msg, r: RoundOut, out: seq<Envelope>)
    requires m.FinVote? && BodyInv(c, rd, out, SlotOf(m))
    requires FinShape(rd, m, r, FinAction(rd.fin, m, High(c.n)) == ActionCommit)
    ensures BodyInv(c, r.rd, out + r.sends, SlotOf(m))
  {
    OutcomeCommits(rd.fin, m, High(c.n));
    var commit := FinAction(rd.fin, m, High(c.n)) == ActionCommit;
    FinBodies(rd, m, r, commit);
    BodyMoves(c, rd, r, out, SlotOf(m), false, commit);
  }

  lemma FinBodies(rd: Round, m: Msg, r: RoundOut, commit: bool)
    requires m.FinVote? && FinShape(rd, m, r, commit)
    ensures BodiesSent(r.sends, SlotOf(m)) == Unit(commit)
  {
  }

  lemma FrameBodies(rd: Round, m: Msg, r: RoundOut)
    requires RoundFrame(rd, m, r) && (m.Finish? || m.Prevote?)
    ensures BodiesSent(r.sends, SlotOf(m)) == 0
  {
  }

  lemma {:induction false} BodyElse(c: Cfg, rd: Round, m: Msg, r: RoundOut, out: seq<Envelope>)
    requires RoundFrame(rd, m, r) && (m.Finish? || m.Prevote?) && BodyInv(c, rd, out, SlotOf(m))
    ensures BodyInv(c, r.rd, out + r.sends, SlotOf(m))
  {
    FrameBodies(rd, m, r);
    BodyMoves(c, rd, r, out, SlotOf(m), false, false);
  }

  lemma {:induction false} BodyRound(c: Cfg, me: int, nd: State, rd: Round, m: Msg, out: seq<Envelope>)
    requires c.n >= 4 && IsRoundMsg(m) && BodyInv(c, rd, out, SlotOf(m)) && LeaderInv(c, rd, SlotOf(m))
    requires rd.ready <==> |rd.done| >= High(c.n)
    requires SpbShape(SpbOf(nd, Inst(m.epoch, m.round, rd.leader)))
    requires SpbShape(SpbOf(nd, Inst(m.epoch, m.round, Elected(c, SlotOf(m)))))
    ensures var r := OnRound(c, me, nd, rd, m); BodyInv(c, r.rd, out + r.sends, SlotOf(m))
  {
    match m
    case Done(_, _, _) => BodyOnDone(c, me, nd, rd, m, out);
    case ElectShare(_, _, _) => BodyOnShare(c, me, nd, rd, m, out);
    case FinVote(_, _, _, _, _, _) =>
      FinVoteShape(c, me, nd, rd, m);
      if m.author in Authors(rd.fin) {
        assert out + [] == out;
      } else {
        BodyOnFinVote(c, rd, m, OnRound(c, me, nd, rd, m), out);
      }
    case Finish(_, _, _, _) =>
      FrameFinish(c, me, rd, m);
      BodyElse(c, rd, m, OnFinish(c, me, rd, m), out);
    case Prevote(_, _, _, _, _, _) =>
      FramePrevote(c, me, rd, m);
      BodyElse(c, rd, m, OnPrevote(c, me, rd, m), out);
  }

  lemma {:induction false} LeaderProcessedOnce(c: Cfg, me: int, evs: seq<Event>, sl: Slot)
    requires c.n >= 4 && HaltsFindBlocks(c, me, evs)
    ensures BodyInv(c, RoundOf(After(c, me, evs).nd, sl), After(c, me, evs).sends, sl)
  {
    if evs != [] {
      var init := evs[..|evs| - 1];
      var o := After(c, me, init);
      var ev := evs[|evs| - 1];
      LeaderProcessedOnce(c, me, init, sl);
      if Touches(o.nd, ev, sl) {
        Touched(c, me, o.nd, ev, sl);
        LeaderExactly(c, me, init, sl);
        ReadyExactly(c, me, init, sl);
        LockHasHash(c, me, init, Inst(sl.e, sl.r, RoundOf(o.nd, sl).leader));
        LockHasHash(c, me, init, Inst(sl.e, sl.r, Elected(c, sl)));
        BodyRound(c, me, o.nd, RoundOf(o.nd, sl), ev.m, o.sends);
      } else {
        Untouched(c, me, o.nd, ev, sl);
        NumQuiet(o.sends, Step(c, me, o.nd, ev).sends, KPrevote, sl);
        NumQuiet(o.sends, Step(c, me, o.nd, ev).sends, KHalt, sl);
      }
    }
  }
}

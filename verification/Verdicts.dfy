/** What a node says about the leader of a slot, exactly: one prevote or halt when the slot is
    ready and its leader is known, and a halt when the final votes commit. */
module Verdicts {
  import opened Messages
  import opened Committee
  import opened Votes
  import opened Node
  import opened Local

  predicate IsVerdict(m: Msg, sl: Slot) {
    SlotOf(m) == sl && (m.Prevote? || m.Halt?)
  }

  /** The prevotes and halts of a slot in a log, in order. */
  function VerdictsIn(out: seq<Envelope>, sl: Slot): seq<Envelope> {
    if out == [] then []
    else VerdictsIn(out[..|out| - 1], sl) + if IsVerdict(out[|out| - 1].msg, sl) then [out[|out| - 1]] else []
  }

  /** The same for the at most two messages of one event. */
  function Said(sends: seq<Envelope>, sl: Slot): seq<Envelope> {
    (if |sends| >= 1 && IsVerdict(sends[0].msg, sl) then [sends[0]] else []) +
    (if |sends| >= 2 && IsVerdict(sends[1].msg, sl) then [sends[1]] else [])
  }

  lemma VerdictsAppend(out: seq<Envelope>, sends: seq<Envelope>, sl: Slot)
    requires |sends| <= 2
    ensures VerdictsIn(out + sends, sl) == VerdictsIn(out, sl) + Said(sends, sl)
  {
    if |sends| == 0 {
      assert out + sends == out;
    } else if |sends| == 1 {
      assert (out + sends)[..|out|] == out;
    } else {
      var one := out + sends[..1];
      assert one[..|out|] == out;
      assert (out + sends)[..|out| + 1] == one;
    }
  }

  /** What a node says of leader p: a halt with the hash of p's finish if it has recorded one,
      otherwise a prevote, yes and with the hash of p's instance exactly if that is locked. */
  function Opinion(me: int, nd: State, sl: Slot, p: int): Msg {
    var finish, s := RoundOf(nd, sl).finish, SpbOf(nd, Inst(sl.e, sl.r, p));
    if p in finish then Halt(me, sl.e, sl.r, p, finish[p])
    else if s.lock && s.hash.Some? then Prevote(me, p, sl.e, sl.r, VOTE_YES, s.hash.value)
    else Prevote(me, p, sl.e, sl.r, VOTE_NO, Zero)
  }

  /** What an event makes the node say: the 2f+1st done of a slot whose leader is known and the
      2f+1st share of a ready slot call for its opinion, and the 2f+1st final vote for a halt if
      all of them are yes. In a committee so small that f is 0, no done makes a slot ready. */
  ghost function Calls(c: Cfg, me: int, nd: State, ev: Event, sl: Slot): seq<Envelope>
    requires c.n >= 1
  {
    var rd := RoundOf(nd, sl);
    if !Touches(nd, ev, sl) then []
    else
      match ev.m
      case Done(a, _, _) =>
        if a !in rd.done && |rd.done| + 1 == High(c.n) != Low(c.n) && rd.leader != NONE
        then [Env(NONE, Opinion(me, nd, sl, rd.leader))] else []
      case ElectShare(a, _, _) =>
        if a !in rd.shares && |rd.shares| + 1 == High(c.n) && rd.ready
        then [Env(NONE, Opinion(me, nd, sl, Elected(c, sl)))] else []
      case FinVote(a, p, _, _, _, h) =>
        var votes := rd.fin + [ev.m];
        if a !in Authors(rd.fin) && |votes| == High(c.n) && forall i :: 0 <= i < |votes| ==> IsYes(votes[i])
        then [Env(NONE, Halt(me, sl.e, sl.r, p, h))] else []
      case _ => []
  }

  ghost function AllCalls(c: Cfg, me: int, evs: seq<Event>, sl: Slot): seq<Envelope>
    requires c.n >= 1
  {
    if evs == [] then []
    else
      var init := evs[..|evs| - 1];
      AllCalls(c, me, init, sl) + Calls(c, me, After(c, me, init).nd, evs[|evs| - 1], sl)
  }

  lemma {:induction false} DoneCalls(c: Cfg, me: int, nd: State, ev: Event, sl: Slot)
    requires c.n >= 1 && Touches(nd, ev, sl) && ev.m.Done?
    requires forall k :: SpbShape(SpbOf(nd, k))
    ensures Said(OnDone(c, me, nd, RoundOf(nd, sl), ev.m).sends, sl) == Calls(c, me, nd, ev, sl)
  {
  }

  lemma {:induction false} ShareCalls(c: Cfg, me: int, nd: State, ev: Event, sl: Slot)
    requires c.n >= 1 && Touches(nd, ev, sl) && ev.m.ElectShare?
    requires forall k :: SpbShape(SpbOf(nd, k))
    ensures Said(OnShare(c, me, nd, RoundOf(nd, sl), ev.m).sends, sl) == Calls(c, me, nd, ev, sl)
  {
  }

  lemma {:induction false} FinVoteCalls(c: Cfg, me: int, nd: State, ev: Event, sl: Slot)
    requires c.n >= 1 && Touches(nd, ev, sl) && ev.m.FinVote?
    ensures Said(OnFinVote(c, me, nd, RoundOf(nd, sl), ev.m).sends, sl) == Calls(c, me, nd, ev, sl)
  {
    hide YesCount;
    YesCountAll(RoundOf(nd, sl).fin + [ev.m]);
  }

  lemma {:induction false} StepCalls(c: Cfg, me: int, nd: State, ev: Event, sl: Slot)
    requires c.n >= 1 && forall k :: SpbShape(SpbOf(nd, k))
    ensures var sends := Step(c, me, nd, ev).sends; |sends| <= 2 && Said(sends, sl) == Calls(c, me, nd, ev, sl)
  {
    hide Step, OnDone, OnShare, OnFinVote, SpbShape;
    if Touches(nd, ev, sl) {
      Touched(c, me, nd, ev, sl);
      Frame(c, me, nd, RoundOf(nd, sl), ev.m);
      if ev.m.Done? {
        DoneCalls(c, me, nd, ev, sl);
      } else if ev.m.ElectShare? {
        ShareCalls(c, me, nd, ev, sl);
      } else if ev.m.FinVote? {
        FinVoteCalls(c, me, nd, ev, sl);
      }
    } else {
      Untouched(c, me, nd, ev, sl);
    }
  }

  /** The prevotes and halts of a slot in a log are exactly those the events called for, in
      order. */
  lemma {:induction false} SaidExactly(c: Cfg, me: int, evs: seq<Event>, sl: Slot)
    requires c.n >= 1
    ensures VerdictsIn(After(c, me, evs).sends, sl) == AllCalls(c, me, evs, sl)
  {
    if evs != [] {
      var init, ev := evs[..|evs| - 1], evs[|evs| - 1];
      var o := After(c, me, init);
      SaidExactly(c, me, init, sl);
      forall k ensures SpbShape(SpbOf(o.nd, k)) {
        LockHasHash(c, me, init, k);
      }
      StepCalls(c, me, o.nd, ev, sl);
      VerdictsAppend(o.sends, Step(c, me, o.nd, ev).sends, sl);
    }
  }
}

/** The accepted votes of a node and the final votes it casts: one vote per author, and
    at most a no followed by a yes. */
module Ballots {
  import opened Messages
  import opened Committee
  import opened Votes
  import opened Node
  import opened Local

  // ------------------------------------------------------- the votes of one slot

  ghost predicate VotesOk(rd: Round, sl: Slot) {
    && DistinctAuthors(rd.pre) && DistinctAuthors(rd.fin)
    && (forall v :: v in rd.pre ==> v.Prevote? && SlotOf(v) == sl)
    && (forall v :: v in rd.fin ==> v.FinVote? && SlotOf(v) == sl)
  }

  lemma DistinctSnoc(acc: seq<Msg>, v: Msg)
    requires DistinctAuthors(acc) && v.author !in Authors(acc)
    ensures DistinctAuthors(acc + [v])
  {
    forall i | 0 <= i < |acc| ensures acc[i].author != v.author {
      assert acc[i] in acc;
    }
  }

  lemma {:induction false} VotesOnPrevote(c: Cfg, me: int, rd: Round, m: Msg)
    requires m.Prevote? && VotesOk(rd, SlotOf(m))
    ensures VotesOk(OnPrevote(c, me, rd, m).rd, SlotOf(m))
  {
    if m.author !in Authors(rd.pre) {
      DistinctSnoc(rd.pre, m);
    }
  }

  lemma {:induction false} VotesOnFinVote(c: Cfg, me: int, nd: State, rd: Round, m: Msg)
    requires m.FinVote? && VotesOk(rd, SlotOf(m))
    ensures VotesOk(OnFinVote(c, me, nd, rd, m).rd, SlotOf(m))
  {
    FinVoteShape(c, me, nd, rd, m);
    if m.author !in Authors(rd.fin) {
      DistinctSnoc(rd.fin, m);
    }
  }

  /** Every accepted vote is of its slot, and no author is counted twice. */
  lemma {:induction false} OneVoteEach(c: Cfg, me: int, evs: seq<Event>, sl: Slot)
    requires c.n >= 1
    ensures VotesOk(RoundOf(After(c, me, evs).nd, sl), sl)
  {
    if evs != [] {
      var o := After(c, me, evs[..|evs| - 1]);
      var ev := evs[|evs| - 1];
      OneVoteEach(c, me, evs[..|evs| - 1], sl);
      if Touches(o.nd, ev, sl) {
        Touched(c, me, o.nd, ev, sl);
        if ev.m.Prevote? {
          VotesOnPrevote(c, me, RoundOf(o.nd, sl), ev.m);
        } else if ev.m.FinVote? {
          VotesOnFinVote(c, me, o.nd, RoundOf(o.nd, sl), ev.m);
        } else {
          Frame(c, me, o.nd, RoundOf(o.nd, sl), ev.m);
        }
      } else {
        Untouched(c, me, o.nd, ev, sl);
      }
    }
  }

  // -------------------------------------------------------- the final votes of a log

  /** The final votes for a slot in a log, in the order they were sent. */
  function FinVotes(out: seq<Envelope>, sl: Slot): seq<Msg> {
    if out == [] then []
    else
      var x := out[|out| - 1].msg;
      FinVotes(out[..|out| - 1], sl) + if OfKind(x, KFinVote, sl) then [x] else []
  }

  /** A final vote of a log is in it. */
  lemma {:induction false} FinVoteIn(out: seq<Envelope>, sl: Slot, v: Msg) returns (x: Envelope)
    requires v in FinVotes(out, sl)
    ensures x in out && x.msg == v && OfKind(v, KFinVote, sl)
  {
    x := out[|out| - 1];
    if !(OfKind(x.msg, KFinVote, sl) && x.msg == v) {
      x := FinVoteIn(out[..|out| - 1], sl, v);
    }
  }

  lemma FinVotesSnoc(out: seq<Envelope>, x: Envelope, sl: Slot)
    ensures FinVotes(out + [x], sl) == FinVotes(out, sl) + if OfKind(x.msg, KFinVote, sl) then [x.msg] else []
  {
    assert (out + [x])[..|out|] == out;
  }

  lemma {:induction false} FinVotesSkip(out: seq<Envelope>, sends: seq<Envelope>, sl: Slot)
    requires |sends| <= 2
    requires |sends| >= 1 ==> !OfKind(sends[0].msg, KFinVote, sl)
    requires |sends| >= 2 ==> !OfKind(sends[1].msg, KFinVote, sl)
    ensures FinVotes(out + sends, sl) == FinVotes(out, sl)
  {
    if |sends| == 0 {
      assert out + sends == out;
    } else {
      FinVotesSnoc(out, sends[0], sl);
      assert out + sends[..1] == out + [sends[0]];
      if |sends| == 2 {
        assert out + sends == (out + [sends[0]]) + [sends[1]];
        FinVotesSnoc(out + [sends[0]], sends[1], sl);
      } else {
        assert out + sends == out + [sends[0]];
      }
    }
  }

  /** The final votes of a log start with those of any earlier log. */
  lemma {:induction false} FinVotesPrefix(out: seq<Envelope>, k: nat, sl: Slot)
    requires k <= |out|
    ensures FinVotes(out[..k], sl) <= FinVotes(out, sl)
  {
    if k == |out| {
      assert out[..k] == out;
    } else {
      assert out[..|out| - 1][..k] == out[..k];
      FinVotesPrefix(out[..|out| - 1], k, sl);
    }
  }

  lemma {:induction false} FinVotesMember(out: seq<Envelope>, i: nat, sl: Slot)
    requires i < |out| && OfKind(out[i].msg, KFinVote, sl)
    ensures out[i].msg in FinVotes(out, sl)
  {
    if i < |out| - 1 {
      assert out[..|out| - 1][i] == out[i];
      FinVotesMember(out[..|out| - 1], i, sl);
    }
  }

  // ------------------------------------------------------------------- what is cast

  /** The final vote cast when prevote pv is accepted after acc, if any. */
  function CastOne(me: int, acc: seq<Msg>, pv: Msg, th: nat): seq<Msg> {
    if !pv.Prevote? then []
    else match PreAction(acc, pv, th)
      case ActionNo => [CastFinVote(me, pv, VOTE_NO)]
      case ActionYes => [CastFinVote(me, pv, VOTE_YES)]
      case _ => []
  }

  /** The final votes cast on a sequence of accepted prevotes. */
  function Cast(me: int, acc: seq<Msg>, th: nat): seq<Msg> {
    if acc == [] then []
    else Cast(me, acc[..|acc| - 1], th) + CastOne(me, acc[..|acc| - 1], acc[|acc| - 1], th)
  }

  ghost predicate SomeYes(acc: seq<Msg>) {
    exists i :: 0 <= i < |acc| && IsYes(acc[i])
  }

  ghost predicate FirstAllNo(acc: seq<Msg>, th: nat) {
    |acc| >= th && forall i :: 0 <= i < th ==> !IsYes(acc[i])
  }

  lemma SnocYesNo(acc: seq<Msg>, pv: Msg, th: nat)
    requires th >= 1
    ensures SomeYes(acc + [pv]) <==> SomeYes(acc) || IsYes(pv)
    ensures FirstAllNo(acc + [pv], th) <==>
            FirstAllNo(acc, th) || (|acc| + 1 == th && !SomeYes(acc) && !IsYes(pv))
    ensures YesCount(acc) == 0 <==> !SomeYes(acc)
  {
    YesCountAll(acc);
    SomeYesSnoc(acc, pv);
    FirstAllNoSnoc(acc, pv, th);
  }

  lemma SomeYesSnoc(acc: seq<Msg>, pv: Msg)
    ensures SomeYes(acc + [pv]) <==> SomeYes(acc) || IsYes(pv)
  {
    var acc' := acc + [pv];
    assert acc'[|acc|] == pv;
    assert forall i :: 0 <= i < |acc| ==> acc'[i] == acc[i];
  }

  lemma FirstAllNoSnoc(acc: seq<Msg>, pv: Msg, th: nat)
    requires th >= 1
    ensures FirstAllNo(acc + [pv], th) <==>
            FirstAllNo(acc, th) || (|acc| + 1 == th && !SomeYes(acc) && !IsYes(pv))
  {
    var acc' := acc + [pv];
    assert acc'[|acc|] == pv;
    assert forall i :: 0 <= i < |acc| ==> acc'[i] == acc[i];
  }

  /** Only nothing, a yes, a no, or a no followed by a yes is ever cast: a yes exactly when
      some prevote is a yes, a no exactly when the first 2f+1 prevotes are no. */
  lemma {:induction false} CastShapes(me: int, acc: seq<Msg>, th: nat)
    requires th >= 1 && forall v :: v in acc ==> v.Prevote?
    ensures var cast := Cast(me, acc, th);
            && |cast| == Unit(FirstAllNo(acc, th)) + Unit(SomeYes(acc))
            && (FirstAllNo(acc, th) ==> !IsYes(cast[0]))
            && (SomeYes(acc) ==> IsYes(cast[|cast| - 1]))
  {
    if acc != [] {
      var init, pv := acc[..|acc| - 1], acc[|acc| - 1];
      assert pv in acc;
      CastShapes(me, init, th);
      SnocYesNo(init, pv, th);
      assert init + [pv] == acc;
    }
  }

  lemma {:induction false} PrevoteCasts(c: Cfg, me: int, rd: Round, m: Msg)
    requires m.Prevote? && m.author !in Authors(rd.pre)
    ensures var r := OnPrevote(c, me, rd, m);
            && r.rd.pre == rd.pre + [m]
            && var cast := CastOne(me, rd.pre, m, High(c.n));
               if cast == [] then r.sends == [] else r.sends == [Env(NONE, cast[0])] && |cast| == 1 && OfKind(cast[0], KFinVote, SlotOf(m))
  {
  }

  lemma {:induction false} CastOnPrevote(c: Cfg, me: int, rd: Round, m: Msg, out: seq<Envelope>)
    requires m.Prevote? && FinVotes(out, SlotOf(m)) == Cast(me, rd.pre, High(c.n))
    ensures var r := OnPrevote(c, me, rd, m);
            FinVotes(out + r.sends, SlotOf(m)) == Cast(me, r.rd.pre, High(c.n))
  {
    var r := OnPrevote(c, me, rd, m);
    if m.author in Authors(rd.pre) {
      assert out + r.sends == out;
    } else {
      PrevoteCasts(c, me, rd, m);
      assert r.rd.pre[..|rd.pre|] == rd.pre;
      if r.sends == [] {
        assert out + r.sends == out;
      } else {
        FinVotesSnoc(out, r.sends[0], SlotOf(m));
      }
    }
  }

  lemma {:induction false} CastOnRound(c: Cfg, me: int, nd: State, rd: Round, m: Msg, out: seq<Envelope>)
    requires c.n >= 1 && IsRoundMsg(m) && FinVotes(out, SlotOf(m)) == Cast(me, rd.pre, High(c.n))
    ensures var r := OnRound(c, me, nd, rd, m);
            FinVotes(out + r.sends, SlotOf(m)) == Cast(me, r.rd.pre, High(c.n))
  {
    if m.Prevote? {
      CastOnPrevote(c, me, rd, m, out);
    } else {
      Frame(c, me, nd, rd, m);
      FinVotesSkip(out, OnRound(c, me, nd, rd, m).sends, SlotOf(m));
    }
  }

  /** The final votes in a node's log are exactly those its accepted prevotes call for. */
  lemma {:induction false} CastExactly(c: Cfg, me: int, evs: seq<Event>, sl: Slot)
    requires c.n >= 1
    ensures var o := After(c, me, evs); FinVotes(o.sends, sl) == Cast(me, RoundOf(o.nd, sl).pre, High(c.n))
  {
    if evs != [] {
      var o := After(c, me, evs[..|evs| - 1]);
      var ev := evs[|evs| - 1];
      CastExactly(c, me, evs[..|evs| - 1], sl);
      if Touches(o.nd, ev, sl) {
        Touched(c, me, o.nd, ev, sl);
        CastOnRound(c, me, o.nd, RoundOf(o.nd, sl), ev.m, o.sends);
      } else {
        Untouched(c, me, o.nd, ev, sl);
        FinVotesSkip(o.sends, Step(c, me, o.nd, ev).sends, sl);
      }
    }
  }
}

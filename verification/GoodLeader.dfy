/** Good leaders: once anybody is ready there are 2f+1 proposers such that, if one of them
    is elected, the round can only commit the leader's block. */
module GoodLeader {
  import opened Messages
  import opened Committee
  import opened Votes
  import N = Node
  import opened System
  import L = Local
  import opened Sent
  import opened Ballots
  import opened Runs
  import opened Byzantine
  import opened Benign
  import opened Leaders
  import opened Quorums
  import opened Agreement

  function NoFor(j: int, sl: Slot, p: int): Envelope {
    Env(NONE, Prevote(j, p, sl.e, sl.r, VOTE_NO, Zero))
  }

  /** The nodes that hold the lock of proposer p and have not prevoted against p. */
  ghost function Backed(c: N.Cfg, s: State, sl: Slot, p: int): set<int>
    requires Wf(c, s)
  {
    set j | j in Members(c.n) && N.SpbOf(s.nodes[j], Inst(sl.e, sl.r, p)).lock && NoFor(j, sl, p) !in s.out[j]
  }

  /** 2f+1 proposers, each backed by 2f+1 nodes. */
  ghost predicate GoodSet(c: N.Cfg, s: State, sl: Slot, good: set<int>)
    requires Wf(c, s)
  {
    && good <= Members(c.n) && |good| >= High(c.n)
    && forall p :: p in good ==> |Backed(c, s, sl, p)| >= High(c.n)
  }

  // ------------------------------------------------------------------ backing is for good

  lemma {:induction false} NoFromLeader(me: int, nd: N.State, sl: Slot, rd: N.Round, p: int)
    requires NoFor(me, sl, p) in N.ProcessLeader(me, nd, sl, rd)
    ensures !N.SpbOf(nd, Inst(sl.e, sl.r, p)).lock
  {
  }

  lemma {:induction false} PrevoteCause(c: N.Cfg, me: int, nd: N.State, rd: N.Round, m: Msg, x: Envelope)
    requires c.n >= 1 && N.IsRoundMsg(m) && x in N.OnRound(c, me, nd, rd, m).sends && x.msg.Prevote?
    ensures m.Done? || m.ElectShare?
  {
    L.Frame(c, me, nd, rd, m);
  }

  lemma {:induction false} NoOnRound(c: N.Cfg, me: int, nd: N.State, rd: N.Round, m: Msg, p: int)
    requires c.n >= 1 && (m.Done? || m.ElectShare?)
    requires NoFor(me, SlotOf(m), p) in N.OnRound(c, me, nd, rd, m).sends
    ensures !N.SpbOf(nd, Inst(m.epoch, m.round, p)).lock
  {
    var r := N.OnRound(c, me, nd, rd, m);
    assert r.sends == N.ProcessLeader(me, nd, SlotOf(m), r.rd);
    NoFromLeader(me, nd, SlotOf(m), r.rd, p);
  }

  /** A node that holds a proposer's lock does not prevote against it. */
  lemma {:induction false} NoMeansUnlocked(c: N.Cfg, me: int, nd: N.State, ev: N.Event, sl: Slot, p: int)
    requires c.n >= 1 && NoFor(me, sl, p) in N.Step(c, me, nd, ev).sends
    ensures !N.SpbOf(nd, Inst(sl.e, sl.r, p)).lock
  {
    SentBySlot(c, me, nd, ev, NoFor(me, sl, p));
    L.Touched(c, me, nd, ev, sl);
    var rd := N.RoundOf(nd, sl);
    PrevoteCause(c, me, nd, rd, ev.m, NoFor(me, sl, p));
    NoOnRound(c, me, nd, rd, ev.m, p);
  }

  lemma {:induction false} StaysBacked(c: N.Cfg, s: State, a: Sched, sl: Slot, p: int, j: int)
    requires Silent(c) && Wf(c, s) && j in Backed(c, s, sl, p)
    ensures j in Backed(c, Apply(c, s, a), sl, p)
  {
    var ev := EventAt(c, s, a, j);
    if ev == [] {
      StepElsewhere(c, s, a, j);
    } else {
      StepHere(c, s, a, j);
      L.SpbKeeps(c, j, s.nodes[j], ev[0], Inst(sl.e, sl.r, p));
      if NoFor(j, sl, p) in N.Step(c, j, s.nodes[j], ev[0]).sends {
        NoMeansUnlocked(c, j, s.nodes[j], ev[0], sl, p);
      }
    }
  }

  lemma {:induction false} GoodStays(c: N.Cfg, s: State, a: Sched, sl: Slot, good: set<int>)
    requires Silent(c) && Wf(c, s) && GoodSet(c, s, sl, good)
    ensures GoodSet(c, Apply(c, s, a), sl, good)
  {
    var s' := Apply(c, s, a);
    forall p | p in good ensures |Backed(c, s', sl, p)| >= High(c.n) {
      forall j | j in Backed(c, s, sl, p) ensures j in Backed(c, s', sl, p) {
        StaysBacked(c, s, a, sl, p, j);
      }
      SubsetSize(Backed(c, s, sl, p), Backed(c, s', sl, p));
    }
  }

  lemma {:induction false} GoodForever(c: N.Cfg, acts: seq<Sched>, more: seq<Sched>, sl: Slot, good: set<int>)
    requires Silent(c) && GoodSet(c, At(c, acts), sl, good)
    ensures GoodSet(c, At(c, acts + more), sl, good)
  {
    if more == [] {
      assert acts + more == acts;
    } else {
      var init := more[..|more| - 1];
      assert (acts + more)[..|acts + more| - 1] == acts + init;
      GoodForever(c, acts, init, sl, good);
      GoodStays(c, At(c, acts + init), more[|more| - 1], sl, good);
    }
  }

  // ------------------------------------------------------------- where it comes from

  ghost predicate SomebodyDone(c: N.Cfg, s: State, sl: Slot)
    requires Wf(c, s)
  {
    exists i :: HasDone(c, s, i, sl)
  }

  /** Before anybody has sent Done, nobody has prevoted. */
  lemma {:induction false} PrevoteNeedsDone(c: N.Cfg, acts: seq<Sched>, j: int, sl: Slot, x: Envelope)
    requires Silent(c) && acts != [] && 0 <= j < c.n && x in At(c, acts).out[j] && x.msg.Prevote? && SlotOf(x.msg) == sl
    ensures SomebodyDone(c, At(c, acts[..|acts| - 1]), sl)
  {
    SentByCorrect(c, acts, j, x);
    Projection(c, acts, j);
    L.ReadyExactly(c, j, Events(c, acts, j), sl);
    DoneNeedsDone(c, acts, j, sl);
  }

  /** A recorded Done was sent before the step that recorded it. */
  lemma {:induction false} DoneNeedsDone(c: N.Cfg, acts: seq<Sched>, j: int, sl: Slot)
    requires Silent(c) && acts != [] && 0 <= j < c.n && N.RoundOf(At(c, acts).nodes[j], sl).done != {}
    ensures SomebodyDone(c, At(c, acts[..|acts| - 1]), sl)
  {
    var y := Outside(N.RoundOf(At(c, acts).nodes[j], sl).done, {});
    DoneAuthors(c, acts, j, sl);
    assert Heard(c, At(c, acts), j, Done(y, sl.e, sl.r));
    DoneWasSent(c, acts, j, y, sl);
  }

  /** The first node to send Done has collected the finishes of a good set. */
  lemma {:induction false} FirstDoneIsGood(c: N.Cfg, acts: seq<Sched>, i: int, sl: Slot)
    requires Silent(c) && acts != [] && HasDone(c, At(c, acts), i, sl)
    requires !SomebodyDone(c, At(c, acts[..|acts| - 1]), sl)
    ensures GoodSet(c, At(c, acts), sl, N.RoundOf(At(c, acts).nodes[i], sl).finish.Keys)
  {
    var s := At(c, acts);
    var rd := N.RoundOf(s.nodes[i], sl);
    Projection(c, acts, i);
    L.DoneExactly(c, i, Events(c, acts, i), sl);
    if rd.done != {} {
      DoneNeedsDone(c, acts, i, sl);
    }
    forall p | p in rd.finish.Keys ensures p in Members(c.n) && |Backed(c, s, sl, p)| >= High(c.n) {
      FinisherIsBacked(c, acts, i, sl, p);
    }
  }

  lemma {:induction false} FinisherIsBacked(c: N.Cfg, acts: seq<Sched>, i: int, sl: Slot, p: int)
    requires Silent(c) && acts != [] && 0 <= i < c.n && p in N.RoundOf(At(c, acts).nodes[i], sl).finish
    requires !SomebodyDone(c, At(c, acts[..|acts| - 1]), sl)
    ensures p in Members(c.n) && |Backed(c, At(c, acts), sl, p)| >= High(c.n)
  {
    var s := At(c, acts);
    var h := N.RoundOf(s.nodes[i], sl).finish[p];
    var m := Finish(p, h, sl.e, sl.r);
    HeldWasSaid(c, acts, i, m);
    FinishMeansLocked(c, acts, m);
    var locked := Locked(c, s, Inst(sl.e, sl.r, p), h);
    forall j | j in locked ensures j in Backed(c, s, sl, p) {
      if NoFor(j, sl, p) in s.out[j] {
        PrevoteNeedsDone(c, acts, j, sl, NoFor(j, sl, p));
      }
    }
    SubsetSize(locked, Backed(c, s, sl, p));
  }

  /** Whenever somebody has sent Done for a slot, the slot has a good set. */
  lemma {:induction false} DoneMeansGood(c: N.Cfg, acts: seq<Sched>, i: int, sl: Slot) returns (good: set<int>)
    requires Silent(c) && HasDone(c, At(c, acts), i, sl)
    ensures GoodSet(c, At(c, acts), sl, good)
  {
    if acts != [] {
      var init := acts[..|acts| - 1];
      if SomebodyDone(c, At(c, init), sl) {
        var j :| HasDone(c, At(c, init), j, sl);
        good := DoneMeansGood(c, init, j, sl);
        GoodStays(c, At(c, init), acts[|acts| - 1], sl, good);
      } else {
        FirstDoneIsGood(c, acts, i, sl);
        good := N.RoundOf(At(c, acts).nodes[i], sl).finish.Keys;
      }
    }
  }

  /** Whenever somebody is ready, the slot has a good set. */
  lemma {:induction false} ReadyMeansGood(c: N.Cfg, acts: seq<Sched>, i: int, sl: Slot) returns (good: set<int>)
    requires Silent(c) && 0 <= i < c.n && N.RoundOf(At(c, acts).nodes[i], sl).ready
    ensures GoodSet(c, At(c, acts), sl, good)
  {
    var d := ReadyMeansSpread(c, acts, i, sl);
    var x := Outside(d, {});
    good := DoneMeansGood(c, acts, x, sl);
  }

  // ------------------------------------------------------------- what it leads to

  /** The authors of accepted no prevotes do not back the leader. */
  lemma {:induction false} NoVoterIsNotBacker(c: N.Cfg, acts: seq<Sched>, j: int, sl: Slot, pv: Msg)
    requires Silent(c) && Orderly(c, acts) && 0 <= j < c.n
    requires pv in N.RoundOf(At(c, acts).nodes[j], sl).pre && !IsYes(pv)
    ensures pv.author in Members(c.n) && pv.author !in Backed(c, At(c, acts), sl, N.Elected(c, sl))
  {
    Projection(c, acts, j);
    OneVoteEach(c, j, Events(c, acts, j), sl);
    HeldWasSaid(c, acts, j, pv);
    SaidLeader(c, acts, pv);
    PrevoteOk(c, acts, pv);
    assert Env(NONE, pv) == NoFor(pv.author, sl, N.Elected(c, sl));
  }

  /** With an elected good leader, no node ever casts a no. */
  lemma {:induction false} NoNo(c: N.Cfg, acts: seq<Sched>, sl: Slot, good: set<int>, m: Msg)
    requires Silent(c) && Orderly(c, acts) && GoodSet(c, At(c, acts), sl, good) && N.Elected(c, sl) in good
    requires m.FinVote? && SlotOf(m) == sl && Said(c, At(c, acts), m)
    ensures IsYes(m)
  {
    hide Cast, FinVotes, Interval;
    var s := At(c, acts);
    var j := m.author;
    var th := High(c.n);
    if !IsYes(m) {
      Projection(c, acts, j);
      CastExactly(c, j, Events(c, acts, j), sl);
      OneVoteEach(c, j, Events(c, acts, j), sl);
      var pre := N.RoundOf(s.nodes[j], sl).pre;
      NoWasCast(s.out[j], m, pre, th, j);
      AuthorsSize(pre[..th]);
      var against, backed := Authors(pre[..th]), Backed(c, s, sl, N.Elected(c, sl));
      forall x | x in against ensures x in Members(c.n) && x !in backed {
        var pv :| pv in pre[..th] && pv.author == x;
        NoVoterIsNotBacker(c, acts, j, sl, pv);
      }
      assert against * backed == {};
      Overlap(against, backed, c.n);
    }
  }

  /** A no in a log was cast on 2f+1 no prevotes. */
  lemma {:induction false} NoWasCast(out: seq<Envelope>, m: Msg, pre: seq<Msg>, th: nat, j: int)
    requires m.FinVote? && !IsYes(m) && Env(NONE, m) in out && th >= 1
    requires FinVotes(out, SlotOf(m)) == Cast(j, pre, th) && forall v :: v in pre ==> v.Prevote?
    ensures FirstAllNo(pre, th)
  {
    var k :| 0 <= k < |out| && out[k] == Env(NONE, m);
    FinVotesMember(out, k, SlotOf(m));
    CastShapes(j, pre, th);
  }

  /** Good-leader rounds can only commit. If a slot has a good set at some point of a run and
      its elected leader is in it, then at every later point every final vote cast for the
      slot is a yes and every decided outcome is a commit of the leader's block. */
  lemma {:induction false} GoodLeaderCommits(c: N.Cfg, acts: seq<Sched>, more: seq<Sched>, sl: Slot, good: set<int>, j: int)
    requires Silent(c) && Orderly(c, acts + more) && GoodSet(c, At(c, acts), sl, good) && N.Elected(c, sl) in good
    requires 0 <= j < c.n
    ensures var s := At(c, acts + more);
            var fin := N.RoundOf(s.nodes[j], sl).fin;
            && (forall m :: m in FinVotes(s.out[j], sl) ==> IsYes(m))
            && (|fin| >= High(c.n) ==>
                  Outcome(fin, High(c.n)) == ActionCommit && LeadersBlock(c, s, sl, VoteHash(fin[High(c.n) - 1])))
  {
    hide GoodSet, Backed;
    var run := acts + more;
    var s := At(c, run);
    GoodForever(c, acts, more, sl, good);
    forall m | m in FinVotes(s.out[j], sl) ensures IsYes(m) {
      var x := FinVoteIn(s.out[j], sl, m);
      SentByCorrect(c, run, j, x);
      NoNo(c, run, sl, good, m);
    }
    var fin := N.RoundOf(s.nodes[j], sl).fin;
    if |fin| >= High(c.n) {
      forall i | 0 <= i < High(c.n) ensures IsYes(fin[i]) {
        FinWasSaid(c, run, j, sl, fin[i]);
        NoNo(c, run, sl, good, fin[i]);
      }
      OutcomeMeaning(fin, High(c.n));
      CommitIsLeaders(c, run, j, sl);
    }
  }

  /** Every final vote cast for the slot is a yes, and every decided outcome commits the
      leader's block. */
  ghost predicate OnlyCommits(c: N.Cfg, s: State, sl: Slot)
    requires c.n >= 1 && Wf(c, s)
  {
    forall j :: 0 <= j < c.n ==>
      var fin := N.RoundOf(s.nodes[j], sl).fin;
      && (forall m :: m in FinVotes(s.out[j], sl) ==> IsYes(m))
      && (|fin| >= High(c.n) ==>
            Outcome(fin, High(c.n)) == ActionCommit && LeadersBlock(c, s, sl, VoteHash(fin[High(c.n) - 1])))
  }

  /** Whenever a node is ready in a slot there are 2f+1 proposers such that, if the elected
      leader is one of them, the slot can only commit, then and at any later time. */
  lemma {:induction false} ReadyRoundsCommitGoodLeaders(c: N.Cfg, acts: seq<Sched>, i: int, sl: Slot) returns (good: set<int>)
    requires Silent(c) && 0 <= i < c.n && N.RoundOf(At(c, acts).nodes[i], sl).ready
    ensures good <= Members(c.n) && |good| >= High(c.n)
    ensures N.Elected(c, sl) in good ==>
              forall more: seq<Sched> :: Orderly(c, acts + more) ==> OnlyCommits(c, At(c, acts + more), sl)
  {
    good := ReadyMeansGood(c, acts, i, sl);
    if N.Elected(c, sl) in good {
      forall more: seq<Sched> | Orderly(c, acts + more) ensures OnlyCommits(c, At(c, acts + more), sl) {
        forall j | 0 <= j < c.n
          ensures var s := At(c, acts + more);
                  var fin := N.RoundOf(s.nodes[j], sl).fin;
                  && (forall m :: m in FinVotes(s.out[j], sl) ==> IsYes(m))
                  && (|fin| >= High(c.n) ==>
                        Outcome(fin, High(c.n)) == ActionCommit && LeadersBlock(c, s, sl, VoteHash(fin[High(c.n) - 1])))
        {
          GoodLeaderCommits(c, acts, more, sl, good, j);
        }
      }
    }
  }

  // ------------------------------------------------------------ after a finish, few say no

  /** The nodes that prevote against p only after acts. */
  ghost function LaterAgainst(c: N.Cfg, acts: seq<Sched>, more: seq<Sched>, sl: Slot, p: int): set<int>
    requires c.n >= 1
  {
    set j | j in Members(c.n) && NoFor(j, sl, p) in At(c, acts + more).out[j] && NoFor(j, sl, p) !in At(c, acts).out[j]
  }

  lemma {:induction false} BackedForever(c: N.Cfg, acts: seq<Sched>, more: seq<Sched>, sl: Slot, p: int, j: int)
    requires Silent(c) && j in Backed(c, At(c, acts), sl, p)
    ensures j in Backed(c, At(c, acts + more), sl, p)
  {
    if more == [] {
      assert acts + more == acts;
    } else {
      var init := more[..|more| - 1];
      assert (acts + more)[..|acts + more| - 1] == acts + init;
      BackedForever(c, acts, init, sl, p, j);
      StaysBacked(c, At(c, acts + init), more[|more| - 1], sl, p, j);
    }
  }

  /** Once p has sent a finish, at most f nodes can still prevote against p. */
  lemma {:induction false} FewAgainstFinished(c: N.Cfg, acts: seq<Sched>, more: seq<Sched>, m: Msg)
    requires Silent(c) && m.Finish? && Said(c, At(c, acts), m)
    ensures |LaterAgainst(c, acts, more, SlotOf(m), m.author)| <= MaxFaults(c.n)
  {
    var s := At(c, acts);
    var sl, p := SlotOf(m), m.author;
    FinishMeansLocked(c, acts, m);
    var locked := Locked(c, s, Inst(sl.e, sl.r, p), m.hash);
    var against := LaterAgainst(c, acts, more, sl, p);
    forall j | j in against ensures j !in locked {
      if j in locked {
        BackedForever(c, acts, more, sl, p, j);
      }
    }
    assert against * locked == {};
    Overlap(against, locked, c.n);
  }

  /** With a leader of the good set a round never comes out as a no, at any node, ever. */
  lemma {:induction false} GoodLeaderStands(c: N.Cfg, acts: seq<Sched>, more: seq<Sched>, sl: Slot, good: set<int>)
    requires Silent(c) && Orderly(c, acts + more) && GoodSet(c, At(c, acts), sl, good) && N.Elected(c, sl) in good
    ensures NobodySaysNo(c, At(c, acts + more), sl)
  {
    forall j | 0 <= j < c.n ensures !Decides(c, At(c, acts + more), j, sl, ActionNo) {
      GoodLeaderCommits(c, acts, more, sl, good, j);
    }
  }
}

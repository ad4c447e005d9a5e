/** Building runs, continued: how three nodes take one SPB instance to its finish, and why they
    stay silent about halts meanwhile. */
module Broadcasts {
  import opened Messages
  import opened Committee
  import opened Votes
  import Spb
  import N = Node
  import opened System
  import L = Local
  import opened Sent
  import opened Runs
  import opened Origins
  import opened Byzantine
  import opened Benign
  import Q = Quorums
  import opened Agreement
  import opened Schedules

  // ------------------------------------------------------ what counting votes leaves behind

  /** A counted vote was run. */
  lemma {:induction false} CountedWasRun(c: N.Cfg, acts: seq<Sched>, ones: set<Inst>, twos: set<Inst>, i: int, k: Inst, v: Msg)
    requires Silent(c) && Counting(acts, ones, twos) && 0 <= i < c.n && v in N.SpbOf(At(c, acts).nodes[i], k).votes
    ensures v.SpbVote? && (v.phase == ONE_PHASE ==> k in ones) && (v.phase == TWO_PHASE ==> k in twos)
  {
    if acts != [] {
      var init := acts[..|acts| - 1];
      var s, a := At(c, init), acts[|acts| - 1];
      var ev := EventAt(c, s, a, i);
      assert a in acts;
      assert forall x :: x in init ==> x in acts;
      if v in N.SpbOf(s.nodes[i], k).votes {
        CountedWasRun(c, init, ones, twos, i, k, v);
      } else if ev == [] {
        StepElsewhere(c, s, a, i);
      } else {
        StepHere(c, s, a, i);
        BufferFrom(c, i, s.nodes[i], ev[0], k, v);
      }
    }
  }

  /** A lock was set by a two-phase proposal that was broadcast. */
  lemma {:induction false} LockCause(c: N.Cfg, acts: seq<Sched>, i: int, k: Inst) returns (m: Msg)
    requires Silent(c) && 0 <= i < c.n && N.SpbOf(At(c, acts).nodes[i], k).lock
    ensures m.Proposal? && m.phase == TWO_PHASE && InstOf(m) == k && Said(c, At(c, acts), m)
  {
    m := Proposal(k.p, Block(0, [], 0), k.e, k.r, TWO_PHASE);
    if acts != [] {
      var init := acts[..|acts| - 1];
      var s, a := At(c, init), acts[|acts| - 1];
      var ev := EventAt(c, s, a, i);
      if N.SpbOf(s.nodes[i], k).lock {
        m := LockCause(c, init, i, k);
      } else if ev == [] {
        StepElsewhere(c, s, a, i);
      } else {
        StepHere(c, s, a, i);
        L.SpbStep(c, i, s.nodes[i], ev[0], k);
        m := ev[0].m;
        TasksOk(c, init, i, m);
        Q.HeardProposalSaid(c, init, i, m);
      }
      SaidStays(c, s, a, m);
    }
  }

  /** Without phase-one votes counted an instance is locked nowhere. */
  lemma {:induction false} NoLock(c: N.Cfg, acts: seq<Sched>, ones: set<Inst>, twos: set<Inst>, i: int, k: Inst)
    requires Silent(c) && Counting(acts, ones, twos) && 0 <= i < c.n && k !in ones
    ensures !N.SpbOf(At(c, acts).nodes[i], k).lock
  {
    if N.SpbOf(At(c, acts).nodes[i], k).lock {
      var m := LockCause(c, acts, i, k);
      SentByCorrect(c, acts, m.author, Env(NONE, m));
      var k' := Inst(m.epoch, m.round, m.b.proposer);
      var votes := N.SpbOf(At(c, acts).nodes[m.author], k').votes;
      var v := VoteOfPhase(votes, ONE_PHASE);
      BuffersOk(c, acts, m.author, k', v);
      CountedWasRun(c, acts, ones, twos, m.author, k', v);
    }
  }

  lemma {:induction false} VoteOfPhase(votes: seq<Msg>, phase: int) returns (v: Msg)
    requires Spb.Count(votes, phase) >= 1
    ensures v in votes && v.SpbVote? && v.phase == phase
  {
    v := votes[|votes| - 1];
    if !(v.SpbVote? && v.phase == phase) {
      v := VoteOfPhase(votes[..|votes| - 1], phase);
    }
  }

  /** Without phase-two votes counted a proposer does not finish. */
  lemma {:induction false} NoFinish(c: N.Cfg, acts: seq<Sched>, ones: set<Inst>, twos: set<Inst>, m: Msg)
    requires Silent(c) && Counting(acts, ones, twos) && m.Finish? && Said(c, At(c, acts), m)
    ensures Inst(m.epoch, m.round, m.author) in twos
  {
    SentByCorrect(c, acts, m.author, Env(NONE, m));
    var nd := At(c, acts).nodes[m.author];
    var p :| FinishedBy(c, nd, m, p);
    var k := Inst(m.epoch, m.round, p);
    var v := VoteOfPhase(N.SpbOf(nd, k).votes, TWO_PHASE);
    BuffersOk(c, acts, m.author, k, v);
    CountedWasRun(c, acts, ones, twos, m.author, k, v);
  }

  // ------------------------------------------------------------------ why nobody halts

  /** Two nodes whose finish for the slot nobody has heard. */
  ghost predicate FewFinish(c: N.Cfg, s: State, sl: Slot, p: int, q: int)
    requires Wf(c, s)
  {
    && 0 <= p < c.n && 0 <= q < c.n && p != q
    && forall i, h :: 0 <= i < c.n ==>
         !Heard(c, s, i, Finish(p, h, sl.e, sl.r)) && !Heard(c, s, i, Finish(q, h, sl.e, sl.r))
  }

  /** With only two finishes heard nobody of four nodes is Done. */
  lemma {:induction false} FewFinishNoDone(c: N.Cfg, acts: seq<Sched>, sl: Slot, p: int, q: int, i: int)
    requires Silent(c) && c.n == 4 && FewFinish(c, At(c, acts), sl, p, q)
    ensures !HasDone(c, At(c, acts), i, sl)
  {
    hide Interval, Members;
    assert |Members(4) - {p, q}| == 2;
    if HasDone(c, At(c, acts), i, sl) {
      DoneHasACause(c, acts, i, sl);
      var j :| HasFinishes(c, At(c, acts), j, sl);
      var finish := N.RoundOf(At(c, acts).nodes[j], sl).finish;
      forall x | x in finish.Keys ensures x in Members(4) - {p, q} {
        HeldIsHeard(c, acts, j, Finish(x, finish[x], sl.e, sl.r));
      }
      SubsetSize(finish.Keys, Members(4) - {p, q});
    }
  }

  lemma {:induction false} FewFinishNotReady(c: N.Cfg, acts: seq<Sched>, sl: Slot, p: int, q: int, i: int)
    requires Silent(c) && c.n == 4 && FewFinish(c, At(c, acts), sl, p, q) && 0 <= i < c.n
    ensures !N.RoundOf(At(c, acts).nodes[i], sl).ready
  {
    if N.RoundOf(At(c, acts).nodes[i], sl).ready {
      var d := ReadyMeansSpread(c, acts, i, sl);
      var x := Outside(d, {});
      FewFinishNoDone(c, acts, sl, p, q, x);
    }
  }

  /** Nobody halts in a slot in which nobody is ready. */
  lemma {:induction false} NoneReadyNoHalt(c: N.Cfg, acts: seq<Sched>, h: Msg)
    requires Silent(c) && h.Halt? && forall i :: 0 <= i < c.n ==> !N.RoundOf(At(c, acts).nodes[i], SlotOf(h)).ready
    ensures !Said(c, At(c, acts), h)
  {
    if Said(c, At(c, acts), h) {
      SentByCorrect(c, acts, h.author, Env(NONE, h));
      var v := N.RoundOf(At(c, acts).nodes[h.author], SlotOf(h)).fin[0];
      FinWasSaid(c, acts, h.author, SlotOf(h), v);
      var pv := FinVoteSource(c, acts, v);
      SentByCorrect(c, acts, pv.author, Env(NONE, pv));
    }
  }

  lemma {:induction false} FewFinishNoHalt(c: N.Cfg, acts: seq<Sched>, p: int, q: int, h: Msg)
    requires Silent(c) && c.n == 4 && FewFinish(c, At(c, acts), SlotOf(h), p, q) && h.Halt?
    ensures !Said(c, At(c, acts), h)
  {
    forall i | 0 <= i < c.n ensures !N.RoundOf(At(c, acts).nodes[i], SlotOf(h)).ready {
      FewFinishNotReady(c, acts, SlotOf(h), p, q, i);
    }
    NoneReadyNoHalt(c, acts, h);
  }

  /** Nobody halts in a slot whose leader's instance is locked nowhere. */
  lemma {:induction false} UnlockedNoHalt(c: N.Cfg, acts: seq<Sched>, ones: set<Inst>, twos: set<Inst>, h: Msg)
    requires Silent(c) && Orderly(c, acts) && Counting(acts, ones, twos) && h.Halt? && Said(c, At(c, acts), h)
    ensures Inst(h.epoch, h.round, N.Elected(c, SlotOf(h))) in ones
  {
    var sl, l := SlotOf(h), N.Elected(c, SlotOf(h));
    var k := Inst(h.epoch, h.round, l);
    var rd := N.RoundOf(At(c, acts).nodes[h.author], sl);
    SaidLeader(c, acts, h);
    if k !in ones {
      if l in rd.finish && rd.finish[l] == h.hash {
        var m := Finish(l, h.hash, sl.e, sl.r);
        HeldWasSaid(c, acts, h.author, m);
        Q.FinishMeansLocked(c, acts, m);
        var j := Outside(Q.Locked(c, At(c, acts), k, h.hash), {});
        NoLock(c, acts, ones, twos, j, k);
      } else {
        OutcomeMeaning(rd.fin, High(c.n));
        FinWasSaid(c, acts, h.author, sl, rd.fin[0]);
        YesMeansLocked(c, acts, ones, twos, rd.fin[0]);
      }
    }
  }

  /** A yes vote of a slot means that phase-one votes for its leader were counted. */
  lemma {:induction false} YesMeansLocked(c: N.Cfg, acts: seq<Sched>, ones: set<Inst>, twos: set<Inst>, v: Msg)
    requires Silent(c) && Orderly(c, acts) && Counting(acts, ones, twos)
    requires (v.FinVote? || v.Prevote?) && Said(c, At(c, acts), v) && IsYes(v)
    ensures Inst(v.epoch, v.round, N.Elected(c, SlotOf(v))) in ones
  {
    var pv := v;
    if v.FinVote? {
      pv := FinVoteSource(c, acts, v);
    }
    SentByCorrect(c, acts, pv.author, Env(NONE, pv));
    SaidLeader(c, acts, pv);
    var k := Inst(v.epoch, v.round, N.Elected(c, SlotOf(v)));
    if k !in ones {
      NoLock(c, acts, ones, twos, pv.author, k);
    }
  }

  /** A node that has prevoted does not halt in a slot that came out as a no somewhere. */
  lemma {:induction false} PrevotedNoHalt(c: N.Cfg, acts: seq<Sched>, i: int, j: int, h: Msg)
    requires Silent(c) && Orderly(c, acts) && 0 <= i < c.n && 0 <= j < c.n && h.Halt?
    requires L.Num(At(c, acts).out[i], L.KPrevote, SlotOf(h)) >= 1 && Decides(c, At(c, acts), j, SlotOf(h), ActionNo)
    ensures Env(NONE, h) !in At(c, acts).out[i]
  {
    Projection(c, acts, i);
    L.LeaderProcessedOnce(c, i, Events(c, acts, i), SlotOf(h));
    if Decides(c, At(c, acts), i, SlotOf(h), ActionCommit) {
      CommitExcludesNo(c, acts, i, j, SlotOf(h));
    }
    if Env(NONE, h) in At(c, acts).out[i] {
      L.NumMember(At(c, acts).out[i], Env(NONE, h), L.KHalt, SlotOf(h));
    }
  }

  /** The three reasons why node i has not halted in a slot: no votes for the leader counted; it
      has prevoted and the slot came out as a no; two nodes that cannot have finished. */
  ghost predicate Muted(c: N.Cfg, s: State, i: int, ones: set<Inst>, twos: set<Inst>, sl: Slot)
    requires c.n >= 1 && Wf(c, s) && 0 <= i < c.n
  {
    || Inst(sl.e, sl.r, N.Elected(c, sl)) !in ones
    || (L.Num(s.out[i], L.KPrevote, sl) >= 1 && exists j :: 0 <= j < c.n && Decides(c, s, j, sl, ActionNo))
    || (exists p, q :: Unfinished(c, twos, sl, p, q))
  }

  predicate Unfinished(c: N.Cfg, twos: set<Inst>, sl: Slot, p: int, q: int) {
    0 <= p < c.n && 0 <= q < c.n && p != q && Inst(sl.e, sl.r, p) !in twos && Inst(sl.e, sl.r, q) !in twos
  }

  ghost predicate Mute(c: N.Cfg, s: State, i: int, ones: set<Inst>, twos: set<Inst>)
    requires c.n >= 1 && Wf(c, s) && 0 <= i < c.n
  {
    forall sl :: Muted(c, s, i, ones, twos, sl)
  }

  lemma {:induction false} UnfinishedIsFew(c: N.Cfg, acts: seq<Sched>, ones: set<Inst>, twos: set<Inst>, sl: Slot, p: int, q: int)
    requires Silent(c) && Counting(acts, ones, twos) && Unfinished(c, twos, sl, p, q)
    ensures FewFinish(c, At(c, acts), sl, p, q)
  {
    forall i, x, h | 0 <= i < c.n && (x == p || x == q) ensures !Heard(c, At(c, acts), i, Finish(x, h, sl.e, sl.r)) {
      var m := Finish(x, h, sl.e, sl.r);
      if Heard(c, At(c, acts), i, m) {
        HeardFinish(c, acts, i, m);
        NoFinish(c, acts, ones, twos, m);
      }
    }
  }

  lemma {:induction false} HeardFinish(c: N.Cfg, acts: seq<Sched>, i: int, m: Msg)
    requires Silent(c) && 0 <= i < c.n && m.Finish? && Heard(c, At(c, acts), i, m)
    ensures Said(c, At(c, acts), m)
  {
    var s := At(c, acts);
    var x := if Env(NONE, m) in s.out[m.author] then Env(NONE, m) else Env(i, m);
    SentByCorrect(c, acts, m.author, x);
  }

  lemma {:induction false} MuteIsHaltless(c: N.Cfg, acts: seq<Sched>, i: int, ones: set<Inst>, twos: set<Inst>)
    requires c.n == 4 && Calm(c, acts) && Counting(acts, ones, twos) && 0 <= i < c.n && Mute(c, At(c, acts), i, ones, twos)
    ensures Haltless(c, At(c, acts), i)
  {
    CalmIsOrderly(c, acts);
    forall x | x in At(c, acts).out[i] ensures !x.msg.Halt? {
      if x.msg.Halt? {
        var h, sl := x.msg, SlotOf(x.msg);
        SentByCorrect(c, acts, i, x);
        assert Muted(c, At(c, acts), i, ones, twos, sl);
        MutedNoHalt(c, acts, i, ones, twos, h);
      }
    }
  }

  lemma {:induction false} MutedNoHalt(c: N.Cfg, acts: seq<Sched>, i: int, ones: set<Inst>, twos: set<Inst>, h: Msg)
    requires c.n == 4 && Silent(c) && Orderly(c, acts) && Counting(acts, ones, twos) && 0 <= i < c.n
    requires h.Halt? && h.author == i && Muted(c, At(c, acts), i, ones, twos, SlotOf(h))
    ensures !Said(c, At(c, acts), h)
  {
    var s, sl := At(c, acts), SlotOf(h);
    if Said(c, s, h) {
      UnlockedNoHalt(c, acts, ones, twos, h);
      if exists p, q :: Unfinished(c, twos, sl, p, q) {
        var p, q :| Unfinished(c, twos, sl, p, q);
        UnfinishedIsFew(c, acts, ones, twos, sl, p, q);
        FewFinishNoHalt(c, acts, p, q, h);
      } else {
        var j :| 0 <= j < c.n && Decides(c, s, j, sl, ActionNo);
        PrevotedNoHalt(c, acts, i, j, h);
      }
    }
  }
}

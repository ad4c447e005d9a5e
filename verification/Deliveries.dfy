/** The conservation law of SPB buffering: every vote and two-phase proposal a node lets in
    is at any time counted, buffered or waiting to run, exactly once; so the order of
    arrival does not matter, and each quorum is announced exactly once. */
module Deliveries {
  import opened Messages
  import opened Committee
  import Spb
  import opened Node
  import opened Local
  import opened Origins

  // ------------------------------------------------------------------- buffer types

  /** Buffers and counted votes hold messages of their own kind and instance. */
  ghost predicate Typed(s: Spb.State, k: Inst) {
    && (forall x :: x in s.bufP ==> x.Proposal? && x.phase == TWO_PHASE && InstOf(x) == k)
    && (forall x :: x in s.bufV ==> x.SpbVote? && InstOf(x) == k)
    && (forall x :: x in s.votes ==> x.SpbVote? && InstOf(x) == k)
  }

  lemma {:induction false} TypedStep(me: int, k: Inst, s: Spb.State, m: Msg, th: nat)
    requires (m.Proposal? || m.SpbVote?) && k == InstOf(m) && Typed(s, k)
    ensures Typed(Spb.OnMessage(me, k, s, m, th).st, k)
  {
  }

  lemma {:induction false} AlwaysTyped(c: Cfg, me: int, evs: seq<Event>, k: Inst)
    requires c.n >= 1
    ensures Typed(SpbOf(After(c, me, evs).nd, k), k)
  {
    if evs != [] {
      var nd, ev := After(c, me, evs[..|evs| - 1]).nd, evs[|evs| - 1];
      AlwaysTyped(c, me, evs[..|evs| - 1], k);
      SpbStep(c, me, nd, ev, k);
      if IsTask(nd, ev) && InstOf(ev.m) == k {
        TypedStep(me, k, SpbOf(nd, k), ev.m, High(c.n));
      }
    }
  }

  // -------------------------------------------------------------------- conservation

  /** The message is let in: it passes the epoch filter and becomes a task. */
  predicate LetIn(nd: State, ev: Event, m: Msg) {
    ev.Recv? && nd.started && ev.m == m && m.epoch >= nd.epoch
  }

  /** How often m was let in during a run. */
  function Delivered(c: Cfg, me: int, evs: seq<Event>, m: Msg): nat
    requires c.n >= 1
  {
    if evs == [] then 0
    else
      var init := evs[..|evs| - 1];
      Delivered(c, me, init, m) + Unit(LetIn(After(c, me, init).nd, evs[|evs| - 1], m))
  }

  /** A vote's whereabouts: counted, buffered, or waiting to run. */
  function Whereabouts(nd: State, v: Msg): nat
    requires v.SpbVote?
  {
    var s := SpbOf(nd, InstOf(v));
    multiset(s.votes)[v] + multiset(s.bufV)[v] + nd.tasks[v]
  }

  /** Processing one message moves votes between buffer, count and tasks and loses none. */
  lemma {:induction false} VotesMove(me: int, k: Inst, s: Spb.State, m: Msg, th: nat, v: Msg)
    requires (m.Proposal? || m.SpbVote?) && k == InstOf(m) && Typed(s, k) && v.SpbVote?
    ensures var r := Spb.OnMessage(me, k, s, m, th);
            InstOf(v) == k ==>
              multiset(r.st.votes)[v] + multiset(r.st.bufV)[v] + multiset(r.spawn)[v] ==
              multiset(s.votes)[v] + multiset(s.bufV)[v] + Unit(m == v)
  {
    if m.Proposal? {
      Released(me, k, s, m, v);
      assert m != v;
    } else {
      var r := Spb.OnVote(me, k, s, m, th);
      assert r.spawn == [];
    }
  }

  /** A proposal leaves the counted votes alone; what leaves the buffers is set going again. */
  lemma {:induction false} Released(me: int, k: Inst, s: Spb.State, m: Msg, v: Msg)
    requires m.Proposal? && k == InstOf(m) && Typed(s, k)
    ensures var r := Spb.OnProposal(me, k, s, m);
            && r.st.votes == s.votes
            && (v.SpbVote? ==> multiset(r.st.bufV)[v] + multiset(r.spawn)[v] == multiset(s.bufV)[v])
            && (r.spawn == [] || (r.spawn == s.bufP + s.bufV && r.st.bufP == [] && m.phase == ONE_PHASE))
  {
    var r := Spb.OnProposal(me, k, s, m);
    if r.spawn != [] {
      assert multiset(s.bufP + s.bufV) == multiset(s.bufP) + multiset(s.bufV);
      if v.SpbVote? {
        assert v !in s.bufP;
      }
    }
  }

  lemma {:induction false} ForeignSpawn(me: int, k: Inst, s: Spb.State, m: Msg, th: nat, v: Msg)
    requires (m.Proposal? || m.SpbVote?) && k == InstOf(m) && Typed(s, k) && v.SpbVote? && InstOf(v) != k
    ensures multiset(Spb.OnMessage(me, k, s, m, th).spawn)[v] == 0
  {
    var r := Spb.OnMessage(me, k, s, m, th);
    assert forall x :: x in r.spawn ==> x in s.bufP || x in s.bufV;
    assert v !in r.spawn;
  }

  lemma {:induction false} RunConserves(c: Cfg, me: int, nd: State, m: Msg, v: Msg)
    requires v.SpbVote? && m in nd.tasks && (m.Proposal? || m.SpbVote?) && Typed(SpbOf(nd, InstOf(m)), InstOf(m))
    ensures Whereabouts(RunTask(c, me, nd, m).nd, v) == Whereabouts(nd, v)
  {
    hide Spb.OnMessage, High;
    var k := InstOf(m);
    var s := SpbOf(nd, k);
    var r := Spb.OnMessage(me, k, s, m, High(c.n));
    assert (nd.tasks - multiset{m} + multiset(r.spawn))[v] == nd.tasks[v] - Unit(m == v) + multiset(r.spawn)[v];
    if InstOf(v) == k {
      VotesMove(me, k, s, m, High(c.n), v);
    } else {
      ForeignSpawn(me, k, s, m, High(c.n), v);
    }
  }

  lemma {:induction false} ProposalTasks(nd: State, p: Msg, o: Oracle)
    requires p.Proposal?
    ensures var nd' := OnProposal(nd, p, o); nd'.spb == nd.spb && (nd'.tasks == nd.tasks || nd'.tasks == nd.tasks + multiset{p})
    ensures p.phase == TWO_PHASE && p.epoch >= nd.epoch ==> OnProposal(nd, p, o).tasks == nd.tasks + multiset{p}
    ensures p.epoch < nd.epoch ==> OnProposal(nd, p, o).tasks == nd.tasks
  {
  }

  lemma {:induction false} LoopTasks(nd: State, d: Digest, o: Oracle)
    ensures var nd' := OnLoopBack(nd, d, o);
            && nd'.spb == nd.spb
            && (nd'.tasks == nd.tasks || (d.HashOf? && nd'.tasks == nd.tasks + multiset{Replayed(d.block)}))
  {
  }

  /** A vote or two-phase proposal becomes a task exactly when it is let in. */
  predicate SpbMsg(m: Msg) {
    m.SpbVote? || (m.Proposal? && m.phase == TWO_PHASE)
  }

  lemma {:induction false} TasksElse(c: Cfg, me: int, nd: State, ev: Event, v: Msg)
    requires c.n >= 1 && SpbMsg(v) && !ev.Run?
    ensures var nd' := Step(c, me, nd, ev).nd;
            && nd'.spb == nd.spb
            && nd'.tasks[v] == nd.tasks[v] + Unit(LetIn(nd, ev, v))
  {
    hide Spb.OnProposal, OnHalt, OnProposal;
    match ev
    case Recv(m, o) =>
      if nd.started {
        if IsRoundMsg(m) {
          RoundLeaves(c, me, nd, m, o);
        } else if m.Halt? {
          HaltLeavesRest(me, nd, m, o);
        } else if m.Proposal? {
          ProposalTasks(nd, m, o);
        }
      }
    case Loop(d, o) => LoopTasks(nd, d, o);
    case Start(o) =>
  }

  lemma {:induction false} StepConserves(c: Cfg, me: int, nd: State, ev: Event, v: Msg)
    requires c.n >= 1 && v.SpbVote?
    requires IsTask(nd, ev) ==> Typed(SpbOf(nd, InstOf(ev.m)), InstOf(ev.m))
    ensures Whereabouts(Step(c, me, nd, ev).nd, v) == Whereabouts(nd, v) + Unit(LetIn(nd, ev, v))
  {
    if IsTask(nd, ev) {
      RunConserves(c, me, nd, ev.m, v);
    } else if !ev.Run? {
      TasksElse(c, me, nd, ev, v);
    }
  }

  /** Every vote let in is counted, buffered or waiting, exactly as often as it was let in. */
  lemma {:induction false} VotesConserved(c: Cfg, me: int, evs: seq<Event>, v: Msg)
    requires c.n >= 1 && v.SpbVote?
    ensures Whereabouts(After(c, me, evs).nd, v) == Delivered(c, me, evs, v)
  {
    if evs != [] {
      var init := evs[..|evs| - 1];
      var nd, ev := After(c, me, init).nd, evs[|evs| - 1];
      VotesConserved(c, me, init, v);
      if IsTask(nd, ev) {
        AlwaysTyped(c, me, init, InstOf(ev.m));
      }
      StepConserves(c, me, nd, ev, v);
    }
  }

  /** Once nothing waits to run, an instance that knows its block has counted every vote let
      in, in whatever order the messages came. */
  lemma {:induction false} QuietCountsAll(c: Cfg, me: int, evs: seq<Event>, v: Msg)
    requires c.n >= 1 && v.SpbVote?
    requires var nd := After(c, me, evs).nd; nd.tasks == multiset{} && SpbOf(nd, InstOf(v)).hash.Some?
    ensures multiset(SpbOf(After(c, me, evs).nd, InstOf(v)).votes)[v] == Delivered(c, me, evs, v)
  {
    VotesConserved(c, me, evs, v);
    LockHasHash(c, me, evs, InstOf(v));
  }

  // ------------------------------------------------------------ announced exactly once

  /** The number of copies of one envelope in a log. */
  function Copies(out: seq<Envelope>, x: Envelope): nat {
    multiset(out)[x]
  }

  lemma CopiesAppend(out: seq<Envelope>, sends: seq<Envelope>, x: Envelope)
    ensures Copies(out + sends, x) == Copies(out, x) + Copies(sends, x)
  {
  }

  lemma CopiesIn(out: seq<Envelope>, x: Envelope)
    ensures Copies(out, x) >= 1 <==> x in out
  {
  }

  /** Messages only tasks send: votes and two-phase proposals. */
  predicate IsSpbSend(x: Envelope) {
    x.msg.SpbVote? || (x.msg.Proposal? && x.msg.phase == TWO_PHASE)
  }

  lemma {:induction false} RoundSendsNone(c: Cfg, me: int, nd: State, rd: Round, m: Msg, x: Envelope)
    requires c.n >= 1 && IsRoundMsg(m) && IsSpbSend(x)
    ensures x !in OnRound(c, me, nd, rd, m).sends
  {
    Frame(c, me, nd, rd, m);
  }

  lemma {:induction false} OnlyTasksSend(c: Cfg, me: int, nd: State, ev: Event, x: Envelope)
    requires c.n >= 1 && IsSpbSend(x) && x in Step(c, me, nd, ev).sends
    ensures IsTask(nd, ev)
  {
    if ev.Recv? && IsRoundMsg(ev.m) {
      RoundSendsNone(c, me, nd, RoundOf(nd, SlotOf(ev.m)), ev.m, x);
    }
  }

  /** The two-phase proposal of an instance is sent exactly when 2f+1 one-phase votes are
      counted, and then once. */
  lemma {:induction false} PhaseTwoStep(c: Cfg, me: int, k: Inst, s: Spb.State, m: Msg, q: Inst)
    requires (m.Proposal? || m.SpbVote?) && k == InstOf(m)
    ensures var r := Spb.OnMessage(me, k, s, m, High(c.n));
            Copies(r.sends, Env(NONE, Spb.PhaseTwo(me, q))) ==
            if q == k then Unit(Spb.Count(r.st.votes, ONE_PHASE) >= High(c.n)) - Unit(Spb.Count(s.votes, ONE_PHASE) >= High(c.n))
            else 0
  {
    hide Spb.Count;
    if m.SpbVote? {
      Spb.CountSnoc(s.votes, m, ONE_PHASE);
    }
  }

  lemma {:induction false} PhaseTwoOnce(c: Cfg, me: int, evs: seq<Event>, k: Inst)
    requires c.n >= 1
    ensures var o := After(c, me, evs);
            Copies(o.sends, Env(NONE, Spb.PhaseTwo(me, k))) ==
            Unit(Spb.Count(SpbOf(o.nd, k).votes, ONE_PHASE) >= High(c.n))
  {
    if evs != [] {
      var o, ev := After(c, me, evs[..|evs| - 1]), evs[|evs| - 1];
      var r := Step(c, me, o.nd, ev);
      var x := Env(NONE, Spb.PhaseTwo(me, k));
      PhaseTwoOnce(c, me, evs[..|evs| - 1], k);
      CopiesAppend(o.sends, r.sends, x);
      SpbStep(c, me, o.nd, ev, k);
      if IsTask(o.nd, ev) {
        SpbStep(c, me, o.nd, ev, InstOf(ev.m));
        PhaseTwoStep(c, me, InstOf(ev.m), SpbOf(o.nd, InstOf(ev.m)), ev.m, k);
      } else {
        CopiesIn(r.sends, x);
        if x in r.sends {
          OnlyTasksSend(c, me, o.nd, ev, x);
        }
      }
    }
  }

  // ------------------------------------------------------------------- votes are cast once

  lemma {:induction false} VoteOneStep(c: Cfg, me: int, k: Inst, s: Spb.State, m: Msg, q: Inst, h: Digest)
    requires (m.Proposal? || m.SpbVote?) && k == InstOf(m)
    ensures var r := Spb.OnMessage(me, k, s, m, High(c.n));
            Copies(r.sends, Env(q.p, Spb.VoteOne(me, q, h))) ==
            if q == k then Unit(r.st.hash == Some(h)) - Unit(s.hash == Some(h)) else 0
  {
  }

  /** The one-phase vote of an instance is cast exactly when its block hash is set, for that
      hash, and then once. */
  lemma {:induction false} VoteOneOnce(c: Cfg, me: int, evs: seq<Event>, k: Inst, h: Digest)
    requires c.n >= 1
    ensures var o := After(c, me, evs);
            Copies(o.sends, Env(k.p, Spb.VoteOne(me, k, h))) == Unit(SpbOf(o.nd, k).hash == Some(h))
  {
    if evs != [] {
      var o, ev := After(c, me, evs[..|evs| - 1]), evs[|evs| - 1];
      var r := Step(c, me, o.nd, ev);
      var x := Env(k.p, Spb.VoteOne(me, k, h));
      VoteOneOnce(c, me, evs[..|evs| - 1], k, h);
      CopiesAppend(o.sends, r.sends, x);
      SpbStep(c, me, o.nd, ev, k);
      if IsTask(o.nd, ev) {
        SpbStep(c, me, o.nd, ev, InstOf(ev.m));
        VoteOneStep(c, me, InstOf(ev.m), SpbOf(o.nd, InstOf(ev.m)), ev.m, k, h);
      } else {
        CopiesIn(r.sends, x);
        if x in r.sends {
          OnlyTasksSend(c, me, o.nd, ev, x);
        }
      }
    }
  }

  /** Whenever a two-phase proposal of q's instance is run, it is q itself. */
  ghost predicate OnlyRuns(c: Cfg, me: int, evs: seq<Event>, q: Msg)
    requires c.n >= 1 && q.Proposal?
  {
    evs == [] ||
    (var init, ev := evs[..|evs| - 1], evs[|evs| - 1];
     && OnlyRuns(c, me, init, q)
     && (IsTask(After(c, me, init).nd, ev) && ev.m.Proposal? && ev.m.phase == TWO_PHASE && InstOf(ev.m) == InstOf(q) ==>
           ev.m == q))
  }

  /** A two-phase proposal's whereabouts: voted for, buffered, or waiting to run. */
  function Progress(me: int, nd: State, out: seq<Envelope>, q: Msg): nat
    requires q.Proposal?
  {
    var k := InstOf(q);
    Copies(out, Env(k.p, Spb.VoteTwo(me, k))) + multiset(SpbOf(nd, k).bufP)[q] + nd.tasks[q]
  }

  lemma {:induction false} TwoMoves(me: int, k: Inst, s: Spb.State, m: Msg, th: nat, q: Msg)
    requires (m.Proposal? || m.SpbVote?) && k == InstOf(m) && Typed(s, k)
    requires q.Proposal? && q.phase == TWO_PHASE && InstOf(q) == k
    requires m.Proposal? && m.phase == TWO_PHASE ==> m == q
    ensures var r := Spb.OnMessage(me, k, s, m, th);
            Copies(r.sends, Env(k.p, Spb.VoteTwo(me, k))) + multiset(r.st.bufP)[q] + multiset(r.spawn)[q] ==
            multiset(s.bufP)[q] + Unit(m == q)
  {
    if m.SpbVote? {
      VoteSendsNoVote(me, k, s, m, th);
    } else if m.phase == ONE_PHASE {
      OneReleases(me, k, s, m, q);
    }
  }

  lemma {:induction false} VoteSendsNoVote(me: int, k: Inst, s: Spb.State, m: Msg, th: nat)
    requires m.SpbVote? && k == InstOf(m)
    ensures var r := Spb.OnVote(me, k, s, m, th);
            r.spawn == [] && r.st.bufP == s.bufP && Copies(r.sends, Env(k.p, Spb.VoteTwo(me, k))) == 0
  {
  }

  lemma {:induction false} OneReleases(me: int, k: Inst, s: Spb.State, m: Msg, q: Msg)
    requires m.Proposal? && m.phase == ONE_PHASE && k == InstOf(m) && Typed(s, k) && q.Proposal?
    ensures var r := Spb.OnProposal(me, k, s, m);
            && multiset(r.st.bufP)[q] + multiset(r.spawn)[q] == multiset(s.bufP)[q]
            && Copies(r.sends, Env(k.p, Spb.VoteTwo(me, k))) == 0
  {
    assert q !in s.bufV;
    assert multiset(s.bufP + s.bufV) == multiset(s.bufP) + multiset(s.bufV);
  }

  lemma {:induction false} TwoForeign(me: int, k: Inst, s: Spb.State, m: Msg, th: nat, q: Msg)
    requires (m.Proposal? || m.SpbVote?) && k == InstOf(m) && Typed(s, k)
    requires q.Proposal? && q.phase == TWO_PHASE && InstOf(q) != k
    ensures var r := Spb.OnMessage(me, k, s, m, th);
            multiset(r.spawn)[q] == 0 && Copies(r.sends, Env(InstOf(q).p, Spb.VoteTwo(me, InstOf(q)))) == 0
  {
    var r := Spb.OnMessage(me, k, s, m, th);
    assert forall x :: x in r.spawn ==> x in s.bufP || x in s.bufV;
    assert q !in r.spawn;
  }

  lemma {:induction false} RunProgress(c: Cfg, me: int, nd: State, out: seq<Envelope>, m: Msg, q: Msg)
    requires m in nd.tasks && (m.Proposal? || m.SpbVote?) && Typed(SpbOf(nd, InstOf(m)), InstOf(m))
    requires q.Proposal? && q.phase == TWO_PHASE
    requires m.Proposal? && m.phase == TWO_PHASE && InstOf(m) == InstOf(q) ==> m == q
    ensures var r := RunTask(c, me, nd, m); Progress(me, r.nd, out + r.sends, q) == Progress(me, nd, out, q)
  {
    hide Spb.OnMessage, Spb.OnProposal, Typed;
    var k := InstOf(m);
    var s := SpbOf(nd, k);
    var r := Spb.OnMessage(me, k, s, m, High(c.n));
    assert (nd.tasks - multiset{m} + multiset(r.spawn))[q] == nd.tasks[q] - Unit(m == q) + multiset(r.spawn)[q];
    CopiesAppend(out, r.sends, Env(InstOf(q).p, Spb.VoteTwo(me, InstOf(q))));
    if InstOf(q) == k {
      TwoMoves(me, k, s, m, High(c.n), q);
    } else {
      TwoForeign(me, k, s, m, High(c.n), q);
    }
  }

  lemma {:induction false} ElseProgress(c: Cfg, me: int, nd: State, ev: Event, out: seq<Envelope>, q: Msg)
    requires c.n >= 1 && !IsTask(nd, ev) && q.Proposal? && q.phase == TWO_PHASE
    ensures var r := Step(c, me, nd, ev);
            Progress(me, r.nd, out + r.sends, q) == Progress(me, nd, out, q) + Unit(LetIn(nd, ev, q))
  {
    var r := Step(c, me, nd, ev);
    var x := Env(InstOf(q).p, Spb.VoteTwo(me, InstOf(q)));
    CopiesAppend(out, r.sends, x);
    CopiesIn(r.sends, x);
    if x in r.sends {
      OnlyTasksSend(c, me, nd, ev, x);
    }
    if !ev.Run? {
      TasksElse(c, me, nd, ev, q);
    }
  }

  /** Two-phase proposals are conserved too: as long as q is the only one of its instance,
      it is voted for, buffered or waiting exactly as often as it was let in. */
  lemma {:induction false} PhaseTwoConserved(c: Cfg, me: int, evs: seq<Event>, q: Msg)
    requires c.n >= 1 && q.Proposal? && q.phase == TWO_PHASE && OnlyRuns(c, me, evs, q)
    ensures var o := After(c, me, evs); Progress(me, o.nd, o.sends, q) == Delivered(c, me, evs, q)
  {
    if evs != [] {
      var init, ev := evs[..|evs| - 1], evs[|evs| - 1];
      var o := After(c, me, init);
      PhaseTwoConserved(c, me, init, q);
      if IsTask(o.nd, ev) {
        AlwaysTyped(c, me, init, InstOf(ev.m));
        RunProgress(c, me, o.nd, o.sends, ev.m, q);
      } else {
        ElseProgress(c, me, o.nd, ev, o.sends, q);
      }
    }
  }

  // ------------------------------------------------------------- finished exactly once

  /** The number of finishes of a slot in a log. */
  function Finishes(out: seq<Envelope>, sl: Slot): nat {
    if out == [] then 0
    else Finishes(out[..|out| - 1], sl) + Unit(out[|out| - 1].msg.Finish? && SlotOf(out[|out| - 1].msg) == sl)
  }

  lemma {:induction false} FinishesAppend(out: seq<Envelope>, sends: seq<Envelope>, sl: Slot)
    ensures Finishes(out + sends, sl) == Finishes(out, sl) + Finishes(sends, sl)
  {
    if sends == [] {
      assert out + sends == out;
    } else {
      assert (out + sends)[..|out + sends| - 1] == out + sends[..|sends| - 1];
      FinishesAppend(out, sends[..|sends| - 1], sl);
    }
  }

  lemma {:induction false} NoFinishes(sends: seq<Envelope>, sl: Slot)
    requires forall x :: x in sends ==> !x.msg.Finish?
    ensures Finishes(sends, sl) == 0
  {
    if sends != [] {
      NoFinishes(sends[..|sends| - 1], sl);
    }
  }

  /** Every vote the node has run is for its own instance. */
  ghost predicate OwnVotes(c: Cfg, me: int, evs: seq<Event>)
    requires c.n >= 1
  {
    evs == [] ||
    (var init, ev := evs[..|evs| - 1], evs[|evs| - 1];
     && OwnVotes(c, me, init)
     && (IsTask(After(c, me, init).nd, ev) && ev.m.SpbVote? ==> ev.m.proposer == me))
  }

  lemma {:induction false} FinishStep(me: int, k: Inst, s: Spb.State, m: Msg, th: nat, sl: Slot)
    requires (m.Proposal? || m.SpbVote?) && k == InstOf(m) && th >= 1
    ensures var r := Spb.OnMessage(me, k, s, m, th);
            Finishes(r.sends, sl) ==
            if Slot(k.e, k.r) == sl then Unit(Spb.Count(r.st.votes, TWO_PHASE) >= th) - Unit(Spb.Count(s.votes, TWO_PHASE) >= th)
            else 0
  {
    var r := Spb.OnMessage(me, k, s, m, th);
    if m.SpbVote? {
      Spb.CountSnoc(s.votes, m, TWO_PHASE);
    }
    assert |r.sends| <= 1;
    if |r.sends| == 1 {
      assert r.sends[..0] == [];
    }
  }

  lemma {:induction false} RoundFinishesNone(c: Cfg, me: int, nd: State, rd: Round, m: Msg)
    requires c.n >= 1 && IsRoundMsg(m)
    ensures forall x :: x in OnRound(c, me, nd, rd, m).sends ==> !x.msg.Finish?
  {
    Frame(c, me, nd, rd, m);
  }

  lemma {:induction false} OnlyTasksFinish(c: Cfg, me: int, nd: State, ev: Event)
    requires c.n >= 1 && !IsTask(nd, ev)
    ensures forall x :: x in Step(c, me, nd, ev).sends ==> !x.msg.Finish?
  {
    if ev.Recv? && IsRoundMsg(ev.m) {
      RoundFinishesNone(c, me, nd, RoundOf(nd, SlotOf(ev.m)), ev.m);
    }
  }

  lemma {:induction false} FinishRun(c: Cfg, me: int, nd: State, m: Msg, sl: Slot)
    requires m in nd.tasks && (m.Proposal? || m.SpbVote?) && (m.SpbVote? ==> m.proposer == me)
    ensures var r := RunTask(c, me, nd, m);
            var k := Inst(sl.e, sl.r, me);
            Finishes(r.sends, sl) == Unit(Spb.Count(SpbOf(r.nd, k).votes, TWO_PHASE) >= High(c.n))
                                   - Unit(Spb.Count(SpbOf(nd, k).votes, TWO_PHASE) >= High(c.n))
  {
    FinishStep(me, InstOf(m), SpbOf(nd, InstOf(m)), m, High(c.n), sl);
  }

  /** If the votes a node runs are for its own instances, it sends one finish per slot, exactly
      when 2f+1 two-phase votes of its own instance are counted. */
  lemma {:induction false} FinishOnce(c: Cfg, me: int, evs: seq<Event>, sl: Slot)
    requires c.n >= 1 && OwnVotes(c, me, evs)
    ensures var o := After(c, me, evs);
            Finishes(o.sends, sl) == Unit(Spb.Count(SpbOf(o.nd, Inst(sl.e, sl.r, me)).votes, TWO_PHASE) >= High(c.n))
  {
    if evs != [] {
      var o, ev := After(c, me, evs[..|evs| - 1]), evs[|evs| - 1];
      var r := Step(c, me, o.nd, ev);
      var k := Inst(sl.e, sl.r, me);
      FinishOnce(c, me, evs[..|evs| - 1], sl);
      FinishesAppend(o.sends, r.sends, sl);
      if IsTask(o.nd, ev) {
        FinishRun(c, me, o.nd, ev.m, sl);
      } else {
        SpbStep(c, me, o.nd, ev, k);
        OnlyTasksFinish(c, me, o.nd, ev);
        NoFinishes(r.sends, sl);
      }
    }
  }
}

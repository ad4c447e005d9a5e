/** Building runs, continued: what a node that has read enough of a round has sent. */
module Rounds {
  import opened Messages
  import opened Committee
  import opened Votes
  import N = Node
  import opened System
  import L = Local
  import opened Ballots
  import opened Runs
  import opened Benign
  import opened Agreement
  import opened Schedules
  import opened Broadcasts

  lemma {:induction false} ThreeIn(s: set<int>, x: int, y: int, z: int)
    requires x in s && y in s && z in s && x != y && x != z && y != z
    ensures |s| >= 3
  {
    SubsetSize({x, y, z}, s);
  }

  predicate Distinct(x: int, y: int, z: int) {
    x != y && x != z && y != z
  }

  /** Node i has read the three messages. */
  ghost predicate HeardThree(c: N.Cfg, s: State, i: int, m: Msg, m': Msg, m'': Msg)
    requires Wf(c, s) && 0 <= i < c.n
  {
    Heard(c, s, i, m) && Heard(c, s, i, m') && Heard(c, s, i, m'')
  }

  /** What node i has read of a slot of epoch 0 is counted. */
  lemma {:induction false} HeardCounts(c: N.Cfg, acts: seq<Sched>, i: int, m: Msg)
    requires c.n >= 1 && Calm(c, acts) && 0 <= i < c.n && N.IsRoundMsg(m) && m.epoch == 0 && Heard(c, At(c, acts), i, m)
    ensures Counts(N.RoundOf(At(c, acts).nodes[i], SlotOf(m)), m)
  {
    CalmNode(c, acts, i);
    HeardIsCounted(c, acts, i, m);
  }

  // ------------------------------------------------------------------------- done

  /** A set Done flag means that Done and share were broadcast. */
  lemma {:induction false} DoneIsSaid(c: N.Cfg, acts: seq<Sched>, i: int, sl: Slot)
    requires Silent(c) && 0 <= i < c.n
    requires var rd := N.RoundOf(At(c, acts).nodes[i], sl); |rd.finish| >= High(c.n) || |rd.done| >= Low(c.n)
    ensures Said(c, At(c, acts), Done(i, sl.e, sl.r)) && Said(c, At(c, acts), ElectShare(i, sl.e, sl.r))
  {
    Projection(c, acts, i);
    L.DoneExactly(c, i, Events(c, acts, i), sl);
    var x := L.SomeOfKind(At(c, acts).out[i], L.KDone, sl);
    var y := L.SomeOfKind(At(c, acts).out[i], L.KShare, sl);
    SentByCorrect(c, acts, i, x);
    SentByCorrect(c, acts, i, y);
  }

  lemma {:induction false} FinishesToDone(c: N.Cfg, acts: seq<Sched>, i: int, sl: Slot, m: Msg, m': Msg, m'': Msg)
    requires c.n == 4 && Calm(c, acts) && 0 <= i < c.n && sl.e == 0 && HeardThree(c, At(c, acts), i, m, m', m'')
    requires m.Finish? && m'.Finish? && m''.Finish? && SlotOf(m) == SlotOf(m') == SlotOf(m'') == sl
    requires Distinct(m.author, m'.author, m''.author)
    ensures Said(c, At(c, acts), Done(i, sl.e, sl.r)) && Said(c, At(c, acts), ElectShare(i, sl.e, sl.r))
  {
    HeardCounts(c, acts, i, m);
    HeardCounts(c, acts, i, m');
    HeardCounts(c, acts, i, m'');
    ThreeIn(N.RoundOf(At(c, acts).nodes[i], sl).finish.Keys, m.author, m'.author, m''.author);
    DoneIsSaid(c, acts, i, sl);
  }

  // ----------------------------------------------------------------------- ballots

  /** Node i has read the dones and shares of three nodes. */
  ghost predicate HeardDones(c: N.Cfg, s: State, i: int, sl: Slot, x: int, y: int, z: int)
    requires Wf(c, s) && 0 <= i < c.n
  {
    && HeardThree(c, s, i, Done(x, sl.e, sl.r), Done(y, sl.e, sl.r), Done(z, sl.e, sl.r))
    && HeardThree(c, s, i, ElectShare(x, sl.e, sl.r), ElectShare(y, sl.e, sl.r), ElectShare(z, sl.e, sl.r))
  }

  /** Then it has processed the leader: it has sent a prevote or a halt. */
  lemma {:induction false} DonesToBody(c: N.Cfg, acts: seq<Sched>, i: int, sl: Slot, x: int, y: int, z: int)
    requires c.n == 4 && Calm(c, acts) && 0 <= i < c.n && sl.e == 0 && Distinct(x, y, z) && HeardDones(c, At(c, acts), i, sl, x, y, z)
    ensures L.Bodies(At(c, acts).out[i], sl) >= 1
  {
    var rd := N.RoundOf(At(c, acts).nodes[i], sl);
    HeardCounts(c, acts, i, Done(x, sl.e, sl.r));
    HeardCounts(c, acts, i, Done(y, sl.e, sl.r));
    HeardCounts(c, acts, i, Done(z, sl.e, sl.r));
    ThreeIn(rd.done, x, y, z);
    HeardCounts(c, acts, i, ElectShare(x, sl.e, sl.r));
    HeardCounts(c, acts, i, ElectShare(y, sl.e, sl.r));
    HeardCounts(c, acts, i, ElectShare(z, sl.e, sl.r));
    ThreeIn(rd.shares, x, y, z);
    Projection(c, acts, i);
    CalmFinds(c, acts, i);
    L.ReadyExactly(c, i, Events(c, acts, i), sl);
    L.LeaderProcessedOnce(c, i, Events(c, acts, i), sl);
  }

  function NoVote(c: N.Cfg, i: int, sl: Slot): Msg
    requires c.n >= 1
  {
    Prevote(i, N.Elected(c, sl), sl.e, sl.r, VOTE_NO, Zero)
  }

  /** With the leader locked nowhere that is a no. */
  lemma {:induction false} PrevotesNo(c: N.Cfg, acts: seq<Sched>, ones: set<Inst>, twos: set<Inst>, i: int, sl: Slot)
    requires c.n == 4 && Calm(c, acts) && Counting(acts, ones, twos) && 0 <= i < c.n && L.Bodies(At(c, acts).out[i], sl) >= 1
    requires Inst(sl.e, sl.r, N.Elected(c, sl)) !in ones
    ensures Said(c, At(c, acts), NoVote(c, i, sl))
  {
    CalmIsOrderly(c, acts);
    if L.Num(At(c, acts).out[i], L.KPrevote, sl) >= 1 {
      var x := L.SomeOfKind(At(c, acts).out[i], L.KPrevote, sl);
      SentByCorrect(c, acts, i, x);
      SaidLeader(c, acts, x.msg);
      if x.msg.flag == VOTE_YES {
        YesMeansLocked(c, acts, ones, twos, x.msg);
      }
    } else {
      var x := L.SomeOfKind(At(c, acts).out[i], L.KHalt, sl);
      SentByCorrect(c, acts, i, x);
      UnlockedNoHalt(c, acts, ones, twos, x.msg);
    }
  }

  /** All the prevotes it has accepted for such a slot are noes. */
  lemma {:induction false} HoldsNoYes(c: N.Cfg, acts: seq<Sched>, ones: set<Inst>, twos: set<Inst>, i: int, sl: Slot)
    requires c.n == 4 && Calm(c, acts) && Counting(acts, ones, twos) && 0 <= i < c.n && sl.e == 0
    requires Inst(sl.e, sl.r, N.Elected(c, sl)) !in ones
    ensures forall v :: v in N.RoundOf(At(c, acts).nodes[i], sl).pre ==> !IsYes(v)
  {
    hide At, Counting, L.After;
    CalmIsOrderly(c, acts);
    Projection(c, acts, i);
    OneVoteEach(c, i, Events(c, acts, i), sl);
    var pre := N.RoundOf(At(c, acts).nodes[i], sl).pre;
    forall v | v in pre ensures !IsYes(v) {
      HeldWasSaid(c, acts, i, v);
      if IsYes(v) {
        YesMeansLocked(c, acts, ones, twos, v);
      }
    }
  }

  /** A node that has read three no prevotes of such a slot casts a no. */
  lemma {:induction false} CastsNo(c: N.Cfg, acts: seq<Sched>, ones: set<Inst>, twos: set<Inst>, i: int, sl: Slot, m: Msg, m': Msg, m'': Msg)
    returns (v: Msg)
    requires c.n == 4 && Calm(c, acts) && Counting(acts, ones, twos) && 0 <= i < c.n && sl.e == 0
    requires Inst(sl.e, sl.r, N.Elected(c, sl)) !in ones
    requires m.Prevote? && m'.Prevote? && m''.Prevote? && SlotOf(m) == SlotOf(m') == SlotOf(m'') == sl
    requires Distinct(m.author, m'.author, m''.author) && HeardThree(c, At(c, acts), i, m, m', m'')
    ensures v.FinVote? && v.author == i && SlotOf(v) == sl && Said(c, At(c, acts), v)
  {
    hide At, L.After, Authors, Cast, Counting;
    CalmIsOrderly(c, acts);
    HeardCounts(c, acts, i, m);
    HeardCounts(c, acts, i, m');
    HeardCounts(c, acts, i, m'');
    var pre := N.RoundOf(At(c, acts).nodes[i], sl).pre;
    ThreeIn(Authors(pre), m.author, m'.author, m''.author);
    Projection(c, acts, i);
    OneVoteEach(c, i, Events(c, acts, i), sl);
    AuthorsSize(pre);
    HoldsNoYes(c, acts, ones, twos, i, sl);
    CastExactly(c, i, Events(c, acts, i), sl);
    CastShapes(i, pre, High(c.n));
    v := FinVotes(At(c, acts).out[i], sl)[0];
    var x := FinVoteIn(At(c, acts).out[i], sl, v);
    SentByCorrect(c, acts, i, x);
  }

  /** A node that has read three final votes of such a slot has a no. */
  lemma {:induction false} ComesOutNo(c: N.Cfg, acts: seq<Sched>, ones: set<Inst>, twos: set<Inst>, i: int, sl: Slot, m: Msg, m': Msg, m'': Msg)
    requires c.n == 4 && Calm(c, acts) && Counting(acts, ones, twos) && 0 <= i < c.n && sl.e == 0
    requires Inst(sl.e, sl.r, N.Elected(c, sl)) !in ones
    requires m.FinVote? && m'.FinVote? && m''.FinVote? && SlotOf(m) == SlotOf(m') == SlotOf(m'') == sl
    requires Distinct(m.author, m'.author, m''.author) && HeardThree(c, At(c, acts), i, m, m', m'')
    ensures Decides(c, At(c, acts), i, sl, ActionNo)
  {
    CalmIsOrderly(c, acts);
    HeardCounts(c, acts, i, m);
    HeardCounts(c, acts, i, m');
    HeardCounts(c, acts, i, m'');
    var fin := N.RoundOf(At(c, acts).nodes[i], sl).fin;
    ThreeIn(Authors(fin), m.author, m'.author, m''.author);
    Projection(c, acts, i);
    OneVoteEach(c, i, Events(c, acts, i), sl);
    AuthorsSize(fin);
    forall j | 0 <= j < High(c.n) ensures !IsYes(fin[j]) {
      FinWasSaid(c, acts, i, sl, fin[j]);
      if IsYes(fin[j]) {
        YesMeansLocked(c, acts, ones, twos, fin[j]);
      }
    }
    OutcomeMeaning(fin, High(c.n));
  }

  // ------------------------------------------------------------------ the next round

  /** A no makes a node that knows its own block propose it for the next round. */
  ghost predicate Opens(c: N.Cfg, me: int, nd: N.State, out: seq<Envelope>, sl: Slot, b: Block) {
    Outcome(N.RoundOf(nd, sl).fin, High(c.n)) == ActionNo ==> Env(NONE, Proposal(me, b, sl.e, sl.r + 1, ONE_PHASE)) in out
  }

  lemma {:induction false} OpensOnVote(c: N.Cfg, me: int, nd: N.State, rd: N.Round, m: Msg, out: seq<Envelope>, b: Block)
    requires c.n >= 1 && m.FinVote? && N.SpbOf(nd, Inst(m.epoch, m.round, me)).hash == Some(HashOf(b)) && b in nd.store
    requires Outcome(rd.fin, High(c.n)) == ActionNo ==> Env(NONE, Proposal(me, b, m.epoch, m.round + 1, ONE_PHASE)) in out
    ensures var r := N.OnFinVote(c, me, nd, rd, m);
            Outcome(r.rd.fin, High(c.n)) == ActionNo ==> Env(NONE, Proposal(me, b, m.epoch, m.round + 1, ONE_PHASE)) in out + r.sends
  {
    FinVoteRecord(c, me, nd, rd, m);
    if m.author !in Authors(rd.fin) {
      OutcomeNos(rd.fin, m, High(c.n));
      if FinAction(rd.fin, m, High(c.n)) == ActionNo {
        OnNo(c, me, nd, rd, m);
        OwnNext(me, nd, SlotOf(m), b);
      }
    }
  }

  lemma {:induction false} OnNo(c: N.Cfg, me: int, nd: N.State, rd: N.Round, m: Msg)
    requires m.FinVote? && m.author !in Authors(rd.fin) && FinAction(rd.fin, m, High(c.n)) == ActionNo
    ensures N.OnFinVote(c, me, nd, rd, m).sends == N.NextRound(me, nd, SlotOf(m), ActionNo, Zero)
  {
  }

  lemma {:induction false} OwnNext(me: int, nd: N.State, sl: Slot, b: Block)
    requires N.SpbOf(nd, Inst(sl.e, sl.r, me)).hash == Some(HashOf(b)) && b in nd.store
    ensures N.NextRound(me, nd, sl, ActionNo, Zero) == [Env(NONE, Proposal(me, b, sl.e, sl.r + 1, ONE_PHASE))]
  {
  }

  lemma {:induction false} OpensStep(c: N.Cfg, me: int, nd: N.State, ev: N.Event, out: seq<Envelope>, sl: Slot, b: Block)
    requires c.n >= 1 && N.SpbOf(nd, Inst(sl.e, sl.r, me)).hash == Some(HashOf(b)) && b in nd.store && Opens(c, me, nd, out, sl, b)
    ensures var r := N.Step(c, me, nd, ev); Opens(c, me, r.nd, out + r.sends, sl, b)
  {
    hide Outcome, High, FinAction;
    if L.Touches(nd, ev, sl) {
      L.Touched(c, me, nd, ev, sl);
      if ev.m.FinVote? {
        OpensOnVote(c, me, nd, N.RoundOf(nd, sl), ev.m, out, b);
      } else {
        L.Frame(c, me, nd, N.RoundOf(nd, sl), ev.m);
      }
    } else {
      L.Untouched(c, me, nd, ev, sl);
    }
  }

  /** A node that knew its own block before any final vote opens the next round on a no. */
  lemma {:induction false} OpensRound(c: N.Cfg, acts: seq<Sched>, acts': seq<Sched>, i: int, sl: Slot, b: Block)
    requires Silent(c) && acts <= acts' && 0 <= i < c.n
    requires var nd := At(c, acts).nodes[i];
             N.SpbOf(nd, Inst(sl.e, sl.r, i)).hash == Some(HashOf(b)) && b in nd.store && N.RoundOf(nd, sl).fin == []
    ensures Opens(c, i, At(c, acts').nodes[i], At(c, acts').out[i], sl, b)
    decreases |acts'|
  {
    if |acts| < |acts'| {
      var init := acts'[..|acts'| - 1];
      var s, a := At(c, init), acts'[|acts'| - 1];
      OpensRound(c, acts, init, i, sl, b);
      SpbLater(c, acts, init, i, Inst(sl.e, sl.r, i));
      LifeLater(c, acts, init, i);
      var ev := EventAt(c, s, a, i);
      if ev == [] {
        StepElsewhere(c, s, a, i);
      } else {
        StepHere(c, s, a, i);
        OpensStep(c, i, s.nodes[i], ev[0], s.out[i], sl, b);
      }
    } else {
      assert acts == acts';
    }
  }

  // ---------------------------------------------------------------- halting on a commit

  /** A commit makes a node broadcast a halt that copies its last vote, leader and all. */
  ghost predicate Announces(c: N.Cfg, me: int, nd: N.State, out: seq<Envelope>, sl: Slot) {
    var fin, k := N.RoundOf(nd, sl).fin, High(c.n) - 1;
    Outcome(fin, High(c.n)) == ActionCommit && fin[k].FinVote? ==>
      Env(NONE, Halt(me, sl.e, sl.r, fin[k].leader, fin[k].hash)) in out
  }

  lemma {:induction false} OnCommit(c: N.Cfg, me: int, nd: N.State, rd: N.Round, m: Msg)
    requires m.FinVote? && m.author !in Authors(rd.fin) && FinAction(rd.fin, m, High(c.n)) == ActionCommit
    ensures N.OnFinVote(c, me, nd, rd, m).sends == [Env(NONE, Halt(me, m.epoch, m.round, m.leader, m.hash))]
    ensures |rd.fin| == High(c.n) - 1
  {
  }

  lemma {:induction false} AnnouncesOnVote(c: N.Cfg, me: int, nd: N.State, rd: N.Round, m: Msg, out: seq<Envelope>)
    requires c.n >= 1 && m.FinVote?
    requires var k := High(c.n) - 1;
             Outcome(rd.fin, High(c.n)) == ActionCommit && rd.fin[k].FinVote? ==>
               Env(NONE, Halt(me, m.epoch, m.round, rd.fin[k].leader, rd.fin[k].hash)) in out
    ensures var r, k := N.OnFinVote(c, me, nd, rd, m), High(c.n) - 1;
            Outcome(r.rd.fin, High(c.n)) == ActionCommit && r.rd.fin[k].FinVote? ==>
              Env(NONE, Halt(me, m.epoch, m.round, r.rd.fin[k].leader, r.rd.fin[k].hash)) in out + r.sends
  {
    hide N.OnFinVote;
    FinVoteRecord(c, me, nd, rd, m);
    if m.author !in Authors(rd.fin) {
      OutcomeCommits(rd.fin, m, High(c.n));
      if FinAction(rd.fin, m, High(c.n)) == ActionCommit {
        OnCommit(c, me, nd, rd, m);
      }
    }
  }

  lemma {:induction false} AnnouncesStep(c: N.Cfg, me: int, nd: N.State, ev: N.Event, out: seq<Envelope>, sl: Slot)
    requires c.n >= 1 && Announces(c, me, nd, out, sl)
    ensures var r := N.Step(c, me, nd, ev); Announces(c, me, r.nd, out + r.sends, sl)
  {
    hide Outcome, High, FinAction;
    if L.Touches(nd, ev, sl) {
      L.Touched(c, me, nd, ev, sl);
      if ev.m.FinVote? {
        AnnouncesOnVote(c, me, nd, N.RoundOf(nd, sl), ev.m, out);
      } else {
        L.Frame(c, me, nd, N.RoundOf(nd, sl), ev.m);
      }
    } else {
      L.Untouched(c, me, nd, ev, sl);
    }
  }

  lemma {:induction false} CommitAnnounced(c: N.Cfg, acts: seq<Sched>, i: int, sl: Slot)
    requires Silent(c) && 0 <= i < c.n
    ensures Announces(c, i, At(c, acts).nodes[i], At(c, acts).out[i], sl)
  {
    if acts != [] {
      var init := acts[..|acts| - 1];
      var s, a := At(c, init), acts[|acts| - 1];
      CommitAnnounced(c, init, i, sl);
      var ev := EventAt(c, s, a, i);
      if ev == [] {
        StepElsewhere(c, s, a, i);
      } else {
        StepHere(c, s, a, i);
        AnnouncesStep(c, i, s.nodes[i], ev[0], s.out[i], sl);
      }
    }
  }

  // ---------------------------------------------------------------- halting on a finish

  /** The leader's finish is recorded and no prevote was sent. */
  ghost predicate Unprevoted(c: N.Cfg, nd: N.State, out: seq<Envelope>, sl: Slot)
    requires c.n >= 1
  {
    N.Elected(c, sl) in N.RoundOf(nd, sl).finish && L.Num(out, L.KPrevote, sl) == 0
  }

  lemma {:induction false} LeaderHalts(c: N.Cfg, me: int, nd: N.State, sl: Slot, rd: N.Round)
    requires c.n >= 1 && (rd.leader == NONE || rd.leader == N.Elected(c, sl)) && N.Elected(c, sl) in rd.finish
    ensures var s := N.ProcessLeader(me, nd, sl, rd); |s| <= 1 && L.NumSent(s, L.KPrevote, sl) == 0
  {
  }

  lemma {:induction false} UnprevotedOnRound(c: N.Cfg, me: int, nd: N.State, rd: N.Round, m: Msg)
    requires c.n >= 1 && N.IsRoundMsg(m) && (rd.leader == NONE || rd.leader == N.Elected(c, SlotOf(m)))
    requires N.Elected(c, SlotOf(m)) in rd.finish
    ensures var r := N.OnRound(c, me, nd, rd, m);
            |r.sends| <= 2 && L.NumSent(r.sends, L.KPrevote, SlotOf(m)) == 0
  {
    hide N.OnFinish, N.OnPrevote;
    L.Frame(c, me, nd, rd, m);
    if m.Done? {
      LeaderHalts(c, me, nd, SlotOf(m), rd.(done := rd.done + {m.author}, ready := true));
    } else if m.ElectShare? {
      LeaderHalts(c, me, nd, SlotOf(m), rd.(shares := rd.shares + {m.author}, leader := N.Elected(c, SlotOf(m))));
    }
  }

  lemma {:induction false} UnprevotedStep(c: N.Cfg, me: int, nd: N.State, ev: N.Event, out: seq<Envelope>, sl: Slot)
    requires c.n >= 1 && Unprevoted(c, nd, out, sl)
    requires var l := N.RoundOf(nd, sl).leader; l == NONE || l == N.Elected(c, sl)
    ensures var r := N.Step(c, me, nd, ev); L.Num(out + r.sends, L.KPrevote, sl) == 0
  {
    var r := N.Step(c, me, nd, ev);
    if L.Touches(nd, ev, sl) {
      L.Touched(c, me, nd, ev, sl);
      UnprevotedOnRound(c, me, nd, N.RoundOf(nd, sl), ev.m);
      L.NumSends(out, r.sends, L.KPrevote, sl);
    } else {
      L.Untouched(c, me, nd, ev, sl);
      L.NumQuiet(out, r.sends, L.KPrevote, sl);
    }
  }

  /** In a calm run a node that recorded the leader's finish before it prevoted never prevotes. */
  lemma {:induction false} StaysUnprevoted(c: N.Cfg, acts: seq<Sched>, acts': seq<Sched>, i: int, sl: Slot)
    requires c.n >= 1 && Calm(c, acts') && acts <= acts' && 0 <= i < c.n && sl.e == 0
    requires Unprevoted(c, At(c, acts).nodes[i], At(c, acts).out[i], sl)
    ensures Unprevoted(c, At(c, acts').nodes[i], At(c, acts').out[i], sl)
    decreases |acts'|
  {
    if |acts| < |acts'| {
      var init := acts'[..|acts'| - 1];
      var s, a := At(c, init), acts'[|acts'| - 1];
      CalmInit(c, acts');
      StaysUnprevoted(c, acts, init, i, sl);
      RoundLater(c, init, acts', i, sl);
      var ev := EventAt(c, s, a, i);
      if ev == [] {
        StepElsewhere(c, s, a, i);
      } else {
        StepHere(c, s, a, i);
        CalmNode(c, init, i);
        CalmFinds(c, init, i);
        Projection(c, init, i);
        L.LeaderExactly(c, i, Events(c, init, i), sl);
        UnprevotedStep(c, i, s.nodes[i], ev[0], s.out[i], sl);
      }
    } else {
      assert acts == acts';
    }
  }

  /** So when it processes the leader it halts. */
  lemma {:induction false} HaltIsSent(c: N.Cfg, acts: seq<Sched>, i: int, sl: Slot) returns (h: Msg)
    requires c.n >= 1 && Calm(c, acts) && 0 <= i < c.n
    requires L.Bodies(At(c, acts).out[i], sl) >= 1 && Unprevoted(c, At(c, acts).nodes[i], At(c, acts).out[i], sl)
    ensures h.Halt? && h.author == i && SlotOf(h) == sl && Said(c, At(c, acts), h)
  {
    var x := L.SomeOfKind(At(c, acts).out[i], L.KHalt, sl);
    SentByCorrect(c, acts, i, x);
    h := x.msg;
  }
}

/** Runs of the whole committee seen from one node: the events it handles, the messages
    it has heard, and the records it keeps of them. */
module Runs {
  import opened Messages
  import opened Votes
  import N = Node
  import opened System
  import L = Local
  import opened Sent

  // ------------------------------------------------------------------ projection

  ghost function EventAt(c: N.Cfg, s: State, a: Sched, i: int): seq<N.Event>
    requires Wf(c, s)
  {
    if Enabled(c, s, a) && a.i == i && EventOf(c, s, a).Some? then [EventOf(c, s, a).value] else []
  }

  /** The events of a run at node i. */
  ghost function Events(c: N.Cfg, acts: seq<Sched>, i: int): seq<N.Event>
    requires c.n >= 1
  {
    if acts == [] then []
    else
      var init := acts[..|acts| - 1];
      Events(c, init, i) + EventAt(c, At(c, init), acts[|acts| - 1], i)
  }

  /** A correct node behaves as one node does on the events of the run. */
  lemma {:induction false} Projection(c: N.Cfg, acts: seq<Sched>, i: int)
    requires c.n >= 1 && Correct(c, i)
    ensures var s, o := At(c, acts), L.After(c, i, Events(c, acts, i)); s.nodes[i] == o.nd && s.out[i] == o.sends
  {
    if acts != [] {
      var init := acts[..|acts| - 1];
      var s, a := At(c, init), acts[|acts| - 1];
      Projection(c, init, i);
      var evs, evs' := Events(c, init, i), Events(c, acts, i);
      if EventAt(c, s, a, i) == [] {
        assert evs' == evs;
        StepElsewhere(c, s, a, i);
      } else {
        assert evs'[..|evs'| - 1] == evs;
        StepHere(c, s, a, i);
      }
    }
  }

  lemma {:induction false} StepElsewhere(c: N.Cfg, s: State, a: Sched, i: int)
    requires c.n >= 1 && Wf(c, s) && Correct(c, i) && EventAt(c, s, a, i) == []
    ensures Apply(c, s, a).nodes[i] == s.nodes[i] && Apply(c, s, a).out[i] == s.out[i]
  {
    if Enabled(c, s, a) && a.i == i {
      assert s.out[i] + [] == s.out[i];
    }
  }

  lemma {:induction false} StepHere(c: N.Cfg, s: State, a: Sched, i: int)
    requires c.n >= 1 && Wf(c, s) && Correct(c, i) && EventAt(c, s, a, i) != []
    ensures var r := N.Step(c, i, s.nodes[i], EventAt(c, s, a, i)[0]);
            Apply(c, s, a).nodes[i] == r.nd && Apply(c, s, a).out[i] == s.out[i] + r.sends
  {
  }

  // ------------------------------------------------------------------ monotonicity

  /** Logs are only extended and cursors only advance. */
  lemma {:induction false} LogsGrow(c: N.Cfg, s: State, a: Sched, i: int, j: int)
    requires c.n >= 1 && Wf(c, s) && 0 <= i < c.n && 0 <= j < c.n
    ensures var s' := Apply(c, s, a);
            && s.out[j] <= s'.out[j]
            && s.cur[i][j] <= s'.cur[i][j] <= |s.out[j]|
  {
  }

  /** Node i has read message m on the link from its author. */
  ghost predicate Heard(c: N.Cfg, s: State, i: int, m: Msg)
    requires Wf(c, s) && 0 <= i < c.n
  {
    0 <= m.author < c.n &&
    var read := s.out[m.author][..s.cur[i][m.author]];
    Env(NONE, m) in read || Env(i, m) in read
  }

  lemma {:induction false} HeardStays(c: N.Cfg, s: State, a: Sched, i: int, m: Msg)
    requires c.n >= 1 && Wf(c, s) && 0 <= i < c.n && Heard(c, s, i, m)
    ensures Heard(c, Apply(c, s, a), i, m)
  {
    LogsGrow(c, s, a, i, m.author);
    var s' := Apply(c, s, a);
    assert s'.out[m.author][..s.cur[i][m.author]] == s.out[m.author][..s.cur[i][m.author]];
    assert s.out[m.author][..s.cur[i][m.author]] <= s'.out[m.author][..s'.cur[i][m.author]];
  }

  /** A received message is heard. */
  lemma {:induction false} ReceivedIsHeard(c: N.Cfg, s: State, a: Sched, i: int)
    requires c.n >= 1 && Wf(c, s) && EventAt(c, s, a, i) != [] && EventAt(c, s, a, i)[0].Recv?
    ensures var m := EventAt(c, s, a, i)[0].m;
            a.Deliver? && 0 <= i < c.n && m.author == a.j && Heard(c, Apply(c, s, a), i, m)
  {
    var s' := Apply(c, s, a);
    var k := s.cur[i][a.j];
    var x := s.out[a.j][k];
    assert s'.cur[i][a.j] == k + 1;
    assert s'.out[a.j][k] == x;
    assert s'.out[a.j][..k + 1][k] == x;
  }

  // ------------------------------------------------------------------- the records

  /** The record holds message m itself. */
  predicate Holds(rd: N.Round, m: Msg) {
    match m
    case Finish(a, h, _, _) => a in rd.finish && rd.finish[a] == h
    case Done(a, _, _) => a in rd.done
    case ElectShare(a, _, _) => a in rd.shares
    case Prevote(_, _, _, _, _, _) => m in rd.pre
    case FinVote(_, _, _, _, _, _) => m in rd.fin
    case _ => false
  }

  /** The record holds a message of m's kind by m's author. */
  predicate Counts(rd: N.Round, m: Msg) {
    match m
    case Finish(a, h, _, _) => a in rd.finish
    case Done(a, _, _) => a in rd.done
    case ElectShare(a, _, _) => a in rd.shares
    case Prevote(a, _, _, _, _, _) => a in Authors(rd.pre)
    case FinVote(a, _, _, _, _, _) => a in Authors(rd.fin)
    case _ => false
  }

  /** A handled message is counted, and it is the only one a record may come to hold. */
  ghost predicate Records(rd: N.Round, rd': N.Round, m: Msg, q: Msg) {
    && Counts(rd', m)
    && (Counts(rd, q) ==> Counts(rd', q))
    && (Holds(rd', q) ==> Holds(rd, q) || (q == m && !Counts(rd, m)))
  }

  lemma {:induction false} RecordFinish(c: N.Cfg, me: int, rd: N.Round, m: Msg, q: Msg)
    requires m.Finish? && N.IsRoundMsg(q) && SlotOf(q) == SlotOf(m)
    ensures Records(rd, N.OnFinish(c, me, rd, m).rd, m, q)
  {}

  lemma {:induction false} RecordDone(c: N.Cfg, me: int, nd: N.State, rd: N.Round, m: Msg, q: Msg)
    requires m.Done? && N.IsRoundMsg(q) && SlotOf(q) == SlotOf(m)
    ensures Records(rd, N.OnDone(c, me, nd, rd, m).rd, m, q)
  {}

  lemma {:induction false} RecordShare(c: N.Cfg, me: int, nd: N.State, rd: N.Round, m: Msg, q: Msg)
    requires c.n >= 1 && m.ElectShare? && N.IsRoundMsg(q) && SlotOf(q) == SlotOf(m)
    ensures Records(rd, N.OnShare(c, me, nd, rd, m).rd, m, q)
  {}

  lemma {:induction false} RecordVote(rd: N.Round, rd': N.Round, m: Msg, q: Msg)
    requires m.Prevote? || m.FinVote?
    requires m.Prevote? ==> rd' == if m.author in Authors(rd.pre) then rd else rd.(pre := rd.pre + [m])
    requires m.FinVote? ==> rd' == if m.author in Authors(rd.fin) then rd else rd.(fin := rd.fin + [m])
    ensures Records(rd, rd', m, q)
  {
    if m.Prevote? && rd' != rd {
      assert m in rd'.pre;
      assert forall v :: v in rd.pre ==> v in rd'.pre;
    } else if m.FinVote? && rd' != rd {
      assert m in rd'.fin;
      assert forall v :: v in rd.fin ==> v in rd'.fin;
    }
  }

  lemma {:induction false} PrevoteRecord(c: N.Cfg, me: int, rd: N.Round, m: Msg)
    requires m.Prevote?
    ensures N.OnPrevote(c, me, rd, m).rd == if m.author in Authors(rd.pre) then rd else rd.(pre := rd.pre + [m])
  {}

  lemma {:induction false} FinVoteRecord(c: N.Cfg, me: int, nd: N.State, rd: N.Round, m: Msg)
    requires m.FinVote?
    ensures N.OnFinVote(c, me, nd, rd, m).rd == if m.author in Authors(rd.fin) then rd else rd.(fin := rd.fin + [m])
  {}

  lemma {:induction false} RecordRound(c: N.Cfg, me: int, nd: N.State, rd: N.Round, m: Msg, q: Msg)
    requires c.n >= 1 && N.IsRoundMsg(m) && N.IsRoundMsg(q) && SlotOf(q) == SlotOf(m)
    ensures Records(rd, N.OnRound(c, me, nd, rd, m).rd, m, q)
  {
    match m
    case Finish(_, _, _, _) => RecordFinish(c, me, rd, m, q);
    case Done(_, _, _) => RecordDone(c, me, nd, rd, m, q);
    case ElectShare(_, _, _) => RecordShare(c, me, nd, rd, m, q);
    case Prevote(_, _, _, _, _, _) =>
      PrevoteRecord(c, me, rd, m);
      RecordVote(rd, N.OnRound(c, me, nd, rd, m).rd, m, q);
    case FinVote(_, _, _, _, _, _) =>
      FinVoteRecord(c, me, nd, rd, m);
      RecordVote(rd, N.OnRound(c, me, nd, rd, m).rd, m, q);
  }

  /** How one action changes what node i holds and counts of the slot of q. */
  lemma {:induction false} RecordStep(c: N.Cfg, s: State, a: Sched, i: int, q: Msg)
    requires c.n >= 1 && Wf(c, s) && Correct(c, i) && N.IsRoundMsg(q)
    ensures var s' := Apply(c, s, a);
            var rd, rd' := N.RoundOf(s.nodes[i], SlotOf(q)), N.RoundOf(s'.nodes[i], SlotOf(q));
            var ev := EventAt(c, s, a, i);
            var here := ev != [] && L.Touches(s.nodes[i], ev[0], SlotOf(q));
            && (Counts(rd, q) ==> Counts(rd', q))
            && (Holds(rd', q) ==> Holds(rd, q) || (here && q == ev[0].m && !Counts(rd, q)))
            && (here ==> Counts(rd', ev[0].m))
  {
    var ev := EventAt(c, s, a, i);
    if ev == [] {
      StepElsewhere(c, s, a, i);
    } else {
      StepHere(c, s, a, i);
      if L.Touches(s.nodes[i], ev[0], SlotOf(q)) {
        L.Touched(c, i, s.nodes[i], ev[0], SlotOf(q));
        RecordRound(c, i, s.nodes[i], N.RoundOf(s.nodes[i], SlotOf(q)), ev[0].m, q);
      } else {
        L.Untouched(c, i, s.nodes[i], ev[0], SlotOf(q));
      }
    }
  }

  /** A node holds only what it has heard. */
  lemma {:induction false} HeldIsHeard(c: N.Cfg, acts: seq<Sched>, i: int, q: Msg)
    requires c.n >= 1 && Correct(c, i) && N.IsRoundMsg(q)
    requires Holds(N.RoundOf(At(c, acts).nodes[i], SlotOf(q)), q)
    ensures Heard(c, At(c, acts), i, q)
  {
    if acts != [] {
      var init := acts[..|acts| - 1];
      var s, a := At(c, init), acts[|acts| - 1];
      RecordStep(c, s, a, i, q);
      if Holds(N.RoundOf(s.nodes[i], SlotOf(q)), q) {
        HeldIsHeard(c, init, i, q);
        HeardStays(c, s, a, i, q);
      } else {
        ReceivedIsHeard(c, s, a, i);
      }
    }
  }

  /** What a node newly hears in a step is the message it receives. */
  lemma {:induction false} NewlyHeard(c: N.Cfg, s: State, a: Sched, i: int, q: Msg)
    requires c.n >= 1 && Wf(c, s) && Correct(c, i)
    requires !Heard(c, s, i, q) && Heard(c, Apply(c, s, a), i, q)
    ensures s.nodes[i].started
    ensures var ev := EventAt(c, s, a, i); ev != [] && ev[0].Recv? && ev[0].m == q
  {
    LogsGrow(c, s, a, i, q.author);
    var s' := Apply(c, s, a);
    var k := s.cur[i][q.author];
    var log, log' := s.out[q.author], s'.out[q.author];
    assert log'[..k] == log[..k];
    if s'.cur[i][q.author] != k {
      assert log'[..k + 1] == log[..k] + [log[k]];
    }
  }

  /** A node still in the epoch counts everybody it has heard. */
  lemma {:induction false} HeardIsCounted(c: N.Cfg, acts: seq<Sched>, i: int, q: Msg)
    requires c.n >= 1 && Correct(c, i) && N.IsRoundMsg(q)
    requires Heard(c, At(c, acts), i, q) && At(c, acts).nodes[i].epoch <= q.epoch
    ensures Counts(N.RoundOf(At(c, acts).nodes[i], SlotOf(q)), q)
  {
    if acts != [] {
      var init := acts[..|acts| - 1];
      var s, a := At(c, init), acts[|acts| - 1];
      var ev := EventAt(c, s, a, i);
      RecordStep(c, s, a, i, q);
      if ev == [] {
        StepElsewhere(c, s, a, i);
      } else {
        StepHere(c, s, a, i);
        L.EpochStep(c, i, s.nodes[i], ev[0]);
      }
      if Heard(c, s, i, q) {
        HeardIsCounted(c, init, i, q);
      } else {
        NewlyHeard(c, s, a, i, q);
      }
    }
  }

  /** What a correct node has sent, it has sent to everybody and for a reason. */
  lemma {:induction false} SentByCorrect(c: N.Cfg, acts: seq<Sched>, i: int, x: Envelope)
    requires c.n >= 1 && Correct(c, i) && x in At(c, acts).out[i]
    ensures var nd := At(c, acts).nodes[i]; Fact(c, i, nd, N.RoundOf(nd, Ground(x.msg)), x)
  {
    Projection(c, acts, i);
    SentFact(c, i, Events(c, acts, i), x);
  }

  /** The records of a correct node only grow. */
  lemma {:induction false} RecordsGrow(c: N.Cfg, s: State, a: Sched, i: int, sl: Slot)
    requires c.n >= 1 && Wf(c, s) && Correct(c, i)
    ensures RoundGrows(N.RoundOf(s.nodes[i], sl), N.RoundOf(Apply(c, s, a).nodes[i], sl))
  {
    var ev := EventAt(c, s, a, i);
    if ev == [] {
      StepElsewhere(c, s, a, i);
    } else {
      StepHere(c, s, a, i);
      RoundKeeps(c, i, s.nodes[i], ev[0], sl);
    }
  }
}

/** What holds with up to f Byzantine nodes: correct nodes count the same final vote of
    a correct author, a commit excludes a no, and Done messages have a cause and spread. */
module Byzantine {
  import opened Messages
  import opened Committee
  import opened Votes
  import N = Node
  import opened System
  import L = Local
  import opened Sent
  import opened Ballots
  import opened Runs

  /** A committee of 3f+1 nodes, at most f of them Byzantine. */
  ghost predicate Resilient(c: N.Cfg) {
    c.n >= 1 && c.n == 3 * MaxFaults(c.n) + 1 && |c.byz| <= MaxFaults(c.n)
  }

  // ------------------------------------------------------ the counted final vote

  /** A correct author's earlier final vote for a slot has been heard by whoever has read
      past it, and is counted. */
  lemma {:induction false} EarlierIsCounted(c: N.Cfg, acts: seq<Sched>, i: int, a: int, sl: Slot)
    requires c.n >= 1 && Correct(c, i) && Correct(c, a)
    requires At(c, acts).nodes[i].epoch <= sl.e
    requires var s := At(c, acts); FinVotes(s.out[a][..s.cur[i][a]], sl) != []
    ensures a in Authors(N.RoundOf(At(c, acts).nodes[i], sl).fin)
  {
    var s := At(c, acts);
    var read := s.out[a][..s.cur[i][a]];
    var k := SomeFinVote(read, sl);
    var x := read[k];
    assert x == s.out[a][k];
    SentByCorrect(c, acts, a, x);
    assert Env(NONE, x.msg) == x;
    HeardIsCounted(c, acts, i, x.msg);
  }

  lemma {:induction false} SomeFinVote(out: seq<Envelope>, sl: Slot) returns (k: nat)
    requires FinVotes(out, sl) != []
    ensures k < |out| && L.OfKind(out[k].msg, L.KFinVote, sl)
  {
    k := |out| - 1;
    if !L.OfKind(out[k].msg, L.KFinVote, sl) {
      k := SomeFinVote(out[..|out| - 1], sl);
    }
  }

  lemma {:induction false} FirstStays(log: seq<Envelope>, k: nat, log': seq<Envelope>, v: Msg)
    requires k <= |log| && log <= log'
    requires var cast := FinVotes(log[..k], SlotOf(v)); cast != [] && cast[0] == v
    ensures var cast := FinVotes(log', SlotOf(v)); cast != [] && cast[0] == v
  {
    assert log'[..k] == log[..k];
    FinVotesPrefix(log', k, SlotOf(v));
  }

  /** The vote a correct node counts for a correct author is the first one the author cast. */
  lemma {:induction false} CountsTheFirst(c: N.Cfg, acts: seq<Sched>, i: int, v: Msg)
    requires c.n >= 1 && Correct(c, i) && Correct(c, v.author) && v.FinVote?
    requires v in N.RoundOf(At(c, acts).nodes[i], SlotOf(v)).fin
    ensures var cast := FinVotes(At(c, acts).out[v.author], SlotOf(v)); cast != [] && cast[0] == v
  {
    hide Apply;
    if acts != [] {
      var init := acts[..|acts| - 1];
      var s, a := At(c, init), acts[|acts| - 1];
      var sl := SlotOf(v);
      var s' := Apply(c, s, a);
      RecordStep(c, s, a, i, v);
      LogsGrow(c, s, a, i, v.author);
      var log := s.out[v.author];
      if v in N.RoundOf(s.nodes[i], sl).fin {
        CountsTheFirst(c, init, i, v);
        assert log[..|log|] == log;
        FirstStays(log, |log|, s'.out[v.author], v);
      } else {
        FirstRead(c, init, a, i, v);
        FirstStays(log, s.cur[i][v.author] + 1, s'.out[v.author], v);
      }
    }
  }

  /** A vote that is newly counted is the first its reader has read. */
  lemma {:induction false} FirstRead(c: N.Cfg, init: seq<Sched>, a: Sched, i: int, v: Msg)
    requires c.n >= 1 && Correct(c, i) && Correct(c, v.author) && v.FinVote?
    requires var s := At(c, init);
             var ev := EventAt(c, s, a, i);
             && ev != [] && L.Touches(s.nodes[i], ev[0], SlotOf(v)) && ev[0].m == v
             && !Counts(N.RoundOf(s.nodes[i], SlotOf(v)), v)
    ensures var s := At(c, init);
            var k := s.cur[i][v.author];
            k < |s.out[v.author]| && FinVotes(s.out[v.author][..k + 1], SlotOf(v)) == [v]
  {
    hide Apply;
    var s := At(c, init);
    ReceivedIsHeard(c, s, a, i);
    var k := s.cur[i][v.author];
    var log := s.out[v.author];
    if FinVotes(log[..k], SlotOf(v)) != [] {
      EarlierIsCounted(c, init, i, v.author, SlotOf(v));
      assert false;
    }
    assert log[..k + 1] == log[..k] + [log[k]];
    FinVotesSnoc(log[..k], log[k], SlotOf(v));
  }

  // -------------------------------------------------------------- commit against no

  /** The authors of the votes that decided a node's outcome are a quorum of the committee. */
  lemma {:induction false} DecidingAuthors(c: N.Cfg, acts: seq<Sched>, i: int, sl: Slot)
    requires c.n >= 1 && Correct(c, i)
    requires |N.RoundOf(At(c, acts).nodes[i], sl).fin| >= High(c.n)
    ensures var fin := N.RoundOf(At(c, acts).nodes[i], sl).fin[..High(c.n)];
            && Authors(fin) <= Members(c.n) && |Authors(fin)| == High(c.n)
            && forall v :: v in fin ==> v.FinVote? && SlotOf(v) == sl
  {
    Projection(c, acts, i);
    OneVoteEach(c, i, Events(c, acts, i), sl);
    var all := N.RoundOf(At(c, acts).nodes[i], sl).fin;
    var fin := all[..High(c.n)];
    AuthorsSize(fin);
    forall v | v in fin ensures v in all && v.author in Members(c.n) {
      HeldIsHeard(c, acts, i, v);
    }
  }

  /** The vote by author x among accepted votes. */
  lemma VoteBy(acc: seq<Msg>, x: int) returns (k: nat)
    requires x in Authors(acc)
    ensures k < |acc| && acc[k].author == x
  {
    var v :| v in acc && v.author == x;
    k :| 0 <= k < |acc| && acc[k] == v;
  }

  /** If one correct node's final votes commit a slot, no correct node's say no. */
  lemma {:induction false} CommitExcludesNo(c: N.Cfg, acts: seq<Sched>, i: int, j: int, sl: Slot)
    requires Resilient(c) && Correct(c, i) && Correct(c, j)
    requires Outcome(N.RoundOf(At(c, acts).nodes[i], sl).fin, High(c.n)) == ActionCommit
    ensures Outcome(N.RoundOf(At(c, acts).nodes[j], sl).fin, High(c.n)) != ActionNo
  {
    var fi, fj := N.RoundOf(At(c, acts).nodes[i], sl).fin, N.RoundOf(At(c, acts).nodes[j], sl).fin;
    var th := High(c.n);
    if Outcome(fj, th) == ActionNo {
      DecidingAuthors(c, acts, i, sl);
      DecidingAuthors(c, acts, j, sl);
      var x := CommonCorrect(Authors(fi[..th]), Authors(fj[..th]), c.byz, c.n);
      var k := VoteBy(fi[..th], x);
      var l := VoteBy(fj[..th], x);
      assert fi[k] in fi[..th] && fj[l] in fj[..th];
      CountsTheFirst(c, acts, i, fi[k]);
      CountsTheFirst(c, acts, j, fj[l]);
      OutcomeMeaning(fi, th);
      OutcomeMeaning(fj, th);
      assert false;
    }
  }

  // ------------------------------------------------------------ Done has a cause

  ghost predicate HasDone(c: N.Cfg, s: State, i: int, sl: Slot)
    requires Wf(c, s)
  {
    Correct(c, i) && N.RoundOf(s.nodes[i], sl).doneFlag
  }

  ghost predicate HasFinishes(c: N.Cfg, s: State, i: int, sl: Slot)
    requires Wf(c, s)
  {
    Correct(c, i) && |N.RoundOf(s.nodes[i], sl).finish| >= High(c.n)
  }

  lemma {:induction false} FinishesStay(c: N.Cfg, s: State, a: Sched, i: int, sl: Slot)
    requires c.n >= 1 && Wf(c, s) && HasFinishes(c, s, i, sl)
    ensures HasFinishes(c, Apply(c, s, a), i, sl)
  {
    RecordsGrow(c, s, a, i, sl);
    MoreFinishes(N.RoundOf(s.nodes[i], sl), N.RoundOf(Apply(c, s, a).nodes[i], sl));
  }

  lemma MoreFinishes(rd: N.Round, rd': N.Round)
    requires RoundGrows(rd, rd')
    ensures |rd.finish| <= |rd'.finish|
  {
    forall a | a in rd.finish.Keys ensures a in rd'.finish.Keys {
      assert a in rd.finish;
    }
    SubsetSize(rd.finish.Keys, rd'.finish.Keys);
  }

  /** A correct node whose Done was heard had its Done flag set before. */
  lemma {:induction false} DoneWasSent(c: N.Cfg, acts: seq<Sched>, i: int, x: int, sl: Slot)
    requires c.n >= 1 && Correct(c, i) && Correct(c, x)
    requires Heard(c, At(c, acts), i, Done(x, sl.e, sl.r))
    ensures HasDone(c, At(c, acts), x, sl)
    ensures acts != [] ==> HasDone(c, At(c, acts[..|acts| - 1]), x, sl)
  {
    var s := At(c, acts);
    var m := Done(x, sl.e, sl.r);
    var read := s.out[x][..s.cur[i][x]];
    var y :| y in read && y.msg == m;
    SentByCorrect(c, acts, x, y);
    if acts != [] {
      var init := acts[..|acts| - 1];
      LogsGrow(c, At(c, init), acts[|acts| - 1], i, x);
      assert read <= At(c, init).out[x];
      SentByCorrect(c, init, x, y);
    }
  }

  /** The authors whose Done a correct node has recorded. */
  lemma {:induction false} DoneAuthors(c: N.Cfg, acts: seq<Sched>, i: int, sl: Slot)
    requires c.n >= 1 && Correct(c, i)
    ensures forall x :: x in N.RoundOf(At(c, acts).nodes[i], sl).done ==>
              Heard(c, At(c, acts), i, Done(x, sl.e, sl.r))
  {
    forall x | x in N.RoundOf(At(c, acts).nodes[i], sl).done
      ensures Heard(c, At(c, acts), i, Done(x, sl.e, sl.r))
    {
      HeldIsHeard(c, acts, i, Done(x, sl.e, sl.r));
    }
  }

  /** A correct node sends Done only after some correct node collected 2f+1 finishes. */
  lemma {:induction false} DoneHasACause(c: N.Cfg, acts: seq<Sched>, i: int, sl: Slot)
    requires Resilient(c) && HasDone(c, At(c, acts), i, sl)
    ensures exists j :: HasFinishes(c, At(c, acts), j, sl)
  {
    if acts != [] {
      var init := acts[..|acts| - 1];
      var s, a := At(c, init), acts[|acts| - 1];
      var rd := N.RoundOf(At(c, acts).nodes[i], sl);
      Projection(c, acts, i);
      L.DoneExactly(c, i, Events(c, acts, i), sl);
      if |rd.finish| >= High(c.n) {
        assert HasFinishes(c, At(c, acts), i, sl);
      } else {
        var x := Outside(rd.done, c.byz);
        DoneAuthors(c, acts, i, sl);
        DoneWasSent(c, acts, i, x, sl);
        DoneHasACause(c, init, x, sl);
        var j :| HasFinishes(c, s, j, sl);
        FinishesStay(c, s, a, j, sl);
      }
    }
  }

  /** Once a correct node is ready, at least f+1 correct nodes have sent Done. */
  lemma {:induction false} ReadyMeansSpread(c: N.Cfg, acts: seq<Sched>, i: int, sl: Slot) returns (d: set<int>)
    requires Resilient(c) && c.n >= 4 && Correct(c, i) && N.RoundOf(At(c, acts).nodes[i], sl).ready
    ensures |d| >= Low(c.n)
    ensures forall x :: x in d ==> HasDone(c, At(c, acts), x, sl) && L.Num(At(c, acts).out[x], L.KDone, sl) == 1
  {
    var rd := N.RoundOf(At(c, acts).nodes[i], sl);
    Projection(c, acts, i);
    L.ReadyExactly(c, i, Events(c, acts, i), sl);
    d := rd.done - c.byz;
    assert rd.done <= d + c.byz;
    SubsetSize(rd.done, d + c.byz);
    DoneAuthors(c, acts, i, sl);
    forall x | x in d
      ensures HasDone(c, At(c, acts), x, sl) && L.Num(At(c, acts).out[x], L.KDone, sl) == 1
    {
      assert Heard(c, At(c, acts), i, Done(x, sl.e, sl.r));
      DoneWasSent(c, acts, i, x, sl);
      Projection(c, acts, x);
      L.DoneExactly(c, x, Events(c, acts, x), sl);
    }
  }

  /** Node k has read everything the correct nodes have sent. */
  ghost predicate CaughtUp(c: N.Cfg, s: State, k: int)
    requires Wf(c, s) && 0 <= k < c.n
  {
    forall x :: Correct(c, x) ==> s.cur[k][x] == |s.out[x]|
  }

  /** Amplification: once one correct node is ready, every correct node that is still in
      the epoch and has read what was sent has itself sent Done, exactly once. */
  lemma {:induction false} DoneSpreads(c: N.Cfg, acts: seq<Sched>, i: int, k: int, sl: Slot)
    requires Resilient(c) && c.n >= 4 && Correct(c, i) && Correct(c, k)
    requires N.RoundOf(At(c, acts).nodes[i], sl).ready
    requires At(c, acts).nodes[k].epoch <= sl.e && CaughtUp(c, At(c, acts), k)
    ensures L.Num(At(c, acts).out[k], L.KDone, sl) == 1
  {
    var s := At(c, acts);
    var d := ReadyMeansSpread(c, acts, i, sl);
    var rd := N.RoundOf(s.nodes[k], sl);
    forall x | x in d ensures x in rd.done {
      var y := L.SomeOfKind(s.out[x], L.KDone, sl);
      SentByCorrect(c, acts, x, y);
      assert s.out[x][..s.cur[k][x]] == s.out[x];
      assert y == Env(NONE, Done(x, sl.e, sl.r));
      HeardIsCounted(c, acts, k, Done(x, sl.e, sl.r));
    }
    SubsetSize(d, rd.done);
    Projection(c, acts, k);
    L.DoneExactly(c, k, Events(c, acts, k), sl);
  }
}

/** Lock quorums, with silent faults: a finish means that 2f+1 distinct nodes hold the lock. */
module Quorums {
  import opened Messages
  import opened Committee
  import Spb
  import N = Node
  import opened System
  import L = Local
  import opened Sent
  import opened Runs
  import opened Origins
  import opened Deliveries
  import opened Benign
  import opened Blocks

  // ---------------------------------------------------- letting in and reading

  /** The part of the log of j that node i has read. */
  ghost function Read(c: N.Cfg, s: State, i: int, j: int): seq<Envelope>
    requires Wf(c, s) && 0 <= i < c.n && 0 <= j < c.n
  {
    s.out[j][..s.cur[i][j]]
  }

  ghost function CopiesRead(c: N.Cfg, s: State, i: int, m: Msg): nat
    requires Wf(c, s) && 0 <= i < c.n && 0 <= m.author < c.n
  {
    Copies(Read(c, s, i, m.author), Env(NONE, m)) + Copies(Read(c, s, i, m.author), Env(i, m))
  }

  lemma CopiesPrefix(out: seq<Envelope>, k: nat, k': nat, x: Envelope)
    requires k <= k' <= |out|
    ensures Copies(out[..k], x) <= Copies(out[..k'], x) <= Copies(out, x)
  {
    assert out[..k'] == out[..k] + out[k..k'];
    assert out == out[..k'] + out[k'..];
    CopiesAppend(out[..k], out[k..k'], x);
    CopiesAppend(out[..k'], out[k'..], x);
  }

  lemma {:induction false} ReadGrows(c: N.Cfg, s: State, a: Sched, i: int, m: Msg)
    requires c.n >= 1 && Wf(c, s) && Correct(c, i) && 0 <= m.author < c.n
    ensures CopiesRead(c, s, i, m) <= CopiesRead(c, Apply(c, s, a), i, m)
    ensures var ev := EventAt(c, s, a, i);
            ev != [] && ev[0].Recv? && ev[0].m == m ==> CopiesRead(c, s, i, m) + 1 <= CopiesRead(c, Apply(c, s, a), i, m)
  {
    hide N.Step, Heard;
    var s' := Apply(c, s, a);
    LogsGrow(c, s, a, i, m.author);
    var k, k' := s.cur[i][m.author], s'.cur[i][m.author];
    var log := s'.out[m.author];
    assert log[..k] == s.out[m.author][..k];
    CopiesPrefix(log, k, k', Env(NONE, m));
    CopiesPrefix(log, k, k', Env(i, m));
    var ev := EventAt(c, s, a, i);
    if ev != [] && ev[0].Recv? && ev[0].m == m {
      ReceivedIsHeard(c, s, a, i);
      assert log[..k + 1] == log[..k] + [log[k]];
      CopiesAppend(log[..k], [log[k]], Env(NONE, m));
      CopiesAppend(log[..k], [log[k]], Env(i, m));
    }
  }

  /** A message is let in at most once for every copy read. */
  lemma {:induction false} LetInWasRead(c: N.Cfg, acts: seq<Sched>, i: int, m: Msg)
    requires c.n >= 1 && Correct(c, i) && 0 <= m.author < c.n
    ensures Delivered(c, i, Events(c, acts, i), m) <= CopiesRead(c, At(c, acts), i, m)
  {
    if acts != [] {
      var init := acts[..|acts| - 1];
      var s, a := At(c, init), acts[|acts| - 1];
      LetInWasRead(c, init, i, m);
      ReadGrows(c, s, a, i, m);
      var evs, evs' := Events(c, init, i), Events(c, acts, i);
      if EventAt(c, s, a, i) == [] {
        assert evs' == evs;
      } else {
        assert evs'[..|evs'| - 1] == evs;
      }
    }
  }

  // --------------------------------------------------------- one vote per node and phase

  /** The only two-phase proposal of an instance that anyone broadcasts. */
  lemma {:induction false} PhaseTwoOnly(c: N.Cfg, acts: seq<Sched>, m: Msg)
    requires Silent(c) && m.Proposal? && m.phase == TWO_PHASE && Said(c, At(c, acts), m)
    ensures m == Spb.PhaseTwo(m.author, InstOf(m))
  {
    var i := m.author;
    SentByCorrect(c, acts, i, Env(NONE, m));
    var k := Inst(m.epoch, m.round, m.b.proposer);
    var votes := N.SpbOf(At(c, acts).nodes[i], k).votes;
    assert votes != [];
    BuffersOk(c, acts, i, k, votes[0]);
  }

  lemma {:induction false} HeardProposalSaid(c: N.Cfg, acts: seq<Sched>, i: int, m: Msg)
    requires Silent(c) && 0 <= i < c.n && m.Proposal? && Heard(c, At(c, acts), i, m)
    ensures Said(c, At(c, acts), m)
  {
    var s := At(c, acts);
    var x :| x in s.out[m.author][..s.cur[i][m.author]] && x.msg == m;
    SentByCorrect(c, acts, m.author, x);
  }

  lemma {:induction false} RunsOnlyPhaseTwo(c: N.Cfg, acts: seq<Sched>, i: int, k: Inst)
    requires Silent(c) && 0 <= i < c.n
    ensures OnlyRuns(c, i, Events(c, acts, i), Spb.PhaseTwo(k.p, k))
  {
    if acts != [] {
      var init := acts[..|acts| - 1];
      var s, a := At(c, init), acts[|acts| - 1];
      RunsOnlyPhaseTwo(c, init, i, k);
      var evs, evs' := Events(c, init, i), Events(c, acts, i);
      var ev := EventAt(c, s, a, i);
      if ev == [] {
        assert evs' == evs;
      } else {
        assert evs'[..|evs'| - 1] == evs;
        Projection(c, init, i);
        if IsTask(s.nodes[i], ev[0]) && ev[0].m.Proposal? && ev[0].m.phase == TWO_PHASE && InstOf(ev[0].m) == k {
          TasksOk(c, init, i, ev[0].m);
          HeardProposalSaid(c, init, i, ev[0].m);
          PhaseTwoOnly(c, init, ev[0].m);
        }
      }
    }
  }

  /** A node casts at most one two-phase vote per instance. */
  lemma {:induction false} VoteTwoOnce(c: N.Cfg, acts: seq<Sched>, i: int, k: Inst)
    requires Silent(c) && 0 <= i < c.n && 0 <= k.p < c.n
    ensures Copies(At(c, acts).out[i], Env(k.p, Spb.VoteTwo(i, k))) <= 1
  {
    var s := At(c, acts);
    var q := Spb.PhaseTwo(k.p, k);
    assert InstOf(q) == k;
    Projection(c, acts, i);
    RunsOnlyPhaseTwo(c, acts, i, k);
    PhaseTwoConserved(c, i, Events(c, acts, i), q);
    LetInWasRead(c, acts, i, q);
    ReadOnce(c, acts, i, k);
  }

  /** The two-phase proposal of an instance is read at most once. */
  lemma {:induction false} ReadOnce(c: N.Cfg, acts: seq<Sched>, i: int, k: Inst)
    requires Silent(c) && 0 <= i < c.n && 0 <= k.p < c.n
    ensures CopiesRead(c, At(c, acts), i, Spb.PhaseTwo(k.p, k)) <= 1
  {
    var s := At(c, acts);
    var q := Spb.PhaseTwo(k.p, k);
    CopiesPrefix(s.out[k.p], s.cur[i][k.p], |s.out[k.p]|, Env(NONE, q));
    Projection(c, acts, k.p);
    PhaseTwoOnce(c, k.p, Events(c, acts, k.p), k);
    var read := Read(c, s, i, k.p);
    CopiesIn(read, Env(i, q));
    if Env(i, q) in read {
      SentByCorrect(c, acts, k.p, Env(i, q));
    }
  }

  // --------------------------------------------------------------------- the quorum

  /** The nodes that hold the lock of an instance with block hash h. */
  ghost function Locked(c: N.Cfg, s: State, k: Inst, h: Digest): set<int>
    requires Wf(c, s)
  {
    set j | j in Members(c.n) && N.SpbOf(s.nodes[j], k).lock && N.SpbOf(s.nodes[j], k).hash == Some(h)
  }

  /** The authors of the two-phase votes among counted votes. */
  function TwoAuthors(votes: seq<Msg>): set<int> {
    set v | v in votes && v.SpbVote? && v.phase == TWO_PHASE :: v.author
  }

  /** A counted two-phase vote was cast, once, by a node that holds the lock. */
  lemma {:induction false} CountedVote(c: N.Cfg, acts: seq<Sched>, p: int, k: Inst, v: Msg)
    requires Silent(c) && 0 <= p < c.n && v in N.SpbOf(At(c, acts).nodes[p], k).votes && v.SpbVote? && v.phase == TWO_PHASE
    ensures k.p == p && v == Spb.VoteTwo(v.author, k) && 0 <= v.author < c.n
    ensures multiset(N.SpbOf(At(c, acts).nodes[p], k).votes)[v] <= 1
    ensures N.SpbOf(At(c, acts).nodes[v.author], k).lock
  {
    var s := At(c, acts);
    BuffersOk(c, acts, p, k, v);
    var j := v.author;
    var x :| x in s.out[j][..s.cur[p][j]] && x.msg == v;
    SentByCorrect(c, acts, j, x);
    assert x == Env(p, v);
    // counted at most as often as let in, read, and sent
    Projection(c, acts, p);
    VotesConserved(c, p, Events(c, acts, p), v);
    LetInWasRead(c, acts, p, v);
    CopiesPrefix(s.out[j], s.cur[p][j], |s.out[j]|, Env(p, v));
    VoteTwoOnce(c, acts, j, k);
    CopiesIn(Read(c, s, p, j), Env(NONE, v));
    if Env(NONE, v) in Read(c, s, p, j) {
      SentByCorrect(c, acts, j, Env(NONE, v));
    }
  }

  /** Votes that are each counted once have as many authors as the count says. */
  lemma {:induction false} AuthorsOfCount(votes: seq<Msg>, k: Inst)
    requires forall v :: v in votes && v.SpbVote? && v.phase == TWO_PHASE ==> v == Spb.VoteTwo(v.author, k) && multiset(votes)[v] <= 1
    ensures |TwoAuthors(votes)| == Spb.Count(votes, TWO_PHASE)
  {
    if votes != [] {
      var init, v := votes[..|votes| - 1], votes[|votes| - 1];
      assert votes == init + [v];
      assert multiset(votes) == multiset(init) + multiset{v};
      AuthorsOfCount(init, k);
      if v.SpbVote? && v.phase == TWO_PHASE {
        assert v in votes && v !in init;
        assert TwoAuthors(votes) == TwoAuthors(init) + {v.author};
        assert v.author !in TwoAuthors(init);
      } else {
        assert TwoAuthors(votes) == TwoAuthors(init);
      }
    }
  }

  /** Lock quorum: if p has sent a finish for a block, at least 2f+1 distinct nodes hold the
      lock of p's instance with that block. */
  lemma {:induction false} FinishMeansLocked(c: N.Cfg, acts: seq<Sched>, m: Msg)
    requires Silent(c) && m.Finish? && Said(c, At(c, acts), m)
    ensures |Locked(c, At(c, acts), Inst(m.epoch, m.round, m.author), m.hash)| >= High(c.n)
  {
    var s := At(c, acts);
    var i := m.author;
    SentByCorrect(c, acts, i, Env(NONE, m));
    var p :| FinishedBy(c, s.nodes[i], m, p);
    var k := Inst(m.epoch, m.round, p);
    var votes := N.SpbOf(s.nodes[i], k).votes;
    forall v | v in votes && v.SpbVote? && v.phase == TWO_PHASE
      ensures k.p == i && v == Spb.VoteTwo(v.author, k) && multiset(votes)[v] <= 1
      ensures v.author in Locked(c, s, k, m.hash)
    {
      CountedVote(c, acts, i, k, v);
      SameHash(c, acts, i, v.author, k);
    }
    AuthorsOfCount(votes, k);
    assert TwoAuthors(votes) <= Locked(c, s, k, m.hash);
    SubsetSize(TwoAuthors(votes), Locked(c, s, k, m.hash));
    assert votes != [];
    BuffersOk(c, acts, i, k, votes[0]);
  }

  /** A locked instance has the same block hash as any other copy of the instance. */
  lemma {:induction false} SameHash(c: N.Cfg, acts: seq<Sched>, i: int, j: int, k: Inst)
    requires Silent(c) && 0 <= i < c.n && 0 <= j < c.n
    requires N.SpbOf(At(c, acts).nodes[i], k).hash.Some? && N.SpbOf(At(c, acts).nodes[j], k).lock
    ensures N.SpbOf(At(c, acts).nodes[j], k).hash == N.SpbOf(At(c, acts).nodes[i], k).hash
  {
    Projection(c, acts, j);
    L.LockHasHash(c, j, Events(c, acts, j), k);
    OneBlockPerEpoch(c, acts, i, j, k, k);
  }

  lemma {:induction false} RunsOwnVotes(c: N.Cfg, acts: seq<Sched>, i: int)
    requires Silent(c) && 0 <= i < c.n
    ensures OwnVotes(c, i, Events(c, acts, i))
  {
    if acts != [] {
      var init := acts[..|acts| - 1];
      var s, a := At(c, init), acts[|acts| - 1];
      RunsOwnVotes(c, init, i);
      var evs, evs' := Events(c, init, i), Events(c, acts, i);
      var ev := EventAt(c, s, a, i);
      if ev == [] {
        assert evs' == evs;
      } else {
        assert evs'[..|evs'| - 1] == evs;
        Projection(c, init, i);
        if IsTask(s.nodes[i], ev[0]) {
          TasksOk(c, init, i, ev[0].m);
        }
      }
    }
  }

  /** Every node finishes each slot at most once, exactly when its own two-phase votes reach 2f+1. */
  lemma {:induction false} FinishesOnce(c: N.Cfg, acts: seq<Sched>, i: int, sl: Slot)
    requires Silent(c) && 0 <= i < c.n
    ensures var s := At(c, acts);
            Finishes(s.out[i], sl) ==
            L.Unit(Spb.Count(N.SpbOf(s.nodes[i], Inst(sl.e, sl.r, i)).votes, TWO_PHASE) >= High(c.n))
  {
    Projection(c, acts, i);
    RunsOwnVotes(c, acts, i);
    FinishOnce(c, i, Events(c, acts, i), sl);
  }
}

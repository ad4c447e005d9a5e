/** Building runs, continued: three nodes carry one SPB instance through. */
module Trios {
  import opened Messages
  import opened Committee
  import opened Votes
  import Spb
  import N = Node
  import opened System
  import L = Local
  import opened Runs
  import D = Deliveries
  import opened Benign
  import opened Blocks
  import Q = Quorums
  import opened Agreement
  import opened Schedules
  import opened Broadcasts

  // ------------------------------------------------------------------- reasons last

  lemma {:induction false} NumPrefix(out: seq<Envelope>, out': seq<Envelope>, k: L.Kind, sl: Slot)
    requires out <= out'
    ensures L.Num(out, k, sl) <= L.Num(out', k, sl)
  {
    if |out| < |out'| {
      NumPrefix(out, out'[..|out'| - 1], k, sl);
    } else {
      assert out == out';
    }
  }

  lemma {:induction false} DecidesLater(c: N.Cfg, acts: seq<Sched>, acts': seq<Sched>, j: int, sl: Slot, action: Action)
    requires Silent(c) && acts <= acts' && 0 <= j < c.n && action != ActionNone && Decides(c, At(c, acts), j, sl, action)
    ensures Decides(c, At(c, acts'), j, sl, action)
  {
    RoundLater(c, acts, acts', j, sl);
    var fin, fin' := N.RoundOf(At(c, acts).nodes[j], sl).fin, N.RoundOf(At(c, acts').nodes[j], sl).fin;
    assert fin[..High(c.n) - 1] == fin'[..High(c.n) - 1];
  }

  lemma {:induction false} MuteLater(c: N.Cfg, acts: seq<Sched>, acts': seq<Sched>, i: int, ones: set<Inst>, twos: set<Inst>)
    requires Silent(c) && acts <= acts' && 0 <= i < c.n && Mute(c, At(c, acts), i, ones, twos)
    ensures Mute(c, At(c, acts'), i, ones, twos)
  {
    var s, s' := At(c, acts), At(c, acts');
    LogLater(c, acts, acts', i, i);
    forall sl ensures Muted(c, s', i, ones, twos, sl) {
      assert Muted(c, s, i, ones, twos, sl);
      NumPrefix(s.out[i], s'.out[i], L.KPrevote, sl);
      if exists j :: 0 <= j < c.n && Decides(c, s, j, sl, ActionNo) {
        var j :| 0 <= j < c.n && Decides(c, s, j, sl, ActionNo);
        DecidesLater(c, acts, acts', j, sl, ActionNo);
      }
    }
  }

  // --------------------------------------------------------------------- single steps

  /** No vote is run between acts and acts'. */
  ghost predicate NoCounting(acts: seq<Sched>, acts': seq<Sched>) {
    forall a :: a in acts' && a.Run? && a.m.SpbVote? ==> a in acts
  }

  lemma {:induction false} RunIt(c: N.Cfg, acts: seq<Sched>, i: int, m: Msg)
    requires c.n >= 1 && Calm(c, acts) && 0 <= i < c.n && (m.Proposal? || m.SpbVote?) && m in At(c, acts).nodes[i].tasks
    ensures Calm(c, acts + [Run(i, m)]) && By(acts, acts + [Run(i, m)], {i})
    ensures var s, s' := At(c, acts), At(c, acts + [Run(i, m)]);
            var q := Spb.OnMessage(i, InstOf(m), N.SpbOf(s.nodes[i], InstOf(m)), m, High(c.n));
            N.SpbOf(s'.nodes[i], InstOf(m)) == q.st && s'.out[i] == s.out[i] + q.sends
  {
    CalmAppend(c, acts, Run(i, m));
    Append(c, acts, Run(i, m));
    var s := At(c, acts);
    StepHere(c, s, Run(i, m), i);
    L.SpbStep(c, i, s.nodes[i], N.Run(m), InstOf(m));
  }

  /** The hash an instance holds is that of the one block its proposer created. */
  lemma {:induction false} HashIsBlock(c: N.Cfg, acts: seq<Sched>, i: int, m: Msg)
    requires Silent(c) && 0 <= i < c.n && m.Proposal? && m.phase == ONE_PHASE && m.b.proposer == m.author && Said(c, At(c, acts), m)
    requires N.SpbOf(At(c, acts).nodes[i], InstOf(m)).hash.Some?
    ensures N.SpbOf(At(c, acts).nodes[i], InstOf(m)).hash == Some(HashOf(m.b))
  {
    InstanceOk(c, acts, i, InstOf(m));
    ProposalOk(c, acts, m);
    CreatedOnce(c, acts, m.b, N.SpbOf(At(c, acts).nodes[i], InstOf(m)).hash.value.block);
  }

  /** Node i reads and runs a one-phase proposal. */
  lemma {:induction false} TakeProposal(c: N.Cfg, acts: seq<Sched>, i: int, m: Msg) returns (acts': seq<Sched>)
    requires c.n >= 1 && Calm(c, acts) && 0 <= i < c.n && At(c, acts).nodes[i].started
    requires m.Proposal? && m.phase == ONE_PHASE && m.epoch == 0 && m.b.proposer == m.author
    requires Said(c, At(c, acts), m) && Haltless(c, At(c, acts), m.author) && !MayLack(i, m.author)
    ensures Calm(c, acts') && By(acts, acts', {i}) && NoCounting(acts, acts')
    ensures N.SpbOf(At(c, acts').nodes[i], InstOf(m)).hash == Some(HashOf(m.b)) && m.b in At(c, acts').nodes[i].store
  {
    acts' := Hear(c, acts, acts, i, m);
    HeardKept(c, acts', i, m);
    if N.SpbOf(At(c, acts').nodes[i], InstOf(m)).hash.None? {
      var heard := acts';
      RunIt(c, heard, i, m);
      acts' := heard + [Run(i, m)];
      LifeLater(c, heard, acts', i);
    } else {
      SaidLater(c, acts, acts', m);
      HashIsBlock(c, acts', i, m);
    }
  }

  /** Node i reads and runs the two-phase proposal of an instance it knows the block of. */
  lemma {:induction false} TakePhaseTwo(c: N.Cfg, acts: seq<Sched>, i: int, k: Inst) returns (acts': seq<Sched>)
    requires c.n >= 1 && Calm(c, acts) && 0 <= i < c.n && 0 <= k.p < c.n && k.e == 0 && At(c, acts).nodes[i].started
    requires N.SpbOf(At(c, acts).nodes[i], k).hash.Some?
    requires Said(c, At(c, acts), Spb.PhaseTwo(k.p, k)) && Haltless(c, At(c, acts), k.p)
    ensures Calm(c, acts') && By(acts, acts', {i}) && NoCounting(acts, acts')
    ensures Env(k.p, Spb.VoteTwo(i, k)) in At(c, acts').out[i]
  {
    var m := Spb.PhaseTwo(k.p, k);
    acts' := Hear(c, acts, acts, i, m);
    HeardKept(c, acts', i, m);
    SpbLater(c, acts, acts', i, k);
    BufferEmpty(c, acts', i, k);
    if Env(k.p, Spb.VoteTwo(i, k)) !in At(c, acts').out[i] {
      RunIt(c, acts', i, m);
      acts' := acts' + [Run(i, m)];
    }
  }

  lemma {:induction false} BufferEmpty(c: N.Cfg, acts: seq<Sched>, i: int, k: Inst)
    requires Silent(c) && 0 <= i < c.n && N.SpbOf(At(c, acts).nodes[i], k).hash.Some?
    ensures var s := N.SpbOf(At(c, acts).nodes[i], k); s.bufP == [] && s.bufV == []
  {
    Projection(c, acts, i);
    L.LockHasHash(c, i, Events(c, acts, i), k);
  }

  /** Proposer p reads and counts a vote for its instance that ref holds. */
  lemma {:induction false} CountVote(c: N.Cfg, ref: seq<Sched>, acts: seq<Sched>, v: Msg) returns (acts': seq<Sched>)
    requires c.n >= 1 && ref <= acts && Calm(c, acts) && v.SpbVote? && v.epoch == 0
    requires 0 <= v.proposer < c.n && 0 <= v.author < c.n && At(c, acts).nodes[v.proposer].started
    requires N.SpbOf(At(c, acts).nodes[v.proposer], InstOf(v)).hash.Some?
    requires Env(v.proposer, v) in At(c, ref).out[v.author] && Haltless(c, At(c, ref), v.author)
    ensures Calm(c, acts') && By(acts, acts', {v.proposer})
    ensures forall a :: a in acts' && a.Run? && a.m.SpbVote? ==> a in acts || a.m == v
    ensures v in N.SpbOf(At(c, acts').nodes[v.proposer], InstOf(v)).votes
    ensures Behind(c, At(c, acts), At(c, ref)) ==> Behind(c, At(c, acts'), At(c, ref))
  {
    hide At;
    var p, k := v.proposer, InstOf(v);
    acts' := Hear(c, ref, acts, p, v);
    HeardKept(c, acts', p, v);
    SpbLater(c, acts, acts', p, k);
    BufferEmpty(c, acts', p, k);
    if v !in N.SpbOf(At(c, acts').nodes[p], k).votes {
      var heard := acts';
      RunIt(c, heard, p, v);
      acts' := heard + [Run(p, v)];
      Append(c, heard, Run(p, v));
    }
  }

  // -------------------------------------------------------------------- three together

  /** Three started nodes of four in a calm run, each with reasons not to have halted. */
  ghost predicate Group(c: N.Cfg, acts: seq<Sched>, p: int, y: int, z: int, ones: set<Inst>, twos: set<Inst>)
    requires c.n >= 1
  {
    && c.n == 4 && Calm(c, acts) && Counting(acts, ones, twos)
    && 0 <= p < 4 && 0 <= y < 4 && 0 <= z < 4 && p != y && p != z && y != z
    && var s := At(c, acts);
       && s.nodes[p].started && s.nodes[y].started && s.nodes[z].started
       && Mute(c, s, p, ones, twos) && Mute(c, s, y, ones, twos) && Mute(c, s, z, ones, twos)
  }

  lemma {:induction false} GroupLater(c: N.Cfg, acts: seq<Sched>, acts': seq<Sched>, p: int, y: int, z: int, ones: set<Inst>, twos: set<Inst>)
    requires c.n >= 1 && Group(c, acts, p, y, z, ones, twos) && acts <= acts' && Calm(c, acts') && Counting(acts', ones, twos)
    ensures Group(c, acts', p, y, z, ones, twos)
  {
    LifeLater(c, acts, acts', p);
    LifeLater(c, acts, acts', y);
    LifeLater(c, acts, acts', z);
    MuteLater(c, acts, acts', p, ones, twos);
    MuteLater(c, acts, acts', y, ones, twos);
    MuteLater(c, acts, acts', z, ones, twos);
  }

  lemma {:induction false} GroupHaltless(c: N.Cfg, acts: seq<Sched>, p: int, y: int, z: int, ones: set<Inst>, twos: set<Inst>)
    requires c.n >= 1 && Group(c, acts, p, y, z, ones, twos)
    ensures Haltless(c, At(c, acts), p) && Haltless(c, At(c, acts), y) && Haltless(c, At(c, acts), z)
  {
    MuteIsHaltless(c, acts, p, ones, twos);
    MuteIsHaltless(c, acts, y, ones, twos);
    MuteIsHaltless(c, acts, z, ones, twos);
  }

  lemma {:induction false} ByTrans(acts: seq<Sched>, acts1: seq<Sched>, acts2: seq<Sched>, who: set<int>, i: int)
    requires By(acts, acts1, who) && By(acts1, acts2, {i}) && i in who
    ensures By(acts, acts2, who)
  {
    forall k | |acts| <= k < |acts2| ensures acts2[k].i in who {
      if k < |acts1| {
        assert acts2[k] == acts1[k];
      }
    }
  }

  /** The node knows the block of an instance. */
  predicate Has(nd: N.State, k: Inst, b: Block) {
    N.SpbOf(nd, k).hash == Some(HashOf(b)) && b in nd.store
  }

  lemma {:induction false} HasLater(c: N.Cfg, acts: seq<Sched>, acts': seq<Sched>, i: int, k: Inst, b: Block)
    requires Silent(c) && acts <= acts' && 0 <= i < c.n && Has(At(c, acts).nodes[i], k, b)
    ensures Has(At(c, acts').nodes[i], k, b)
  {
    SpbLater(c, acts, acts', i, k);
    LifeLater(c, acts, acts', i);
  }

  lemma {:induction false} OneTakes(c: N.Cfg, acts: seq<Sched>, p: int, y: int, z: int, ones: set<Inst>, twos: set<Inst>, m: Msg, i: int)
    returns (acts': seq<Sched>)
    requires c.n >= 1 && Group(c, acts, p, y, z, ones, twos) && (i == p || i == y || i == z)
    requires m.Proposal? && m.phase == ONE_PHASE && m.epoch == 0 && m.b.proposer == m.author == p && Said(c, At(c, acts), m)
    requires !MayLack(y, p) && !MayLack(z, p)
    ensures Group(c, acts', p, y, z, ones, twos) && By(acts, acts', {i}) && Has(At(c, acts').nodes[i], InstOf(m), m.b)
  {
    GroupHaltless(c, acts, p, y, z, ones, twos);
    acts' := TakeProposal(c, acts, i, m);
    GroupLater(c, acts, acts', p, y, z, ones, twos);
  }

  /** All three take the proposal of p. */
  lemma {:induction false} AllTake(c: N.Cfg, acts: seq<Sched>, p: int, y: int, z: int, ones: set<Inst>, twos: set<Inst>, m: Msg)
    returns (acts': seq<Sched>)
    requires c.n >= 1 && Group(c, acts, p, y, z, ones, twos)
    requires m.Proposal? && m.phase == ONE_PHASE && m.epoch == 0 && m.b.proposer == m.author == p && Said(c, At(c, acts), m)
    requires !MayLack(y, p) && !MayLack(z, p)
    ensures Group(c, acts', p, y, z, ones, twos) && By(acts, acts', {p, y, z})
    ensures var s := At(c, acts');
            Has(s.nodes[p], InstOf(m), m.b) && Has(s.nodes[y], InstOf(m), m.b) && Has(s.nodes[z], InstOf(m), m.b)
  {
    var a1 := OneTakes(c, acts, p, y, z, ones, twos, m, p);
    SaidLater(c, acts, a1, m);
    var a2 := OneTakes(c, a1, p, y, z, ones, twos, m, y);
    SaidLater(c, a1, a2, m);
    acts' := OneTakes(c, a2, p, y, z, ones, twos, m, z);
    HasLater(c, a1, acts', p, InstOf(m), m.b);
    HasLater(c, a2, acts', y, InstOf(m), m.b);
    ByTrans(acts, a1, a2, {p, y, z}, y);
    ByTrans(acts, a2, acts', {p, y, z}, z);
  }

  lemma {:induction false} VoteOneSent(c: N.Cfg, acts: seq<Sched>, i: int, k: Inst, b: Block)
    requires Silent(c) && 0 <= i < c.n && Has(At(c, acts).nodes[i], k, b)
    ensures Env(k.p, Spb.VoteOne(i, k, HashOf(b))) in At(c, acts).out[i]
  {
    Projection(c, acts, i);
    D.VoteOneOnce(c, i, Events(c, acts, i), k, HashOf(b));
    D.CopiesIn(At(c, acts).out[i], Env(k.p, Spb.VoteOne(i, k, HashOf(b))));
  }

  /** Distinct votes of a phase are all counted. */
  lemma {:induction false} CountAll(votes: seq<Msg>, phase: int, vs: set<Msg>)
    requires forall v :: v in vs ==> v in votes && v.SpbVote? && v.phase == phase
    ensures |vs| <= Spb.Count(votes, phase)
  {
    if votes != [] {
      var x := votes[|votes| - 1];
      CountAll(votes[..|votes| - 1], phase, vs - {x});
      if x in vs {
        assert vs == (vs - {x}) + {x};
      } else {
        assert vs - {x} == vs;
      }
    } else {
      assert vs == {};
    }
  }

  lemma {:induction false} ThreeCount(c: N.Cfg, votes: seq<Msg>, phase: int, v: Msg, v': Msg, v'': Msg)
    requires c.n == 4 && v in votes && v' in votes && v'' in votes
    requires v.SpbVote? && v'.SpbVote? && v''.SpbVote? && v.phase == v'.phase == v''.phase == phase
    requires v.author != v'.author && v.author != v''.author && v'.author != v''.author
    ensures Spb.Count(votes, phase) >= High(c.n)
  {
    CountAll(votes, phase, {v, v', v''});
    assert |{v, v', v''}| == 3;
  }

  lemma {:induction false} OneCounts(c: N.Cfg, acts: seq<Sched>, p: int, y: int, z: int, ones: set<Inst>, twos: set<Inst>, k: Inst, b: Block, i: int)
    returns (acts': seq<Sched>)
    requires c.n >= 1 && Group(c, acts, p, y, z, ones, twos) && (i == p || i == y || i == z)
    requires k.p == p && k.e == 0 && k in ones && Has(At(c, acts).nodes[i], k, b) && Has(At(c, acts).nodes[p], k, b)
    ensures Group(c, acts', p, y, z, ones, twos) && By(acts, acts', {p})
    ensures Spb.VoteOne(i, k, HashOf(b)) in N.SpbOf(At(c, acts').nodes[p], k).votes
  {
    GroupHaltless(c, acts, p, y, z, ones, twos);
    VoteOneSent(c, acts, i, k, b);
    acts' := CountVote(c, acts, acts, Spb.VoteOne(i, k, HashOf(b)));
    GroupLater(c, acts, acts', p, y, z, ones, twos);
  }

  lemma {:induction false} VoteLater(c: N.Cfg, acts: seq<Sched>, acts': seq<Sched>, p: int, k: Inst, v: Msg)
    requires Silent(c) && acts <= acts' && 0 <= p < c.n && v in N.SpbOf(At(c, acts).nodes[p], k).votes
    ensures v in N.SpbOf(At(c, acts').nodes[p], k).votes
  {
    SpbLater(c, acts, acts', p, k);
  }

  /** p counts the three votes for its block and broadcasts the two-phase proposal. */
  lemma {:induction false} AllCount(c: N.Cfg, acts: seq<Sched>, p: int, y: int, z: int, ones: set<Inst>, twos: set<Inst>, k: Inst, b: Block)
    returns (acts': seq<Sched>)
    requires c.n >= 1 && Group(c, acts, p, y, z, ones, twos) && k.p == p && k.e == 0 && k in ones
    requires var s := At(c, acts); Has(s.nodes[p], k, b) && Has(s.nodes[y], k, b) && Has(s.nodes[z], k, b)
    ensures Group(c, acts', p, y, z, ones, twos) && By(acts, acts', {p}) && Said(c, At(c, acts'), Spb.PhaseTwo(p, k))
  {
    var h := HashOf(b);
    var a1 := OneCounts(c, acts, p, y, z, ones, twos, k, b, p);
    HasLater(c, acts, a1, p, k, b);
    HasLater(c, acts, a1, y, k, b);
    var a2 := OneCounts(c, a1, p, y, z, ones, twos, k, b, y);
    HasLater(c, a1, a2, p, k, b);
    HasLater(c, acts, a2, z, k, b);
    acts' := OneCounts(c, a2, p, y, z, ones, twos, k, b, z);
    VoteLater(c, a1, acts', p, k, Spb.VoteOne(p, k, h));
    VoteLater(c, a2, acts', p, k, Spb.VoteOne(y, k, h));
    ByTrans(acts, a1, a2, {p}, p);
    ByTrans(acts, a2, acts', {p}, p);
    ThreeCount(c, N.SpbOf(At(c, acts').nodes[p], k).votes, ONE_PHASE, Spb.VoteOne(p, k, h), Spb.VoteOne(y, k, h), Spb.VoteOne(z, k, h));
    PhaseTwoSaid(c, acts', p, k);
  }

  lemma {:induction false} PhaseTwoSaid(c: N.Cfg, acts: seq<Sched>, p: int, k: Inst)
    requires Silent(c) && 0 <= p < c.n && Spb.Count(N.SpbOf(At(c, acts).nodes[p], k).votes, ONE_PHASE) >= High(c.n)
    ensures Said(c, At(c, acts), Spb.PhaseTwo(p, k))
  {
    Projection(c, acts, p);
    D.PhaseTwoOnce(c, p, Events(c, acts, p), k);
    D.CopiesIn(At(c, acts).out[p], Env(NONE, Spb.PhaseTwo(p, k)));
  }

  lemma {:induction false} OneLocks(c: N.Cfg, acts: seq<Sched>, p: int, y: int, z: int, ones: set<Inst>, twos: set<Inst>, k: Inst, i: int)
    returns (acts': seq<Sched>)
    requires c.n >= 1 && Group(c, acts, p, y, z, ones, twos) && (i == p || i == y || i == z) && k.p == p && k.e == 0
    requires N.SpbOf(At(c, acts).nodes[i], k).hash.Some? && Said(c, At(c, acts), Spb.PhaseTwo(p, k))
    ensures Group(c, acts', p, y, z, ones, twos) && By(acts, acts', {i})
    ensures Env(p, Spb.VoteTwo(i, k)) in At(c, acts').out[i]
  {
    GroupHaltless(c, acts, p, y, z, ones, twos);
    acts' := TakePhaseTwo(c, acts, i, k);
    GroupLater(c, acts, acts', p, y, z, ones, twos);
  }

  /** All three have voted for the lock. */
  ghost predicate Voted(c: N.Cfg, s: State, p: int, y: int, z: int, k: Inst)
    requires Wf(c, s) && 0 <= p < c.n && 0 <= y < c.n && 0 <= z < c.n
  {
    && Env(p, Spb.VoteTwo(p, k)) in s.out[p]
    && Env(p, Spb.VoteTwo(y, k)) in s.out[y]
    && Env(p, Spb.VoteTwo(z, k)) in s.out[z]
  }

  lemma {:induction false} AllLock(c: N.Cfg, acts: seq<Sched>, p: int, y: int, z: int, ones: set<Inst>, twos: set<Inst>, k: Inst, b: Block)
    returns (acts': seq<Sched>)
    requires c.n >= 1 && Group(c, acts, p, y, z, ones, twos) && k.p == p && k.e == 0 && Said(c, At(c, acts), Spb.PhaseTwo(p, k))
    requires var s := At(c, acts); Has(s.nodes[p], k, b) && Has(s.nodes[y], k, b) && Has(s.nodes[z], k, b)
    ensures Group(c, acts', p, y, z, ones, twos) && By(acts, acts', {p, y, z}) && Voted(c, At(c, acts'), p, y, z, k)
  {
    var a1 := OneLocks(c, acts, p, y, z, ones, twos, k, p);
    SaidLater(c, acts, a1, Spb.PhaseTwo(p, k));
    HasLater(c, acts, a1, y, k, b);
    var a2 := OneLocks(c, a1, p, y, z, ones, twos, k, y);
    SaidLater(c, a1, a2, Spb.PhaseTwo(p, k));
    HasLater(c, acts, a2, z, k, b);
    acts' := OneLocks(c, a2, p, y, z, ones, twos, k, z);
    LogLater(c, a1, acts', p, p);
    LogLater(c, a2, acts', y, y);
    ByTrans(acts, a1, a2, {p, y, z}, y);
    ByTrans(acts, a2, acts', {p, y, z}, z);
  }

  /** From the proposal of p to the three votes for its lock. */
  lemma {:induction false} Prepare(c: N.Cfg, acts: seq<Sched>, p: int, y: int, z: int, ones: set<Inst>, twos: set<Inst>, m: Msg)
    returns (acts': seq<Sched>)
    requires c.n >= 1 && Group(c, acts, p, y, z, ones, twos)
    requires m.Proposal? && m.phase == ONE_PHASE && m.epoch == 0 && m.b.proposer == m.author == p && Said(c, At(c, acts), m)
    requires !MayLack(y, p) && !MayLack(z, p)
    requires InstOf(m) in ones
    ensures Group(c, acts', p, y, z, ones, twos) && By(acts, acts', {p, y, z}) && Voted(c, At(c, acts'), p, y, z, InstOf(m))
    ensures var s := At(c, acts');
            Has(s.nodes[p], InstOf(m), m.b) && Has(s.nodes[y], InstOf(m), m.b) && Has(s.nodes[z], InstOf(m), m.b)
  {
    var k, b := InstOf(m), m.b;
    var a1 := AllTake(c, acts, p, y, z, ones, twos, m);
    var a2 := AllCount(c, a1, p, y, z, ones, twos, k, b);
    HasLater(c, a1, a2, p, k, b);
    HasLater(c, a1, a2, y, k, b);
    HasLater(c, a1, a2, z, k, b);
    acts' := AllLock(c, a2, p, y, z, ones, twos, k, b);
    HasLater(c, a2, acts', p, k, b);
    HasLater(c, a2, acts', y, k, b);
    HasLater(c, a2, acts', z, k, b);
    ByTrans(acts, a1, a2, {p, y, z}, p);
    ByJoin(acts, a2, acts', {p, y, z});
  }

  lemma {:induction false} ByJoin(acts: seq<Sched>, acts1: seq<Sched>, acts2: seq<Sched>, who: set<int>)
    requires By(acts, acts1, who) && By(acts1, acts2, who)
    ensures By(acts, acts2, who)
  {
    forall k | |acts| <= k < |acts2| ensures acts2[k].i in who {
      if k < |acts1| {
        assert acts2[k] == acts1[k];
      }
    }
  }

  /** p counts the three votes for its lock and broadcasts its finish; nobody reads anything that
      was not sent before. */
  lemma {:induction false} FinishUp(c: N.Cfg, acts: seq<Sched>, p: int, y: int, z: int, ones: set<Inst>, twos: set<Inst>, k: Inst, b: Block)
    returns (acts': seq<Sched>)
    requires c.n >= 1 && Group(c, acts, p, y, z, ones, twos) && k.p == p && k.e == 0
    requires Has(At(c, acts).nodes[p], k, b) && Voted(c, At(c, acts), p, y, z, k)
    ensures Calm(c, acts') && By(acts, acts', {p}) && Counting(acts', ones, twos + {k})
    ensures Said(c, At(c, acts'), Finish(p, HashOf(b), 0, k.r)) && Behind(c, At(c, acts'), At(c, acts))
  {
    hide At;
    var v, v', v'' := Spb.VoteTwo(p, k), Spb.VoteTwo(y, k), Spb.VoteTwo(z, k);
    GroupHaltless(c, acts, p, y, z, ones, twos);
    var a1 := CountVote(c, acts, acts, v);
    HasLater(c, acts, a1, p, k, b);
    LifeLater(c, acts, a1, p);
    var a2 := CountVote(c, acts, a1, v');
    HasLater(c, acts, a2, p, k, b);
    LifeLater(c, acts, a2, p);
    acts' := CountVote(c, acts, a2, v'');
    HasLater(c, acts, acts', p, k, b);
    VoteLater(c, a1, acts', p, k, v);
    VoteLater(c, a2, acts', p, k, v');
    ByTrans(acts, a1, a2, {p}, p);
    ByTrans(acts, a2, acts', {p}, p);
    ThreeCount(c, N.SpbOf(At(c, acts').nodes[p], k).votes, TWO_PHASE, v, v', v'');
    FinishSaid(c, acts', p, k, b);
  }

  lemma {:induction false} FinishSaid(c: N.Cfg, acts: seq<Sched>, p: int, k: Inst, b: Block)
    requires Silent(c) && 0 <= p < c.n && k.p == p && Has(At(c, acts).nodes[p], k, b)
    requires Spb.Count(N.SpbOf(At(c, acts).nodes[p], k).votes, TWO_PHASE) >= High(c.n)
    ensures Said(c, At(c, acts), Finish(p, HashOf(b), k.e, k.r))
  {
    Q.FinishesOnce(c, acts, p, Slot(k.e, k.r));
    var x := SomeFinish(At(c, acts).out[p], Slot(k.e, k.r));
    SentByCorrect(c, acts, p, x);
    FinishIsAuthors(c, acts, x.msg);
    InstanceOk(c, acts, p, k);
    CreatedOnce(c, acts, b, x.msg.hash.block);
  }

  lemma {:induction false} SomeFinish(out: seq<Envelope>, sl: Slot) returns (x: Envelope)
    requires D.Finishes(out, sl) >= 1
    ensures x in out && x.msg.Finish? && SlotOf(x.msg) == sl
  {
    x := out[|out| - 1];
    if !(x.msg.Finish? && SlotOf(x.msg) == sl) {
      x := SomeFinish(out[..|out| - 1], sl);
    }
  }
}

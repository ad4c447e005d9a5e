/** What a node takes in: which blocks it stores, and which one-phase proposals it sets going.
    A proposal whose block is not fully there waits for its payloads and is not voted for. */
module Intake {
  import opened Messages
  import opened Committee
  import Spb
  import opened Node
  import opened Local
  import opened Origins
  import opened Deliveries

  // ------------------------------------------------------------------------- the store

  /** The k-th event of a run wrote b. */
  ghost predicate WroteAt(c: Cfg, me: int, evs: seq<Event>, k: int, b: Block)
    requires c.n >= 1
  {
    0 <= k < |evs| && Writes(After(c, me, evs[..k]).nd, evs[k], b)
  }

  lemma WroteBefore(c: Cfg, me: int, evs: seq<Event>, k: int, b: Block)
    requires c.n >= 1 && evs != [] && k < |evs| - 1
    ensures WroteAt(c, me, evs[..|evs| - 1], k, b) <==> WroteAt(c, me, evs, k, b)
  {
    hide After, Writes;
    if 0 <= k {
      assert evs[..|evs| - 1][..k] == evs[..k];
    }
  }

  /** A block is stored exactly when some event wrote it; it is never dropped. */
  lemma {:induction false} StoredExactly(c: Cfg, me: int, evs: seq<Event>, b: Block)
    requires c.n >= 1
    ensures b in After(c, me, evs).nd.store <==> exists k :: WroteAt(c, me, evs, k, b)
  {
    hide Step, Writes;
    if evs != [] {
      var init := evs[..|evs| - 1];
      StoredExactly(c, me, init, b);
      StoreStep(c, me, After(c, me, init).nd, evs[|evs| - 1], b);
      forall k ensures WroteAt(c, me, evs, k, b) <==> if k < |init| then WroteAt(c, me, init, k, b) else
                         k == |init| && Writes(After(c, me, init).nd, evs[k], b) {
        if k < |init| {
          WroteBefore(c, me, evs, k, b);
        }
      }
    }
  }

  // ------------------------------------------------------------------ one-phase proposals

  predicate OnePhase(p: Msg) {
    p.Proposal? && p.phase == ONE_PHASE
  }

  /** The event sets p going: p is received in an epoch that is not over, its block is written and
      all its payloads are there; or they have now arrived, and p re-enters a stored block in the
      instance of its proposer, in round 0. */
  predicate Admits(nd: State, ev: Event, p: Msg)
    requires OnePhase(p)
  {
    nd.started && p.epoch >= nd.epoch &&
    match ev
    case Recv(m, o) => m == p && o.writeOk && o.checkBlock
    case Loop(d, o) =>
      && d == HashOf(p.b) && p.b in nd.store
      && p.author == p.b.proposer && p.epoch == p.b.epoch && p.round == 0
    case _ => false
  }

  /** How often p was set going, and how often it was run. */
  function Admitted(c: Cfg, me: int, evs: seq<Event>, p: Msg): nat
    requires c.n >= 1 && OnePhase(p)
  {
    if evs == [] then 0
    else
      var init := evs[..|evs| - 1];
      Admitted(c, me, init, p) + Unit(Admits(After(c, me, init).nd, evs[|evs| - 1], p))
  }

  function Ran(c: Cfg, me: int, evs: seq<Event>, p: Msg): nat
    requires c.n >= 1
  {
    if evs == [] then 0
    else
      var init, ev := evs[..|evs| - 1], evs[|evs| - 1];
      Ran(c, me, init, p) + Unit(IsTask(After(c, me, init).nd, ev) && ev.m == p)
  }

  /** Buffers hold no one-phase proposals, so running a task sets none going. */
  lemma {:induction false} SpawnsNone(me: int, k: Inst, s: Spb.State, m: Msg, th: nat, p: Msg)
    requires (m.Proposal? || m.SpbVote?) && k == InstOf(m) && Typed(s, k) && OnePhase(p)
    ensures multiset(Spb.OnMessage(me, k, s, m, th).spawn)[p] == 0
  {
    var r := Spb.OnMessage(me, k, s, m, th);
    assert forall x :: x in r.spawn ==> x in s.bufP || x in s.bufV;
    assert p !in r.spawn;
  }

  lemma {:induction false} RunTakes(c: Cfg, me: int, nd: State, ev: Event, p: Msg)
    requires c.n >= 1 && IsTask(nd, ev) && Typed(SpbOf(nd, InstOf(ev.m)), InstOf(ev.m)) && OnePhase(p)
    ensures Step(c, me, nd, ev).nd.tasks[p] + Unit(ev.m == p) == nd.tasks[p]
  {
    var k := InstOf(ev.m);
    SpbStep(c, me, nd, ev, k);
    SpawnsNone(me, k, SpbOf(nd, k), ev.m, High(c.n), p);
  }

  lemma {:induction false} ProposalAdmits(nd: State, m: Msg, o: Oracle, p: Msg)
    requires m.Proposal? && OnePhase(p) && nd.started
    ensures OnProposal(nd, m, o).tasks[p] == nd.tasks[p] + Unit(Admits(nd, Recv(m, o), p))
  {
  }

  lemma {:induction false} LoopAdmits(nd: State, d: Digest, o: Oracle, p: Msg)
    requires OnePhase(p) && nd.started
    ensures OnLoopBack(nd, d, o).tasks[p] == nd.tasks[p] + Unit(Admits(nd, Loop(d, o), p))
  {
  }

  lemma {:induction false} ElseAdmits(c: Cfg, me: int, nd: State, ev: Event, p: Msg)
    requires c.n >= 1 && OnePhase(p) && !ev.Run?
    ensures Step(c, me, nd, ev).nd.tasks[p] == nd.tasks[p] + Unit(Admits(nd, ev, p))
  {
    hide OnHalt, OnProposal, OnLoopBack;
    if ev.Recv? && nd.started {
      if IsRoundMsg(ev.m) {
        RoundLeaves(c, me, nd, ev.m, ev.o);
      } else if ev.m.Halt? {
        HaltLeavesRest(me, nd, ev.m, ev.o);
      } else if ev.m.Proposal? {
        ProposalAdmits(nd, ev.m, ev.o, p);
      }
    } else if ev.Loop? && nd.started {
      LoopAdmits(nd, ev.d, ev.o, p);
    }
  }

  /** One-phase proposals are conserved: p waits to run exactly as often as it was set going and
      not yet run. */
  lemma {:induction false} OnePhaseConserved(c: Cfg, me: int, evs: seq<Event>, p: Msg)
    requires c.n >= 1 && OnePhase(p)
    ensures After(c, me, evs).nd.tasks[p] + Ran(c, me, evs, p) == Admitted(c, me, evs, p)
  {
    if evs != [] {
      var init, ev := evs[..|evs| - 1], evs[|evs| - 1];
      var nd := After(c, me, init).nd;
      OnePhaseConserved(c, me, init, p);
      if IsTask(nd, ev) {
        AlwaysTyped(c, me, init, InstOf(ev.m));
        RunTakes(c, me, nd, ev, p);
      } else if !ev.Run? {
        ElseAdmits(c, me, nd, ev, p);
      }
    }
  }

  // ------------------------------------------------------- no vote without the payloads

  /** An instance knows a block exactly when a one-phase proposal of it by the block's own
      proposer was run there. */
  lemma {:induction false} HashWasRun(c: Cfg, me: int, evs: seq<Event>, k: Inst) returns (p: Msg)
    requires c.n >= 1 && SpbOf(After(c, me, evs).nd, k).hash.Some?
    ensures OnePhase(p) && InstOf(p) == k && p.b.proposer == k.p && Ran(c, me, evs, p) >= 1
    ensures SpbOf(After(c, me, evs).nd, k).hash == Some(HashOf(p.b))
  {
    var init, ev := evs[..|evs| - 1], evs[|evs| - 1];
    var nd := After(c, me, init).nd;
    SpbStep(c, me, nd, ev, k);
    if SpbOf(nd, k).hash.Some? {
      p := HashWasRun(c, me, init, k);
    } else {
      p := ev.m;
    }
  }

  /** A logged one-phase vote for h was preceded by an event at which h's block was written or
      stored and all its payloads were there. */
  lemma {:induction false} VoteNeedsPayloads(c: Cfg, me: int, evs: seq<Event>, k: Inst, h: Digest) returns (p: Msg)
    requires c.n >= 1 && Env(k.p, Spb.VoteOne(me, k, h)) in After(c, me, evs).sends
    ensures OnePhase(p) && InstOf(p) == k && p.b.proposer == k.p && h == HashOf(p.b)
    ensures Admitted(c, me, evs, p) >= 1
  {
    VoteOneOnce(c, me, evs, k, h);
    CopiesIn(After(c, me, evs).sends, Env(k.p, Spb.VoteOne(me, k, h)));
    p := HashWasRun(c, me, evs, k);
    OnePhaseConserved(c, me, evs, p);
  }

  lemma {:induction false} RanSetsHash(c: Cfg, me: int, evs: seq<Event>, p: Msg)
    requires c.n >= 1 && OnePhase(p) && p.author == p.b.proposer && Ran(c, me, evs, p) >= 1
    ensures SpbOf(After(c, me, evs).nd, InstOf(p)).hash.Some?
  {
    var init, ev := evs[..|evs| - 1], evs[|evs| - 1];
    SpbStep(c, me, After(c, me, init).nd, ev, InstOf(p));
    if Ran(c, me, init, p) >= 1 {
      RanSetsHash(c, me, init, p);
    }
  }

  /** Once nothing waits to run, every instance whose proposer's proposal was set going has
      voted: for that block, or for one that was set going in the same instance. */
  lemma {:induction false} QuietHasVoted(c: Cfg, me: int, evs: seq<Event>, p: Msg) returns (q: Msg)
    requires c.n >= 1 && OnePhase(p) && p.author == p.b.proposer && Admitted(c, me, evs, p) >= 1
    requires After(c, me, evs).nd.tasks == multiset{}
    ensures OnePhase(q) && InstOf(q) == InstOf(p) && Admitted(c, me, evs, q) >= 1
    ensures Env(p.author, Spb.VoteOne(me, InstOf(p), HashOf(q.b))) in After(c, me, evs).sends
  {
    OnePhaseConserved(c, me, evs, p);
    RanSetsHash(c, me, evs, p);
    q := HashWasRun(c, me, evs, InstOf(p));
    OnePhaseConserved(c, me, evs, q);
    VoteOneOnce(c, me, evs, InstOf(p), HashOf(q.b));
    CopiesIn(After(c, me, evs).sends, Env(p.author, Spb.VoteOne(me, InstOf(p), HashOf(q.b))));
  }
}

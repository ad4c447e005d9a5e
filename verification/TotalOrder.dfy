/** The promise of the whole system, the same blocks in the same order at every node: what holds
    of every run, and exactly when the promise is kept. */
module TotalOrder {
  import opened Messages
  import N = Node
  import Spb
  import opened System
  import opened Runs
  import opened Benign
  import opened Blocks
  import opened Agreement
  import L = Local
  import C = Committor
  import K = Consistency

  /** The event makes the node commit b late: its payloads are there and its epoch is halted, and
      the node reads it in a one-phase proposal by the recorded leader of the proposal's round, or the
      payloads have just arrived and its proposer is the recorded leader of round 0. */
  predicate Late(nd: N.State, ev: N.Event, b: Block) {
    nd.started &&
    match ev
    case Recv(m, o) =>
      && m.Proposal? && m.phase == ONE_PHASE && m.b == b && o.checkCommit
      && m.epoch in nd.halted && N.RoundOf(nd, SlotOf(m)).leader == m.author
    case Loop(d, o) =>
      && d == HashOf(b) && b in nd.store && o.checkCommit
      && b.epoch in nd.halted && N.RoundOf(nd, Slot(b.epoch, 0)).leader == b.proposer
    case _ => false
  }

  /** The event is a halt that the node acts on, that names b, and that finds b with its payloads. */
  predicate Halted(nd: N.State, ev: N.Event, b: Block) {
    && ev.Recv? && nd.started && ev.m.Halt? && ev.m.epoch >= nd.epoch && ev.m.epoch !in nd.halted
    && ev.m.hash == HashOf(b) && b in nd.store && ev.o.checkCommit
  }

  /** What an event submits. */
  function Submission(nd: N.State, ev: N.Event): seq<Block> {
    match ev
    case Recv(m, o) =>
      if m.Halt? && m.hash.HashOf? && Halted(nd, ev, m.hash.block) then [m.hash.block]
      else if m.Proposal? && Late(nd, ev, m.b) then [m.b]
      else []
    case Loop(d, o) => if d.HashOf? && Late(nd, ev, d.block) then [d.block] else []
    case _ => []
  }

  lemma {:induction false} HaltSubmits(me: int, nd: N.State, h: Msg, o: N.Oracle)
    requires h.Halt? && nd.started
    ensures N.OnHalt(me, nd, h, o).nd.submitted == nd.submitted + Submission(nd, N.Recv(h, o))
  {
  }

  lemma {:induction false} RoundSubmits(c: N.Cfg, me: int, nd: N.State, m: Msg, o: N.Oracle)
    requires c.n >= 1 && N.IsRoundMsg(m)
    ensures N.OnMessage(c, me, nd, m, o).nd.submitted == nd.submitted
  {
  }

  lemma {:induction false} ProposalSubmits(nd: N.State, p: Msg, o: N.Oracle)
    requires p.Proposal? && nd.started
    ensures N.OnProposal(nd, p, o).submitted == nd.submitted + Submission(nd, N.Recv(p, o))
  {
  }

  lemma {:induction false} LoopSubmits(nd: N.State, d: Digest, o: N.Oracle)
    requires nd.started
    ensures N.OnLoopBack(nd, d, o).submitted == nd.submitted + Submission(nd, N.Loop(d, o))
  {
  }

  /** An event appends to the submissions the block of a halt that is acted on and finds it, or a
      late one, and nothing else. */
  lemma {:induction false} SubmittedExactly(c: N.Cfg, me: int, nd: N.State, ev: N.Event)
    requires c.n >= 1
    ensures N.Step(c, me, nd, ev).nd.submitted == nd.submitted + Submission(nd, ev)
    ensures |Submission(nd, ev)| <= 1 && forall b :: b in Submission(nd, ev) <==> Late(nd, ev, b) || Halted(nd, ev, b)
  {
    hide N.OnRound, N.OnHalt, N.OnProposal, N.OnLoopBack, N.CommitLate, Spb.OnMessage;
    if ev.Recv? && nd.started {
      if N.IsRoundMsg(ev.m) {
        RoundSubmits(c, me, nd, ev.m, ev.o);
      } else if ev.m.Halt? {
        HaltSubmits(me, nd, ev.m, ev.o);
      } else if ev.m.Proposal? {
        ProposalSubmits(nd, ev.m, ev.o);
      }
    } else if ev.Loop? && nd.started {
      LoopSubmits(nd, ev.d, ev.o);
    }
  }

  // ---------------------------------------------------------- what every run submits

  /** Whatever a node submits was created by its proposer for its epoch. */
  lemma {:induction false} SubmittedIsCreated(c: N.Cfg, acts: seq<Sched>, i: int, b: Block)
    requires Silent(c) && 0 <= i < c.n && b in At(c, acts).nodes[i].submitted
    ensures Created(c, At(c, acts), b)
  {
    if acts != [] {
      var init := acts[..|acts| - 1];
      var s, a := At(c, init), acts[|acts| - 1];
      var ev := EventAt(c, s, a, i);
      if b in s.nodes[i].submitted {
        SubmittedIsCreated(c, init, i, b);
      } else if ev == [] {
        StepElsewhere(c, s, a, i);
      } else {
        StepHere(c, s, a, i);
        SubmittedExactly(c, i, s.nodes[i], ev[0]);
        SourceIsCreated(c, init, a, i, b);
      }
      SaidStays(c, s, a, N.Replayed(b));
    }
  }

  lemma {:induction false} SourceIsCreated(c: N.Cfg, init: seq<Sched>, a: Sched, i: int, b: Block)
    requires Silent(c) && 0 <= i < c.n
    requires var ev := EventAt(c, At(c, init), a, i);
             ev != [] && (b in At(c, init).nodes[i].store || (ev[0].Recv? && ev[0].m.Proposal? && ev[0].m.b == b && ev[0].m.phase == ONE_PHASE))
    ensures Created(c, At(c, init), b)
  {
    if b in At(c, init).nodes[i].store {
      StoreOk(c, init, i, b);
    } else {
      HeardWasSaid(c, init, a, i);
      ProposalOk(c, init, EventAt(c, At(c, init), a, i)[0].m);
    }
  }

  /** A created block is the decided one, that of a halt of its epoch, if and only if it is the
      block of the leader elected in the halt's round. */
  lemma {:induction false} DecidedExactly(c: N.Cfg, acts: seq<Sched>, b: Block, h: Msg)
    requires Silent(c) && Orderly(c, acts) && Created(c, At(c, acts), b)
    requires h.Halt? && Said(c, At(c, acts), h) && h.epoch == b.epoch
    ensures HashOf(b) == h.hash <==> b.proposer == N.Elected(c, SlotOf(h))
  {
    HaltIsLeaders(c, acts, h);
    if b.proposer == N.Elected(c, SlotOf(h)) {
      CreatedOnce(c, acts, b, h.hash.block);
    }
  }

  // ----------------------------------------------------------------- the same order

  /** Blocks of an epoch have one proposer. */
  ghost predicate SameProposers(bs: seq<Block>, bs': seq<Block>) {
    forall b, b' :: b in bs && b' in bs' && b.epoch == b'.epoch ==> b.proposer == b'.proposer
  }

  /** Total order, exactly: what two nodes submit agrees if and only if it has the same proposers
      epoch by epoch; and then the nodes emit the same blocks in the same order, one possibly
      ahead. */
  lemma {:induction false} SameOrder(c: N.Cfg, acts: seq<Sched>, i: int, j: int)
    requires Silent(c) && 0 <= i < c.n && 0 <= j < c.n
    ensures var bs, bs' := At(c, acts).nodes[i].submitted, At(c, acts).nodes[j].submitted;
            && (C.Agree(bs, bs') <==> SameProposers(bs, bs'))
            && (SameProposers(bs, bs') ==>
                  C.After(bs).emitted <= C.After(bs').emitted || C.After(bs').emitted <= C.After(bs).emitted)
  {
    var bs, bs' := At(c, acts).nodes[i].submitted, At(c, acts).nodes[j].submitted;
    if SameProposers(bs, bs') {
      forall b, b' | b in bs && b' in bs' && b.epoch == b'.epoch ensures b == b' {
        SubmittedIsCreated(c, acts, i, b);
        SubmittedIsCreated(c, acts, j, b');
        CreatedOnce(c, acts, b, b');
      }
      C.PrefixConsistent(bs, bs');
    }
  }

  /** The sequence a node has emitted. */
  ghost function Emitted(c: N.Cfg, acts: seq<Sched>, i: int): seq<Block>
    requires c.n >= 1 && 0 <= i < c.n
  {
    C.After(At(c, acts).nodes[i].submitted).emitted
  }

  /** The logs that the nodes have written, batch by batch. */
  ghost predicate LogsOf(c: N.Cfg, acts: seq<Sched>, batch: K.Lookup, logs: seq<seq<K.Entry>>)
    requires c.n >= 1
  {
    |logs| == c.n && forall i :: 0 <= i < c.n ==> logs[i] == K.Log(Emitted(c, acts, i), batch)
  }

  /** The logs pass the consistency checker when the nodes' submissions have the same proposers. */
  lemma {:induction false} LogsPass(c: N.Cfg, acts: seq<Sched>, batch: K.Lookup, logs: seq<seq<K.Entry>>)
    requires Silent(c) && LogsOf(c, acts, batch, logs)
    requires forall i, j :: 0 <= i < c.n && 0 <= j < c.n ==>
               SameProposers(At(c, acts).nodes[i].submitted, At(c, acts).nodes[j].submitted)
    ensures K.Consistent(logs)
  {
    hide At;
    var inputs := seq(c.n, i requires 0 <= i < c.n => At(c, acts).nodes[i].submitted);
    forall i, j | 0 <= i < c.n && 0 <= j < c.n ensures C.Agree(inputs[i], inputs[j]) {
      SameOrder(c, acts, i, j);
    }
    K.CommittorLogsPass(inputs, logs, batch);
  }

  /** They pass for every assignment of batches if and only if the payloads committed, each under its
      own name and repetitions dropped, are prefixes of one another. */
  lemma {:induction false} LogsPassExactly(c: N.Cfg, acts: seq<Sched>)
    requires c.n >= 1
    ensures (forall batch: K.Lookup, logs :: LogsOf(c, acts, batch, logs) ==> K.Consistent(logs)) <==>
            (forall i, j :: 0 <= i < c.n && 0 <= j < c.n ==> K.LogsCompare(Emitted(c, acts, i), Emitted(c, acts, j), K.Named()))
  {
    hide Emitted, K.Log, K.Dedup, K.Named;
    if forall batch: K.Lookup, logs :: LogsOf(c, acts, batch, logs) ==> K.Consistent(logs) {
      var named := seq(c.n, i requires 0 <= i < c.n => K.Log(Emitted(c, acts, i), K.Named()));
      assert LogsOf(c, acts, K.Named(), named);
      forall i, j | 0 <= i < c.n && 0 <= j < c.n ensures K.LogsCompare(Emitted(c, acts, i), Emitted(c, acts, j), K.Named()) {
        assert K.Comparable(K.Dedup(named[i]), K.Dedup(named[j]));
      }
    }
    if forall i, j :: 0 <= i < c.n && 0 <= j < c.n ==> K.LogsCompare(Emitted(c, acts, i), Emitted(c, acts, j), K.Named()) {
      forall batch: K.Lookup, logs | LogsOf(c, acts, batch, logs) ensures K.Consistent(logs) {
        forall i, j | 0 <= i < |logs| && 0 <= j < |logs| ensures K.Comparable(K.Dedup(logs[i]), K.Dedup(logs[j])) {
          K.NamesDecide(Emitted(c, acts, i), Emitted(c, acts, j));
          assert K.LogsCompare(Emitted(c, acts, i), Emitted(c, acts, j), batch);
        }
      }
    }
  }

  // -------------------------------------------------- a condition on leaders and guards

  /** b is of the leader of a round for which a halt was broadcast. */
  ghost predicate ByHaltedLeader(c: N.Cfg, s: State, b: Block)
    requires c.n >= 1 && Wf(c, s)
  {
    exists h :: Said(c, s, h) && h.Halt? && h.epoch == b.epoch && b.proposer == N.Elected(c, SlotOf(h))
  }

  /** All halts of an epoch are of rounds that elected one leader. */
  ghost predicate LeadersAgree(c: N.Cfg, s: State)
    requires c.n >= 1 && Wf(c, s)
  {
    forall h, h' :: Said(c, s, h) && Said(c, s, h') && h.Halt? && h'.Halt? && h.epoch == h'.epoch ==>
      N.Elected(c, SlotOf(h)) == N.Elected(c, SlotOf(h'))
  }

  /** The last action of the run makes node i commit b late. */
  ghost predicate LateAt(c: N.Cfg, acts: seq<Sched>, i: int, b: Block)
    requires c.n >= 1 && acts != [] && 0 <= i < c.n
  {
    var s := At(c, acts[..|acts| - 1]);
    var ev := EventAt(c, s, acts[|acts| - 1], i);
    ev != [] && Late(s.nodes[i], ev[0], b)
  }

  /** Every late commit would pass a guard that compares the proposer of the block, and not the
      author of the proposal, with the leader of a halted round. */
  ghost predicate LatesGuarded(c: N.Cfg, acts: seq<Sched>)
    requires c.n >= 1
  {
    acts == [] ||
    (LatesGuarded(c, acts[..|acts| - 1]) &&
     forall i, b :: 0 <= i < c.n && LateAt(c, acts, i, b) ==> ByHaltedLeader(c, At(c, acts[..|acts| - 1]), b))
  }

  lemma {:induction false} ByHaltedLeaderStays(c: N.Cfg, s: State, a: Sched, b: Block)
    requires c.n >= 1 && Wf(c, s) && ByHaltedLeader(c, s, b)
    ensures ByHaltedLeader(c, Apply(c, s, a), b)
  {
    var h :| Said(c, s, h) && h.Halt? && h.epoch == b.epoch && b.proposer == N.Elected(c, SlotOf(h));
    SaidStays(c, s, a, h);
  }

  lemma {:induction false} SubmittedByLeader(c: N.Cfg, acts: seq<Sched>, i: int, b: Block)
    requires Silent(c) && Orderly(c, acts) && LatesGuarded(c, acts)
    requires 0 <= i < c.n && b in At(c, acts).nodes[i].submitted
    ensures ByHaltedLeader(c, At(c, acts), b)
  {
    if acts != [] {
      var init := acts[..|acts| - 1];
      var s, a := At(c, init), acts[|acts| - 1];
      var ev := EventAt(c, s, a, i);
      OrderlyPrefix(c, acts);
      if b in s.nodes[i].submitted {
        SubmittedByLeader(c, init, i, b);
      } else if ev == [] {
        StepElsewhere(c, s, a, i);
      } else {
        StepHere(c, s, a, i);
        SubmittedExactly(c, i, s.nodes[i], ev[0]);
        if Late(s.nodes[i], ev[0], b) {
          assert LateAt(c, acts, i, b);
        } else {
          HeardWasSaid(c, init, a, i);
          HaltIsLeaders(c, init, ev[0].m);
        }
      }
      ByHaltedLeaderStays(c, s, a, b);
    }
  }

  lemma {:induction false} OrderlyPrefix(c: N.Cfg, acts: seq<Sched>)
    requires c.n >= 1 && acts != [] && Orderly(c, acts)
    ensures Orderly(c, acts[..|acts| - 1])
  {
    var init := acts[..|acts| - 1];
    forall i | 0 <= i < c.n ensures L.HaltsFindBlocks(c, i, Events(c, init, i)) {
      var ev := EventAt(c, At(c, init), acts[|acts| - 1], i);
      if ev == [] {
        assert Events(c, acts, i) == Events(c, init, i);
      } else {
        assert Events(c, acts, i)[..|Events(c, acts, i)| - 1] == Events(c, init, i);
      }
    }
  }

  /** The last action decides epoch e for l at node i: the node acts on a halt whose block is there
      with its payloads, and l is the leader elected in the halt's round; or it commits late a
      block of l. */
  ghost predicate DecidesNow(c: N.Cfg, acts: seq<Sched>, i: int, e: int, l: int)
    requires c.n >= 1 && acts != [] && 0 <= i < c.n
  {
    var s := At(c, acts[..|acts| - 1]);
    var ev := EventAt(c, s, acts[|acts| - 1], i);
    && ev != []
    && (|| (exists b :: Halted(s.nodes[i], ev[0], b) && ev[0].m.epoch == e && N.Elected(c, SlotOf(ev[0].m)) == l)
        || (exists b :: Late(s.nodes[i], ev[0], b) && b.epoch == e && b.proposer == l))
  }

  /** Some action has. */
  ghost predicate Decided(c: N.Cfg, acts: seq<Sched>, i: int, e: int, l: int)
    requires c.n >= 1 && 0 <= i < c.n
  {
    acts != [] && (Decided(c, acts[..|acts| - 1], i, e, l) || DecidesNow(c, acts, i, e, l))
  }

  /** The block of a halt that is acted on is that of the leader elected in its round. */
  lemma {:induction false} HaltedIsLeaders(c: N.Cfg, init: seq<Sched>, a: Sched, i: int, b: Block)
    requires Silent(c) && Orderly(c, init) && 0 <= i < c.n
    requires var ev := EventAt(c, At(c, init), a, i); ev != [] && Halted(At(c, init).nodes[i], ev[0], b)
    ensures var h := EventAt(c, At(c, init), a, i)[0].m; b.epoch == h.epoch && b.proposer == N.Elected(c, SlotOf(h))
  {
    HeardWasSaid(c, init, a, i);
    HaltIsLeaders(c, init, EventAt(c, At(c, init), a, i)[0].m);
  }

  /** What an action decides is what it submits. */
  lemma {:induction false} DecisionSubmits(c: N.Cfg, acts: seq<Sched>, i: int, e: int, l: int)
    requires Silent(c) && acts != [] && Orderly(c, acts[..|acts| - 1]) && 0 <= i < c.n
    ensures var s := At(c, acts[..|acts| - 1]);
            var ev := EventAt(c, s, acts[|acts| - 1], i);
            DecidesNow(c, acts, i, e, l) <==>
            ev != [] && exists b :: (Halted(s.nodes[i], ev[0], b) || Late(s.nodes[i], ev[0], b)) && b.epoch == e && b.proposer == l
  {
    hide Late, At;
    var init := acts[..|acts| - 1];
    var s, a := At(c, init), acts[|acts| - 1];
    var ev := EventAt(c, s, a, i);
    if ev != [] {
      forall b | Halted(s.nodes[i], ev[0], b) ensures b.epoch == ev[0].m.epoch && b.proposer == N.Elected(c, SlotOf(ev[0].m)) {
        HaltedIsLeaders(c, init, a, i, b);
      }
    }
  }

  /** Exactly the blocks of the decided leaders are submitted. */
  lemma {:induction false} DecidedIsSubmitted(c: N.Cfg, acts: seq<Sched>, i: int, e: int, l: int)
    requires Silent(c) && Orderly(c, acts) && 0 <= i < c.n
    ensures Decided(c, acts, i, e, l) <==> exists b :: b in At(c, acts).nodes[i].submitted && b.epoch == e && b.proposer == l
  {
    if acts != [] {
      hide Late, Halted, DecidesNow;
      var init := acts[..|acts| - 1];
      var s, s', a := At(c, init), At(c, acts), acts[|acts| - 1];
      var ev := EventAt(c, s, a, i);
      OrderlyPrefix(c, acts);
      DecidedIsSubmitted(c, init, i, e, l);
      DecisionSubmits(c, acts, i, e, l);
      if ev == [] {
        StepElsewhere(c, s, a, i);
      } else {
        StepHere(c, s, a, i);
        SubmittedExactly(c, i, s.nodes[i], ev[0]);
      }
    }
  }

  /** Two nodes have decided every epoch for the same leader. */
  ghost predicate SameLeaders(c: N.Cfg, acts: seq<Sched>, i: int, j: int)
    requires c.n >= 1 && 0 <= i < c.n && 0 <= j < c.n
  {
    forall e, l, l' :: Decided(c, acts, i, e, l) && Decided(c, acts, j, e, l') ==> l == l'
  }

  /** What two nodes submit agrees if and only if the halts they acted on and their late commits
      decided each epoch for one leader; and then they emit the same blocks in the same order. It
      is so whenever the halts of each epoch are of rounds that elected one leader and every late
      commit passes the guard. */
  lemma {:induction false} SameOrderByLeaders(c: N.Cfg, acts: seq<Sched>, i: int, j: int)
    requires Silent(c) && Orderly(c, acts) && 0 <= i < c.n && 0 <= j < c.n
    ensures var bs, bs' := At(c, acts).nodes[i].submitted, At(c, acts).nodes[j].submitted;
            && (C.Agree(bs, bs') <==> SameLeaders(c, acts, i, j))
            && (SameLeaders(c, acts, i, j) ==>
                  C.After(bs).emitted <= C.After(bs').emitted || C.After(bs').emitted <= C.After(bs).emitted)
    ensures LeadersAgree(c, At(c, acts)) && LatesGuarded(c, acts) ==> SameLeaders(c, acts, i, j)
  {
    hide At, Decided, C.After;
    var bs, bs' := At(c, acts).nodes[i].submitted, At(c, acts).nodes[j].submitted;
    SameOrder(c, acts, i, j);
    SameLeadersExactly(c, acts, i, j);
    if LeadersAgree(c, At(c, acts)) && LatesGuarded(c, acts) {
      GuardedProposers(c, acts, i, j);
    }
  }

  lemma {:induction false} SameLeadersExactly(c: N.Cfg, acts: seq<Sched>, i: int, j: int)
    requires Silent(c) && Orderly(c, acts) && 0 <= i < c.n && 0 <= j < c.n
    ensures SameLeaders(c, acts, i, j) <==> SameProposers(At(c, acts).nodes[i].submitted, At(c, acts).nodes[j].submitted)
  {
    hide At, Decided;
    var bs, bs' := At(c, acts).nodes[i].submitted, At(c, acts).nodes[j].submitted;
    if SameLeaders(c, acts, i, j) {
      forall b, b' | b in bs && b' in bs' && b.epoch == b'.epoch ensures b.proposer == b'.proposer {
        DecidedIsSubmitted(c, acts, i, b.epoch, b.proposer);
        DecidedIsSubmitted(c, acts, j, b.epoch, b'.proposer);
      }
    }
    if SameProposers(bs, bs') {
      forall e, l, l' | Decided(c, acts, i, e, l) && Decided(c, acts, j, e, l') ensures l == l' {
        DecidedIsSubmitted(c, acts, i, e, l);
        DecidedIsSubmitted(c, acts, j, e, l');
      }
    }
  }

  lemma {:induction false} GuardedProposers(c: N.Cfg, acts: seq<Sched>, i: int, j: int)
    requires Silent(c) && Orderly(c, acts) && LeadersAgree(c, At(c, acts)) && LatesGuarded(c, acts)
    requires 0 <= i < c.n && 0 <= j < c.n
    ensures SameProposers(At(c, acts).nodes[i].submitted, At(c, acts).nodes[j].submitted)
  {
    var s := At(c, acts);
    var bs, bs' := s.nodes[i].submitted, s.nodes[j].submitted;
    forall b, b' | b in bs && b' in bs' && b.epoch == b'.epoch ensures b.proposer == b'.proposer {
      SubmittedByLeader(c, acts, i, b);
      SubmittedByLeader(c, acts, j, b');
      var h :| Said(c, s, h) && h.Halt? && h.epoch == b.epoch && b.proposer == N.Elected(c, SlotOf(h));
      var h' :| Said(c, s, h') && h'.Halt? && h'.epoch == b'.epoch && b'.proposer == N.Elected(c, SlotOf(h'));
    }
  }

  // ---------------------------------------------------------------- tools for single runs

  /** A run of one node, the last event apart. */
  lemma {:induction false} Extend(c: N.Cfg, me: int, evs: seq<N.Event>, ev: N.Event)
    requires c.n >= 1
    ensures L.After(c, me, evs + [ev]).nd == N.Step(c, me, L.After(c, me, evs).nd, ev).nd
    ensures L.HaltsFindBlocks(c, me, evs + [ev]) <==>
            L.HaltsFindBlocks(c, me, evs) && L.HaltFindsBlock(L.After(c, me, evs).nd, ev)
  {
    assert (evs + [ev])[..|evs|] == evs;
  }

  lemma {:induction false} FirstIsEmitted(b: Block)
    requires b.epoch == 0
    ensures C.After([b]).emitted == [b]
  {
    var st := C.INIT.(blocks := map[0 := b]);
    assert C.After([b]) == C.Committed(C.INIT, b) by {
      assert [b][..0] == [];
    }
    assert st.blocks - {0} == map[];
    assert C.Drain(st) == C.Drain(C.State(1, map[], [b]));
  }
}

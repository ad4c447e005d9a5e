/** Building runs: schedules in which every message comes with its payloads and no halt has been
    read yet, how they are extended, and what survives an extension. */
module Schedules {
  import opened Messages
  import Committee
  import Spb
  import N = Node
  import opened System
  import L = Local
  import opened Sent
  import opened Runs
  import opened Origins
  import D = Deliveries
  import opened Benign
  import opened Agreement

  const FINE := N.Oracle([], true, true, true)

  /** The payloads of the block that node i opens epoch e with. */
  function Load(i: int, e: nat): seq<nat> {
    if i < 0 then [] else [i + 4 * e]
  }

  /** Everything is there, and node i has payloads to propose. */
  function Own(i: int, e: nat): N.Oracle {
    N.Oracle(Load(i, e), true, true, true)
  }

  /** The payloads of a block are missing. */
  const MISSING := N.Oracle([], false, false, true)

  /** Node 2 may lack the payloads of the blocks of nodes 0 and 3 when it reads of them. */
  predicate MayLack(i: int, j: int) {
    i == 2 && (j == 0 || j == 3)
  }

  predicate Fine(a: Sched) {
    match a
    case Start(i, o) => o == Own(i, 0)
    case Deliver(i, j, o) => o == FINE || (o == MISSING && MayLack(i, j))
    case Run(_, _) => true
    case _ => false
  }

  ghost predicate Unheard(c: N.Cfg, s: State)
    requires Wf(c, s)
  {
    forall i, h: Msg :: 0 <= i < c.n && h.Halt? ==> !Heard(c, s, i, h)
  }

  /** A run in which nothing else is missing and no halt has been read. */
  ghost predicate Calm(c: N.Cfg, acts: seq<Sched>)
    requires c.n >= 1
  {
    Silent(c) && (forall a :: a in acts ==> Fine(a)) && Unheard(c, At(c, acts))
  }

  // --------------------------------------------------------------- calm runs are orderly

  lemma {:induction false} CalmInit(c: N.Cfg, acts: seq<Sched>)
    requires c.n >= 1 && acts != [] && Calm(c, acts)
    ensures Calm(c, acts[..|acts| - 1])
  {
    var init := acts[..|acts| - 1];
    forall i, h: Msg | 0 <= i < c.n && h.Halt? ensures !Heard(c, At(c, init), i, h) {
      if Heard(c, At(c, init), i, h) {
        HeardStays(c, At(c, init), acts[|acts| - 1], i, h);
      }
    }
  }

  /** Events of a calm run: no halt, no loopback, and blocks are stored and checked. */
  lemma {:induction false} CalmEvent(c: N.Cfg, acts: seq<Sched>, i: int)
    requires c.n >= 1 && acts != [] && Calm(c, acts) && 0 <= i < c.n
    ensures var ev := EventAt(c, At(c, acts[..|acts| - 1]), acts[|acts| - 1], i);
            && (ev != [] ==> !ev[0].Loop?)
            && (ev != [] && ev[0].Recv? ==>
                  !ev[0].m.Halt? && ev[0].o.writeOk && (ev[0].o.checkBlock || MayLack(i, ev[0].m.author)))
  {
    var s, a := At(c, acts[..|acts| - 1]), acts[|acts| - 1];
    var ev := EventAt(c, s, a, i);
    assert a in acts && Fine(a);
    if ev != [] && ev[0].Recv? {
      ReceivedIsHeard(c, s, a, i);
    }
  }

  predicate Fresh(nd: N.State) {
    nd.epoch == 0 && nd.halted == {} && nd.submitted == []
  }

  lemma {:induction false} FreshStep(c: N.Cfg, me: int, nd: N.State, ev: N.Event)
    requires c.n >= 1 && Fresh(nd) && !ev.Loop? && (ev.Recv? ==> !ev.m.Halt?)
    ensures Fresh(N.Step(c, me, nd, ev).nd)
  {
    if ev.Recv? && nd.started && N.IsRoundMsg(ev.m) {
      if ev.m.epoch >= nd.epoch {
        L.Touched(c, me, nd, ev, SlotOf(ev.m));
      }
    } else if ev.Run? {
      L.TaskSends(c, me, nd, ev.m);
    }
  }

  /** In a calm run every node is in epoch 0 and has submitted nothing. */
  lemma {:induction false} CalmNode(c: N.Cfg, acts: seq<Sched>, i: int)
    requires c.n >= 1 && Calm(c, acts) && 0 <= i < c.n
    ensures Fresh(At(c, acts).nodes[i])
  {
    if acts != [] {
      var init := acts[..|acts| - 1];
      var s, a := At(c, init), acts[|acts| - 1];
      CalmInit(c, acts);
      CalmNode(c, init, i);
      CalmEvent(c, acts, i);
      var ev := EventAt(c, s, a, i);
      if ev == [] {
        StepElsewhere(c, s, a, i);
      } else {
        StepHere(c, s, a, i);
        FreshStep(c, i, s.nodes[i], ev[0]);
      }
    }
  }

  lemma {:induction false} CalmFinds(c: N.Cfg, acts: seq<Sched>, i: int)
    requires c.n >= 1 && Calm(c, acts) && 0 <= i < c.n
    ensures L.HaltsFindBlocks(c, i, Events(c, acts, i))
  {
    if acts != [] {
      var init := acts[..|acts| - 1];
      CalmInit(c, acts);
      CalmFinds(c, init, i);
      CalmEvent(c, acts, i);
      var ev := EventAt(c, At(c, init), acts[|acts| - 1], i);
      if ev == [] {
        assert Events(c, acts, i) == Events(c, init, i);
      } else {
        assert Events(c, acts, i)[..|Events(c, acts, i)| - 1] == Events(c, init, i);
      }
    }
  }

  lemma {:induction false} CalmIsOrderly(c: N.Cfg, acts: seq<Sched>)
    requires c.n >= 1 && Calm(c, acts)
    ensures Orderly(c, acts)
  {
    forall i | 0 <= i < c.n ensures L.HaltsFindBlocks(c, i, Events(c, acts, i)) {
      CalmFinds(c, acts, i);
    }
  }

  // ---------------------------------------------------------------------- what survives

  lemma {:induction false} LogLater(c: N.Cfg, acts: seq<Sched>, acts': seq<Sched>, i: int, j: int)
    requires c.n >= 1 && acts <= acts' && 0 <= i < c.n && 0 <= j < c.n
    ensures At(c, acts).out[j] <= At(c, acts').out[j] && At(c, acts).cur[i][j] <= At(c, acts').cur[i][j]
    decreases |acts'|
  {
    if |acts| < |acts'| {
      LogLater(c, acts, acts'[..|acts'| - 1], i, j);
      LogsGrow(c, At(c, acts'[..|acts'| - 1]), acts'[|acts'| - 1], i, j);
    } else {
      assert acts == acts';
    }
  }

  lemma {:induction false} SaidLater(c: N.Cfg, acts: seq<Sched>, acts': seq<Sched>, m: Msg)
    requires c.n >= 1 && acts <= acts' && Said(c, At(c, acts), m)
    ensures Said(c, At(c, acts'), m)
  {
    LogLater(c, acts, acts', m.author, m.author);
  }

  lemma {:induction false} HeardLater(c: N.Cfg, acts: seq<Sched>, acts': seq<Sched>, i: int, m: Msg)
    requires c.n >= 1 && acts <= acts' && 0 <= i < c.n && Heard(c, At(c, acts), i, m)
    ensures Heard(c, At(c, acts'), i, m)
  {
    LogLater(c, acts, acts', i, m.author);
    var s, s' := At(c, acts), At(c, acts');
    var read, read' := s.out[m.author][..s.cur[i][m.author]], s'.out[m.author][..s'.cur[i][m.author]];
    assert read <= read';
  }

  predicate SpbGrows(s: Spb.State, s': Spb.State) {
    && (s.hash.Some? ==> s'.hash == s.hash)
    && (s.lock ==> s'.lock)
    && s.votes <= s'.votes
  }

  lemma {:induction false} SpbLater(c: N.Cfg, acts: seq<Sched>, acts': seq<Sched>, i: int, k: Inst)
    requires Silent(c) && acts <= acts' && 0 <= i < c.n
    ensures SpbGrows(N.SpbOf(At(c, acts).nodes[i], k), N.SpbOf(At(c, acts').nodes[i], k))
    decreases |acts'|
  {
    if |acts| < |acts'| {
      var init := acts'[..|acts'| - 1];
      var s, a := At(c, init), acts'[|acts'| - 1];
      SpbLater(c, acts, init, i, k);
      var ev := EventAt(c, s, a, i);
      if ev == [] {
        StepElsewhere(c, s, a, i);
      } else {
        StepHere(c, s, a, i);
        L.SpbKeeps(c, i, s.nodes[i], ev[0], k);
      }
    } else {
      assert acts == acts';
    }
  }

  lemma {:induction false} RoundLater(c: N.Cfg, acts: seq<Sched>, acts': seq<Sched>, i: int, sl: Slot)
    requires Silent(c) && acts <= acts' && 0 <= i < c.n
    ensures RoundGrows(N.RoundOf(At(c, acts).nodes[i], sl), N.RoundOf(At(c, acts').nodes[i], sl))
    decreases |acts'|
  {
    if |acts| < |acts'| {
      var init := acts'[..|acts'| - 1];
      RoundLater(c, acts, init, i, sl);
      RecordsGrow(c, At(c, init), acts'[|acts'| - 1], i, sl);
    } else {
      assert acts == acts';
    }
  }

  lemma {:induction false} LifeLater(c: N.Cfg, acts: seq<Sched>, acts': seq<Sched>, i: int)
    requires Silent(c) && acts <= acts' && 0 <= i < c.n
    ensures var nd, nd' := At(c, acts).nodes[i], At(c, acts').nodes[i];
            nd.store <= nd'.store && (nd.started ==> nd'.started)
    decreases |acts'|
  {
    if |acts| < |acts'| {
      var init := acts'[..|acts'| - 1];
      var s, a := At(c, init), acts'[|acts'| - 1];
      LifeLater(c, acts, init, i);
      var ev := EventAt(c, s, a, i);
      if ev == [] {
        StepElsewhere(c, s, a, i);
      } else {
        StepHere(c, s, a, i);
        LifeKeeps(c, i, s.nodes[i], ev[0]);
      }
    } else {
      assert acts == acts';
    }
  }

  // ------------------------------------------------------------------------ who acts

  /** acts' extends acts by actions of the nodes who. */
  predicate By(acts: seq<Sched>, acts': seq<Sched>, who: set<int>) {
    acts <= acts' && forall k :: |acts| <= k < |acts'| ==> acts'[k].i in who
  }

  lemma {:induction false} Still(c: N.Cfg, acts: seq<Sched>, acts': seq<Sched>, who: set<int>, j: int)
    requires c.n >= 1 && By(acts, acts', who) && 0 <= j < c.n && j !in who
    ensures var s, s' := At(c, acts), At(c, acts');
            s'.nodes[j] == s.nodes[j] && s'.out[j] == s.out[j] && s'.cur[j] == s.cur[j]
    decreases |acts'|
  {
    if |acts| < |acts'| {
      var init := acts'[..|acts'| - 1];
      forall k | |acts| <= k < |init| ensures init[k].i in who {
        assert init[k] == acts'[k];
      }
      Still(c, acts, init, who, j);
      assert acts'[|acts'| - 1].i in who;
    } else {
      assert acts == acts';
    }
  }

  /** Votes are run only in the instances of ones, for phase one, and of twos, for phase two. */
  ghost predicate Counting(acts: seq<Sched>, ones: set<Inst>, twos: set<Inst>) {
    forall a :: a in acts && a.Run? && a.m.SpbVote? ==>
      (a.m.phase == ONE_PHASE ==> InstOf(a.m) in ones) && (a.m.phase == TWO_PHASE ==> InstOf(a.m) in twos)
  }

  lemma {:induction false} CountingSame(acts: seq<Sched>, acts': seq<Sched>, ones: set<Inst>, twos: set<Inst>)
    requires Counting(acts, ones, twos) && forall a :: a in acts' && a.Run? ==> a in acts
    ensures Counting(acts', ones, twos)
  {
  }

  lemma {:induction false} CountingMore(acts: seq<Sched>, ones: set<Inst>, twos: set<Inst>, ones': set<Inst>, twos': set<Inst>)
    requires Counting(acts, ones, twos) && ones <= ones' && twos <= twos'
    ensures Counting(acts, ones', twos')
  {
  }

  // -------------------------------------------------------------------------- reading

  /** Node j has broadcast no halt. */
  ghost predicate Haltless(c: N.Cfg, s: State, j: int)
    requires Wf(c, s) && 0 <= j < c.n
  {
    forall x :: x in s.out[j] ==> !x.msg.Halt?
  }

  /** In s nobody has read anything that was sent after t. */
  ghost predicate Behind(c: N.Cfg, s: State, t: State)
    requires Wf(c, s) && Wf(c, t)
  {
    forall i, j :: 0 <= i < c.n && 0 <= j < c.n ==> s.cur[i][j] <= |t.out[j]|
  }

  lemma {:induction false} Append(c: N.Cfg, acts: seq<Sched>, a: Sched)
    requires c.n >= 1
    ensures At(c, acts + [a]) == Apply(c, At(c, acts), a)
  {
    assert (acts + [a])[..|acts|] == acts;
  }

  /** An action that makes nobody hear a halt keeps a run calm. */
  lemma {:induction false} CalmAppend(c: N.Cfg, acts: seq<Sched>, a: Sched)
    requires c.n >= 1 && Calm(c, acts) && Fine(a)
    requires a.Deliver? && Enabled(c, At(c, acts), a) ==>
               !At(c, acts).out[a.j][At(c, acts).cur[a.i][a.j]].msg.Halt?
    ensures Calm(c, acts + [a])
  {
    Append(c, acts, a);
    var s, s' := At(c, acts), At(c, acts + [a]);
    forall i, h: Msg | 0 <= i < c.n && h.Halt? ensures !Heard(c, s', i, h) {
      if Heard(c, s', i, h) {
        NewlyHeard(c, s, a, i, h);
      }
    }
  }

  /** Node i reads the log of node j, as ref has it, up to position k, meeting no halt. */
  lemma {:induction false} ReadTo(c: N.Cfg, ref: seq<Sched>, acts: seq<Sched>, i: int, j: int, k: nat) returns (acts': seq<Sched>)
    requires c.n >= 1 && ref <= acts && Calm(c, acts) && 0 <= i < c.n && 0 <= j < c.n && At(c, acts).nodes[i].started
    requires k < |At(c, ref).out[j]| && forall l :: 0 <= l <= k ==> !At(c, ref).out[j][l].msg.Halt?
    ensures Calm(c, acts') && By(acts, acts', {i}) && forall a :: a in acts' && a.Run? ==> a in acts
    ensures At(c, acts').cur[i][j] == if At(c, acts).cur[i][j] > k then At(c, acts).cur[i][j] else k + 1
    ensures forall j' :: 0 <= j' < c.n && j' != j ==> At(c, acts').cur[i][j'] == At(c, acts).cur[i][j']
    ensures Behind(c, At(c, acts), At(c, ref)) ==> Behind(c, At(c, acts'), At(c, ref))
    decreases k + 1 - At(c, acts).cur[i][j]
  {
    hide At, N.Step;
    var s := At(c, acts);
    LogLater(c, ref, acts, i, j);
    if s.cur[i][j] > k {
      acts' := acts;
    } else {
      var a := Deliver(i, j, FINE);
      assert s.out[j][s.cur[i][j]] == At(c, ref).out[j][s.cur[i][j]];
      CalmAppend(c, acts, a);
      Append(c, acts, a);
      LifeLater(c, acts, acts + [a], i);
      acts' := ReadTo(c, ref, acts + [a], i, j, k);
    }
  }

  /** Node i reads message m, which ref holds. */
  lemma {:induction false} Hear(c: N.Cfg, ref: seq<Sched>, acts: seq<Sched>, i: int, m: Msg) returns (acts': seq<Sched>)
    requires c.n >= 1 && ref <= acts && Calm(c, acts) && 0 <= i < c.n && 0 <= m.author < c.n && At(c, acts).nodes[i].started
    requires Haltless(c, At(c, ref), m.author)
    requires Env(NONE, m) in At(c, ref).out[m.author] || Env(i, m) in At(c, ref).out[m.author]
    ensures Calm(c, acts') && By(acts, acts', {i}) && forall a :: a in acts' && a.Run? ==> a in acts
    ensures Heard(c, At(c, acts'), i, m)
    ensures forall j :: 0 <= j < c.n && j != m.author ==> At(c, acts').cur[i][j] == At(c, acts).cur[i][j]
    ensures Behind(c, At(c, acts), At(c, ref)) ==> Behind(c, At(c, acts'), At(c, ref))
  {
    var j, out := m.author, At(c, ref).out[m.author];
    var x := if Env(NONE, m) in out then Env(NONE, m) else Env(i, m);
    var k :| 0 <= k < |out| && out[k] == x;
    acts' := ReadTo(c, ref, acts, i, j, k);
    LogLater(c, ref, acts', i, j);
    var s := At(c, acts');
    assert s.out[j][..s.cur[i][j]][k] == x;
  }

  // ------------------------------------------------------------------ nothing is lost

  predicate ForInstance(m: Msg) {
    m.SpbVote? || (m.Proposal? && (m.phase == TWO_PHASE || (m.phase == ONE_PHASE && m.b.proposer == m.author)))
  }

  predicate IsBlock(m: Msg) {
    m.Proposal? && m.phase == ONE_PHASE
  }

  /** What a message that was let in leaves behind in its instance: a hash, a vote or a count, or
      itself in a buffer. */
  predicate Taken(me: int, s: Spb.State, out: seq<Envelope>, m: Msg)
    requires ForInstance(m)
  {
    if m.SpbVote? then m in s.bufV || m in s.votes
    else if m.phase == ONE_PHASE then s.hash.Some?
    else m in s.bufP || Env(m.author, Spb.VoteTwo(me, InstOf(m))) in out
  }

  /** A message is taken, or still waits to run. */
  predicate Kept(me: int, nd: N.State, out: seq<Envelope>, m: Msg)
    requires ForInstance(m)
  {
    m in nd.tasks || Taken(me, N.SpbOf(nd, InstOf(m)), out, m)
  }

  lemma {:induction false} TakenRun(me: int, k: Inst, s: Spb.State, x: Msg, th: nat, out: seq<Envelope>, m: Msg)
    requires (x.Proposal? || x.SpbVote?) && InstOf(x) == k && ForInstance(m) && InstOf(m) == k
    requires Taken(me, s, out, m) || m == x
    ensures var r := Spb.OnMessage(me, k, s, x, th); Taken(me, r.st, out + r.sends, m) || m in r.spawn
  {
    var r := Spb.OnMessage(me, k, s, x, th);
    if x.Proposal? && x.phase == ONE_PHASE && s.hash.None? && k.p == x.b.proposer {
      assert r.spawn == s.bufP + s.bufV;
    }
  }

  lemma {:induction false} KeptStep(c: N.Cfg, me: int, nd: N.State, ev: N.Event, out: seq<Envelope>, m: Msg)
    requires c.n >= 1 && ForInstance(m) && Kept(me, nd, out, m)
    ensures var r := N.Step(c, me, nd, ev); Kept(me, r.nd, out + r.sends, m)
  {
    var k := InstOf(m);
    L.SpbStep(c, me, nd, ev, k);
    if IsTask(nd, ev) {
      KeptRun(c, me, nd, ev.m, out, m);
    } else if !ev.Run? {
      TasksStay(c, me, nd, ev);
    }
  }

  lemma {:induction false} TasksStay(c: N.Cfg, me: int, nd: N.State, ev: N.Event)
    requires c.n >= 1 && !ev.Run?
    ensures nd.tasks <= N.Step(c, me, nd, ev).nd.tasks
  {
    match ev
    case Recv(m, o) =>
      if nd.started {
        if N.IsRoundMsg(m) {
          RoundLeaves(c, me, nd, m, o);
        } else if m.Halt? {
          HaltLeavesRest(me, nd, m, o);
        } else if m.Proposal? {
          D.ProposalTasks(nd, m, o);
        }
      }
    case Loop(d, o) => D.LoopTasks(nd, d, o);
    case Start(o) =>
  }

  lemma {:induction false} KeptRun(c: N.Cfg, me: int, nd: N.State, x: Msg, out: seq<Envelope>, m: Msg)
    requires ForInstance(m) && Kept(me, nd, out, m) && x in nd.tasks && (x.Proposal? || x.SpbVote?)
    ensures var r := N.RunTask(c, me, nd, x); Kept(me, r.nd, out + r.sends, m)
  {
    var k, k' := InstOf(m), InstOf(x);
    var q := Spb.OnMessage(me, k', N.SpbOf(nd, k'), x, Committee.High(c.n));
    if m in nd.tasks && m != x {
      assert m in nd.tasks - multiset{x};
    } else if k == k' {
      TakenRun(me, k, N.SpbOf(nd, k), x, Committee.High(c.n), out, m);
      if m in q.spawn {
        assert m in multiset(q.spawn);
      }
    }
  }

  /** A message of the current epoch becomes a task when it is read, and a block is stored. */
  lemma {:induction false} LetInStays(c: N.Cfg, me: int, nd: N.State, m: Msg, o: N.Oracle)
    requires c.n >= 1 && ForInstance(m) && nd.started && m.epoch >= nd.epoch && o.writeOk
    ensures var nd' := N.Step(c, me, nd, N.Recv(m, o)).nd;
            (o.checkBlock || !IsBlock(m) ==> m in nd'.tasks) && (IsBlock(m) ==> m.b in nd'.store)
  {
  }

  /** What a node has read for the current epoch is taken or waits, unless it is a block without
      payloads, and its block is stored. */
  lemma {:induction false} HeardKept(c: N.Cfg, acts: seq<Sched>, i: int, m: Msg)
    requires c.n >= 1 && Calm(c, acts) && 0 <= i < c.n && ForInstance(m) && m.epoch == 0 && Heard(c, At(c, acts), i, m)
    ensures var s := At(c, acts);
            && (Kept(i, s.nodes[i], s.out[i], m) || (IsBlock(m) && MayLack(i, m.author)))
            && (IsBlock(m) ==> m.b in s.nodes[i].store)
  {
    if acts != [] {
      var init := acts[..|acts| - 1];
      var s, a := At(c, init), acts[|acts| - 1];
      var ev := EventAt(c, s, a, i);
      CalmInit(c, acts);
      CalmNode(c, init, i);
      if Heard(c, s, i, m) {
        HeardKept(c, init, i, m);
        if ev == [] {
          StepElsewhere(c, s, a, i);
        } else {
          StepHere(c, s, a, i);
          if Kept(i, s.nodes[i], s.out[i], m) {
            KeptStep(c, i, s.nodes[i], ev[0], s.out[i], m);
          }
          LifeKeeps(c, i, s.nodes[i], ev[0]);
        }
      } else {
        NewlyHeard(c, s, a, i, m);
        CalmEvent(c, acts, i);
        StepHere(c, s, a, i);
        LetInStays(c, i, s.nodes[i], m, ev[0].o);
      }
    }
  }

  /** Node i reads messages that ref holds. */
  lemma {:induction false} HearAll(c: N.Cfg, ref: seq<Sched>, acts: seq<Sched>, i: int, ms: seq<Msg>) returns (acts': seq<Sched>)
    requires c.n >= 1 && ref <= acts && Calm(c, acts) && 0 <= i < c.n && At(c, acts).nodes[i].started
    requires forall m :: m in ms ==> Said(c, At(c, ref), m) && Haltless(c, At(c, ref), m.author)
    ensures Calm(c, acts') && By(acts, acts', {i}) && forall a :: a in acts' && a.Run? ==> a in acts
    ensures forall m :: m in ms ==> Heard(c, At(c, acts'), i, m)
    ensures forall j :: 0 <= j < c.n && (forall m :: m in ms ==> m.author != j) ==> At(c, acts').cur[i][j] == At(c, acts).cur[i][j]
    ensures Behind(c, At(c, acts), At(c, ref)) ==> Behind(c, At(c, acts'), At(c, ref))
  {
    hide At;
    if ms == [] {
      acts' := acts;
    } else {
      var m := ms[|ms| - 1];
      var before := HearAll(c, ref, acts, i, ms[..|ms| - 1]);
      LifeLater(c, acts, before, i);
      acts' := Hear(c, ref, before, i, m);
      forall x | x in ms ensures Heard(c, At(c, acts'), i, x) {
        if x != m {
          HeardLater(c, before, acts', i, x);
        }
      }
      forall k | |acts| <= k < |acts'| ensures acts'[k].i in {i} {
        if k < |before| {
          assert acts'[k] == before[k];
        }
      }
    }
  }
}

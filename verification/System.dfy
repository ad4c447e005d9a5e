/** The whole committee: nodes, one append-only log of sent messages per node, and
    for each receiver how far it has read each log. Reading a log in order is a
    FIFO link that delivers every message at most once. */
module System {
  import opened Messages
  import N = Node

  datatype State = State(nodes: seq<N.State>, out: seq<seq<Envelope>>, cur: seq<seq<nat>>)

  /** One scheduling decision. Deliver(i, j, o) hands node i the next message of node j;
      Forge lets a Byzantine node append anything to its own log. */
  datatype Sched =
    | Start(i: int, o: N.Oracle)
    | Deliver(i: int, j: int, o: N.Oracle)
    | Run(i: int, m: Msg)
    | Loop(i: int, d: Digest, o: N.Oracle)
    | Forge(i: int, x: Envelope)

  ghost predicate Wf(c: N.Cfg, s: State) {
    && |s.nodes| == |s.out| == |s.cur| == c.n
    && (forall i :: 0 <= i < c.n ==> |s.cur[i]| == c.n)
    && (forall i, j :: 0 <= i < c.n && 0 <= j < c.n ==> s.cur[i][j] <= |s.out[j]|)
  }

  ghost function Init(c: N.Cfg): (s: State)
    ensures Wf(c, s)
  {
    State(seq(c.n, i => N.INIT), seq(c.n, i => []), seq(c.n, i => seq(c.n, j => 0)))
  }

  /** A message is accepted by i from link j when it is addressed to i and signed by j. */
  predicate Accepts(i: int, j: int, x: Envelope) {
    (x.to == NONE || x.to == i) && x.msg.author == j
  }

  ghost predicate Enabled(c: N.Cfg, s: State, a: Sched)
    requires Wf(c, s)
  {
    && 0 <= a.i < c.n
    && (a.Forge? <==> a.i in c.byz)
    && (a.Deliver? ==> 0 <= a.j < c.n && s.nodes[a.i].started && s.cur[a.i][a.j] < |s.out[a.j]|)
  }

  /** The event an enabled action is for its node. */
  ghost function EventOf(c: N.Cfg, s: State, a: Sched): Option<N.Event>
    requires Wf(c, s) && Enabled(c, s, a)
  {
    match a
    case Start(i, o) => Some(N.Start(o))
    case Deliver(i, j, o) =>
      var x := s.out[j][s.cur[i][j]];
      if Accepts(i, j, x) then Some(N.Recv(x.msg, o)) else None
    case Run(i, m) => Some(N.Run(m))
    case Loop(i, d, o) => Some(N.Loop(d, o))
    case Forge(i, x) => None
  }

  ghost function StepOut(c: N.Cfg, s: State, a: Sched): N.Out
    requires c.n >= 1 && Wf(c, s) && Enabled(c, s, a)
  {
    match EventOf(c, s, a)
    case Some(ev) => N.Step(c, a.i, s.nodes[a.i], ev)
    case None => N.Out(s.nodes[a.i], if a.Forge? then [a.x] else [])
  }

  /** The effect of an action; one that is not enabled changes nothing, so that every
      sequence of actions is a run. */
  ghost function Apply(c: N.Cfg, s: State, a: Sched): (s': State)
    requires c.n >= 1 && Wf(c, s)
    ensures Wf(c, s')
  {
    if !Enabled(c, s, a) then s
    else
      var r := StepOut(c, s, a);
      State(s.nodes[a.i := r.nd],
            s.out[a.i := s.out[a.i] + r.sends],
            if a.Deliver? then s.cur[a.i := s.cur[a.i][a.j := s.cur[a.i][a.j] + 1]] else s.cur)
  }

  /** The state after a run. */
  ghost function At(c: N.Cfg, acts: seq<Sched>): (s: State)
    requires c.n >= 1
    ensures Wf(c, s)
  {
    if acts == [] then Init(c) else Apply(c, At(c, acts[..|acts| - 1]), acts[|acts| - 1])
  }

  predicate Correct(c: N.Cfg, i: int) {
    0 <= i < c.n && i !in c.byz
  }
}

/** One node's consensus core: its state and what each handler does to it. */
module Node {
  import opened Messages
  import opened Committee
  import opened Votes
  import Spb

  /** n is the committee size; coin is the combined threshold signature of a slot;
      byz are the nodes that may send anything in their own name. */
  datatype Cfg = Cfg(n: nat, coin: Slot -> Coin, byz: set<int>)

  /** The number elected by a combined signature: its first three bytes, big-endian. */
  function Rand(coin: Coin): (x: int)
    ensures 0 <= x < 16777216
  {
    (coin.b0 * 256 + coin.b1) * 256 + coin.b2
  }

  function Elected(c: Cfg, sl: Slot): (l: int)
    requires c.n >= 1
    ensures 0 <= l < c.n
  {
    Rand(c.coin(sl)) % c.n
  }

  /** What a core has recorded about one (epoch, round): the finishes by author, the
      authors of the dones and coin shares, the accepted prevotes and final votes in
      order, the two flags, and the leader. */
  datatype Round = Round(
    finish: map<int, Digest>,
    done: set<int>,
    shares: set<int>,
    pre: seq<Msg>,
    fin: seq<Msg>,
    doneFlag: bool,
    ready: bool,
    leader: int)

  const FRESH := Round(map[], {}, {}, [], [], false, false, NONE)

  /** The state of a core. `tasks` are the goroutines started and not yet run;
      `submitted` are the blocks handed to the committor, in order. */
  datatype State = State(
    started: bool,
    epoch: int,
    halted: set<int>,
    store: set<Block>,
    submitted: seq<Block>,
    tasks: multiset<Msg>,
    spb: map<Inst, Spb.State>,
    rounds: map<Slot, Round>)

  const INIT := State(false, 0, {}, {}, [], multiset{}, map[], map[])

  function SpbOf(nd: State, k: Inst): Spb.State {
    if k in nd.spb then nd.spb[k] else Spb.FRESH
  }

  function RoundOf(nd: State, sl: Slot): Round {
    if sl in nd.rounds then nd.rounds[sl] else FRESH
  }

  /** What the environment answers during a step: the payloads a new block gets, the
      results of the payload checks, and whether the block could be written. */
  datatype Oracle = Oracle(payloads: seq<nat>, checkCommit: bool, checkBlock: bool, writeOk: bool)

  datatype Event =
    | Start(o: Oracle)
    | Recv(m: Msg, o: Oracle)
    | Run(m: Msg)
    | Loop(d: Digest, o: Oracle)

  datatype Out = Out(nd: State, sends: seq<Envelope>)

  /** What a message does to the record of its own slot. */
  datatype RoundOut = RoundOut(rd: Round, sends: seq<Envelope>)

  // ------------------------------------------------ handlers that touch one slot

  function InvokeDone(me: int, sl: Slot, rd: Round): RoundOut {
    if rd.doneFlag then RoundOut(rd, [])
    else RoundOut(rd.(doneFlag := true),
                  [Env(NONE, Done(me, sl.e, sl.r)), Env(NONE, ElectShare(me, sl.e, sl.r))])
  }

  function OnFinish(c: Cfg, me: int, rd: Round, m: Msg): RoundOut
    requires m.Finish?
  {
    if m.author in rd.finish then RoundOut(rd, [])
    else
      var rd' := rd.(finish := rd.finish[m.author := m.hash]);
      if |rd'.finish| == High(c.n) then InvokeDone(me, SlotOf(m), rd') else RoundOut(rd', [])
  }

  /** The message processLeader sends. A locked instance without a block hash makes the
      code panic; it is given no message here and shown not to occur. */
  function ProcessLeader(me: int, nd: State, sl: Slot, rd: Round): seq<Envelope> {
    if !rd.ready || rd.leader == NONE then []
    else if rd.leader in rd.finish then
      [Env(NONE, Halt(me, sl.e, sl.r, rd.leader, rd.finish[rd.leader]))]
    else
      var s := SpbOf(nd, Inst(sl.e, sl.r, rd.leader));
      if !s.lock then [Env(NONE, Prevote(me, rd.leader, sl.e, sl.r, VOTE_NO, Zero))]
      else if s.hash.Some? then [Env(NONE, Prevote(me, rd.leader, sl.e, sl.r, VOTE_YES, s.hash.value))]
      else []
  }

  function OnDone(c: Cfg, me: int, nd: State, rd: Round, m: Msg): RoundOut
    requires m.Done?
  {
    if m.author in rd.done then RoundOut(rd, [])
    else
      var rd' := rd.(done := rd.done + {m.author});
      if |rd'.done| == Low(c.n) then InvokeDone(me, SlotOf(m), rd')
      else if |rd'.done| == High(c.n) then
        var rd'' := rd'.(ready := true);
        RoundOut(rd'', ProcessLeader(me, nd, SlotOf(m), rd''))
      else RoundOut(rd', [])
  }

  function OnShare(c: Cfg, me: int, nd: State, rd: Round, m: Msg): RoundOut
    requires m.ElectShare? && c.n >= 1
  {
    if m.author in rd.shares then RoundOut(rd, [])
    else
      var rd' := rd.(shares := rd.shares + {m.author});
      if |rd'.shares| == High(c.n) then
        var rd'' := rd'.(leader := Elected(c, SlotOf(m)));
        RoundOut(rd'', ProcessLeader(me, nd, SlotOf(m), rd''))
      else RoundOut(rd', [])
  }

  /** The final vote cast on an action; its leader field is never filled in. */
  function CastFinVote(me: int, pv: Msg, flag: int): Msg
    requires pv.Prevote?
  {
    FinVote(me, 0, pv.epoch, pv.round, flag, pv.hash)
  }

  function OnPrevote(c: Cfg, me: int, rd: Round, pv: Msg): RoundOut
    requires pv.Prevote?
  {
    if pv.author in Authors(rd.pre) then RoundOut(rd, [])
    else
      var rd' := rd.(pre := rd.pre + [pv]);
      match PreAction(rd.pre, pv, High(c.n))
      case ActionNo => RoundOut(rd', [Env(NONE, CastFinVote(me, pv, VOTE_NO))])
      case ActionYes => RoundOut(rd', [Env(NONE, CastFinVote(me, pv, VOTE_YES))])
      case _ => RoundOut(rd', [])
  }

  /** Reading a block back fails for a digest never stored, the zero digest among them. */
  function GetBlock(nd: State, d: Digest): Option<Block> {
    if d.HashOf? && d.block in nd.store then Some(d.block) else None
  }

  /** The proposal for the next round: the voted block, or after a no the node's own. */
  function NextRound(me: int, nd: State, sl: Slot, action: Action, voted: Digest): seq<Envelope> {
    var own := SpbOf(nd, Inst(sl.e, sl.r, me)).hash;
    var d := if action.ActionNo? && own.Some? then own.value else voted;
    match GetBlock(nd, d)
    case Some(b) => [Env(NONE, Proposal(me, b, sl.e, sl.r + 1, ONE_PHASE))]
    case None => []
  }

  function OnFinVote(c: Cfg, me: int, nd: State, rd: Round, fv: Msg): RoundOut
    requires fv.FinVote?
  {
    if fv.author in Authors(rd.fin) then RoundOut(rd, [])
    else
      var rd' := rd.(fin := rd.fin + [fv]);
      match FinAction(rd.fin, fv, High(c.n))
      case ActionYes => RoundOut(rd', NextRound(me, nd, SlotOf(fv), ActionYes, fv.hash))
      case ActionNo => RoundOut(rd', NextRound(me, nd, SlotOf(fv), ActionNo, Zero))
      case ActionCommit => RoundOut(rd', [Env(NONE, Halt(me, fv.epoch, fv.round, fv.leader, fv.hash))])
      case ActionNone => RoundOut(rd', [])
  }

  predicate IsRoundMsg(m: Msg) {
    m.Finish? || m.Done? || m.ElectShare? || m.Prevote? || m.FinVote?
  }

  function OnRound(c: Cfg, me: int, nd: State, rd: Round, m: Msg): RoundOut
    requires c.n >= 1 && IsRoundMsg(m)
  {
    match m
    case Finish(_, _, _, _) => OnFinish(c, me, rd, m)
    case Done(_, _, _) => OnDone(c, me, nd, rd, m)
    case ElectShare(_, _, _) => OnShare(c, me, nd, rd, m)
    case Prevote(_, _, _, _, _, _) => OnPrevote(c, me, rd, m)
    case FinVote(_, _, _, _, _, _) => OnFinVote(c, me, nd, rd, m)
  }

  // ------------------------------------------------------------- other handlers

  /** A one-phase proposal for a halted epoch is committed when its author led the round. */
  function CommitLate(nd: State, p: Msg, ok: bool): State
    requires p.Proposal?
  {
    if p.phase == ONE_PHASE && p.epoch in nd.halted && RoundOf(nd, SlotOf(p)).leader == p.author && ok
    then nd.(submitted := nd.submitted + [p.b]) else nd
  }

  function OnProposal(nd: State, p: Msg, o: Oracle): State
    requires p.Proposal?
  {
    var nd := CommitLate(nd, p, o.checkCommit);
    if p.epoch < nd.epoch then nd
    else if p.phase == ONE_PHASE then
      if !o.writeOk then nd
      else
        var nd := nd.(store := nd.store + {p.b});
        if o.checkBlock then nd.(tasks := nd.tasks + multiset{p}) else nd
    else nd.(tasks := nd.tasks + multiset{p})
  }

  function OnVote(nd: State, v: Msg): State {
    if v.epoch < nd.epoch then nd else nd.(tasks := nd.tasks + multiset{v})
  }

  function NextEpoch(me: int, nd: State, e: int, o: Oracle): Out {
    if e <= nd.epoch then Out(nd, [])
    else Out(nd.(epoch := e), [Env(NONE, Proposal(me, Block(me, o.payloads, e), e, 0, ONE_PHASE))])
  }

  /** The leader is recorded before the block is looked up: a halt whose block is missing
      changes the leader of the slot and leaves the node in the epoch. */
  function OnHalt(me: int, nd: State, h: Msg, o: Oracle): Out
    requires h.Halt?
  {
    if h.epoch < nd.epoch || h.epoch in nd.halted then Out(nd, [])
    else
      var sl := SlotOf(h);
      var nd' := nd.(rounds := nd.rounds[sl := RoundOf(nd, sl).(leader := h.leader)]);
      match GetBlock(nd', h.hash)
      case None => Out(nd', [])
      case Some(b) =>
        var nd'' := nd'.(submitted := if o.checkCommit then nd'.submitted + [b] else nd'.submitted,
                         halted := nd'.halted + {h.epoch});
        NextEpoch(me, nd'', h.epoch + 1, o)
  }

  /** A block whose payloads have arrived re-enters the instance of its own proposer, in round 0. */
  function Replayed(b: Block): Msg {
    Proposal(b.proposer, b, b.epoch, 0, ONE_PHASE)
  }

  function OnLoopBack(nd: State, d: Digest, o: Oracle): State {
    match GetBlock(nd, d)
    case None => nd
    case Some(b) =>
      var nd' := CommitLate(nd, Replayed(b), o.checkCommit);
      if b.epoch < nd'.epoch then nd' else nd'.(tasks := nd'.tasks + multiset{Replayed(b)})
  }

  /** Runs one waiting goroutine to its end. */
  function RunTask(c: Cfg, me: int, nd: State, m: Msg): Out {
    if m !in nd.tasks || !(m.Proposal? || m.SpbVote?) then Out(nd, [])
    else
      var k := InstOf(m);
      var r := Spb.OnMessage(me, k, SpbOf(nd, k), m, High(c.n));
      Out(nd.(spb := nd.spb[k := r.st], tasks := nd.tasks - multiset{m} + multiset(r.spawn)), r.sends)
  }

  function OnMessage(c: Cfg, me: int, nd: State, m: Msg, o: Oracle): Out
    requires c.n >= 1
  {
    if IsRoundMsg(m) then
      if m.epoch < nd.epoch then Out(nd, [])
      else
        var r := OnRound(c, me, nd, RoundOf(nd, SlotOf(m)), m);
        Out(nd.(rounds := nd.rounds[SlotOf(m) := r.rd]), r.sends)
    else if m.Proposal? then Out(OnProposal(nd, m, o), [])
    else if m.SpbVote? then Out(OnVote(nd, m), [])
    else OnHalt(me, nd, m, o)
  }

  function OnStart(me: int, nd: State, o: Oracle): Out {
    if nd.started then Out(nd, [])
    else Out(nd.(started := true),
             [Env(NONE, Proposal(me, Block(me, o.payloads, nd.epoch), nd.epoch, 0, ONE_PHASE))])
  }

  /** One event at a node. A node that has not started does nothing else. */
  function Step(c: Cfg, me: int, nd: State, ev: Event): Out
    requires c.n >= 1
  {
    match ev
    case Start(o) => OnStart(me, nd, o)
    case Recv(m, o) => if nd.started then OnMessage(c, me, nd, m, o) else Out(nd, [])
    case Run(m) => RunTask(c, me, nd, m)
    case Loop(d, o) => if nd.started then Out(OnLoopBack(nd, d, o), []) else Out(nd, [])
  }
}

/** The consensus core as the object it is: flag maps updated in place by the handlers, and the
    aggregators, the elector and the SPB instances as objects of their own. Every turn is proved to
    be the step of Node that the whole-run theorems are about. */
module Core {
  import opened Messages
  import opened Committee
  import opened Votes
  import opened Aggregators
  import L = Local
  import N = Node
  import Spb

  // --------------------------------------------------- the parts of the records of slots

  /** Everything a core keeps slot by slot, as the maps it is kept in. */
  datatype Parts = Parts(
    finish: map<Slot, map<int, Digest>>,
    done: map<Slot, set<int>>,
    shares: map<Slot, set<int>>,
    pre: map<Slot, seq<Msg>>,
    fin: map<Slot, seq<Msg>>,
    doneFlags: set<Slot>,
    readyFlags: set<Slot>,
    leaders: map<Slot, int>)

  const NOTHING := Parts(map[], map[], map[], map[], map[], {}, {}, map[])

  function FinishAt(finish: map<Slot, map<int, Digest>>, sl: Slot): map<int, Digest> {
    if sl in finish then finish[sl] else map[]
  }

  /** What the parts say about a slot, put together. */
  function RoundAt(p: Parts, sl: Slot): N.Round {
    N.Round(FinishAt(p.finish, sl), SetAt(p.done, sl), SetAt(p.shares, sl), SeqAt(p.pre, sl), SeqAt(p.fin, sl),
            sl in p.doneFlags, sl in p.readyFlags, if sl in p.leaders then p.leaders[sl] else NONE)
  }

  /** The record of a slot in a map of records. */
  function Recorded(rounds: map<Slot, N.Round>, sl: Slot): N.Round {
    N.RoundOf(N.INIT.(rounds := rounds), sl)
  }

  ghost predicate Match(p: Parts, rounds: map<Slot, N.Round>) {
    forall sl :: RoundAt(p, sl) == Recorded(rounds, sl)
  }

  lemma NothingMatches()
    ensures Match(NOTHING, map[]) && KeysMatch(map[], map[])
  {
  }

  /** The parts agree on all slots but one. */
  ghost predicate Elsewhere(p: Parts, p': Parts, sl: Slot) {
    forall sl' :: sl' != sl ==> RoundAt(p', sl') == RoundAt(p, sl')
  }

  /** p' is p with the record of one slot replaced. */
  ghost predicate Becomes(p: Parts, p': Parts, sl: Slot, rd: N.Round) {
    RoundAt(p', sl) == rd && Elsewhere(p, p', sl)
  }

  lemma BecomesTwice(p: Parts, p': Parts, p'': Parts, sl: Slot, rd: N.Round, rd': N.Round)
    requires Becomes(p, p', sl, rd) && Becomes(p', p'', sl, rd')
    ensures Becomes(p, p'', sl, rd')
  {
    forall sl' | sl' != sl ensures RoundAt(p'', sl') == RoundAt(p, sl') {
      assert RoundAt(p', sl') == RoundAt(p, sl');
    }
  }

  lemma MatchUpdate(p: Parts, p': Parts, rounds: map<Slot, N.Round>, sl: Slot, rd: N.Round)
    requires Match(p, rounds) && Becomes(p, p', sl, rd)
    ensures Match(p', rounds[sl := rd])
  {
    forall sl' ensures RoundAt(p', sl') == Recorded(rounds[sl := rd], sl') {
      assert RoundAt(p, sl') == Recorded(rounds, sl');
    }
  }

  lemma BecomesFinish(p: Parts, sl: Slot, x: map<int, Digest>)
    ensures Becomes(p, p.(finish := p.finish[sl := x]), sl, RoundAt(p, sl).(finish := x))
  {
  }

  lemma BecomesDone(p: Parts, sl: Slot, x: set<int>)
    ensures Becomes(p, p.(done := p.done[sl := x]), sl, RoundAt(p, sl).(done := x))
  {
  }

  lemma BecomesShares(p: Parts, sl: Slot, x: set<int>)
    ensures Becomes(p, p.(shares := p.shares[sl := x]), sl, RoundAt(p, sl).(shares := x))
  {
  }

  lemma BecomesPre(p: Parts, sl: Slot, x: seq<Msg>)
    ensures Becomes(p, p.(pre := p.pre[sl := x]), sl, RoundAt(p, sl).(pre := x))
  {
  }

  lemma BecomesFin(p: Parts, sl: Slot, x: seq<Msg>)
    ensures Becomes(p, p.(fin := p.fin[sl := x]), sl, RoundAt(p, sl).(fin := x))
  {
  }

  lemma BecomesLeader(p: Parts, sl: Slot, x: int)
    ensures Becomes(p, p.(leaders := p.leaders[sl := x]), sl, RoundAt(p, sl).(leader := x))
  {
  }

  lemma BecomesDoneFlag(p: Parts, sl: Slot)
    ensures Becomes(p, p.(doneFlags := p.doneFlags + {sl}), sl, RoundAt(p, sl).(doneFlag := true))
  {
  }

  lemma BecomesReady(p: Parts, sl: Slot)
    ensures Becomes(p, p.(readyFlags := p.readyFlags + {sl}), sl, RoundAt(p, sl).(ready := true))
  {
  }

  /** The finish aggregators have counted the authors of the recorded finishes. */
  ghost predicate KeysMatch(view: map<Slot, set<int>>, finish: map<Slot, map<int, Digest>>) {
    forall sl :: SetAt(view, sl) == FinishAt(finish, sl).Keys
  }

  lemma KeysUpdate(view: map<Slot, set<int>>, finish: map<Slot, map<int, Digest>>, sl: Slot, a: int, d: Digest)
    requires KeysMatch(view, finish)
    ensures a in FinishAt(finish, sl) ==> KeysMatch(view[sl := SetAt(view, sl) + {a}], finish)
    ensures KeysMatch(view[sl := SetAt(view, sl) + {a}], finish[sl := FinishAt(finish, sl)[a := d]])
    ensures a in SetAt(view, sl) <==> a in FinishAt(finish, sl)
    ensures |SetAt(view, sl)| == |FinishAt(finish, sl)|
  {
    assert SetAt(view, sl) == FinishAt(finish, sl).Keys;
    var view', finish' := view[sl := SetAt(view, sl) + {a}], finish[sl := FinishAt(finish, sl)[a := d]];
    forall sl' ensures SetAt(view', sl') == FinishAt(finish', sl').Keys {
      assert SetAt(view, sl') == FinishAt(finish, sl').Keys;
    }
    if a in FinishAt(finish, sl) {
      forall sl' ensures SetAt(view', sl') == FinishAt(finish, sl').Keys {
        assert SetAt(view, sl') == FinishAt(finish, sl').Keys;
      }
    }
  }

  /** A finish as the parts see it: its block is recorded, and the 2f+1st invokes Done. */
  lemma FinishEffect(c: N.Cfg, me: int, p: Parts, m: Msg)
    requires m.Finish?
    ensures var sl, f := SlotOf(m), FinishAt(p.finish, SlotOf(m));
            var p' := p.(finish := p.finish[sl := f[m.author := m.hash]]);
            var r := N.OnFinish(c, me, RoundAt(p, sl), m);
            if m.author in f then r == N.RoundOut(RoundAt(p, sl), [])
            else Becomes(p, p', sl, RoundAt(p', sl)) &&
                 r == if |f| + 1 == High(c.n) then N.InvokeDone(me, sl, RoundAt(p', sl)) else N.RoundOut(RoundAt(p', sl), [])
  {
    BecomesFinish(p, SlotOf(m), FinishAt(p.finish, SlotOf(m))[m.author := m.hash]);
  }

  /** What a core does on the answer of the done aggregator: low invokes Done, high makes the slot
      ready and processes the leader. */
  ghost function DoneReaction(me: int, nd: N.State, sl: Slot, rd: N.Round, r: Reply<DoneFlag>): N.RoundOut {
    if r == Answer(DoneLow) then N.InvokeDone(me, sl, rd)
    else if r == Answer(DoneHigh) then N.RoundOut(rd.(ready := true), N.ProcessLeader(me, nd, sl, rd.(ready := true)))
    else N.RoundOut(rd, [])
  }

  /** A done, given the answer to it. */
  lemma DoneEffect(c: N.Cfg, me: int, nd: N.State, p: Parts, m: Msg, r: Reply<DoneFlag>)
    requires m.Done?
    requires var d := SetAt(p.done, SlotOf(m));
             && (r.OneMore? <==> m.author in d)
             && (r.Answer? ==> r.value == DoneLevel(c.n, |d| + 1))
    ensures var sl, d := SlotOf(m), SetAt(p.done, SlotOf(m));
            var p' := p.(done := p.done[sl := d + {m.author}]);
            && Becomes(p, p', sl, RoundAt(p', sl))
            && N.OnDone(c, me, nd, RoundAt(p, sl), m) == DoneReaction(me, nd, sl, RoundAt(p', sl), r)
  {
    var sl, d := SlotOf(m), SetAt(p.done, SlotOf(m));
    BecomesDone(p, sl, d + {m.author});
    if m.author in d {
      assert d + {m.author} == d;
    }
  }

  /** A share: the 2f+1st elects the leader, which is processed. */
  lemma ShareEffect(c: N.Cfg, me: int, nd: N.State, p: Parts, m: Msg)
    requires m.ElectShare? && c.n >= 1
    ensures var sl, d := SlotOf(m), SetAt(p.shares, SlotOf(m));
            var p' := p.(shares := p.shares[sl := d + {m.author}]);
            var p'' := p'.(leaders := p.leaders[sl := N.Elected(c, sl)]);
            var r := N.OnShare(c, me, nd, RoundAt(p, sl), m);
            && Becomes(p, p', sl, RoundAt(p', sl)) && Becomes(p, p'', sl, RoundAt(p'', sl))
            && r == if m.author !in d && |d| + 1 == High(c.n) then N.RoundOut(RoundAt(p'', sl), N.ProcessLeader(me, nd, sl, RoundAt(p'', sl)))
                    else N.RoundOut(RoundAt(p', sl), [])
  {
    var sl, d := SlotOf(m), SetAt(p.shares, SlotOf(m));
    var p' := p.(shares := p.shares[sl := d + {m.author}]);
    BecomesShares(p, sl, d + {m.author});
    BecomesLeader(p', sl, N.Elected(c, sl));
    BecomesTwice(p, p', p'.(leaders := p.leaders[sl := N.Elected(c, sl)]), sl, RoundAt(p', sl), RoundAt(p', sl).(leader := N.Elected(c, sl)));
    if m.author in d {
      assert d + {m.author} == d;
    }
  }

  /** A prevote: accepted, with the final vote its action calls for. */
  lemma PrevoteEffect(c: N.Cfg, me: int, p: Parts, pv: Msg, flag: Action)
    requires pv.Prevote? && flag == PreAction(SeqAt(p.pre, SlotOf(pv)), pv, High(c.n))
    ensures var sl, acc := SlotOf(pv), SeqAt(p.pre, SlotOf(pv));
            var p' := p.(pre := p.pre[sl := if pv.author in Authors(acc) then acc else acc + [pv]]);
            var r := N.OnPrevote(c, me, RoundAt(p, sl), pv);
            && Becomes(p, p', sl, r.rd)
            && r.sends == if pv.author in Authors(acc) then []
                          else if flag == ActionNo then [Env(NONE, N.CastFinVote(me, pv, VOTE_NO))]
                          else if flag == ActionYes then [Env(NONE, N.CastFinVote(me, pv, VOTE_YES))]
                          else []
  {
    var acc := SeqAt(p.pre, SlotOf(pv));
    BecomesPre(p, SlotOf(pv), if pv.author in Authors(acc) then acc else acc + [pv]);
  }

  /** What a core sends when a final vote triggers an action. */
  ghost function Reaction(me: int, nd: N.State, fv: Msg, flag: Action): seq<Envelope>
    requires fv.FinVote?
  {
    match flag
    case ActionYes => N.NextRound(me, nd, SlotOf(fv), ActionYes, fv.hash)
    case ActionNo => N.NextRound(me, nd, SlotOf(fv), ActionNo, Zero)
    case ActionCommit => [Env(NONE, Halt(me, fv.epoch, fv.round, fv.leader, fv.hash))]
    case ActionNone => []
  }

  /** A final vote: accepted, with the reaction to its action. */
  lemma FinVoteEffect(c: N.Cfg, me: int, nd: N.State, p: Parts, fv: Msg, flag: Action)
    requires fv.FinVote? && flag == FinAction(SeqAt(p.fin, SlotOf(fv)), fv, High(c.n))
    ensures var sl, acc := SlotOf(fv), SeqAt(p.fin, SlotOf(fv));
            var p' := p.(fin := p.fin[sl := if fv.author in Authors(acc) then acc else acc + [fv]]);
            var r := N.OnFinVote(c, me, nd, RoundAt(p, sl), fv);
            Becomes(p, p', sl, r.rd) && r.sends == if fv.author in Authors(acc) then [] else Reaction(me, nd, fv, flag)
  {
    var acc := SeqAt(p.fin, SlotOf(fv));
    BecomesFin(p, SlotOf(fv), if fv.author in Authors(acc) then acc else acc + [fv]);
  }

  /** What a message about a slot does. */
  lemma RoundEffect(c: N.Cfg, me: int, nd: N.State, m: Msg, o: N.Oracle)
    requires c.n >= 1 && N.IsRoundMsg(m)
    ensures var sl, r := SlotOf(m), N.OnRound(c, me, nd, Recorded(nd.rounds, SlotOf(m)), m);
            N.OnMessage(c, me, nd, m, o) ==
            if m.epoch < nd.epoch then N.Out(nd, []) else N.Out(nd.(rounds := nd.rounds[sl := r.rd]), r.sends)
  {
  }

  /** What a halt does once its leader is taken over. */
  ghost function Ends(me: int, nd: N.State, h: Msg, o: N.Oracle): N.Out
    requires h.Halt?
  {
    match N.GetBlock(nd, h.hash)
    case None => N.Out(nd, [])
    case Some(b) =>
      N.NextEpoch(me, nd.(submitted := if o.checkCommit then nd.submitted + [b] else nd.submitted, halted := nd.halted + {h.epoch}),
                  h.epoch + 1, o)
  }

  lemma HaltEffect(me: int, nd: N.State, h: Msg, o: N.Oracle)
    requires h.Halt? && h.epoch >= nd.epoch && h.epoch !in nd.halted
    ensures var rd := Recorded(nd.rounds, SlotOf(h)).(leader := h.leader);
            N.OnHalt(me, nd, h, o) == Ends(me, nd.(rounds := nd.rounds[SlotOf(h) := rd]), h, o)
  {
  }

  // ------------------------------------------------------------------------- the object

  class Core {
    const c: N.Cfg
    const me: int
    const finishes: FinishTable
    const dones: DoneTable
    const pres: PreVoteTable
    const fins: FinVoteTable
    const elector: Elector
    const spbs: Spb.Table
    var running: bool
    var epoch: int
    var haltFlags: set<int>
    var store: set<Block>
    var submitted: seq<Block>
    var tasks: multiset<Msg>
    var finishFlags: map<Slot, map<int, Digest>>
    var doneFlags: set<Slot>
    var readyFlags: set<Slot>
    ghost var rounds: map<Slot, N.Round>

    ghost function PartsNow(): Parts
      reads this`finishFlags, this`doneFlags, this`readyFlags
      reads dones`view, elector`view, elector`leaders, pres`view, fins`view
    {
      Parts(finishFlags, dones.view, elector.view, pres.view, fins.view, doneFlags, readyFlags, elector.leaders)
    }

    /** The records of the slots are what the parts say. */
    ghost predicate RoundsMatch()
      reads this`finishFlags, this`doneFlags, this`readyFlags, this`rounds
      reads dones`view, elector`view, elector`leaders, pres`view, fins`view
    {
      Match(PartsNow(), rounds)
    }

    /** The state of the core as a value. */
    ghost function Value(): N.State
      reads this`running, this`epoch, this`haltFlags, this`store, this`submitted, this`tasks
      reads spbs`view, this`rounds
    {
      N.State(running, epoch, haltFlags, store, submitted, tasks, spbs.view, rounds)
    }

    /** The objects do not share anything. */
    ghost predicate Apart()
      reads finishes`Repr, dones`Repr, pres`Repr, fins`Repr, elector`Repr, spbs`Repr
    {
      && finishes in finishes.Repr && dones in dones.Repr && pres in pres.Repr
      && fins in fins.Repr && elector in elector.Repr && spbs in spbs.Repr
      && finishes.Repr !! dones.Repr && finishes.Repr !! pres.Repr && finishes.Repr !! fins.Repr && finishes.Repr !! elector.Repr && finishes.Repr !! spbs.Repr
      && dones.Repr !! pres.Repr && dones.Repr !! fins.Repr && dones.Repr !! elector.Repr && dones.Repr !! spbs.Repr && pres.Repr !! fins.Repr
      && pres.Repr !! elector.Repr && pres.Repr !! spbs.Repr && fins.Repr !! elector.Repr && fins.Repr !! spbs.Repr && elector.Repr !! spbs.Repr
      && this !in finishes.Repr && this !in dones.Repr && this !in pres.Repr && this !in fins.Repr && this !in elector.Repr && this !in spbs.Repr
    }

    lemma ApartAtFirst()
      requires finishes.Repr == {finishes} && dones.Repr == {dones} && pres.Repr == {pres}
      requires fins.Repr == {fins} && elector.Repr == {elector} && spbs.Repr == {spbs}
      ensures Apart()
    {
    }

    constructor (c: N.Cfg, me: int)
      requires c.n >= 1
      ensures this.c == c && this.me == me && Value() == N.INIT
      ensures Valid()
    {
      hide FinishTable.Valid, DoneTable.Valid, PreVoteTable.Valid, FinVoteTable.Valid, Elector.Valid, Spb.Table.Valid;
      hide Apart, Match, KeysMatch, High;
      this.c, this.me := c, me;
      finishes := new FinishTable();
      dones := new DoneTable();
      pres := new PreVoteTable();
      fins := new FinVoteTable();
      elector := new Elector();
      spbs := new Spb.Table(me, High(c.n));
      running, epoch, haltFlags, store, submitted, tasks := false, 0, {}, {}, [], multiset{};
      finishFlags, doneFlags, readyFlags, rounds := map[], {}, {}, map[];
      new;
      NothingMatches();
      ApartAtFirst();
      assert finishes.Valid() && dones.Valid() && pres.Valid() && fins.Valid() && elector.Valid() && spbs.Valid();
      assert Objects() && RoundsMatch() && KeysMatch(finishes.view, finishFlags);
    }

    predicate MessageFilter(e: int)
      reads this`epoch
    {
      e < epoch
    }

    function GetConsensusBlock(d: Digest): Option<Block>
      reads this`store
    {
      if d.HashOf? && d.block in store then Some(d.block) else None
    }

    // ------------------------------------------------------------ finishes and dones

    method InvokeDoneAndShare(sl: Slot) returns (sends: seq<Envelope>)
      modifies this`doneFlags
      ensures var r := N.InvokeDone(me, sl, RoundAt(old(PartsNow()), sl));
              sends == r.sends && Becomes(old(PartsNow()), PartsNow(), sl, r.rd)
    {
      sends := [];
      if sl !in doneFlags {
        BecomesDoneFlag(PartsNow(), sl);
        sends := [Env(NONE, Done(me, sl.e, sl.r)), Env(NONE, ElectShare(me, sl.e, sl.r))];
        doneFlags := doneFlags + {sl};
      }
    }

    /** Counts a finish and records its block; the answer is that of the aggregator. */
    method AddFinishVote(m: Msg) returns (r: Reply<bool>)
      requires m.Finish? && finishes.Valid() && Apart() && KeysMatch(finishes.view, finishFlags)
      modifies this`finishFlags, finishes.Repr
      ensures finishes.Valid() && fresh(finishes.Repr - old(finishes.Repr))
      ensures KeysMatch(finishes.view, finishFlags)
      ensures var f := FinishAt(old(finishFlags), SlotOf(m));
              if m.author in f then r.OneMore? && finishFlags == old(finishFlags)
              else r == Answer(|f| + 1 == High(c.n)) && finishFlags == old(finishFlags)[SlotOf(m) := f[m.author := m.hash]]
    {
      hide FinishTable.Valid, KeysMatch;
      var sl := SlotOf(m);
      KeysUpdate(finishes.view, finishFlags, sl, m.author, m.hash);
      r := finishes.Add(c.n, m);
      if r.Answer? {
        finishFlags := finishFlags[sl := FinishAt(finishFlags, sl)[m.author := m.hash]];
      }
    }

    /** Reacts to the answer; p are the parts before the finish was counted. */
    method OnFinishAnswer(m: Msg, r: Reply<bool>, ghost p: Parts) returns (sends: seq<Envelope>)
      requires m.Finish?
      requires var f := FinishAt(p.finish, SlotOf(m));
               if m.author in f then r.OneMore? && PartsNow() == p
               else r == Answer(|f| + 1 == High(c.n)) && PartsNow() == p.(finish := p.finish[SlotOf(m) := f[m.author := m.hash]])
      modifies this`doneFlags
      ensures var o := N.OnFinish(c, me, RoundAt(p, SlotOf(m)), m); sends == o.sends && Becomes(p, PartsNow(), SlotOf(m), o.rd)
    {
      sends := [];
      ghost var p', sl := PartsNow(), SlotOf(m);
      FinishEffect(c, me, p, m);
      if r == Answer(true) {
        sends := InvokeDoneAndShare(SlotOf(m));
        BecomesTwice(p, p', PartsNow(), sl, RoundAt(p', sl), RoundAt(PartsNow(), sl));
      }
    }

    method HandleFinish(m: Msg) returns (sends: seq<Envelope>)
      requires m.Finish? && finishes.Valid() && Apart() && KeysMatch(finishes.view, finishFlags)
      modifies this`finishFlags, this`doneFlags, finishes.Repr
      ensures finishes.Valid() && fresh(finishes.Repr - old(finishes.Repr))
      ensures KeysMatch(finishes.view, finishFlags)
      ensures MessageFilter(m.epoch) ==> sends == [] && PartsNow() == old(PartsNow())
      ensures !MessageFilter(m.epoch) ==>
                var o := N.OnFinish(c, me, RoundAt(old(PartsNow()), SlotOf(m)), m);
                sends == o.sends && Becomes(old(PartsNow()), PartsNow(), SlotOf(m), o.rd)
    {
      hide FinishTable.Valid, N.OnFinish, Becomes, KeysMatch;
      if MessageFilter(m.epoch) {
        return [];
      }
      ghost var p := PartsNow();
      var r := AddFinishVote(m);
      sends := OnFinishAnswer(m, r, p);
    }

    /** What processing the leader sends. */
    method ProcessLeader(sl: Slot, ghost nd: N.State) returns (sends: seq<Envelope>)
      requires spbs.Valid() && nd.spb == spbs.view
      modifies spbs`items, spbs`Repr
      ensures spbs.Valid() && fresh(spbs.Repr - old(spbs.Repr))
      ensures sends == N.ProcessLeader(me, nd, sl, RoundAt(PartsNow(), sl))
    {
      sends := [];
      if sl in readyFlags {
        var leader := elector.Leader(sl);
        if leader != NONE {
          var f := FinishAt(finishFlags, sl);
          if leader in f {
            sends := [Env(NONE, Halt(me, sl.e, sl.r, leader, f[leader]))];
          } else {
            var s := spbs.Get(Inst(sl.e, sl.r, leader));
            if s.lockFlag {
              if s.blockHash.Some? {
                sends := [Env(NONE, Prevote(me, leader, sl.e, sl.r, VOTE_YES, s.blockHash.value))];
              }
            } else {
              sends := [Env(NONE, Prevote(me, leader, sl.e, sl.r, VOTE_NO, Zero))];
            }
          }
        }
      }
    }

    method OnDoneAnswer(sl: Slot, r: Reply<DoneFlag>, ghost nd: N.State) returns (sends: seq<Envelope>)
      requires spbs.Valid() && nd.spb == spbs.view
      modifies this`doneFlags, this`readyFlags, spbs`items, spbs`Repr
      ensures spbs.Valid() && fresh(spbs.Repr - old(spbs.Repr))
      ensures var o := DoneReaction(me, nd, sl, RoundAt(old(PartsNow()), sl), r);
              sends == o.sends && Becomes(old(PartsNow()), PartsNow(), sl, o.rd)
    {
      sends := [];
      if r == Answer(DoneLow) {
        sends := InvokeDoneAndShare(sl);
      } else if r == Answer(DoneHigh) {
        BecomesReady(PartsNow(), sl);
        readyFlags := readyFlags + {sl};
        sends := ProcessLeader(sl, nd);
      }
    }

    method AddDoneVote(m: Msg) returns (r: Reply<DoneFlag>)
      requires m.Done? && dones.Valid() && spbs.Valid() && Apart()
      modifies dones.Repr
      ensures dones.Valid() && fresh(dones.Repr - old(dones.Repr)) && dones.Repr !! spbs.Repr
      ensures spbs.Valid() && Value() == old(Value())
      ensures var sl, p := SlotOf(m), old(PartsNow());
              && Becomes(p, PartsNow(), sl, RoundAt(PartsNow(), sl))
              && N.OnDone(c, me, Value(), RoundAt(p, sl), m) == DoneReaction(me, Value(), sl, RoundAt(PartsNow(), sl), r)
    {
      hide DoneTable.Valid, Spb.Table.Valid, N.OnDone, DoneReaction, Becomes, DoneLevel;
      ghost var p := PartsNow();
      r := dones.Add(c.n, m);
      DoneEffect(c, me, Value(), p, m, r);
    }

    method HandleDone(m: Msg) returns (sends: seq<Envelope>)
      requires m.Done? && dones.Valid() && spbs.Valid() && Apart()
      modifies this`doneFlags, this`readyFlags, dones.Repr, spbs`items, spbs`Repr
      ensures dones.Valid() && fresh(dones.Repr - old(dones.Repr)) && dones.Repr !! spbs.Repr
      ensures spbs.Valid() && fresh(spbs.Repr - old(spbs.Repr))
      ensures MessageFilter(m.epoch) ==> sends == [] && PartsNow() == old(PartsNow())
      ensures !MessageFilter(m.epoch) ==>
                var o := N.OnDone(c, me, Value(), RoundAt(old(PartsNow()), SlotOf(m)), m);
                sends == o.sends && Becomes(old(PartsNow()), PartsNow(), SlotOf(m), o.rd)
    {
      hide DoneTable.Valid, Spb.Table.Valid, N.OnDone, DoneReaction, Becomes;
      if MessageFilter(m.epoch) {
        return [];
      }
      ghost var p, sl := PartsNow(), SlotOf(m);
      var r := AddDoneVote(m);
      ghost var p' := PartsNow();
      sends := OnDoneAnswer(SlotOf(m), r, Value());
      BecomesTwice(p, p', PartsNow(), sl, RoundAt(p', sl), RoundAt(PartsNow(), sl));
    }

    // ------------------------------------------------------------------- the leader

    method OnShareAnswer(m: Msg, leader: int, ghost p: Parts, ghost nd: N.State) returns (sends: seq<Envelope>)
      requires m.ElectShare? && c.n >= 1 && spbs.Valid() && nd.spb == spbs.view
      requires var sl, d := SlotOf(m), SetAt(p.shares, SlotOf(m));
               var p' := p.(shares := p.shares[sl := d + {m.author}]);
               if m.author !in d && |d| + 1 == High(c.n) then
                 leader == N.Elected(c, sl) && PartsNow() == p'.(leaders := p.leaders[sl := leader])
               else leader == NONE && PartsNow() == p'
      modifies spbs`items, spbs`Repr
      ensures spbs.Valid() && fresh(spbs.Repr - old(spbs.Repr))
      ensures var o := N.OnShare(c, me, nd, RoundAt(p, SlotOf(m)), m); sends == o.sends && Becomes(p, PartsNow(), SlotOf(m), o.rd)
    {
      ShareEffect(c, me, nd, p, m);
      sends := [];
      if leader != NONE {
        sends := ProcessLeader(SlotOf(m), nd);
      }
    }

    method AddShareVote(m: Msg) returns (leader: int)
      requires m.ElectShare? && c.n >= 1 && elector.Valid() && spbs.Valid() && Apart()
      modifies elector.Repr
      ensures elector.Valid() && fresh(elector.Repr - old(elector.Repr)) && elector.Repr !! spbs.Repr
      ensures spbs.Valid() && Value() == old(Value())
      ensures var p, sl, d := old(PartsNow()), SlotOf(m), SetAt(old(elector.view), SlotOf(m));
              var p' := p.(shares := p.shares[sl := d + {m.author}]);
              if m.author !in d && |d| + 1 == High(c.n) then
                leader == N.Elected(c, sl) && PartsNow() == p'.(leaders := p.leaders[sl := leader])
              else leader == NONE && PartsNow() == p'
    {
      hide Elector.Valid, Spb.Table.Valid, N.Elected;
      leader := elector.AddShareVote(c, m);
    }

    method HandleElectShare(m: Msg) returns (sends: seq<Envelope>)
      requires m.ElectShare? && elector.Valid() && spbs.Valid() && Apart() && c.n >= 1
      modifies elector.Repr, spbs`items, spbs`Repr
      ensures elector.Valid() && fresh(elector.Repr - old(elector.Repr)) && elector.Repr !! spbs.Repr
      ensures spbs.Valid() && fresh(spbs.Repr - old(spbs.Repr))
      ensures MessageFilter(m.epoch) ==> sends == [] && PartsNow() == old(PartsNow())
      ensures !MessageFilter(m.epoch) ==>
                var o := N.OnShare(c, me, Value(), RoundAt(old(PartsNow()), SlotOf(m)), m);
                sends == o.sends && Becomes(old(PartsNow()), PartsNow(), SlotOf(m), o.rd)
    {
      hide Elector.Valid, Spb.Table.Valid, N.OnShare, Becomes;
      if MessageFilter(m.epoch) {
        return [];
      }
      ghost var p := PartsNow();
      var leader := AddShareVote(m);
      sends := OnShareAnswer(m, leader, p, Value());
    }

    // --------------------------------------------------------------------- the votes

    method HandlePrevote(pv: Msg) returns (sends: seq<Envelope>)
      requires pv.Prevote? && pres.Valid() && Apart()
      modifies pres.Repr
      ensures pres.Valid() && fresh(pres.Repr - old(pres.Repr))
      ensures MessageFilter(pv.epoch) ==> sends == [] && PartsNow() == old(PartsNow())
      ensures !MessageFilter(pv.epoch) ==>
                var o := N.OnPrevote(c, me, RoundAt(old(PartsNow()), SlotOf(pv)), pv);
                sends == o.sends && Becomes(old(PartsNow()), PartsNow(), SlotOf(pv), o.rd)
    {
      hide PreVoteTable.Valid, N.OnPrevote, Becomes, PreAction;
      sends := [];
      if MessageFilter(pv.epoch) {
        return;
      }
      ghost var p := PartsNow();
      PrevoteEffect(c, me, p, pv, PreAction(SeqAt(p.pre, SlotOf(pv)), pv, High(c.n)));
      var r := pres.Add(c.n, pv);
      if r == Answer(ActionNo) {
        sends := [Env(NONE, N.CastFinVote(me, pv, VOTE_NO))];
      } else if r == Answer(ActionYes) {
        sends := [Env(NONE, N.CastFinVote(me, pv, VOTE_YES))];
      }
    }

    method AdvanceNextRound(sl: Slot, flag: Action, voted: Digest) returns (sends: seq<Envelope>)
      requires spbs.Valid()
      modifies spbs`items, spbs`Repr
      ensures spbs.Valid() && fresh(spbs.Repr - old(spbs.Repr))
      ensures sends == N.NextRound(me, Value(), sl, flag, voted)
    {
      var d := voted;
      if flag == ActionNo {
        var s := spbs.Get(Inst(sl.e, sl.r, me));
        if s.blockHash.Some? {
          d := s.blockHash.value;
        }
      }
      sends := [];
      var found := GetConsensusBlock(d);
      if found.Some? {
        sends := [Env(NONE, Proposal(me, found.value, sl.e, sl.r + 1, ONE_PHASE))];
      }
    }

    method React(fv: Msg, r: Reply<Action>) returns (sends: seq<Envelope>)
      requires fv.FinVote? && spbs.Valid()
      modifies spbs`items, spbs`Repr
      ensures spbs.Valid() && fresh(spbs.Repr - old(spbs.Repr))
      ensures sends == if r.OneMore? then [] else Reaction(me, Value(), fv, r.value)
    {
      sends := [];
      if r == Answer(ActionYes) {
        sends := AdvanceNextRound(SlotOf(fv), ActionYes, fv.hash);
      } else if r == Answer(ActionNo) {
        sends := AdvanceNextRound(SlotOf(fv), ActionNo, Zero);
      } else if r == Answer(ActionCommit) {
        sends := [Env(NONE, Halt(me, fv.epoch, fv.round, fv.leader, fv.hash))];
      }
    }

    method AddFinVote(fv: Msg) returns (r: Reply<Action>)
      requires fv.FinVote? && fins.Valid() && spbs.Valid() && Apart()
      modifies fins.Repr
      ensures fins.Valid() && fresh(fins.Repr - old(fins.Repr)) && fins.Repr !! spbs.Repr
      ensures spbs.Valid() && Value() == old(Value())
      ensures var o := N.OnFinVote(c, me, Value(), RoundAt(old(PartsNow()), SlotOf(fv)), fv);
              && Becomes(old(PartsNow()), PartsNow(), SlotOf(fv), o.rd)
              && o.sends == if r.OneMore? then [] else Reaction(me, Value(), fv, r.value)
    {
      hide FinVoteTable.Valid, Spb.Table.Valid, N.OnFinVote, Becomes, Reaction, FinAction;
      ghost var p := PartsNow();
      FinVoteEffect(c, me, Value(), p, fv, FinAction(SeqAt(p.fin, SlotOf(fv)), fv, High(c.n)));
      r := fins.Add(c.n, fv);
    }

    method HandleFinvote(fv: Msg) returns (sends: seq<Envelope>)
      requires fv.FinVote? && fins.Valid() && spbs.Valid() && Apart()
      modifies fins.Repr, spbs`items, spbs`Repr
      ensures fins.Valid() && fresh(fins.Repr - old(fins.Repr)) && fins.Repr !! spbs.Repr
      ensures spbs.Valid() && fresh(spbs.Repr - old(spbs.Repr))
      ensures MessageFilter(fv.epoch) ==> sends == [] && PartsNow() == old(PartsNow())
      ensures !MessageFilter(fv.epoch) ==>
                var o := N.OnFinVote(c, me, Value(), RoundAt(old(PartsNow()), SlotOf(fv)), fv);
                sends == o.sends && Becomes(old(PartsNow()), PartsNow(), SlotOf(fv), o.rd)
    {
      hide FinVoteTable.Valid, Spb.Table.Valid, N.OnFinVote, Becomes, Reaction;
      if MessageFilter(fv.epoch) {
        return [];
      }
      var r := AddFinVote(fv);
      sends := React(fv, r);
    }

    // ------------------------------------------------- proposals, halts and loopbacks

    /** Commits a late proposal: one of a halted epoch, by the leader of its round. */
    method CommitLate(p: Msg, o: N.Oracle)
      requires p.Proposal? && RoundsMatch()
      modifies this`submitted
      ensures Value() == N.CommitLate(old(Value()), p, o.checkCommit)
    {
      assert RoundAt(PartsNow(), SlotOf(p)) == Recorded(rounds, SlotOf(p));
      if p.phase == ONE_PHASE && p.epoch in haltFlags {
        if elector.Leader(SlotOf(p)) == p.author && o.checkCommit {
          submitted := submitted + [p.b];
        }
      }
    }

    method HandleSpbProposal(p: Msg, o: N.Oracle)
      requires p.Proposal? && RoundsMatch()
      modifies this`submitted, this`store, this`tasks
      ensures Value() == N.OnProposal(old(Value()), p, o)
    {
      CommitLate(p, o);
      if MessageFilter(p.epoch) {
        return;
      }
      if p.phase == ONE_PHASE {
        if !o.writeOk {
          return;
        }
        store := store + {p.b};
        if !o.checkBlock {
          return;
        }
      }
      tasks := tasks + multiset{p};
    }

    method HandleSpbVote(v: Msg)
      requires v.SpbVote?
      modifies this`tasks
      ensures Value() == N.OnVote(old(Value()), v)
    {
      if MessageFilter(v.epoch) {
        return;
      }
      tasks := tasks + multiset{v};
    }

    /** Looks the block up and submits it once its payloads are there; false when it is missing. */
    method HandleOutput(d: Digest, o: N.Oracle) returns (ok: bool)
      modifies this`submitted
      ensures ok <==> N.GetBlock(old(Value()), d).Some?
      ensures submitted == if ok && o.checkCommit then old(submitted) + [d.block] else old(submitted)
    {
      var found := GetConsensusBlock(d);
      if found.None? {
        return false;
      }
      if o.checkCommit {
        submitted := submitted + [found.value];
      }
      return true;
    }

    method AdvanceNextEpoch(e: int, o: N.Oracle) returns (sends: seq<Envelope>)
      modifies this`epoch
      ensures N.Out(Value(), sends) == N.NextEpoch(me, old(Value()), e, o)
    {
      if e <= epoch {
        return [];
      }
      epoch := e;
      sends := [Env(NONE, Proposal(me, Block(me, o.payloads, e), e, 0, ONE_PHASE))];
    }

    /** The leader a halt names is taken over before its block is looked up. */
    method TakeLeader(h: Msg)
      requires h.Halt? && RoundsMatch() && elector.Valid()
      modifies elector`leaders, this`rounds
      ensures RoundsMatch() && elector.Valid()
      ensures rounds == old(rounds)[SlotOf(h) := Recorded(old(rounds), SlotOf(h)).(leader := h.leader)]
    {
      var sl := SlotOf(h);
      ghost var p := PartsNow();
      assert RoundAt(p, sl) == Recorded(rounds, sl);
      BecomesLeader(p, sl, h.leader);
      elector.SetLeader(sl, h.leader);
      MatchUpdate(p, PartsNow(), rounds, sl, RoundAt(p, sl).(leader := h.leader));
      rounds := rounds[sl := Recorded(rounds, sl).(leader := h.leader)];
    }

    method EndEpoch(h: Msg, o: N.Oracle) returns (sends: seq<Envelope>)
      requires h.Halt?
      modifies this`submitted, this`haltFlags, this`epoch
      ensures N.Out(Value(), sends) == Ends(me, old(Value()), h, o)
    {
      var ok := HandleOutput(h.hash, o);
      if !ok {
        return [];
      }
      haltFlags := haltFlags + {h.epoch};
      sends := AdvanceNextEpoch(h.epoch + 1, o);
    }

    method HandleHalt(h: Msg, o: N.Oracle) returns (sends: seq<Envelope>)
      requires h.Halt? && RoundsMatch() && elector.Valid() && this !in elector.Repr
      modifies this`submitted, this`haltFlags, this`epoch, this`rounds, elector`leaders
      ensures RoundsMatch() && elector.Valid()
      ensures N.Out(Value(), sends) == N.OnHalt(me, old(Value()), h, o)
    {
      hide Elector.Valid, Match, Ends;
      sends := [];
      if MessageFilter(h.epoch) || h.epoch in haltFlags {
        return;
      }
      HaltEffect(me, Value(), h, o);
      TakeLeader(h);
      sends := EndEpoch(h, o);
    }

    method HandleLoopBack(d: Digest, o: N.Oracle)
      requires RoundsMatch()
      modifies this`submitted, this`tasks
      ensures Value() == N.OnLoopBack(old(Value()), d, o)
    {
      var found := GetConsensusBlock(d);
      if found.None? {
        return;
      }
      var p := N.Replayed(found.value);
      CommitLate(p, o);
      if found.value.epoch >= epoch {
        tasks := tasks + multiset{p};
      }
    }

    // ------------------------------------------------------------------------ the loop

    /** Runs one of the goroutines that wait, on the instance it was started for. */
    method RunTask(m: Msg) returns (sends: seq<Envelope>)
      requires spbs.Valid() && Apart() && spbs.me == me && spbs.th == High(c.n)
      modifies this`tasks, spbs.Repr
      ensures spbs.Valid() && fresh(spbs.Repr - old(spbs.Repr))
      ensures N.Out(Value(), sends) == N.RunTask(c, me, old(Value()), m)
    {
      hide Spb.Table.Valid, Spb.OnMessage;
      if m !in tasks || !(m.Proposal? || m.SpbVote?) {
        return [];
      }
      var spawn;
      sends, spawn := spbs.Process(m);
      tasks := tasks - multiset{m} + multiset(spawn);
    }

    ghost predicate Objects()
      reads finishes, finishes.Repr, dones, dones.Repr, pres, pres.Repr, fins, fins.Repr, elector, elector.Repr, spbs, spbs.Repr
    {
      && c.n >= 1 && spbs.me == me && spbs.th == High(c.n) && Apart()
      && finishes.Valid() && dones.Valid() && pres.Valid() && fins.Valid() && elector.Valid() && spbs.Valid()
    }

    ghost predicate Valid()
      reads this`finishFlags, this`doneFlags, this`readyFlags, this`rounds
      reads finishes, finishes.Repr, dones, dones.Repr, pres, pres.Repr, fins, fins.Repr, elector, elector.Repr, spbs, spbs.Repr
    {
      Objects() && RoundsMatch() && KeysMatch(finishes.view, finishFlags)
    }

    /** The tables gain new objects only. */
    twostate predicate Grown()
      reads finishes, dones, pres, fins, elector, spbs
    {
      && fresh(finishes.Repr - old(finishes.Repr)) && fresh(dones.Repr - old(dones.Repr))
      && fresh(pres.Repr - old(pres.Repr)) && fresh(fins.Repr - old(fins.Repr))
      && fresh(elector.Repr - old(elector.Repr)) && fresh(spbs.Repr - old(spbs.Repr))
    }

    /** From the parts p, message m has had its effect, and sends was sent. */
    ghost predicate Does(p: Parts, m: Msg, sends: seq<Envelope>)
      requires c.n >= 1 && N.IsRoundMsg(m)
      reads this`finishFlags, this`doneFlags, this`readyFlags, dones`view, elector`view, elector`leaders, pres`view, fins`view
      reads this`running, this`epoch, this`haltFlags, this`store, this`submitted, this`tasks, spbs`view, this`rounds
    {
      var r := N.OnRound(c, me, Value(), RoundAt(p, SlotOf(m)), m);
      sends == r.sends && Becomes(p, PartsNow(), SlotOf(m), r.rd)
    }

    method FinishCase(m: Msg) returns (sends: seq<Envelope>)
      requires Objects() && KeysMatch(finishes.view, finishFlags) && m.Finish?
      modifies this`finishFlags, this`doneFlags, finishes.Repr
      ensures Objects() && Grown() && KeysMatch(finishes.view, finishFlags) && Value() == old(Value())
      ensures MessageFilter(m.epoch) ==> sends == [] && PartsNow() == old(PartsNow())
      ensures !MessageFilter(m.epoch) ==> Does(old(PartsNow()), m, sends)
    {
      hide KeysMatch, Becomes, N.OnFinish;
      hide FinishTable.Valid, DoneTable.Valid, PreVoteTable.Valid, FinVoteTable.Valid, Elector.Valid, Spb.Table.Valid;
      sends := HandleFinish(m);
    }

    method DoneCase(m: Msg) returns (sends: seq<Envelope>)
      requires Objects() && KeysMatch(finishes.view, finishFlags) && m.Done?
      modifies this`doneFlags, this`readyFlags, dones.Repr, spbs`items, spbs`Repr
      ensures Objects() && Grown() && KeysMatch(finishes.view, finishFlags) && Value() == old(Value())
      ensures MessageFilter(m.epoch) ==> sends == [] && PartsNow() == old(PartsNow())
      ensures !MessageFilter(m.epoch) ==> Does(old(PartsNow()), m, sends)
    {
      hide KeysMatch, Becomes, N.OnDone;
      hide FinishTable.Valid, DoneTable.Valid, PreVoteTable.Valid, FinVoteTable.Valid, Elector.Valid, Spb.Table.Valid;
      sends := HandleDone(m);
    }

    method ElectShareCase(m: Msg) returns (sends: seq<Envelope>)
      requires Objects() && KeysMatch(finishes.view, finishFlags) && m.ElectShare?
      modifies elector.Repr, spbs`items, spbs`Repr
      ensures Objects() && Grown() && KeysMatch(finishes.view, finishFlags) && Value() == old(Value())
      ensures MessageFilter(m.epoch) ==> sends == [] && PartsNow() == old(PartsNow())
      ensures !MessageFilter(m.epoch) ==> Does(old(PartsNow()), m, sends)
    {
      hide KeysMatch, Becomes, N.OnShare;
      hide FinishTable.Valid, DoneTable.Valid, PreVoteTable.Valid, FinVoteTable.Valid, Elector.Valid, Spb.Table.Valid;
      sends := HandleElectShare(m);
    }

    method PrevoteCase(m: Msg) returns (sends: seq<Envelope>)
      requires Objects() && KeysMatch(finishes.view, finishFlags) && m.Prevote?
      modifies pres.Repr
      ensures Objects() && Grown() && KeysMatch(finishes.view, finishFlags) && Value() == old(Value())
      ensures MessageFilter(m.epoch) ==> sends == [] && PartsNow() == old(PartsNow())
      ensures !MessageFilter(m.epoch) ==> Does(old(PartsNow()), m, sends)
    {
      hide KeysMatch, Becomes, N.OnPrevote;
      hide FinishTable.Valid, DoneTable.Valid, PreVoteTable.Valid, FinVoteTable.Valid, Elector.Valid, Spb.Table.Valid;
      sends := HandlePrevote(m);
    }

    method FinvoteCase(m: Msg) returns (sends: seq<Envelope>)
      requires Objects() && KeysMatch(finishes.view, finishFlags) && m.FinVote?
      modifies fins.Repr, spbs`items, spbs`Repr
      ensures Objects() && Grown() && KeysMatch(finishes.view, finishFlags) && Value() == old(Value())
      ensures MessageFilter(m.epoch) ==> sends == [] && PartsNow() == old(PartsNow())
      ensures !MessageFilter(m.epoch) ==> Does(old(PartsNow()), m, sends)
    {
      hide KeysMatch, Becomes, N.OnFinVote;
      hide FinishTable.Valid, DoneTable.Valid, PreVoteTable.Valid, FinVoteTable.Valid, Elector.Valid, Spb.Table.Valid;
      sends := HandleFinvote(m);
    }

    /** The five messages that concern one slot. */
    method Dispatch(m: Msg) returns (sends: seq<Envelope>)
      requires Objects() && KeysMatch(finishes.view, finishFlags) && N.IsRoundMsg(m)
      modifies this`finishFlags, this`doneFlags, this`readyFlags
      modifies finishes.Repr, dones.Repr, pres.Repr, fins.Repr, elector.Repr, spbs`items, spbs`Repr
      ensures Objects() && Grown() && KeysMatch(finishes.view, finishFlags) && Value() == old(Value())
      ensures MessageFilter(m.epoch) ==> sends == [] && PartsNow() == old(PartsNow())
      ensures !MessageFilter(m.epoch) ==> Does(old(PartsNow()), m, sends)
    {
      hide FinishTable.Valid, DoneTable.Valid, PreVoteTable.Valid, FinVoteTable.Valid, Elector.Valid, Spb.Table.Valid;
      match m
      case Finish(_, _, _, _) => sends := FinishCase(m);
      case Done(_, _, _) => sends := DoneCase(m);
      case ElectShare(_, _, _) => sends := ElectShareCase(m);
      case Prevote(_, _, _, _, _, _) => sends := PrevoteCase(m);
      case FinVote(_, _, _, _, _, _) => sends := FinvoteCase(m);
    }

    /** Brings the record of a slot up to date with the effect of a message; sends as it says. */
    ghost method Record(p: Parts, m: Msg, o: N.Oracle, sends: seq<Envelope>)
      requires c.n >= 1 && N.IsRoundMsg(m) && !MessageFilter(m.epoch) && Match(p, rounds) && Does(p, m, sends)
      modifies this`rounds
      ensures RoundsMatch() && N.Out(Value(), sends) == N.OnMessage(c, me, old(Value()), m, o)
    {
      ghost var sl := SlotOf(m);
      assert RoundAt(p, sl) == Recorded(rounds, sl);
      ghost var r := N.OnRound(c, me, Value(), Recorded(rounds, sl), m);
      RoundEffect(c, me, Value(), m, o);
      MatchUpdate(p, PartsNow(), rounds, sl, r.rd);
      rounds := rounds[sl := r.rd];
    }

    method HandleRound(m: Msg, ghost o: N.Oracle) returns (sends: seq<Envelope>)
      requires Valid() && N.IsRoundMsg(m)
      modifies this`finishFlags, this`doneFlags, this`readyFlags, this`rounds
      modifies finishes.Repr, dones.Repr, pres.Repr, fins.Repr, elector.Repr, spbs`items, spbs`Repr
      ensures Valid() && Grown()
      ensures N.Out(Value(), sends) == N.OnMessage(c, me, old(Value()), m, o)
    {
      hide Match, KeysMatch, N.OnRound, Becomes;
      hide FinishTable.Valid, DoneTable.Valid, PreVoteTable.Valid, FinVoteTable.Valid, Elector.Valid, Spb.Table.Valid;
      ghost var p := PartsNow();
      sends := Dispatch(m);
      if !MessageFilter(m.epoch) {
        Record(p, m, o, sends);
      }
    }

    method ProposalCase(m: Msg, o: N.Oracle)
      requires Valid() && m.Proposal?
      modifies this`submitted, this`store, this`tasks
      ensures Valid() && N.Out(Value(), []) == N.OnMessage(c, me, old(Value()), m, o)
    {
      hide Match, KeysMatch, N.OnProposal;
      hide FinishTable.Valid, DoneTable.Valid, PreVoteTable.Valid, FinVoteTable.Valid, Elector.Valid, Spb.Table.Valid;
      HandleSpbProposal(m, o);
    }

    method HaltCase(m: Msg, o: N.Oracle) returns (sends: seq<Envelope>)
      requires Valid() && m.Halt?
      modifies this`submitted, this`haltFlags, this`epoch, this`rounds, elector`leaders
      ensures Valid() && N.Out(Value(), sends) == N.OnMessage(c, me, old(Value()), m, o)
    {
      hide Match, KeysMatch, N.OnHalt;
      hide FinishTable.Valid, DoneTable.Valid, PreVoteTable.Valid, FinVoteTable.Valid, Elector.Valid, Spb.Table.Valid;
      sends := HandleHalt(m, o);
    }

    method Receive(m: Msg, o: N.Oracle) returns (sends: seq<Envelope>)
      requires Valid()
      modifies this, finishes.Repr, dones.Repr, pres.Repr, fins.Repr, elector.Repr, spbs.Repr
      ensures Valid() && Grown()
      ensures N.Out(Value(), sends) == N.OnMessage(c, me, old(Value()), m, o)
    {
      hide Match, KeysMatch, N.OnHalt, N.OnProposal, N.OnRound;
      hide FinishTable.Valid, DoneTable.Valid, PreVoteTable.Valid, FinVoteTable.Valid, Elector.Valid, Spb.Table.Valid;
      sends := [];
      match m
      case Proposal(_, _, _, _, _) => ProposalCase(m, o);
      case SpbVote(_, _, _, _, _, _) => HandleSpbVote(m);
      case Halt(_, _, _, _, _) => sends := HaltCase(m, o);
      case _ => sends := HandleRound(m, o);
    }

    method RunCase(m: Msg) returns (sends: seq<Envelope>)
      requires Valid()
      modifies this`tasks, spbs.Repr
      ensures Valid() && Grown()
      ensures N.Out(Value(), sends) == N.RunTask(c, me, old(Value()), m)
    {
      hide Match, KeysMatch, N.RunTask;
      hide FinishTable.Valid, DoneTable.Valid, PreVoteTable.Valid, FinVoteTable.Valid, Elector.Valid, Spb.Table.Valid;
      sends := RunTask(m);
    }

    method LoopCase(d: Digest, o: N.Oracle)
      requires Valid()
      modifies this`submitted, this`tasks
      ensures Valid() && Value() == N.OnLoopBack(old(Value()), d, o)
    {
      hide Match, KeysMatch, N.OnLoopBack;
      hide FinishTable.Valid, DoneTable.Valid, PreVoteTable.Valid, FinVoteTable.Valid, Elector.Valid, Spb.Table.Valid;
      HandleLoopBack(d, o);
    }

    method StartCase(o: N.Oracle) returns (sends: seq<Envelope>)
      requires Valid()
      modifies this`running
      ensures Valid() && N.Out(Value(), sends) == N.OnStart(me, old(Value()), o)
    {
      hide FinishTable.Valid, DoneTable.Valid, PreVoteTable.Valid, FinVoteTable.Valid, Elector.Valid, Spb.Table.Valid;
      sends := [];
      if !running {
        running := true;
        sends := [Env(NONE, Proposal(me, Block(me, o.payloads, epoch), epoch, 0, ONE_PHASE))];
      }
    }

    /** One turn of the loop: whatever happens, the object does what Node.Step says. */
    method Turn(ev: N.Event) returns (sends: seq<Envelope>)
      requires Valid()
      modifies this, finishes.Repr, dones.Repr, pres.Repr, fins.Repr, elector.Repr, spbs.Repr
      ensures Valid() && Grown()
      ensures N.Out(Value(), sends) == N.Step(c, me, old(Value()), ev)
    {
      hide Match, KeysMatch, N.OnMessage, N.RunTask, N.OnLoopBack;
      hide FinishTable.Valid, DoneTable.Valid, PreVoteTable.Valid, FinVoteTable.Valid, Elector.Valid, Spb.Table.Valid;
      sends := [];
      match ev
      case Start(o) => sends := StartCase(o);
      case Recv(m, o) =>
        if running {
          sends := Receive(m, o);
        }
      case Run(m) => sends := RunCase(m);
      case Loop(d, o) =>
        if running {
          LoopCase(d, o);
        }
    }

    /** The loop, on the events it happens to see: a core just made ends where Local.After says,
        with the log that Local.After says, so what holds of every run holds of the object. */
    method Run(evs: seq<N.Event>) returns (log: seq<Envelope>)
      requires Valid() && Value() == N.INIT
      modifies this, finishes.Repr, dones.Repr, pres.Repr, fins.Repr, elector.Repr, spbs.Repr
      ensures Valid() && N.Out(Value(), log) == L.After(c, me, evs)
    {
      hide Match, KeysMatch, N.Step;
      hide FinishTable.Valid, DoneTable.Valid, PreVoteTable.Valid, FinVoteTable.Valid, Elector.Valid, Spb.Table.Valid;
      log := [];
      for i := 0 to |evs|
        invariant Valid() && Grown() && N.Out(Value(), log) == L.After(c, me, evs[..i])
      {
        assert evs[..i + 1][..i] == evs[..i];
        var sends := Turn(evs[i]);
        log := log + sends;
      }
      assert evs[..|evs|] == evs;
    }
  }
}

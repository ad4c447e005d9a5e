/** One strong provable broadcast instance: what processProposal and processVote
    do to its state, what they send, and which buffered messages they set going again. */
module Spb {
  import opened Messages

  /** The state of one instance. `votes` lists the votes counted so far, in order;
      the counter of a phase is the number of them that carry that phase. */
  datatype State = State(
    hash: Option<Digest>,
    votes: seq<Msg>,
    lock: bool,
    bufP: seq<Msg>,
    bufV: seq<Msg>)

  const FRESH := State(None, [], false, [], [])

  /** The state after a call, the messages sent, and the messages handed to new goroutines. */
  datatype Result = Result(st: State, sends: seq<Envelope>, spawn: seq<Msg>)

  function Count(votes: seq<Msg>, phase: int): (k: nat)
    ensures k <= |votes|
  {
    if votes == [] then 0
    else
      var v := votes[|votes| - 1];
      Count(votes[..|votes| - 1], phase) + if v.SpbVote? && v.phase == phase then 1 else 0
  }

  function PhaseTwo(me: int, k: Inst): Msg {
    Proposal(me, Block(k.p, [], -1), k.e, k.r, TWO_PHASE)
  }

  function VoteOne(me: int, k: Inst, h: Digest): Msg {
    SpbVote(me, k.p, h, k.e, k.r, ONE_PHASE)
  }

  function VoteTwo(me: int, k: Inst): Msg {
    SpbVote(me, k.p, Zero, k.e, k.r, TWO_PHASE)
  }

  function OnProposal(me: int, k: Inst, s: State, p: Msg): Result
    requires p.Proposal? && k == InstOf(p)
  {
    if p.phase == ONE_PHASE then
      if s.hash.Some? || k.p != p.b.proposer then Result(s, [], [])
      else
        Result(s.(hash := Some(HashOf(p.b)), bufP := [], bufV := []),
               [Env(k.p, VoteOne(me, k, HashOf(p.b)))],
               s.bufP + s.bufV)
    else if p.phase == TWO_PHASE then
      if s.hash.None? then Result(s.(bufP := s.bufP + [p]), [], [])
      else Result(s.(lock := true), [Env(k.p, VoteTwo(me, k))], [])
    else Result(s, [], [])
  }

  function OnVote(me: int, k: Inst, s: State, v: Msg, th: nat): Result
    requires v.SpbVote? && k == InstOf(v)
  {
    if s.hash.None? then Result(s.(bufV := s.bufV + [v]), [], [])
    else
      var s' := s.(votes := s.votes + [v]);
      if Count(s'.votes, v.phase) != th then Result(s', [], [])
      else if v.phase == ONE_PHASE then Result(s', [Env(NONE, PhaseTwo(me, k))], [])
      else if v.phase == TWO_PHASE then Result(s', [Env(NONE, Finish(me, s.hash.value, k.e, k.r))], [])
      else Result(s', [], [])
  }

  function OnMessage(me: int, k: Inst, s: State, m: Msg, th: nat): Result
    requires (m.Proposal? || m.SpbVote?) && k == InstOf(m)
  {
    if m.Proposal? then OnProposal(me, k, s, m) else OnVote(me, k, s, m, th)
  }

  /** The positions of the votes of a phase. */
  ghost function Positions(votes: seq<Msg>, phase: int): set<int> {
    set i | 0 <= i < |votes| && votes[i].SpbVote? && votes[i].phase == phase
  }

  lemma PositionsSnoc(votes: seq<Msg>, v: Msg, phase: int)
    ensures |Positions(votes + [v], phase)| == |Positions(votes, phase)| + if v.SpbVote? && v.phase == phase then 1 else 0
  {
    if v.SpbVote? && v.phase == phase {
      assert Positions(votes + [v], phase) == Positions(votes, phase) + {|votes|};
    } else {
      assert Positions(votes + [v], phase) == Positions(votes, phase);
    }
  }

  lemma {:induction false} PositionsCount(votes: seq<Msg>, phase: int)
    ensures |Positions(votes, phase)| == Count(votes, phase)
  {
    if votes != [] {
      var init, v := votes[..|votes| - 1], votes[|votes| - 1];
      assert votes == init + [v];
      PositionsCount(init, phase);
      PositionsSnoc(init, v, phase);
    }
  }

  /** An instance as the code keeps it: one counter per phase, and its buffers. */
  class Instance {
    const me: int
    const k: Inst
    const th: nat
    var blockHash: Option<Digest>
    var votes: map<int, nat>
    var lockFlag: bool
    var unHandleProposal: seq<Msg>
    var unHandleVote: seq<Msg>
    ghost var counted: seq<Msg>

    ghost predicate Valid()
      reads this
    {
      forall phase :: Counter(phase) == |Positions(counted, phase)|
    }

    function Counter(phase: int): nat
      reads this
    {
      if phase in votes then votes[phase] else 0
    }

    ghost function View(): State
      reads this
    {
      State(blockHash, counted, lockFlag, unHandleProposal, unHandleVote)
    }

    constructor (me: int, k: Inst, th: nat)
      ensures Valid() && View() == FRESH && this.me == me && this.k == k && this.th == th
    {
      this.me, this.k, this.th := me, k, th;
      blockHash, votes, lockFlag, unHandleProposal, unHandleVote, counted := None, map[], false, [], [], [];
    }

    method ProcessProposal(p: Msg) returns (sends: seq<Envelope>, spawn: seq<Msg>)
      requires Valid() && p.Proposal? && k == InstOf(p)
      modifies this
      ensures Valid() && Result(View(), sends, spawn) == OnProposal(me, k, old(View()), p)
    {
      sends, spawn := [], [];
      if p.phase == ONE_PHASE {
        if blockHash.Some? || k.p != p.b.proposer {
          return;
        }
        blockHash := Some(HashOf(p.b));
        sends := [Env(k.p, VoteOne(me, k, HashOf(p.b)))];
        for i := 0 to |unHandleProposal|
          invariant spawn == unHandleProposal[..i]
        {
          spawn := spawn + [unHandleProposal[i]];
        }
        for i := 0 to |unHandleVote|
          invariant spawn == unHandleProposal + unHandleVote[..i]
        {
          spawn := spawn + [unHandleVote[i]];
        }
        unHandleProposal, unHandleVote := [], [];
      } else if p.phase == TWO_PHASE {
        if blockHash.None? {
          unHandleProposal := unHandleProposal + [p];
          return;
        }
        lockFlag := true;
        sends := [Env(k.p, VoteTwo(me, k))];
      }
    }

    method ProcessVote(v: Msg) returns (sends: seq<Envelope>)
      requires Valid() && v.SpbVote? && k == InstOf(v)
      modifies this
      ensures Valid() && Result(View(), sends, []) == OnVote(me, k, old(View()), v, th)
    {
      sends := [];
      if blockHash.None? {
        unHandleVote := unHandleVote + [v];
        return;
      }
      forall phase ensures |Positions(counted + [v], phase)| == |Positions(counted, phase)| + if v.phase == phase then 1 else 0 {
        PositionsSnoc(counted, v, phase);
      }
      PositionsCount(counted + [v], v.phase);
      votes := votes[v.phase := Counter(v.phase) + 1];
      counted := counted + [v];
      var num := votes[v.phase];
      if num == th {
        if v.phase == ONE_PHASE {
          sends := [Env(NONE, PhaseTwo(me, k))];
        } else if v.phase == TWO_PHASE {
          sends := [Env(NONE, Finish(me, blockHash.value, k.e, k.r))];
        }
      }
    }
  }

  /** The state of an instance, fresh when nothing has happened to it. */
  function StateAt(view: map<Inst, State>, k: Inst): State {
    if k in view then view[k] else FRESH
  }

  /** The instances of a core, each made when first needed. */
  class Table {
    const me: int
    const th: nat
    var items: map<Inst, Instance>
    ghost var view: map<Inst, State>
    ghost var Repr: set<object>

    ghost predicate Valid()
      reads this, Repr
      ensures Valid() ==> this in Repr
    {
      && this in Repr && items.Values <= Repr
      && view.Keys <= items.Keys
      && (forall k :: k in items ==> items[k].Valid() && items[k].View() == StateAt(view, k))
      && (forall k :: k in items ==> items[k].me == me && items[k].k == k && items[k].th == th)
    }

    constructor (me: int, th: nat)
      ensures Valid() && view == map[] && Repr == {this} && this.me == me && this.th == th
    {
      this.me, this.th, items, view, Repr := me, th, map[], map[], {this};
    }

    method Get(k: Inst) returns (s: Instance)
      requires Valid()
      modifies this`items, this`Repr
      ensures Valid() && k in items && items[k] == s && fresh(Repr - old(Repr))
      ensures s.View() == StateAt(view, k)
    {
      if k !in items {
        s := new Instance(me, k, th);
        items := items[k := s];
        Repr := Repr + {s};
      } else {
        s := items[k];
      }
    }

    /** Runs a waiting message on its instance. */
    method Process(m: Msg) returns (sends: seq<Envelope>, spawn: seq<Msg>)
      requires Valid() && (m.Proposal? || m.SpbVote?)
      modifies Repr
      ensures Valid() && fresh(Repr - old(Repr))
      ensures var r := OnMessage(me, InstOf(m), StateAt(old(view), InstOf(m)), m, th);
              view == old(view)[InstOf(m) := r.st] && sends == r.sends && spawn == r.spawn
    {
      hide Instance.Valid, Instance.View, OnVote, OnProposal;
      var k := InstOf(m);
      var s := Get(k);
      if m.Proposal? {
        sends, spawn := s.ProcessProposal(m);
      } else {
        sends := s.ProcessVote(m);
        spawn := [];
      }
      view := view[k := s.View()];
    }
  }

  lemma CountSnoc(votes: seq<Msg>, v: Msg, phase: int)
    ensures Count(votes + [v], phase) == Count(votes, phase) + if v.SpbVote? && v.phase == phase then 1 else 0
  {
    assert (votes + [v])[..|votes|] == votes;
  }
}

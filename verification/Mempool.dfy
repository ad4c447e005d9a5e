/** The mempool queue: micro-blocks are stored before they are queued, and queued digests are
    handed to consensus once. */
module Mempool {

  /** The digest of a micro-block. */
  type MicroDigest = nat

  /** The queued digests, the digests in order of arrival, the stored digests, and the digests
      handed to consensus so far. */
  datatype State = State(queue: set<MicroDigest>, actual: seq<MicroDigest>, store: set<MicroDigest>, handed: seq<MicroDigest>)

  const INIT := State({}, [], {}, [])

  datatype Error = FullMemory | WriteFailed

  datatype Status = Ok | Err(error: Error)

  /** Storing a block of one's own, unless the queue is full or the write fails. */
  function Process(st: State, max: nat, d: MicroDigest, writeOk: bool): (State, Status) {
    if |st.queue| >= max then (st, Err(FullMemory))
    else if !writeOk then (st, Err(WriteFailed))
    else (st.(store := st.store + {d}), Ok)
  }

  function OnOwn(st: State, max: nat, d: MicroDigest, writeOk: bool): (State, Status) {
    if |st.queue| >= max then (st, Err(FullMemory))
    else
      var (st', r) := Process(st, max, d, writeOk);
      if r.Err? then (st, r) else (st'.(queue := st'.queue + {d}, actual := st'.actual + [d]), Ok)
  }

  function OnOther(st: State, max: nat, d: MicroDigest, signed: bool, writeOk: bool): (State, Status) {
    if |st.queue| >= max then (st, Err(FullMemory))
    else if !signed || d in st.store then (st, Ok)
    else if !writeOk then (st, Err(WriteFailed))
    else (st.(queue := st.queue + {d}, actual := st.actual + [d], store := st.store + {d}), Ok)
  }

  function Elems(ds: seq<MicroDigest>): set<MicroDigest> {
    set d <- ds
  }

  function OnClean(st: State, ds: seq<MicroDigest>): State {
    st.(queue := st.queue - Elems(ds))
  }

  /** How many digests a make request takes from a queue of n. A limit below 1 is never
      reached by the countdown, and everything is taken. */
  function Taken(limit: int, n: nat): nat {
    if 1 <= limit < n then limit else n
  }

  ghost predicate Distinct(ds: seq<MicroDigest>) {
    forall i, j :: 0 <= i < j < |ds| ==> ds[i] != ds[j]
  }

  /** ret is a legal answer to a make request on a queue that is not empty: distinct queued
      digests, as many as the limit allows. The order of a Go map is not determined. */
  ghost predicate Choice(queue: set<MicroDigest>, limit: int, ret: seq<MicroDigest>) {
    && Distinct(ret) && (forall d :: d in ret ==> d in queue)
    && |ret| == Taken(limit, |queue|)
  }

  /** What a make request does, the answer ret being chosen. With an empty queue a fresh block
      d is made from the pool, stored and handed out directly. */
  ghost predicate Makes(st: State, max: nat, limit: int, d: MicroDigest, writeOk: bool, ret: seq<MicroDigest>, r: Status, st': State) {
    if st.queue == {} then
      && (st', r) == (var (s, r) := Process(st, max, d, writeOk);
                      if r.Err? then (s, r) else (s.(handed := s.handed + [d]), r))
      && ret == if r.Ok? then [d] else []
    else
      && Choice(st.queue, limit, ret) && r == Ok
      && st' == st.(queue := st.queue - Elems(ret), handed := st.handed + ret)
  }

  class Mempool {
    const max: nat
    var queue: set<MicroDigest>
    var actual: seq<MicroDigest>
    var store: set<MicroDigest>
    var handed: seq<MicroDigest>

    ghost function View(): State
      reads this
    {
      State(queue, actual, store, handed)
    }

    constructor (max: nat)
      ensures View() == INIT && this.max == max
    {
      this.max := max;
      queue, actual, store, handed := {}, [], {}, [];
    }

    method PayloadProcess(d: MicroDigest, writeOk: bool) returns (r: Status)
      modifies this
      ensures (View(), r) == Process(old(View()), max, d, writeOk)
      ensures r == Err(FullMemory) <==> |old(queue)| >= max
      ensures r == Err(WriteFailed) <==> |old(queue)| < max && !writeOk
    {
      if |queue| >= max {
        return Err(FullMemory);
      }
      if !writeOk {
        return Err(WriteFailed);
      }
      store := store + {d};
      return Ok;
    }

    method HandleOwnBlock(d: MicroDigest, writeOk: bool) returns (r: Status)
      modifies this
      ensures (View(), r) == OnOwn(old(View()), max, d, writeOk)
      ensures r == Err(FullMemory) <==> |old(queue)| >= max
      ensures r == Err(WriteFailed) <==> |old(queue)| < max && !writeOk
      ensures if r.Err? then View() == old(View()) else d in queue && d in store
    {
      if |queue| >= max {
        return Err(FullMemory);
      }
      r := PayloadProcess(d, writeOk);
      if r.Err? {
        return;
      }
      queue := queue + {d};
      actual := actual + [d];
    }

    method HandleOtherBlock(d: MicroDigest, signed: bool, writeOk: bool) returns (r: Status)
      modifies this
      ensures (View(), r) == OnOther(old(View()), max, d, signed, writeOk)
      ensures r == Err(FullMemory) <==> |old(queue)| >= max
      ensures r == Err(WriteFailed) <==> |old(queue)| < max && signed && d !in old(store) && !writeOk
      ensures if r.Err? || !signed then View() == old(View()) else d in store
    {
      if |queue| >= max {
        return Err(FullMemory);
      }
      if !signed {
        return Ok;
      }
      if d in store {
        return Ok;
      }
      if !writeOk {
        return Err(WriteFailed);
      }
      store := store + {d};
      queue := queue + {d};
      actual := actual + [d];
      return Ok;
    }

    /** Takes digests from the queue in any order until the limit is counted down. */
    method Pick(limit: int) returns (ret: seq<MicroDigest>)
      requires queue != {}
      ensures Choice(queue, limit, ret)
    {
      ret := [];
      var nums, rest := limit, queue;
      while rest != {}
        invariant rest <= queue
        invariant Distinct(ret) && forall x :: x in ret <==> x in queue && x !in rest
        invariant |ret| + |rest| == |queue| && nums == limit - |ret|
        invariant limit >= 1 ==> |ret| < limit
        decreases rest
      {
        var key :| key in rest;
        rest := rest - {key};
        ret := ret + [key];
        nums := nums - 1;
        if nums == 0 {
          break;
        }
      }
    }

    /** With an empty queue a fresh block is stored and handed out directly. */
    method HandOutNew(d: MicroDigest, writeOk: bool) returns (ret: seq<MicroDigest>, r: Status)
      modifies this
      ensures var (s, q) := Process(old(View()), max, d, writeOk);
              && r == q && ret == (if r.Ok? then [d] else [])
              && View() == if r.Err? then s else s.(handed := s.handed + [d])
    {
      ret := [];
      r := PayloadProcess(d, writeOk);
      if r.Err? {
        return;
      }
      ret := ret + [d];
      handed := handed + [d];
    }

    /** The digests leave the queue one by one. */
    method Remove(ds: seq<MicroDigest>)
      modifies this`queue
      ensures queue == old(queue) - Elems(ds)
    {
      for i := 0 to |ds|
        invariant queue == old(queue) - Elems(ds[..i])
      {
        ElemsSnoc(ds[..i], ds[i]);
        assert ds[..i + 1] == ds[..i] + [ds[i]];
        queue := queue - {ds[i]};
      }
      assert ds[..|ds|] == ds;
    }

    method HandOutQueued(limit: int) returns (ret: seq<MicroDigest>)
      requires queue != {}
      modifies this
      ensures Choice(old(queue), limit, ret)
      ensures View() == old(View()).(queue := old(queue) - Elems(ret), handed := old(handed) + ret)
    {
      hide Choice, Elems;
      ret := Pick(limit);
      Remove(ret);
      handed := handed + ret;
    }

    method HandleMakeBlock(limit: int, d: MicroDigest, writeOk: bool) returns (ret: seq<MicroDigest>, r: Status)
      modifies this
      ensures Makes(old(View()), max, limit, d, writeOk, ret, r, View())
    {
      hide Choice, Process;
      if |queue| == 0 {
        ret, r := HandOutNew(d, writeOk);
      } else {
        r := Ok;
        ret := HandOutQueued(limit);
      }
    }

    method HandleCleanBlock(ds: seq<MicroDigest>)
      modifies this
      ensures View() == OnClean(old(View()), ds)
    {
      Remove(ds);
    }
  }

  // ---------------------------------------------------------------------------- runs

  datatype Event =
    | Own(d: MicroDigest, writeOk: bool)
    | Other(d: MicroDigest, signed: bool, writeOk: bool)
    | MakeBlock(limit: int, d: MicroDigest, empty: bool, writeOk: bool, ret: seq<MicroDigest>)
    | Clean(ds: seq<MicroDigest>)

  ghost predicate Step(max: nat, st: State, ev: Event, st': State) {
    match ev
    case Own(d, ok) => st' == OnOwn(st, max, d, ok).0
    case Other(d, signed, ok) => st' == OnOther(st, max, d, signed, ok).0
    case MakeBlock(limit, d, _, ok, ret) => exists r :: Makes(st, max, limit, d, ok, ret, r, st')
    case Clean(ds) => st' == OnClean(st, ds)
  }

  /** states are the states of a run over the events evs. */
  ghost predicate IsRun(max: nat, evs: seq<Event>, states: seq<State>) {
    && |states| == |evs| + 1 && states[0] == INIT
    && forall k :: 0 <= k < |evs| ==> Step(max, states[k], evs[k], states[k + 1])
  }

  /** The queue is bounded and stored, and so is everything handed out. */
  ghost predicate Inv(max: nat, st: State) {
    && |st.queue| <= max && st.queue <= st.store
    && forall d :: d in st.handed ==> d in st.store
  }

  lemma {:induction false} InvStep(max: nat, st: State, ev: Event, st': State)
    requires Inv(max, st) && Step(max, st, ev, st')
    ensures Inv(max, st') && st.store <= st'.store
  {
    SubsetNat(st'.queue, st.queue);
  }

  lemma SubsetNat(a: set<MicroDigest>, b: set<MicroDigest>)
    ensures a <= b ==> |a| <= |b|
  {
    if a <= b {
      assert b == a + (b - a);
    }
  }

  /** In every run the queue stays within its bound and every digest handed to consensus is
      stored, so that the proposer's own check of its payloads succeeds. */
  lemma {:induction false} HandedIsStored(max: nat, evs: seq<Event>, states: seq<State>, k: nat)
    requires IsRun(max, evs, states) && k <= |evs|
    ensures Inv(max, states[k])
  {
    if k > 0 {
      HandedIsStored(max, evs, states, k - 1);
      InvStep(max, states[k - 1], evs[k - 1], states[k]);
    }
  }

  // ------------------------------------------------------- stored and queued, exactly

  /** The event queues d: a block of the node's own, or a signed one of another node that is not
      stored yet, while there is room and the write succeeds. */
  predicate Queues(max: nat, st: State, ev: Event, d: MicroDigest) {
    |st.queue| < max &&
    match ev
    case Own(x, ok) => x == d && ok
    case Other(x, signed, ok) => x == d && signed && d !in st.store && ok
    case _ => false
  }

  /** The event stores d: it queues d, or it makes d for an empty queue. */
  predicate Stores(max: nat, st: State, ev: Event, d: MicroDigest) {
    || Queues(max, st, ev, d)
    || (ev.MakeBlock? && st.queue == {} && max > 0 && ev.d == d && ev.writeOk)
  }

  /** The event takes d out of the queue: it is handed to consensus, or it is committed. */
  predicate Unqueues(st: State, ev: Event, d: MicroDigest) {
    || (ev.Clean? && d in ev.ds)
    || (ev.MakeBlock? && st.queue != {} && d in ev.ret)
  }

  /** d was queued by an event and has not been taken out since. */
  ghost predicate QueuedSince(max: nat, evs: seq<Event>, states: seq<State>, j: int, k: nat, d: MicroDigest)
    requires |states| == |evs| + 1 && k <= |evs|
  {
    && 0 <= j < k && Queues(max, states[j], evs[j], d)
    && forall l :: j < l < k ==> !Unqueues(states[l], evs[l], d)
  }

  lemma {:induction false} ContentsStep(max: nat, st: State, ev: Event, st': State, d: MicroDigest)
    requires Step(max, st, ev, st')
    ensures d in st'.store <==> d in st.store || Stores(max, st, ev, d)
    ensures d in st'.queue <==> Queues(max, st, ev, d) || (d in st.queue && !Unqueues(st, ev, d))
  {
    if ev.MakeBlock? && st.queue == {} {
      assert max > 0 <==> |st.queue| < max;
    }
  }

  /** A digest is stored exactly when an earlier event stored it. */
  lemma {:induction false} StoredExactly(max: nat, evs: seq<Event>, states: seq<State>, k: nat, d: MicroDigest)
    requires IsRun(max, evs, states) && k <= |evs|
    ensures d in states[k].store <==> exists j :: 0 <= j < k && Stores(max, states[j], evs[j], d)
  {
    if k > 0 {
      hide Step, Stores;
      StoredExactly(max, evs, states, k - 1, d);
      ContentsStep(max, states[k - 1], evs[k - 1], states[k], d);
    }
  }

  /** A digest is queued exactly when an event queued it and none has taken it out since. */
  lemma {:induction false} QueuedExactly(max: nat, evs: seq<Event>, states: seq<State>, k: nat, d: MicroDigest)
    requires IsRun(max, evs, states) && k <= |evs|
    ensures d in states[k].queue <==> exists j :: QueuedSince(max, evs, states, j, k, d)
  {
    if k > 0 {
      hide Step, Queues, Unqueues;
      QueuedExactly(max, evs, states, k - 1, d);
      ContentsStep(max, states[k - 1], evs[k - 1], states[k], d);
      var now := Unqueues(states[k - 1], evs[k - 1], d);
      forall j ensures QueuedSince(max, evs, states, j, k, d) <==>
                       if j < k - 1 then QueuedSince(max, evs, states, j, k - 1, d) && !now
                       else j == k - 1 && Queues(max, states[j], evs[j], d) {
      }
    }
  }

  /** What the make requests of a run have answered, in order. */
  function Answers(evs: seq<Event>): seq<MicroDigest> {
    if evs == [] then []
    else
      var ev := evs[|evs| - 1];
      Answers(evs[..|evs| - 1]) + if ev.MakeBlock? then ev.ret else []
  }

  /** Consensus gets what the make requests answer, in order; on an empty queue that is the new
      block, if it could be stored. */
  lemma {:induction false} HandedInOrder(max: nat, evs: seq<Event>, states: seq<State>, k: nat)
    requires IsRun(max, evs, states) && k <= |evs|
    ensures states[k].handed == Answers(evs[..k])
    ensures k < |evs| && evs[k].MakeBlock? && states[k].queue == {} ==>
              evs[k].ret == if max > 0 && evs[k].writeOk then [evs[k].d] else []
  {
    if k > 0 {
      HandedInOrder(max, evs, states, k - 1);
      assert evs[..k][..k - 1] == evs[..k - 1];
      assert Step(max, states[k - 1], evs[k - 1], states[k]);
    }
    if k < |evs| {
      assert Step(max, states[k], evs[k], states[k + 1]);
    }
  }

  /** What an event adds to the queued digests. */
  function Arrives(max: nat, st: State, ev: Event): seq<MicroDigest> {
    if (ev.Own? || ev.Other?) && Queues(max, st, ev, ev.d) then [ev.d] else []
  }

  /** The digests queued by the first k events, in order. */
  function Arrivals(max: nat, evs: seq<Event>, states: seq<State>, k: nat): seq<MicroDigest>
    requires |states| == |evs| + 1 && k <= |evs|
  {
    if k == 0 then [] else Arrivals(max, evs, states, k - 1) + Arrives(max, states[k - 1], evs[k - 1])
  }

  lemma {:induction false} ActualStep(max: nat, st: State, ev: Event, st': State)
    requires Step(max, st, ev, st')
    ensures st'.actual == st.actual + Arrives(max, st, ev)
  {
  }

  /** The list of arrivals keeps every queued digest, in order, and loses none. */
  lemma {:induction false} ArrivedInOrder(max: nat, evs: seq<Event>, states: seq<State>, k: nat)
    requires IsRun(max, evs, states) && k <= |evs|
    ensures states[k].actual == Arrivals(max, evs, states, k)
  {
    hide Step;
    if k > 0 {
      ArrivedInOrder(max, evs, states, k - 1);
      ActualStep(max, states[k - 1], evs[k - 1], states[k]);
    }
  }

  // ----------------------------------------------------------------------- handed once

  /** A node's own blocks are new to it: the digest of a block it makes from its own pool is
      not stored yet, unless it is the empty block, and nobody else makes that one. */
  predicate FreshOwn(st: State, ev: Event, blank: MicroDigest) {
    match ev
    case Own(d, _) => d !in st.store && d != blank
    case MakeBlock(_, d, empty, _, _) => st.queue == {} ==> if empty then d == blank else d !in st.store && d != blank
    case Other(d, _, _) => d == blank ==> d in st.store
    case Clean(_) => true
  }

  ghost predicate OwnAreFresh(evs: seq<Event>, states: seq<State>, blank: MicroDigest)
    requires |states| == |evs| + 1
  {
    forall k :: 0 <= k < |evs| ==> FreshOwn(states[k], evs[k], blank)
  }

  /** Apart from the empty block, nothing is handed out twice, and nothing handed out is queued. */
  ghost predicate Once(st: State, blank: MicroDigest) {
    && (forall i, j :: 0 <= i < j < |st.handed| && st.handed[i] != blank ==> st.handed[i] != st.handed[j])
    && (forall d :: d in st.handed && d != blank ==> d !in st.queue)
    && blank !in st.queue
  }

  lemma {:induction false} OnceStep(max: nat, st: State, ev: Event, st': State, blank: MicroDigest)
    requires Inv(max, st) && Once(st, blank) && Step(max, st, ev, st') && FreshOwn(st, ev, blank)
    ensures Once(st', blank)
  {
    if ev.MakeBlock? {
      assert forall i :: 0 <= i < |st.handed| ==> st.handed[i] in st.handed;
      assert forall i :: 0 <= i < |ev.ret| ==> ev.ret[i] in ev.ret;
    }
  }

  /** Every micro-block other than the empty one is handed to consensus at most once. */
  lemma {:induction false} HandedOnce(max: nat, evs: seq<Event>, states: seq<State>, k: nat, blank: MicroDigest)
    requires IsRun(max, evs, states) && OwnAreFresh(evs, states, blank) && k <= |evs|
    ensures Once(states[k], blank)
  {
    if k > 0 {
      HandedOnce(max, evs, states, k - 1, blank);
      HandedIsStored(max, evs, states, k - 1);
      OnceStep(max, states[k - 1], evs[k - 1], states[k], blank);
    }
  }

  /** A make request splits the queue into taken and remaining; with a limit below 1 nothing remains. */
  lemma MakeSplits(st: State, max: nat, limit: int, d: MicroDigest, writeOk: bool, ret: seq<MicroDigest>, r: Status, st': State)
    requires Makes(st, max, limit, d, writeOk, ret, r, st') && st.queue != {}
    ensures Elems(ret) + st'.queue == st.queue && Elems(ret) !! st'.queue
    ensures |ret| + |st'.queue| == |st.queue|
    ensures limit >= 1 ==> |ret| <= limit && (st'.queue != {} ==> |ret| == limit)
    ensures limit < 1 ==> st'.queue == {}
  {
    DistinctSize(ret);
    assert Elems(ret) <= st.queue;
    assert st.queue == Elems(ret) + st'.queue;
  }

  lemma ElemsSnoc(ds: seq<MicroDigest>, x: MicroDigest)
    ensures Elems(ds + [x]) == Elems(ds) + {x}
  {
  }

  lemma {:induction false} DistinctSize(ds: seq<MicroDigest>)
    requires Distinct(ds)
    ensures |Elems(ds)| == |ds|
  {
    if ds != [] {
      var init, x := ds[..|ds| - 1], ds[|ds| - 1];
      DistinctSize(init);
      assert ds == init + [x];
      ElemsSnoc(init, x);
      assert x !in init;
    }
  }
}

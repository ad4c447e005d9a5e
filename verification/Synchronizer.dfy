/** The synchronizer: blocks whose payloads are missing are tracked until the payloads have
    arrived, and then looped back to consensus. */
module Synchronizer {
  import opened Messages
  import S = Store

  /** The digest of a micro-block or of a consensus block, which is its key in the store. */
  type Key = S.Key

  /** The zero digest: 32 bytes. */
  const ZERO: Key := [0, 0, 0, 0, 0, 0, 0, 0, 0, 0, 0, 0, 0, 0, 0, 0,
                       0, 0, 0, 0, 0, 0, 0, 0, 0, 0, 0, 0, 0, 0, 0, 0]

  /** The payloads of the consensus block with a given digest. */
  type Payloads = Key -> seq<Key>

  datatype SyncMsg =
    | SyncBlock(missing: seq<Key>, author: int, epoch: int, block: Key)
    | CleanUp(upTo: nat)

  /** A block being waited for: its epoch as an unsigned number, the channel that cancels its
      waiter, the payloads missing and the proposer. */
  datatype Entry = Entry(epoch: nat, notify: nat, missing: seq<Key>, author: int)

  /** A waiter asks the store for its missing payloads one after another; `asked` are the numbers
      of its requests, the first `got` of which have been answered. It reports once. */
  datatype Waiter = Waiter(block: Key, missing: seq<Key>, notify: nat, asked: seq<nat>, got: nat, reported: bool)

  /** The requests made to the store, the messages to the loop, the tracked blocks, the waiters started,
      the reports to the loop, the blocks looped back, the channels closed and how often, the
      number of channels made, and the payload requests sent. */
  datatype State = State(
    reqs: seq<S.Req>,
    inter: seq<SyncMsg>,
    pending: map<Key, Entry>,
    waiters: seq<Waiter>,
    reports: seq<Key>,
    loopback: seq<Key>,
    closed: multiset<nat>,
    channels: nat,
    requests: seq<(int, seq<Key>)>)

  const INIT := State([], [], map[], [], [], [], multiset{}, 0, [])

  /** The payloads the store holds after the requests made to it. */
  function Stored(reqs: seq<S.Req>): set<Key> {
    S.After(reqs).db.Keys
  }

  datatype Verdict = Ok | Wait

  /** A signed 64-bit epoch read as an unsigned one. */
  function Unsigned(e: int): nat {
    e % 0x1_0000_0000_0000_0000
  }

  /** The payloads of a list that are not stored, in order. */
  function Missing(stored: set<Key>, ds: seq<Key>): (ms: seq<Key>)
    ensures forall d :: d in ms <==> d in ds && d !in stored
  {
    if ds == [] then []
    else
      var d := ds[|ds| - 1];
      Missing(stored, ds[..|ds| - 1]) + if d in stored then [] else [d]
  }

  /** The missing payloads of a block are listed in the order of the block, one for each place. */
  lemma {:induction false} MissingInOrder(stored: set<Key>, ds: seq<Key>, es: seq<Key>)
    ensures Missing(stored, ds + es) == Missing(stored, ds) + Missing(stored, es)
    ensures |ds| == 1 ==> Missing(stored, ds) == if ds[0] in stored then [] else ds
  {
    if es == [] {
      assert ds + es == ds;
    } else {
      assert (ds + es)[..|ds + es| - 1] == ds + es[..|es| - 1];
      MissingInOrder(stored, ds, es[..|es| - 1]);
    }
    if |ds| == 1 {
      assert ds[..0] == [] && ds == [ds[0]];
    }
  }

  // -------------------------------------------------------------------------- steps

  function OnVerify(st: State, proposer: int, epoch: int, ds: seq<Key>, block: Key): (State, Verdict) {
    var ms := Missing(Stored(st.reqs), ds);
    if ms == [] then (st, Ok)
    else (st.(inter := st.inter + [SyncBlock(ms, proposer, epoch, block)]), Wait)
  }

  /** The loop takes up a block with missing payloads, unless it is tracked already. */
  function OnSyncBlock(st: State, m: SyncMsg): State
    requires m.SyncBlock?
  {
    if m.block in st.pending then st
    else
      st.(pending := st.pending[m.block := Entry(Unsigned(m.epoch), st.channels, m.missing, m.author)],
          waiters := st.waiters + [Waiter(m.block, m.missing, st.channels, [], 0, false)],
          channels := st.channels + 1,
          requests := st.requests + [(m.author, m.missing)])
  }

  /** The tracked blocks a clean-up ends, and among them those with channel x. */
  function Expired(pending: map<Key, Entry>, epoch: nat): set<Key> {
    set k | k in pending && pending[k].epoch <= epoch
  }

  function Closing(pending: map<Key, Entry>, keys: set<Key>, x: nat): set<Key> {
    set k | k in keys && k in pending && pending[k].notify == x
  }

  /** A clean-up closes the channel of every expired block and drops the block. */
  ghost predicate CleansUp(st: State, epoch: nat, st': State) {
    && st' == st.(pending := st.pending - Expired(st.pending, epoch), closed := st'.closed)
    && ClosedFor(st.closed, st'.closed, st.pending, Expired(st.pending, epoch))
  }

  function OnReport(st: State, block: Key): State {
    if block == ZERO then st
    else st.(pending := st.pending - {block}, loopback := st.loopback + [block])
  }

  /** Waiter w asks the store for its next payload. */
  function OnAsk(st: State, w: nat): State
    requires w < |st.waiters| && st.waiters[w].got < |st.waiters[w].missing|
  {
    var x := st.waiters[w];
    st.(reqs := st.reqs + [S.NotifyRead(x.missing[x.got])],
        waiters := st.waiters[w := x.(asked := x.asked + [|st.reqs|])])
  }

  class Synchronizer {
    const store: S.Store
    var issued: nat
    ghost var reqs: seq<S.Req>
    var inter: seq<SyncMsg>
    var pending: map<Key, Entry>
    var waiters: seq<Waiter>
    var reports: seq<Key>
    var loopback: seq<Key>
    var closed: multiset<nat>
    var channels: nat
    var requests: seq<(int, seq<Key>)>

    ghost predicate Valid()
      reads this, store
    {
      store.View() == S.After(reqs) && issued == |reqs|
    }

    ghost function View(): State
      reads this
    {
      State(reqs, inter, pending, waiters, reports, loopback, closed, channels, requests)
    }

    constructor (store: S.Store)
      requires store.View() == S.INIT
      ensures Valid() && View() == INIT && this.store == store
    {
      this.store := store;
      issued, reqs, inter, pending, waiters, reports, loopback := 0, [], [], map[], [], [], [];
      closed, channels, requests := multiset{}, 0, [];
    }

    /** Checks that every payload of a block is stored, and asks for those that are not. */
    method Verify(proposer: int, epoch: int, ds: seq<Key>, block: Key) returns (v: Verdict)
      requires Valid()
      modifies this`inter
      ensures Valid() && (View(), v) == OnVerify(old(View()), proposer, epoch, ds, block)
    {
      var missing: seq<Key> := [];
      for i := 0 to |ds|
        invariant missing == Missing(Stored(reqs), ds[..i])
      {
        assert ds[..i + 1][..i] == ds[..i];
        if ds[i] !in store.db {
          missing := missing + [ds[i]];
        }
      }
      assert ds[..|ds|] == ds;
      if |missing| == 0 {
        return Ok;
      }
      inter := inter + [SyncBlock(missing, proposer, epoch, block)];
      return Wait;
    }

    method HandleSyncBlock(m: SyncMsg)
      requires m.SyncBlock?
      modifies this`pending, this`waiters, this`channels, this`requests
      ensures View() == OnSyncBlock(old(View()), m)
    {
      if m.block in pending {
        return;
      }
      var notify := channels;
      channels := channels + 1;
      waiters := waiters + [Waiter(m.block, m.missing, notify, [], 0, false)];
      pending := pending[m.block := Entry(Unsigned(m.epoch), notify, m.missing, m.author)];
      requests := requests + [(m.author, m.missing)];
    }

    method HandleCleanUp(epoch: nat)
      modifies this`pending, this`closed
      ensures CleansUp(old(View()), epoch, View())
    {
      var keys := CloseExpired(epoch);
      pending := pending - keys;
    }

    /** Closes the channels of the expired blocks and collects their keys. */
    method CloseExpired(epoch: nat) returns (keys: set<Key>)
      modifies this`closed
      ensures keys == Expired(pending, epoch) && ClosedFor(old(closed), closed, pending, keys)
    {
      var todo := pending.Keys;
      keys := {};
      while todo != {}
        invariant todo <= pending.Keys
        invariant forall k :: k in keys <==> k in pending && k !in todo && pending[k].epoch <= epoch
        invariant ClosedFor(old(closed), closed, pending, keys)
        decreases todo
      {
        var key :| key in todo;
        todo := todo - {key};
        if pending[key].epoch <= epoch {
          ClosingOne(old(closed), closed, pending, keys, key);
          closed := closed + multiset{pending[key].notify};
          keys := keys + {key};
        }
      }
    }

    method HandleReport(block: Key)
      modifies this`pending, this`loopback
      ensures View() == OnReport(old(View()), block)
    {
      if block != ZERO {
        pending := pending - {block};
        loopback := loopback + [block];
      }
    }

    /** Waiter w asks the store, whose loop answers at once or queues the request. */
    method Ask(w: nat)
      requires Valid() && w < |waiters| && waiters[w].got < |waiters[w].missing|
      modifies this`issued, this`reqs, this`waiters, store
      ensures Valid() && View() == OnAsk(old(View()), w)
    {
      var x := waiters[w];
      var req := S.NotifyRead(x.missing[x.got]);
      store.Serve(issued, req);
      waiters := waiters[w := x.(asked := x.asked + [issued])];
      issued := issued + 1;
      assert (reqs + [req])[..|reqs|] == reqs;
      reqs := reqs + [req];
    }
  }

  /** Between was and now the channels of the keys were closed, each once per key. */
  ghost predicate ClosedFor(was: multiset<nat>, now: multiset<nat>, pending: map<Key, Entry>, keys: set<Key>) {
    forall x: nat :: now[x] == was[x] + |Closing(pending, keys, x)|
  }

  lemma ClosingOne(was: multiset<nat>, now: multiset<nat>, pending: map<Key, Entry>, keys: set<Key>, key: Key)
    requires key in pending && key !in keys && ClosedFor(was, now, pending, keys)
    ensures ClosedFor(was, now + multiset{pending[key].notify}, pending, keys + {key})
  {
    forall x: nat ensures (now + multiset{pending[key].notify})[x] == was[x] + |Closing(pending, keys + {key}, x)| {
      if pending[key].notify == x {
        assert Closing(pending, keys + {key}, x) == Closing(pending, keys, x) + {key};
      } else {
        assert Closing(pending, keys + {key}, x) == Closing(pending, keys, x);
      }
    }
  }

  // --------------------------------------------------------------------------- runs

  datatype Event =
    | Request(r: S.Req)
    | Verify(proposer: int, epoch: int, block: Key)
    | AskCleanUp(upTo: nat)
    | TakeMessage
    | WaiterAsks(w: nat)
    | WaiterReads(w: nat)
    | WaiterDone(w: nat)
    | WaiterCancelled(w: nat)
    | TakeReport

  /** One step of the synchronizer, its callers, the waiters or the store. Anybody may read or
      write the store; a waiter asks for its payloads one after another, going on when the
      store has answered, and reports the block when all are answered, or the zero digest when
      its channel is closed, whichever it notices. */
  ghost predicate Step(P: Payloads, st: State, ev: Event, st': State) {
    match ev
    case Request(r) => st' == st.(reqs := st.reqs + [r])
    case Verify(p, e, b) => st' == OnVerify(st, p, e, P(b), b).0
    case AskCleanUp(e) => st' == st.(inter := st.inter + [CleanUp(e)])
    case TakeMessage =>
      st.inter != [] &&
      var rest := st.(inter := st.inter[1..]);
      if st.inter[0].SyncBlock? then st' == OnSyncBlock(rest, st.inter[0])
      else CleansUp(rest, st.inter[0].upTo, st')
    case WaiterAsks(w) =>
      w < |st.waiters| && |st.waiters[w].asked| == st.waiters[w].got < |st.waiters[w].missing| && st' == OnAsk(st, w)
    case WaiterReads(w) =>
      w < |st.waiters| &&
      var x := st.waiters[w];
      |x.asked| == x.got + 1 && IsAnswered(st.reqs, x.asked[x.got]) &&
      st' == st.(waiters := st.waiters[w := x.(got := x.got + 1)])
    case WaiterDone(w) =>
      w < |st.waiters| &&
      var x := st.waiters[w];
      !x.reported && x.got == |x.missing| &&
      st' == st.(waiters := st.waiters[w := x.(reported := true)], reports := st.reports + [x.block])
    case WaiterCancelled(w) =>
      w < |st.waiters| &&
      var x := st.waiters[w];
      !x.reported && x.notify in st.closed &&
      st' == st.(waiters := st.waiters[w := x.(reported := true)], reports := st.reports + [ZERO])
    case TakeReport =>
      st.reports != [] && st' == OnReport(st.(reports := st.reports[1..]), st.reports[0])
  }

  /** The store has replied to request number id. */
  ghost predicate IsAnswered(reqs: seq<S.Req>, id: nat) {
    exists a :: S.Answered(S.After(reqs), id, a)
  }

  ghost predicate IsRun(P: Payloads, evs: seq<Event>, states: seq<State>) {
    && |states| == |evs| + 1 && states[0] == INIT
    && forall k :: 0 <= k < |evs| ==> Step(P, states[k], evs[k], states[k + 1])
  }

  // ---------------------------------------------------------- what an answer is worth

  lemma AnsweredIsDue(reqs: seq<S.Req>, id: nat)
    ensures IsAnswered(reqs, id) <==> id < |reqs| && S.Due(reqs, id).Some?
  {
    if IsAnswered(reqs, id) {
      var a :| S.Answered(S.After(reqs), id, a);
      S.RepliesExact(reqs, id, a);
    }
    if id < |reqs| && S.Due(reqs, id).Some? {
      S.RepliesExact(reqs, id, S.Due(reqs, id).value);
    }
  }

  /** Request w is the first write of the key after request id. */
  ghost predicate Wakes(reqs: seq<S.Req>, id: nat, w: nat) {
    && id < w < |reqs| && reqs[w].Write? && reqs[w].key == reqs[id].key
    && forall v :: id < v < w ==> !(reqs[v].Write? && reqs[v].key == reqs[id].key)
  }

  /** The request was answered by a write that the database refused. */
  ghost predicate RefusedWake(reqs: seq<S.Req>, id: nat) {
    && id < |reqs| && reqs[id].NotifyRead? && S.Current(reqs[..id], reqs[id].key).None?
    && exists w: nat :: Wakes(reqs, id, w) && !reqs[w].ok
  }

  lemma {:induction false} CurrentStays(reqs: seq<S.Req>, j: nat, k: Key)
    requires j <= |reqs| && S.Current(reqs[..j], k).Some?
    ensures S.Current(reqs, k).Some?
  {
    if j < |reqs| {
      assert reqs[..|reqs| - 1][..j] == reqs[..j];
      CurrentStays(reqs[..|reqs| - 1], j, k);
    } else {
      assert reqs[..j] == reqs;
    }
  }

  lemma {:induction false} AcceptedIsStored(reqs: seq<S.Req>, w: nat)
    requires w < |reqs| && reqs[w].Write? && reqs[w].ok
    ensures reqs[w].key in Stored(reqs)
  {
    assert reqs[..w + 1][..w] == reqs[..w];
    CurrentStays(reqs, w + 1, reqs[w].key);
    S.DbIsCurrent(reqs, reqs[w].key);
  }

  lemma {:induction false} FirstWriteWakes(reqs: seq<S.Req>, id: nat, i: nat) returns (w: nat)
    requires id < i <= |reqs| && S.FirstWrite(reqs, i, reqs[id].key).Some?
    requires forall v :: id < v < i ==> !(reqs[v].Write? && reqs[v].key == reqs[id].key)
    ensures Wakes(reqs, id, w)
    decreases |reqs| - i
  {
    if reqs[i].Write? && reqs[i].key == reqs[id].key {
      w := i;
    } else {
      w := FirstWriteWakes(reqs, id, i + 1);
    }
  }

  /** A payload asked for and answered is stored, unless the answer was a refused write. */
  lemma {:induction false} AnswerIsWorth(reqs: seq<S.Req>, id: nat)
    requires id < |reqs| && reqs[id].NotifyRead? && IsAnswered(reqs, id)
    ensures reqs[id].key in Stored(reqs) || RefusedWake(reqs, id)
  {
    var k := reqs[id].key;
    AnsweredIsDue(reqs, id);
    if S.Current(reqs[..id], k).Some? {
      CurrentStays(reqs, id, k);
      S.DbIsCurrent(reqs, k);
    } else {
      var w := FirstWriteWakes(reqs, id, id + 1);
      if reqs[w].ok {
        AcceptedIsStored(reqs, w);
      }
    }
  }

  lemma {:induction false} StoredSnoc(reqs: seq<S.Req>, r: S.Req)
    ensures Stored(reqs) <= Stored(reqs + [r])
  {
    assert (reqs + [r])[..|reqs|] == reqs;
  }

  lemma {:induction false} AnsweredSnoc(reqs: seq<S.Req>, r: S.Req, id: nat)
    requires IsAnswered(reqs, id)
    ensures IsAnswered(reqs + [r], id)
  {
    AnsweredIsDue(reqs, id);
    S.DueSnoc(reqs, r, id);
    AnsweredIsDue(reqs + [r], id);
  }

  // ------------------------------------------------------------------ loopback, exactly

  /** Whatever of a block is not stored is among the payloads being waited for. */
  ghost predicate Covers(P: Payloads, stored: set<Key>, block: Key, missing: seq<Key>) {
    forall d :: d in P(block) ==> d in stored || d in missing
  }

  /** The waiter's requests are for its payloads in order, the first got of them answered. */
  ghost predicate WaiterOk(P: Payloads, reqs: seq<S.Req>, x: Waiter) {
    && Covers(P, Stored(reqs), x.block, x.missing)
    && (forall d :: d in x.missing ==> d in P(x.block))
    && x.got <= |x.asked| <= |x.missing|
    && (forall j :: 0 <= j < |x.asked| ==> x.asked[j] < |reqs| && reqs[x.asked[j]] == S.NotifyRead(x.missing[j]))
    && (forall j :: 0 <= j < x.got ==> IsAnswered(reqs, x.asked[j]))
  }

  ghost predicate MessageOk(P: Payloads, reqs: seq<S.Req>, m: SyncMsg) {
    m.SyncBlock? ==> Covers(P, Stored(reqs), m.block, m.missing) && forall d :: d in m.missing ==> d in P(m.block)
  }

  /** Some waiter of the block has had all its answers. */
  ghost predicate Served(st: State, block: Key) {
    exists w :: 0 <= w < |st.waiters| && ServedBy(st.waiters[w], block)
  }

  predicate ServedBy(x: Waiter, block: Key) {
    x.block == block && x.got == |x.missing|
  }

  ghost predicate Sound(P: Payloads, st: State) {
    && (forall m :: m in st.inter ==> MessageOk(P, st.reqs, m))
    && (forall w :: 0 <= w < |st.waiters| ==> WaiterOk(P, st.reqs, st.waiters[w]))
    && (forall b :: b in st.reports && b != ZERO ==> Served(st, b))
    && (forall b :: b in st.loopback ==> Served(st, b))
  }

  lemma {:induction false} WaiterSnoc(P: Payloads, reqs: seq<S.Req>, r: S.Req, x: Waiter)
    requires WaiterOk(P, reqs, x)
    ensures WaiterOk(P, reqs + [r], x)
  {
    StoredSnoc(reqs, r);
    forall j | 0 <= j < x.got ensures IsAnswered(reqs + [r], x.asked[j]) {
      AnsweredSnoc(reqs, r, x.asked[j]);
    }
  }

  /** Changing one waiter, which stays served if it was, keeps the served blocks served. */
  lemma {:induction false} ServedStays(st: State, st': State, w: nat, block: Key)
    requires Served(st, block) && w < |st.waiters| == |st'.waiters|
    requires forall v :: 0 <= v < |st.waiters| && v != w ==> st'.waiters[v] == st.waiters[v]
    requires ServedBy(st.waiters[w], block) ==> ServedBy(st'.waiters[w], block)
    ensures Served(st', block)
  {
    var v :| 0 <= v < |st.waiters| && ServedBy(st.waiters[v], block);
    assert ServedBy(st'.waiters[v], block);
  }

  lemma {:induction false} SoundRequest(P: Payloads, st: State, r: S.Req)
    requires Sound(P, st)
    ensures Sound(P, st.(reqs := st.reqs + [r]))
  {
    StoredSnoc(st.reqs, r);
    forall w | 0 <= w < |st.waiters| ensures WaiterOk(P, st.reqs + [r], st.waiters[w]) {
      WaiterSnoc(P, st.reqs, r, st.waiters[w]);
    }
    var st' := st.(reqs := st.reqs + [r]);
    forall b | Served(st, b) ensures Served(st', b) {
      var v :| 0 <= v < |st.waiters| && ServedBy(st.waiters[v], b);
      assert ServedBy(st'.waiters[v], b);
    }
  }

  /** A step that changes only waiter w. */
  lemma {:induction false} SoundWaiter(P: Payloads, st: State, w: nat, x: Waiter)
    requires Sound(P, st) && w < |st.waiters| && WaiterOk(P, st.reqs, x)
    requires x.block == st.waiters[w].block && x.missing == st.waiters[w].missing && x.got >= st.waiters[w].got
    ensures Sound(P, st.(waiters := st.waiters[w := x]))
  {
    var st' := st.(waiters := st.waiters[w := x]);
    forall b | Served(st, b) ensures Served(st', b) {
      ServedStays(st, st', w, b);
    }
  }

  lemma {:induction false} SoundTake(P: Payloads, st: State, st': State)
    requires Sound(P, st) && Step(P, st, TakeMessage, st')
    ensures Sound(P, st')
  {
    var m := st.inter[0];
    assert m in st.inter;
    assert forall x :: x in st'.inter ==> x in st.inter;
    forall b | Served(st, b) ensures Served(st', b) {
      var v :| 0 <= v < |st.waiters| && ServedBy(st.waiters[v], b);
      assert ServedBy(st'.waiters[v], b);
    }
  }

  lemma {:induction false} SoundReport(P: Payloads, st: State, st': State)
    requires Sound(P, st) && Step(P, st, TakeReport, st')
    ensures Sound(P, st')
  {
    assert st.reports[0] in st.reports;
    assert forall x :: x in st'.reports ==> x in st.reports;
    forall b | Served(st, b) ensures Served(st', b) {
      var v :| 0 <= v < |st.waiters| && ServedBy(st.waiters[v], b);
      assert ServedBy(st'.waiters[v], b);
    }
  }

  lemma {:induction false} SoundDone(P: Payloads, st: State, w: nat, st': State)
    requires Sound(P, st) && (Step(P, st, WaiterDone(w), st') || Step(P, st, WaiterCancelled(w), st'))
    ensures Sound(P, st')
  {
    hide Stored, Covers;
    var x := st.waiters[w].(reported := true);
    SoundWaiter(P, st, w, x);
    var mid := st.(waiters := st.waiters[w := x]);
    forall b | Served(mid, b) ensures Served(st', b) {
      var v :| 0 <= v < |mid.waiters| && ServedBy(mid.waiters[v], b);
      assert ServedBy(st'.waiters[v], b);
    }
    if x.got == |x.missing| {
      assert ServedBy(st'.waiters[w], x.block);
    }
  }

  lemma {:induction false} SoundStep(P: Payloads, st: State, ev: Event, st': State)
    requires Sound(P, st) && Step(P, st, ev, st')
    ensures Sound(P, st')
  {
    match ev
    case Request(r) => SoundRequest(P, st, r);
    case Verify(p, e, b) => SoundVerify(P, st, p, e, b);
    case AskCleanUp(e) => SoundIdle(P, st, st');
    case TakeMessage => SoundTake(P, st, st');
    case WaiterAsks(w) => SoundAsk(P, st, w);
    case WaiterReads(w) => SoundWaiter(P, st, w, st.waiters[w].(got := st.waiters[w].got + 1));
    case WaiterDone(w) => SoundDone(P, st, w, st');
    case WaiterCancelled(w) => SoundDone(P, st, w, st');
    case TakeReport => SoundReport(P, st, st');
  }

  lemma {:induction false} SoundIdle(P: Payloads, st: State, st': State)
    requires Sound(P, st) && st' == st.(inter := st'.inter) && forall m :: m in st'.inter ==> m in st.inter || MessageOk(P, st.reqs, m)
    ensures Sound(P, st')
  {
    forall b | Served(st, b) ensures Served(st', b) {
      var v :| 0 <= v < |st.waiters| && ServedBy(st.waiters[v], b);
      assert ServedBy(st'.waiters[v], b);
    }
  }

  lemma {:induction false} SoundVerify(P: Payloads, st: State, p: int, e: int, b: Key)
    requires Sound(P, st)
    ensures Sound(P, OnVerify(st, p, e, P(b), b).0)
  {
    SoundIdle(P, st, OnVerify(st, p, e, P(b), b).0);
  }

  lemma {:induction false} SoundAsk(P: Payloads, st: State, w: nat)
    requires Sound(P, st) && w < |st.waiters| && |st.waiters[w].asked| == st.waiters[w].got < |st.waiters[w].missing|
    ensures Sound(P, OnAsk(st, w))
  {
    hide S.Handle, S.After;
    var x, r := st.waiters[w], S.NotifyRead(st.waiters[w].missing[st.waiters[w].got]);
    SoundRequest(P, st, r);
    var mid := st.(reqs := st.reqs + [r]);
    assert WaiterOk(P, mid.reqs, mid.waiters[w]);
    var y := x.(asked := x.asked + [|st.reqs|]);
    SoundWaiter(P, mid, w, y);
  }

  /** In every run the requests of each waiter are for its payloads, and what is reported or
      looped back has a waiter that was answered about each of them. */
  lemma {:induction false} AlwaysSound(P: Payloads, evs: seq<Event>, states: seq<State>, k: nat)
    requires IsRun(P, evs, states) && k <= |evs|
    ensures Sound(P, states[k])
  {
    if k > 0 {
      AlwaysSound(P, evs, states, k - 1);
      SoundStep(P, states[k - 1], evs[k - 1], states[k]);
    }
  }

  lemma {:induction false} VerdictExactly(st: State, proposer: int, epoch: int, ds: seq<Key>, block: Key)
    ensures OnVerify(st, proposer, epoch, ds, block) == (st, Ok) <==> forall d :: d in ds ==> d in Stored(st.reqs)
  {
    var ms := Missing(Stored(st.reqs), ds);
    if ms != [] {
      assert ms[0] in ms;
    }
  }

  /** Loopback, exactly: in every run, with clean-ups and repeated requests in between, a block
      that was looped back passes the check again if and only if every payload for which its
      waiter was woken by a refused write has come to be stored. */
  lemma {:induction false} LoopbackExactly(P: Payloads, evs: seq<Event>, states: seq<State>, k: nat, block: Key, proposer: int, epoch: int)
    returns (x: Waiter)
    requires IsRun(P, evs, states) && k <= |evs| && block in states[k].loopback
    ensures x in states[k].waiters && x.block == block && |x.asked| == |x.missing|
    ensures OnVerify(states[k], proposer, epoch, P(block), block) == (states[k], Ok) <==>
            forall j :: 0 <= j < |x.missing| && RefusedWake(states[k].reqs, x.asked[j]) ==> x.missing[j] in Stored(states[k].reqs)
  {
    var st := states[k];
    AlwaysSound(P, evs, states, k);
    var w :| 0 <= w < |st.waiters| && ServedBy(st.waiters[w], block);
    x := st.waiters[w];
    VerdictExactly(st, proposer, epoch, P(block), block);
    if forall j :: 0 <= j < |x.missing| && RefusedWake(st.reqs, x.asked[j]) ==> x.missing[j] in Stored(st.reqs) {
      forall d | d in P(block) ensures d in Stored(st.reqs) {
        if d in x.missing {
          var j :| 0 <= j < |x.missing| && x.missing[j] == d;
          AnswerIsWorth(st.reqs, x.asked[j]);
        }
      }
    }
  }

  /** In particular it passes, then and ever after, in a run whose writes are all accepted. */
  lemma {:induction false} LoopbackVerifies(P: Payloads, evs: seq<Event>, states: seq<State>, k: nat, block: Key, proposer: int, epoch: int)
    requires IsRun(P, evs, states) && k <= |evs| && block in states[k].loopback
    requires forall r :: r in states[k].reqs && r.Write? ==> r.ok
    ensures OnVerify(states[k], proposer, epoch, P(block), block) == (states[k], Ok)
  {
    var x := LoopbackExactly(P, evs, states, k, block, proposer, epoch);
    assert forall w :: 0 <= w < |states[k].reqs| ==> states[k].reqs[w] in states[k].reqs;
  }

  /** The state of a run with one waiter, which waits for payload d of a block. */
  function Waiting(block: Key, d: Key, proposer: int, epoch: int, reqs: seq<S.Req>, asked: seq<nat>, got: nat): State {
    State(reqs, [], map[block := Entry(Unsigned(epoch), 0, [d], proposer)],
          [Waiter(block, [d], 0, asked, got, false)], [], [], multiset{}, 1, [(proposer, [d])])
  }

  lemma {:induction false} Tracks(P: Payloads, block: Key, d: Key, proposer: int, epoch: int) returns (st: State)
    requires P(block) == [d]
    ensures Step(P, INIT, Verify(proposer, epoch, block), st)
    ensures Step(P, st, TakeMessage, Waiting(block, d, proposer, epoch, [], [], 0))
  {
    var m := SyncBlock([d], proposer, epoch, block);
    assert S.After([]).db == map[];
    assert Stored([]) == {} && [d][..0] == [];
    assert Missing({}, [d]) == [d];
    st := INIT.(inter := [m]);
    assert st.inter[1..] == [];
  }

  lemma {:induction false} Woken(P: Payloads, block: Key, d: Key, v: S.Value, proposer: int, epoch: int)
    ensures var reqs := [S.NotifyRead(d), S.Write(d, v, false)];
            && Step(P, Waiting(block, d, proposer, epoch, [], [], 0), WaiterAsks(0), Waiting(block, d, proposer, epoch, reqs[..1], [0], 0))
            && Step(P, Waiting(block, d, proposer, epoch, reqs[..1], [0], 0), Request(reqs[1]), Waiting(block, d, proposer, epoch, reqs, [0], 0))
            && Step(P, Waiting(block, d, proposer, epoch, reqs, [0], 0), WaiterReads(0), Waiting(block, d, proposer, epoch, reqs, [0], 1))
  {
    var reqs := [S.NotifyRead(d), S.Write(d, v, false)];
    assert [] + [reqs[0]] == reqs[..1] && reqs[..1] + [reqs[1]] == reqs;
    var w: seq<nat> := [];
    assert w + [0] == [0];
    NothingStored(d, v);
  }

  lemma {:induction false} LoopsBack(P: Payloads, block: Key, d: Key, proposer: int, epoch: int, reqs: seq<S.Req>) returns (st: State, st': State)
    requires block != ZERO
    ensures Step(P, Waiting(block, d, proposer, epoch, reqs, [0], 1), WaiterDone(0), st) && Step(P, st, TakeReport, st')
    ensures block in st'.loopback && st'.reqs == reqs
  {
    var w := Waiting(block, d, proposer, epoch, reqs, [0], 1);
    st := w.(waiters := w.waiters[0 := w.waiters[0].(reported := true)], reports := w.reports + [block]);
    assert st.reports[0] == block;
    st' := OnReport(st.(reports := st.reports[1..]), block);
  }

  /** A refused write is enough to loop back a block whose payload is missing. */
  lemma {:induction false} RefusedWriteLoopsBack(P: Payloads, block: Key, d: Key, v: S.Value, proposer: int, epoch: int)
    returns (evs: seq<Event>, states: seq<State>)
    requires block != ZERO && P(block) == [d]
    ensures IsRun(P, evs, states)
    ensures var st := states[|evs|];
            && st.reqs == [S.NotifyRead(d), S.Write(d, v, false)] && d !in Stored(st.reqs)
            && block in st.loopback && OnVerify(st, proposer, epoch, P(block), block).1 == Wait
  {
    var reqs := [S.NotifyRead(d), S.Write(d, v, false)];
    var s1 := Tracks(P, block, d, proposer, epoch);
    Woken(P, block, d, v, proposer, epoch);
    var s6, s7 := LoopsBack(P, block, d, proposer, epoch, reqs);
    evs, states := [], [INIT];
    evs, states := RunSnoc(P, evs, states, Verify(proposer, epoch, block), s1);
    evs, states := RunSnoc(P, evs, states, TakeMessage, Waiting(block, d, proposer, epoch, [], [], 0));
    evs, states := RunSnoc(P, evs, states, WaiterAsks(0), Waiting(block, d, proposer, epoch, reqs[..1], [0], 0));
    evs, states := RunSnoc(P, evs, states, Request(reqs[1]), Waiting(block, d, proposer, epoch, reqs, [0], 0));
    evs, states := RunSnoc(P, evs, states, WaiterReads(0), Waiting(block, d, proposer, epoch, reqs, [0], 1));
    evs, states := RunSnoc(P, evs, states, WaiterDone(0), s6);
    evs, states := RunSnoc(P, evs, states, TakeReport, s7);
    NothingStored(d, v);
    assert [d][0] in P(block);
    VerdictExactly(s7, proposer, epoch, P(block), block);
  }

  lemma {:induction false} RunSnoc(P: Payloads, evs: seq<Event>, states: seq<State>, ev: Event, st: State)
    returns (evs': seq<Event>, states': seq<State>)
    requires IsRun(P, evs, states) && Step(P, states[|evs|], ev, st)
    ensures IsRun(P, evs', states') && |evs'| == |evs| + 1 && states'[|evs'|] == st
  {
    evs', states' := evs + [ev], states + [st];
  }

  lemma {:induction false} NothingStored(d: Key, v: S.Value)
    ensures var reqs := [S.NotifyRead(d), S.Write(d, v, false)]; Stored(reqs) == {} && IsAnswered(reqs, 0)
  {
    var reqs := [S.NotifyRead(d), S.Write(d, v, false)];
    assert reqs[..1] == [S.NotifyRead(d)] && reqs[..1][..0] == [] && reqs[..0] == [];
    S.DbIsCurrent(reqs, d);
    assert S.After(reqs[..1]).db == map[];
    assert S.FirstWrite(reqs, 1, d) == Some(v);
    AnsweredIsDue(reqs, 0);
  }

  // ---------------------------------------------------------------- channels close once

  /** Tracked blocks have channels of their own, none of which is closed, and none is closed
      twice. */
  ghost predicate ChannelsOk(st: State) {
    && (forall k :: k in st.pending ==> st.pending[k].notify < st.channels && st.pending[k].notify !in st.closed)
    && (forall k, k' :: k in st.pending && k' in st.pending && k != k' ==> st.pending[k].notify != st.pending[k'].notify)
    && (forall x: nat :: st.closed[x] <= 1)
    && (forall x: nat :: x in st.closed ==> x < st.channels)
  }

  lemma {:induction false} CleanUpCloses(st: State, epoch: nat, st': State)
    requires ChannelsOk(st) && CleansUp(st, epoch, st')
    ensures ChannelsOk(st')
  {
    var keys := Expired(st.pending, epoch);
    forall x: nat ensures st'.closed[x] <= 1 && (x in st'.closed ==> x < st.channels)
    {
      var c := Closing(st.pending, keys, x);
      if k :| k in c {
        assert c == {k};
      } else {
        assert c == {};
      }
    }
    forall k | k in st'.pending ensures st'.pending[k].notify !in st'.closed {
      assert Closing(st.pending, keys, st.pending[k].notify) == {};
    }
  }

  lemma {:induction false} SyncOpens(st: State, m: SyncMsg)
    requires ChannelsOk(st) && m.SyncBlock?
    ensures ChannelsOk(OnSyncBlock(st, m))
  {
  }

  lemma {:induction false} ReportFrees(st: State, k: Key)
    requires ChannelsOk(st)
    ensures ChannelsOk(OnReport(st, k))
  {
  }

  lemma {:induction false} ChannelsStep(P: Payloads, st: State, ev: Event, st': State)
    requires ChannelsOk(st) && Step(P, st, ev, st')
    ensures ChannelsOk(st')
  {
    hide OnSyncBlock, OnReport, Stored, S.Handle, S.After;
    if ev.TakeMessage? {
      if st.inter[0].CleanUp? {
        CleanUpCloses(st.(inter := st.inter[1..]), st.inter[0].upTo, st');
      } else {
        SyncOpens(st.(inter := st.inter[1..]), st.inter[0]);
      }
    } else if ev.TakeReport? {
      ReportFrees(st.(reports := st.reports[1..]), st.reports[0]);
    }
  }

  /** No channel is ever closed twice. */
  lemma {:induction false} NeverClosedTwice(P: Payloads, evs: seq<Event>, states: seq<State>, k: nat)
    requires IsRun(P, evs, states) && k <= |evs|
    ensures ChannelsOk(states[k])
  {
    if k > 0 {
      NeverClosedTwice(P, evs, states, k - 1);
      ChannelsStep(P, states[k - 1], evs[k - 1], states[k]);
    }
  }
}

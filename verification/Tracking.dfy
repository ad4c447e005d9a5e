/** What the synchronizer does in whole runs: which blocks it tracks, which payloads it asks for
    and from whom, which channels it closes and which blocks it loops back, exactly. */
module Tracking {
  import opened Synchronizer

  // ---------------------------------------------------------------------- what events do

  /** The loop takes the message of a block that is not tracked, and takes up that block. */
  predicate TakesNew(st: State, ev: Event) {
    ev.TakeMessage? && st.inter != [] && st.inter[0].SyncBlock? && st.inter[0].block !in st.pending
  }

  predicate TakesUp(st: State, ev: Event, b: Key) {
    TakesNew(st, ev) && st.inter[0].block == b
  }

  /** The loop takes a clean-up of at least the epoch of b, which is tracked. */
  predicate Cleans(st: State, ev: Event, b: Key) {
    && ev.TakeMessage? && st.inter != [] && st.inter[0].CleanUp?
    && b in st.pending && st.pending[b].epoch <= st.inter[0].upTo
  }

  /** The loop takes the report of a waiter that has all payloads of b. */
  predicate LoopsIn(st: State, ev: Event, b: Key) {
    ev.TakeReport? && st.reports != [] && st.reports[0] == b && b != ZERO
  }

  /** What is kept of the block whose message is next. */
  function EntryOf(st: State): Entry
    requires st.inter != [] && st.inter[0].SyncBlock?
  {
    var m := st.inter[0];
    Entry(Unsigned(m.epoch), st.channels, m.missing, m.author)
  }

  // -------------------------------------------------------------------- tracked blocks

  lemma {:induction false} PendingStep(P: Payloads, st: State, ev: Event, st': State, b: Key)
    requires Step(P, st, ev, st')
    ensures b in st'.pending <==> TakesUp(st, ev, b) || (b in st.pending && !Cleans(st, ev, b) && !LoopsIn(st, ev, b))
    ensures b in st'.pending ==> st'.pending[b] == if b in st.pending then st.pending[b] else EntryOf(st)
  {
    hide Stored, IsAnswered, ClosedFor;
  }

  /** b was taken up by event j and neither cleaned up nor looped back since. */
  ghost predicate TrackedSince(evs: seq<Event>, states: seq<State>, j: int, k: nat, b: Key)
    requires |states| == |evs| + 1 && k <= |evs|
  {
    && 0 <= j < k && TakesUp(states[j], evs[j], b)
    && forall l :: j < l < k ==> !Cleans(states[l], evs[l], b) && !LoopsIn(states[l], evs[l], b)
  }

  lemma {:induction false} TrackedSnoc(evs: seq<Event>, states: seq<State>, j: int, k: nat, b: Key)
    requires |states| == |evs| + 1 && 0 < k <= |evs|
    ensures TrackedSince(evs, states, j, k, b) <==>
            if j < k - 1
            then TrackedSince(evs, states, j, k - 1, b) && !Cleans(states[k - 1], evs[k - 1], b) && !LoopsIn(states[k - 1], evs[k - 1], b)
            else j == k - 1 && TakesUp(states[j], evs[j], b)
  {
    hide TakesUp, Cleans, LoopsIn;
  }

  /** A block is tracked exactly when it was taken up and neither cleaned up nor looped back
      since, with the epoch, payloads and proposer of the message that it was taken up from. */
  lemma {:induction false} TrackedExactly(P: Payloads, evs: seq<Event>, states: seq<State>, k: nat, b: Key)
    requires IsRun(P, evs, states) && k <= |evs|
    ensures b in states[k].pending <==> exists j :: TrackedSince(evs, states, j, k, b)
    ensures forall j :: TrackedSince(evs, states, j, k, b) && b in states[k].pending ==> states[k].pending[b] == EntryOf(states[j])
  {
    hide Step;
    if k > 0 {
      TrackedExactly(P, evs, states, k - 1, b);
      PendingStep(P, states[k - 1], evs[k - 1], states[k], b);
      forall j ensures TrackedSince(evs, states, j, k, b) <==>
                       if j < k - 1
                       then TrackedSince(evs, states, j, k - 1, b) && !Cleans(states[k - 1], evs[k - 1], b) && !LoopsIn(states[k - 1], evs[k - 1], b)
                       else j == k - 1 && TakesUp(states[j], evs[j], b) {
        TrackedSnoc(evs, states, j, k, b);
      }
    }
  }

  // ----------------------------------------------------------------------- closed channels

  /** The event closes channel x: a clean-up ends the block that has it. */
  ghost predicate Closes(st: State, ev: Event, x: nat) {
    exists b :: Cleans(st, ev, b) && st.pending[b].notify == x
  }

  lemma {:induction false} CleanUpCount(st: State, epoch: nat, st': State, x: nat)
    requires ChannelsOk(st) && CleansUp(st, epoch, st')
    ensures st'.closed[x] == st.closed[x] + if exists b :: b in st.pending && st.pending[b].epoch <= epoch && st.pending[b].notify == x then 1 else 0
  {
    var c := Closing(st.pending, Expired(st.pending, epoch), x);
    if b :| b in c {
      assert c == {b};
    } else {
      assert c == {};
    }
  }

  lemma {:induction false} ClosedStep(P: Payloads, st: State, ev: Event, st': State, x: nat)
    requires ChannelsOk(st) && Step(P, st, ev, st')
    ensures st'.closed[x] == st.closed[x] + if Closes(st, ev, x) then 1 else 0
  {
    hide Stored, IsAnswered, CleansUp, ChannelsOk;
    if ev.TakeMessage? && st.inter[0].CleanUp? {
      ChannelsRest(st);
      CleanUpCount(st.(inter := st.inter[1..]), st.inter[0].upTo, st', x);
      if b :| b in st.pending && st.pending[b].epoch <= st.inter[0].upTo && st.pending[b].notify == x {
        assert Cleans(st, ev, b);
      }
    }
  }

  lemma ChannelsRest(st: State)
    requires ChannelsOk(st) && st.inter != []
    ensures ChannelsOk(st.(inter := st.inter[1..]))
  {
  }

  /** A clean-up ends exactly the tracked blocks of its epoch and before, closes the channel of
      each of them once, and closes no other. */
  lemma {:induction false} CleanUpExactly(P: Payloads, evs: seq<Event>, states: seq<State>, k: nat, b: Key)
    requires IsRun(P, evs, states) && k < |evs| && b in states[k].pending
    requires evs[k].TakeMessage? && states[k].inter != [] && states[k].inter[0].CleanUp?
    ensures var st, st', e := states[k], states[k + 1], states[k].inter[0].upTo;
            var x := st.pending[b].notify;
            && st.closed[x] == 0
            && (if st.pending[b].epoch <= e then b !in st'.pending && st'.closed[x] == 1
                else b in st'.pending && st'.pending[b] == st.pending[b] && st'.closed[x] == 0)
  {
    var st, st' := states[k], states[k + 1];
    var x := st.pending[b].notify;
    NeverClosedTwice(P, evs, states, k);
    PendingStep(P, st, evs[k], st', b);
    ClosedStep(P, st, evs[k], st', x);
    if st.pending[b].epoch <= st.inter[0].upTo {
      assert Cleans(st, evs[k], b);
    }
  }

  /** A channel is closed exactly when a clean-up of at least the epoch of its block was taken
      while the block was tracked, and then once. */
  lemma {:induction false} ClosedExactly(P: Payloads, evs: seq<Event>, states: seq<State>, k: nat, x: nat)
    requires IsRun(P, evs, states) && k <= |evs|
    ensures x in states[k].closed <==> exists j :: 0 <= j < k && Closes(states[j], evs[j], x)
    ensures states[k].closed[x] <= 1
  {
    hide Step;
    NeverClosedTwice(P, evs, states, k);
    if k > 0 {
      ClosedExactly(P, evs, states, k - 1, x);
      NeverClosedTwice(P, evs, states, k - 1);
      ClosedStep(P, states[k - 1], evs[k - 1], states[k], x);
    }
  }

  // ----------------------------------------------------------------------- payload requests

  /** Channel w, its waiter and its request were made for the message that st takes next. */
  predicate MadeFor(st: State, now: State, w: nat) {
    && st.inter != [] && st.inter[0].SyncBlock? && st.channels == w
    && w < |now.waiters| && w < |now.requests|
    && now.requests[w] == (st.inter[0].author, st.inter[0].missing)
    && now.waiters[w].block == st.inter[0].block && now.waiters[w].missing == st.inter[0].missing
    && now.waiters[w].notify == w
  }

  predicate Aligned(st: State) {
    |st.waiters| == |st.requests| == st.channels
  }

  lemma {:induction false} MadeStep(P: Payloads, st: State, ev: Event, st': State)
    requires Step(P, st, ev, st') && Aligned(st)
    ensures Aligned(st') && st.channels <= st'.channels && st.requests <= st'.requests
    ensures forall w :: 0 <= w < |st.waiters| ==>
              st'.waiters[w] == st.waiters[w].(asked := st'.waiters[w].asked, got := st'.waiters[w].got, reported := st'.waiters[w].reported)
    ensures st'.channels == st.channels + if TakesNew(st, ev) then 1 else 0
    ensures TakesNew(st, ev) ==> MadeFor(st, st', st.channels)
  {
    hide Stored, IsAnswered, CleansUp;
    if ev.TakeMessage? && st.inter[0].CleanUp? {
      CleanUpKeeps(st.(inter := st.inter[1..]), st.inter[0].upTo, st');
    }
  }

  lemma CleanUpKeeps(st: State, epoch: nat, st': State)
    requires CleansUp(st, epoch, st')
    ensures st' == st.(pending := st'.pending, closed := st'.closed)
  {
  }

  lemma MadeStays(P: Payloads, was: State, st: State, ev: Event, st': State, w: nat)
    requires Step(P, st, ev, st') && Aligned(st) && MadeFor(was, st, w)
    ensures MadeFor(was, st', w)
  {
    hide Step;
    MadeStep(P, st, ev, st');
  }

  /** Event j took up the block that channel w, its waiter and its request are for. */
  ghost predicate MadeAt(evs: seq<Event>, states: seq<State>, j: int, k: nat, w: nat)
    requires |states| == |evs| + 1 && k <= |evs|
  {
    0 <= j < k && TakesNew(states[j], evs[j]) && MadeFor(states[j], states[k], w)
  }

  lemma {:induction false} MadeSince(P: Payloads, evs: seq<Event>, states: seq<State>, j: nat, k: nat)
    requires IsRun(P, evs, states) && j < k <= |evs| && TakesNew(states[j], evs[j])
    requires forall l :: 0 <= l <= k ==> Aligned(states[l])
    ensures MadeAt(evs, states, j, k, states[j].channels)
    decreases k
  {
    hide Step, MadeFor;
    if j == k - 1 {
      MadeStep(P, states[j], evs[j], states[k]);
    } else {
      MadeSince(P, evs, states, j, k - 1);
      MadeStays(P, states[j], states[k - 1], evs[k - 1], states[k], states[j].channels);
    }
  }

  lemma {:induction false} AlwaysAligned(P: Payloads, evs: seq<Event>, states: seq<State>, k: nat)
    requires IsRun(P, evs, states) && k <= |evs|
    ensures forall l :: 0 <= l <= k ==> Aligned(states[l])
  {
    hide Step;
    if k > 0 {
      AlwaysAligned(P, evs, states, k - 1);
      MadeStep(P, states[k - 1], evs[k - 1], states[k]);
    }
  }

  lemma {:induction false} MadeBefore(P: Payloads, evs: seq<Event>, states: seq<State>, k: nat, w: nat)
    requires IsRun(P, evs, states) && k <= |evs| && w < states[k].channels
    requires forall l :: 0 <= l <= k ==> Aligned(states[l])
    ensures exists j :: MadeAt(evs, states, j, k, w)
  {
    hide Step, MadeFor;
    if k > 0 {
      var st, ev := states[k - 1], evs[k - 1];
      MadeStep(P, st, ev, states[k]);
      if w < st.channels {
        MadeBefore(P, evs, states, k - 1, w);
        var j :| MadeAt(evs, states, j, k - 1, w);
        MadeStays(P, states[j], st, ev, states[k], w);
        assert MadeAt(evs, states, j, k, w);
      } else {
        assert MadeAt(evs, states, k - 1, k, w);
      }
    }
  }

  /** Every block taken up has its missing payloads requested from its proposer, once, and waits
      for just these; nothing else is ever requested. */
  lemma {:induction false} RequestsExactly(P: Payloads, evs: seq<Event>, states: seq<State>, k: nat, w: nat)
    requires IsRun(P, evs, states) && k <= |evs|
    ensures Aligned(states[k])
    ensures forall j :: 0 <= j < k && TakesNew(states[j], evs[j]) ==> MadeAt(evs, states, j, k, states[j].channels)
    ensures w < states[k].channels ==> exists j :: MadeAt(evs, states, j, k, w)
  {
    hide Step;
    AlwaysAligned(P, evs, states, k);
    forall j | 0 <= j < k && TakesNew(states[j], evs[j]) ensures MadeAt(evs, states, j, k, states[j].channels) {
      MadeSince(P, evs, states, j, k);
    }
    if w < states[k].channels {
      MadeBefore(P, evs, states, k, w);
    }
  }

  // ------------------------------------------------------------------------------ messages

  /** The messages sent to the loop by an event: a clean-up, or the payloads of a block that are
      not stored when it is verified. */
  function Sent(P: Payloads, st: State, ev: Event): seq<SyncMsg> {
    match ev
    case AskCleanUp(e) => [CleanUp(e)]
    case Verify(p, e, b) =>
      if forall d :: d in P(b) ==> d in Stored(st.reqs) then [] else [SyncBlock(Missing(Stored(st.reqs), P(b)), p, e, b)]
    case _ => []
  }

  function AllSent(P: Payloads, evs: seq<Event>, states: seq<State>, k: nat): seq<SyncMsg>
    requires |states| == |evs| + 1 && k <= |evs|
  {
    if k == 0 then [] else AllSent(P, evs, states, k - 1) + Sent(P, states[k - 1], evs[k - 1])
  }

  /** How many of the first k events take a message. */
  function Takes(evs: seq<Event>, k: nat): nat
    requires k <= |evs|
  {
    if k == 0 then 0 else Takes(evs, k - 1) + if evs[k - 1].TakeMessage? then 1 else 0
  }

  lemma {:induction false} InterStep(P: Payloads, st: State, ev: Event, st': State)
    requires Step(P, st, ev, st')
    ensures ev.TakeMessage? ==> st.inter != []
    ensures st'.inter == (if ev.TakeMessage? then st.inter[1..] else st.inter) + Sent(P, st, ev)
  {
    hide Stored, IsAnswered, CleansUp;
    match ev
    case Verify(p, e, b) =>
      var ms := Missing(Stored(st.reqs), P(b));
      if ms != [] {
        assert ms[0] in ms;
      }
    case TakeMessage =>
      if st.inter[0].CleanUp? {
        CleanUpKeeps(st.(inter := st.inter[1..]), st.inter[0].upTo, st');
      }
    case _ =>
  }

  /** The loop takes the messages in the order they were sent, each once. */
  lemma {:induction false} MessagesInOrder(P: Payloads, evs: seq<Event>, states: seq<State>, k: nat)
    requires IsRun(P, evs, states) && k <= |evs|
    ensures Takes(evs, k) <= |AllSent(P, evs, states, k)|
    ensures states[k].inter == AllSent(P, evs, states, k)[Takes(evs, k)..]
  {
    hide Step;
    if k > 0 {
      MessagesInOrder(P, evs, states, k - 1);
      InterStep(P, states[k - 1], evs[k - 1], states[k]);
    }
  }

  // ------------------------------------------------------------------------------ loopback

  /** What a waiter reports in an event: its block when it has all payloads, the zero digest when
      it is cancelled. */
  function Reports(st: State, ev: Event): seq<Key> {
    match ev
    case WaiterDone(w) => if w < |st.waiters| then [st.waiters[w].block] else []
    case WaiterCancelled(w) => [ZERO]
    case _ => []
  }

  function AllReports(evs: seq<Event>, states: seq<State>, k: nat): seq<Key>
    requires |states| == |evs| + 1 && k <= |evs|
  {
    if k == 0 then [] else AllReports(evs, states, k - 1) + Reports(states[k - 1], evs[k - 1])
  }

  function ReportsTaken(evs: seq<Event>, k: nat): nat
    requires k <= |evs|
  {
    if k == 0 then 0 else ReportsTaken(evs, k - 1) + if evs[k - 1].TakeReport? then 1 else 0
  }

  /** The blocks among a list of reports. */
  function BlocksOf(bs: seq<Key>): seq<Key> {
    if bs == [] then []
    else BlocksOf(bs[..|bs| - 1]) + if bs[|bs| - 1] == ZERO then [] else [bs[|bs| - 1]]
  }

  lemma {:induction false} ReportsStep(P: Payloads, st: State, ev: Event, st': State)
    requires Step(P, st, ev, st')
    ensures ev.TakeReport? ==> st.reports != []
    ensures st'.reports == (if ev.TakeReport? then st.reports[1..] else st.reports) + Reports(st, ev)
    ensures st'.loopback == st.loopback + if ev.TakeReport? && st.reports[0] != ZERO then [st.reports[0]] else []
  {
    hide Stored, IsAnswered, CleansUp;
    if ev.TakeMessage? && st.inter[0].CleanUp? {
      CleanUpKeeps(st.(inter := st.inter[1..]), st.inter[0].upTo, st');
    }
  }

  lemma {:induction false} ReportsMove(all: seq<Key>, more: seq<Key>, n: nat, take: bool)
    requires n <= |all| && (take ==> n < |all|)
    ensures var n' := if take then n + 1 else n;
            && n' <= |all + more|
            && (all + more)[n'..] == (if take then all[n..][1..] else all[n..]) + more
            && BlocksOf((all + more)[..n']) == BlocksOf(all[..n]) + if take && all[n..][0] != ZERO then [all[n..][0]] else []
  {
    assert (all + more)[..n] == all[..n];
    if take {
      assert (all + more)[..n + 1][..n] == all[..n];
    }
  }

  /** The reports are taken in order, each once, and the blocks among them are looped back. */
  lemma {:induction false} LoopbackInOrder(P: Payloads, evs: seq<Event>, states: seq<State>, k: nat)
    requires IsRun(P, evs, states) && k <= |evs|
    ensures ReportsTaken(evs, k) <= |AllReports(evs, states, k)|
    ensures states[k].reports == AllReports(evs, states, k)[ReportsTaken(evs, k)..]
    ensures states[k].loopback == BlocksOf(AllReports(evs, states, k)[..ReportsTaken(evs, k)])
  {
    hide Step;
    if k > 0 {
      LoopbackInOrder(P, evs, states, k - 1);
      ReportsStep(P, states[k - 1], evs[k - 1], states[k]);
      ReportsMove(AllReports(evs, states, k - 1), Reports(states[k - 1], evs[k - 1]), ReportsTaken(evs, k - 1), evs[k - 1].TakeReport?);
    }
  }
}

/** The store loop: a key-value map whose NotifyRead requests wait for the key to be written. */
module Store {
  import opened Messages
  import opened Committee

  type Key = seq<nat>
  type Value = seq<nat>

  /** A request. `ok` says whether the database accepts the write; reading fails exactly for
      keys the database does not hold. */
  datatype Req = Read(key: Key) | Write(key: Key, val: Value, ok: bool) | NotifyRead(key: Key)

  datatype Answer = Found(val: Value) | Missing | Wrote(ok: bool)

  /** The answer sent to request number id. */
  datatype Reply = Reply(id: nat, answer: Answer)

  /** The database, the waiting requests of each key in the order they came, and the replies
      sent so far. */
  datatype State = State(db: map<Key, Value>, pending: map<Key, seq<nat>>, replies: seq<Reply>)

  const INIT := State(map[], map[], [])

  function Queue(st: State, k: Key): seq<nat> {
    if k in st.pending then st.pending[k] else []
  }

  /** The replies that wake a queue with a value. */
  function Wake(queue: seq<nat>, val: Value): (rs: seq<Reply>)
    ensures |rs| == |queue| && forall i :: 0 <= i < |rs| ==> rs[i] == Reply(queue[i], Found(val))
  {
    if queue == [] then [] else Wake(queue[..|queue| - 1], val) + [Reply(queue[|queue| - 1], Found(val))]
  }

  /** What the loop does with request number id. A write wakes the waiting readers even when
      the database refused it. */
  function Handle(st: State, id: nat, req: Req): State {
    match req
    case Read(k) =>
      st.(replies := st.replies + [Reply(id, if k in st.db then Found(st.db[k]) else Missing)])
    case Write(k, v, ok) =>
      State(if ok then st.db[k := v] else st.db,
            st.pending - {k},
            st.replies + [Reply(id, Wrote(ok))] + Wake(Queue(st, k), v))
    case NotifyRead(k) =>
      if k in st.db then st.(replies := st.replies + [Reply(id, Found(st.db[k]))])
      else st.(pending := st.pending[k := Queue(st, k) + [id]])
  }

  function After(reqs: seq<Req>): State {
    if reqs == [] then INIT else Handle(After(reqs[..|reqs| - 1]), |reqs| - 1, reqs[|reqs| - 1])
  }

  class Store {
    var db: map<Key, Value>
    var pending: map<Key, seq<nat>>
    var replies: seq<Reply>

    ghost function View(): State
      reads this
    {
      State(db, pending, replies)
    }

    constructor ()
      ensures View() == INIT
    {
      db, pending, replies := map[], map[], [];
    }

    /** One turn of the request loop. */
    method Serve(id: nat, req: Req)
      modifies this
      ensures View() == Handle(old(View()), id, req)
    {
      match req
      case Read(k) =>
        if k in db {
          replies := replies + [Reply(id, Found(db[k]))];
        } else {
          replies := replies + [Reply(id, Missing)];
        }
      case Write(k, v, ok) =>
        if ok {
          db := db[k := v];
        }
        replies := replies + [Reply(id, Wrote(ok))];
        if k in pending {
          var queue := pending[k];
          ghost var base := replies;
          for i := 0 to |queue|
            invariant replies == base + Wake(queue[..i], v)
            invariant db == (if ok then old(db)[k := v] else old(db)) && pending == old(pending)
          {
            assert queue[..i + 1][..i] == queue[..i];
            replies := replies + [Reply(queue[i], Found(v))];
          }
          assert queue[..|queue|] == queue;
          pending := pending - {k};
        } else {
          assert pending - {k} == pending;
        }
      case NotifyRead(k) =>
        if k in db {
          replies := replies + [Reply(id, Found(db[k]))];
        } else {
          var queue := if k in pending then pending[k] else [];
          pending := pending[k := queue + [id]];
        }
    }
  }

  // ------------------------------------------------------------------ the specification

  /** The value of a key: that of the last accepted write. */
  ghost function Current(reqs: seq<Req>, k: Key): Option<Value> {
    if reqs == [] then None
    else
      var r := reqs[|reqs| - 1];
      if r.Write? && r.key == k && r.ok then Some(r.val) else Current(reqs[..|reqs| - 1], k)
  }

  /** The value of the first write of a key, accepted or not, from request number i on. */
  ghost function FirstWrite(reqs: seq<Req>, i: nat, k: Key): Option<Value>
    decreases |reqs| - i
  {
    if i >= |reqs| then None
    else if reqs[i].Write? && reqs[i].key == k then Some(reqs[i].val)
    else FirstWrite(reqs, i + 1, k)
  }

  ghost function FoundOrNot(v: Option<Value>): Answer {
    if v.Some? then Found(v.value) else Missing
  }

  /** The answer request number i is due, if it is due one yet. */
  ghost function Due(reqs: seq<Req>, i: nat): Option<Answer>
    requires i < |reqs|
  {
    match reqs[i]
    case Read(k) => Some(FoundOrNot(Current(reqs[..i], k)))
    case Write(_, _, ok) => Some(Wrote(ok))
    case NotifyRead(k) =>
      if Current(reqs[..i], k).Some? then Some(Found(Current(reqs[..i], k).value))
      else if FirstWrite(reqs, i + 1, k).Some? then Some(Found(FirstWrite(reqs, i + 1, k).value))
      else None
  }

  // ------------------------------------------------------------------------- refinement

  ghost predicate Answered(st: State, i: nat, a: Answer) {
    Reply(i, a) in st.replies
  }

  ghost predicate Waits(st: State, i: nat) {
    exists k :: k in st.pending && i in st.pending[k]
  }

  /** The database is the map the accepted writes describe. */
  lemma {:induction false} DbIsCurrent(reqs: seq<Req>, k: Key)
    ensures var db := After(reqs).db; (k in db <==> Current(reqs, k).Some?) && (k in db ==> Current(reqs, k) == Some(db[k]))
  {
    if reqs != [] {
      DbIsCurrent(reqs[..|reqs| - 1], k);
    }
  }

  lemma {:induction false} FirstWriteSnoc(reqs: seq<Req>, r: Req, i: nat, k: Key)
    requires i <= |reqs|
    ensures FirstWrite(reqs + [r], i, k) ==
            if FirstWrite(reqs, i, k).Some? then FirstWrite(reqs, i, k)
            else if r.Write? && r.key == k then Some(r.val) else None
    decreases |reqs| - i
  {
    if i < |reqs| {
      FirstWriteSnoc(reqs, r, i + 1, k);
    }
  }

  /** A further request settles only the NotifyReads that waited for the key it writes. */
  lemma DueSnoc(reqs: seq<Req>, r: Req, i: nat)
    requires i < |reqs|
    ensures Due(reqs + [r], i) ==
            if Due(reqs, i).Some? then Due(reqs, i)
            else if r.Write? && r.key == reqs[i].key then Some(Found(r.val)) else None
  {
    var rs := reqs + [r];
    assert rs[i] == reqs[i] && rs[..i] == reqs[..i];
    FirstWriteSnoc(reqs, r, i + 1, reqs[i].key);
  }

  /** The queue of a key holds, in order, the NotifyReads of the key that are not yet due. */
  ghost predicate QueueOk(reqs: seq<Req>, st: State, k: Key) {
    && (k in st.pending ==> st.pending[k] != [] && k !in st.db)
    && (forall i: nat :: i in Queue(st, k) <==> Pending(reqs, k, i))
    && (forall a, b :: 0 <= a < b < |Queue(st, k)| ==> Queue(st, k)[a] < Queue(st, k)[b])
  }

  /** The request numbers still waiting for a key. */
  ghost predicate Pending(reqs: seq<Req>, k: Key, i: nat) {
    i < |reqs| && reqs[i] == NotifyRead(k) && Due(reqs, i).None?
  }

  /** How one more request changes which requests wait for a key. */
  lemma PendingSnoc(reqs: seq<Req>, r: Req, k: Key, i: nat)
    ensures Pending(reqs + [r], k, i) <==>
            || (Pending(reqs, k, i) && !(r.Write? && r.key == k))
            || (i == |reqs| && r == NotifyRead(k) && Current(reqs, k).None?)
  {
    var rs := reqs + [r];
    if i < |reqs| {
      DueSnoc(reqs, r, i);
    } else if i == |reqs| {
      assert rs[..i] == reqs;
    }
  }

  lemma {:induction false} QueuesExact(reqs: seq<Req>, k: Key)
    ensures QueueOk(reqs, After(reqs), k)
  {
    if reqs != [] {
      var init, r := reqs[..|reqs| - 1], reqs[|reqs| - 1];
      var st, st' := After(init), After(reqs);
      QueuesExact(init, k);
      DbIsCurrent(init, k);
      assert reqs == init + [r];
      forall i: nat
        ensures Pending(reqs, k, i) <==>
                || (Pending(init, k, i) && !(r.Write? && r.key == k))
                || (i == |init| && r == NotifyRead(k) && Current(init, k).None?)
      {
        PendingSnoc(init, r, k, i);
      }
      if r == NotifyRead(k) && k !in st.db {
        assert Queue(st', k) == Queue(st, k) + [|init|];
        forall i: nat ensures i in Queue(st', k) <==> i in Queue(st, k) || i == |init| {
        }
        assert forall a :: 0 <= a < |Queue(st, k)| ==> Queue(st, k)[a] in Queue(st, k);
      } else if r.Write? && r.key == k {
        assert Queue(st', k) == [];
      } else {
        assert Queue(st', k) == Queue(st, k);
      }
    }
  }

  /** What one more request adds to the replies. */
  ghost function Added(st: State, id: nat, r: Req): seq<Reply> {
    match r
    case Read(k) => [Reply(id, if k in st.db then Found(st.db[k]) else Missing)]
    case Write(k, v, ok) => [Reply(id, Wrote(ok))] + Wake(Queue(st, k), v)
    case NotifyRead(k) => if k in st.db then [Reply(id, Found(st.db[k]))] else []
  }

  lemma RepliesAdded(st: State, id: nat, r: Req)
    ensures Handle(st, id, r).replies == st.replies + Added(st, id, r)
  {
  }

  lemma WakeIn(queue: seq<nat>, v: Value, x: Reply)
    ensures x in Wake(queue, v) <==> x.id in queue && x.answer == Found(v)
  {
    var w := Wake(queue, v);
    if x in w {
      var j :| 0 <= j < |w| && w[j] == x;
      assert queue[j] in queue;
    }
    if x.id in queue && x.answer == Found(v) {
      var j :| 0 <= j < |queue| && queue[j] == x.id;
      assert w[j] == x;
    }
  }

  lemma AddedIn(reqs: seq<Req>, r: Req, i: nat, a: Answer)
    ensures Reply(i, a) in Added(After(reqs), |reqs|, r) <==>
            || (i == |reqs| && Due(reqs + [r], i) == Some(a))
            || (r.Write? && Pending(reqs, r.key, i) && a == Found(r.val))
  {
    var st := After(reqs);
    var k := r.key;
    DbIsCurrent(reqs, k);
    QueuesExact(reqs, k);
    assert (reqs + [r])[..|reqs|] == reqs;
    if r.Write? {
      WakeIn(Queue(st, k), r.val, Reply(i, a));
      assert Reply(i, a) in Added(st, |reqs|, r) <==> Reply(i, a) == Reply(|reqs|, Wrote(r.ok)) || Reply(i, a) in Wake(Queue(st, k), r.val);
    }
  }

  /** Every request gets exactly the answer it is due: a Read the value of the last accepted
      write before it, a NotifyRead that value or else the first value written after it. */
  lemma {:induction false} RepliesExact(reqs: seq<Req>, i: nat, a: Answer)
    ensures Answered(After(reqs), i, a) <==> i < |reqs| && Due(reqs, i) == Some(a)
  {
    if reqs != [] {
      var init, r := reqs[..|reqs| - 1], reqs[|reqs| - 1];
      var st := After(init);
      RepliesExact(init, i, a);
      assert reqs == init + [r];
      RepliesAdded(st, |init|, r);
      AddedIn(init, r, i, a);
      if i < |init| {
        DueSnoc(init, r, i);
      }
    }
  }

  ghost predicate NoTwice(rs: seq<Reply>) {
    forall p, q :: 0 <= p < q < |rs| ==> rs[p].id != rs[q].id
  }

  lemma AddedOnce(reqs: seq<Req>, r: Req)
    ensures NoTwice(Added(After(reqs), |reqs|, r))
  {
    if r.Write? {
      QueuesExact(reqs, r.key);
      var q := Queue(After(reqs), r.key);
      assert forall j :: 0 <= j < |q| ==> q[j] in q;
    }
  }

  /** No request is answered twice. */
  lemma {:induction false} AnsweredOnce(reqs: seq<Req>)
    ensures NoTwice(After(reqs).replies)
  {
    if reqs != [] {
      var init, r := reqs[..|reqs| - 1], reqs[|reqs| - 1];
      var before, added := After(init).replies, Added(After(init), |init|, r);
      AnsweredOnce(init);
      AddedOnce(init, r);
      RepliesAdded(After(init), |init|, r);
      forall p, q | 0 <= p < |before| && 0 <= q < |added| ensures before[p].id != added[q].id {
        assert before[p] in before && added[q] in added;
        RepliesExact(init, before[p].id, before[p].answer);
        AddedIn(init, r, added[q].id, added[q].answer);
      }
    }
  }

  /** A request waits exactly when it is not yet due an answer. */
  lemma {:induction false} WaitsExactly(reqs: seq<Req>, i: nat)
    ensures Waits(After(reqs), i) <==> i < |reqs| && Due(reqs, i).None?
  {
    var st := After(reqs);
    if Waits(st, i) {
      var k :| k in st.pending && i in st.pending[k];
      QueuesExact(reqs, k);
      assert i in Queue(st, k);
    }
    if i < |reqs| && Due(reqs, i).None? {
      var k := reqs[i].key;
      QueuesExact(reqs, k);
      assert i in Queue(st, k);
    }
  }

  ghost function Ids(rs: seq<Reply>): set<int> {
    set r <- rs :: r.id
  }

  lemma {:induction false} IdsSize(rs: seq<Reply>)
    requires NoTwice(rs)
    ensures |Ids(rs)| == |rs|
  {
    if rs != [] {
      var init, r := rs[..|rs| - 1], rs[|rs| - 1];
      IdsSize(init);
      assert rs == init + [r];
      assert Ids(rs) == Ids(init) + {r.id};
    }
  }

  ghost function WaitingIds(reqs: seq<Req>): set<int> {
    set i | i in Interval(0, |reqs|) && Waits(After(reqs), i)
  }

  /** Requests issued are requests answered plus requests waiting. */
  lemma Conserved(reqs: seq<Req>)
    ensures |reqs| == |After(reqs).replies| + |WaitingIds(reqs)|
  {
    var rs := After(reqs).replies;
    AnsweredOnce(reqs);
    IdsSize(rs);
    forall i: nat ensures (i in Ids(rs) <==> i < |reqs| && Due(reqs, i).Some?) && (i in WaitingIds(reqs) <==> i < |reqs| && Due(reqs, i).None?) {
      WaitsExactly(reqs, i);
      if i in Ids(rs) {
        var r :| r in rs && r.id == i;
        RepliesExact(reqs, i, r.answer);
      }
      if i < |reqs| && Due(reqs, i).Some? {
        RepliesExact(reqs, i, Due(reqs, i).value);
        assert Reply(i, Due(reqs, i).value) in rs;
      }
    }
    assert Ids(rs) + WaitingIds(reqs) == Interval(0, |reqs|);
    assert Ids(rs) * WaitingIds(reqs) == {};
  }

  /** Keys with waiting readers are never in the database. */
  lemma WaitingKeysAreMissing(reqs: seq<Req>)
    ensures After(reqs).pending.Keys !! After(reqs).db.Keys
  {
    forall k | k in After(reqs).pending.Keys ensures k !in After(reqs).db {
      QueuesExact(reqs, k);
    }
  }
}

/** The transaction queue: a ring buffer with a write index, a read index that starts at -1,
    and batches cut off as soon as enough transactions are in. */
module TxQueue {

  type Tx = seq<nat>

  datatype Batch = Batch(id: int, txs: seq<Tx>)

  datatype Params = Params(max: nat, size: int, n: int, id: int)

  /** The buffer, its indices and counters, and the batches sent so far. */
  datatype State = State(queue: seq<Tx>, wind: int, rind: int, nums: int, bcnt: int, batches: seq<Batch>)

  ghost predicate Shape(p: Params, st: State) {
    p.max >= 1 && |st.queue| == p.max && 0 <= st.wind < p.max && -1 <= st.rind < p.max
  }

  function Empty(p: Params, queue: seq<Tx>): State {
    State(queue, 0, -1, 0, 0, [])
  }

  /** The index after i, around the ring. */
  function Next(p: Params, i: int): (j: int)
    requires p.max >= 1 && -1 <= i < p.max
    ensures 0 <= j < p.max
    ensures j == if i + 1 == p.max then 0 else i + 1
  {
    (i + 1) % p.max
  }

  /** k transactions read from the buffer, starting after index r. */
  function ReadFrom(p: Params, queue: seq<Tx>, r: int, k: int): (txs: seq<Tx>)
    requires p.max >= 1 && |queue| == p.max && -1 <= r < p.max
    ensures |txs| == if k <= 0 then 0 else k
    decreases k
  {
    if k <= 0 then [] else [queue[Next(p, r)]] + ReadFrom(p, queue, Next(p, r), k - 1)
  }

  /** The read index k places further on. */
  function Forward(p: Params, r: int, k: int): (j: int)
    requires p.max >= 1 && -1 <= r < p.max
    ensures -1 <= j < p.max
    decreases k
  {
    if k <= 0 then r else Forward(p, Next(p, r), k - 1)
  }

  /** Cutting a batch off. */
  function Make(p: Params, st: State): (r: State)
    requires Shape(p, st)
    ensures Shape(p, r)
  {
    var k := if p.size <= 0 then 0 else p.size;
    st.(rind := Forward(p, st.rind, k),
        nums := st.nums - k,
        bcnt := st.bcnt + 1,
        batches := st.batches + [Batch(p.id + p.n * st.bcnt, ReadFrom(p, st.queue, st.rind, k))])
  }

  /** One transaction arrives: dropped if the indices meet, else stored, and a batch is cut
      off when there are enough. */
  function Push(p: Params, st: State, tx: Tx): (r: State)
    requires Shape(p, st)
    ensures Shape(p, r)
  {
    if st.wind == st.rind then st
    else
      var st' := st.(queue := st.queue[st.wind := tx], wind := Next(p, st.wind), nums := st.nums + 1);
      if st'.nums >= p.size then Make(p, st') else st'
  }

  function After(p: Params, queue: seq<Tx>, txs: seq<Tx>): (st: State)
    requires p.max >= 1 && |queue| == p.max
    ensures Shape(p, st)
  {
    if txs == [] then Empty(p, queue) else Push(p, After(p, queue, txs[..|txs| - 1]), txs[|txs| - 1])
  }

  lemma ReadStep(p: Params, queue: seq<Tx>, r: int, k: int)
    requires p.max >= 1 && |queue| == p.max && -1 <= r < p.max && k > 0
    ensures ReadFrom(p, queue, r, k) == [queue[Next(p, r)]] + ReadFrom(p, queue, Next(p, r), k - 1)
    ensures Forward(p, r, k) == Forward(p, Next(p, r), k - 1)
  {
  }

  /** One more transaction read. */
  lemma {:induction false} ReadSnoc(p: Params, queue: seq<Tx>, r: int, k: nat)
    requires p.max >= 1 && |queue| == p.max && -1 <= r < p.max
    ensures Forward(p, r, k + 1) == Next(p, Forward(p, r, k))
    ensures ReadFrom(p, queue, r, k + 1) == ReadFrom(p, queue, r, k) + [queue[Next(p, Forward(p, r, k))]]
    decreases k
  {
    if k > 0 {
      ReadSnoc(p, queue, Next(p, r), k - 1);
    }
  }

  class TxQueue {
    const p: Params
    var queue: array<Tx>
    var wind: int
    var rind: int
    var nums: int
    var bcnt: int
    var batches: seq<Batch>

    ghost predicate Valid()
      reads this, queue
    {
      Shape(p, View())
    }

    ghost function View(): State
      reads this, queue
    {
      State(queue[..], wind, rind, nums, bcnt, batches)
    }

    constructor (p: Params)
      requires p.max >= 1
      ensures Valid() && fresh(queue) && this.p == p && View() == Empty(p, queue[..])
    {
      this.p := p;
      queue := new Tx[p.max](i => []);
      wind, rind, nums, bcnt, batches := 0, -1, 0, 0, [];
    }

    /** One turn of the run loop. */
    method Receive(tx: Tx)
      requires Valid()
      modifies this`wind, this`rind, this`nums, this`bcnt, this`batches, queue
      ensures Valid() && queue == old(queue)
      ensures View() == Push(p, old(View()), tx)
    {
      if wind == rind {
        return;
      }
      queue[wind] := tx;
      wind := (wind + 1) % p.max;
      nums := nums + 1;
      assert queue[..] == old(queue[..])[old(wind) := tx];
      if nums >= p.size {
        MakeBatch();
      }
    }

    method MakeBatch()
      requires Valid()
      modifies this`rind, this`nums, this`bcnt, this`batches
      ensures Valid()
      ensures View() == Make(p, old(View()))
    {
      var txs: seq<Tx> := [];
      ghost var q, r := queue[..], rind;
      var i := 0;
      while i < p.size
        invariant 0 <= i && (i <= p.size || i == 0)
        invariant rind == Forward(p, r, i) && txs == ReadFrom(p, q, r, i)
        invariant nums == old(nums) - i && wind == old(wind) && bcnt == old(bcnt) && batches == old(batches)
      {
        ReadSnoc(p, q, r, i);
        rind := (rind + 1) % p.max;
        txs := txs + [queue[rind]];
        nums := nums - 1;
        i := i + 1;
      }
      batches := batches + [Batch(p.id + p.n * bcnt, txs)];
      bcnt := bcnt + 1;
    }
  }

  // -------------------------------------------------------------------- FIFO refinement

  function Sent(batches: seq<Batch>): seq<Tx> {
    if batches == [] then [] else Sent(batches[..|batches| - 1]) + batches[|batches| - 1].txs
  }

  /** Everything sent in batches, followed by what waits in the buffer. */
  function Contents(p: Params, st: State): seq<Tx>
    requires Shape(p, st)
  {
    Sent(st.batches) + ReadFrom(p, st.queue, st.rind, st.nums)
  }

  /** The FIFO law: what went in is what came out and what waits, in order. */
  ghost predicate Fifo(p: Params, queue: seq<Tx>, txs: seq<Tx>)
    requires p.max >= 1 && |queue| == p.max
  {
    Contents(p, After(p, queue, txs)) == txs
  }

  /** Reading does not depend on cells it does not reach. */
  lemma {:induction false} ReadUpdate(p: Params, queue: seq<Tx>, r: int, k: int, w: int, tx: Tx)
    requires p.max >= 1 && |queue| == p.max && -1 <= r < p.max && 0 <= w < p.max && 0 <= k < p.max
    requires w == if r + 1 + k < p.max then r + 1 + k else r + 1 + k - p.max
    ensures ReadFrom(p, queue[w := tx], r, k + 1) == ReadFrom(p, queue, r, k) + [tx]
    decreases k
  {
    var q := queue[w := tx];
    var r' := Next(p, r);
    if k == 0 {
      assert ReadFrom(p, q, r, 1) == [q[r']] + ReadFrom(p, q, r', 0);
    } else {
      ReadUpdate(p, queue, r', k - 1, w, tx);
      assert q[r'] == queue[r'];
    }
  }

  lemma {:induction false} ReadSplit(p: Params, queue: seq<Tx>, r: int, j: nat, k: nat)
    requires p.max >= 1 && |queue| == p.max && -1 <= r < p.max
    ensures ReadFrom(p, queue, r, j + k) == ReadFrom(p, queue, r, j) + ReadFrom(p, queue, Forward(p, r, j), k)
    decreases j
  {
    if j > 0 {
      ReadSplit(p, queue, Next(p, r), j - 1, k);
    }
  }

  /** Where the read index stands after k places, written without going round. */
  lemma {:induction false} ForwardIs(p: Params, r: int, k: nat)
    requires p.max >= 1 && -1 <= r < p.max && k <= p.max
    ensures Forward(p, r, k) == if r + k < p.max then r + k else r + k - p.max
    decreases k
  {
    if k > 0 {
      ForwardIs(p, Next(p, r), k - 1);
      if r + 1 == p.max {
        assert Forward(p, r, k) == Forward(p, 0, k - 1);
      }
    }
  }

  /** The write index is nums places after the read index, and there is always room. */
  ghost predicate Ring(p: Params, st: State) {
    && Shape(p, st)
    && 0 <= st.nums < p.size
    && st.wind == if st.rind + 1 + st.nums < p.max then st.rind + 1 + st.nums else st.rind + 1 + st.nums - p.max
  }

  lemma SentSnoc(bs: seq<Batch>, b: Batch)
    ensures Sent(bs + [b]) == Sent(bs) + b.txs
  {
    assert (bs + [b])[..|bs|] == bs;
  }

  lemma {:induction false} PushFifo(p: Params, st: State, tx: Tx)
    requires 1 <= p.size < p.max && Ring(p, st)
    ensures Ring(p, Push(p, st, tx)) && Contents(p, Push(p, st, tx)) == Contents(p, st) + [tx]
    ensures st.wind != st.rind
  {
    hide ReadFrom, Sent;
    var queue := st.queue[st.wind := tx];
    ReadUpdate(p, st.queue, st.rind, st.nums, st.wind, tx);
    if st.nums + 1 == p.size {
      ForwardIs(p, st.rind, p.size);
      SentSnoc(st.batches, Batch(p.id + p.n * st.bcnt, ReadFrom(p, queue, st.rind, p.size)));
    }
  }

  lemma {:induction false} AlwaysRing(p: Params, queue: seq<Tx>, txs: seq<Tx>)
    requires 1 <= p.size < p.max && |queue| == p.max
    ensures Ring(p, After(p, queue, txs)) && Fifo(p, queue, txs)
  {
    if txs != [] {
      AlwaysRing(p, queue, txs[..|txs| - 1]);
      PushFifo(p, After(p, queue, txs[..|txs| - 1]), txs[|txs| - 1]);
      assert txs[..|txs| - 1] + [txs[|txs| - 1]] == txs;
    }
  }

  // ------------------------------------------------------------------ batches, exactly

  predicate Sized(bs: seq<Batch>, size: nat) {
    forall j :: 0 <= j < |bs| ==> |bs[j].txs| == size
  }

  /** Every batch has the batch size; a batch size below 1 makes empty batches. */
  lemma {:induction false} BatchSizes(p: Params, queue: seq<Tx>, txs: seq<Tx>)
    requires p.max >= 1 && |queue| == p.max
    ensures Sized(After(p, queue, txs).batches, if p.size <= 0 then 0 else p.size)
  {
    if txs != [] {
      BatchSizes(p, queue, txs[..|txs| - 1]);
    }
  }

  lemma Distrib(j: nat, size: nat)
    ensures (j + 1) * size == j * size + size
  {
  }

  lemma {:induction false} Scaled(j: nat, m: nat, size: nat)
    requires j < m
    ensures 0 <= j * size <= j * size + size <= m * size
    decreases m
  {
    Distrib(m - 1, size);
    if j < m - 1 {
      Scaled(j, m - 1, size);
    }
  }

  lemma {:induction false} SentLength(bs: seq<Batch>, size: nat)
    requires Sized(bs, size)
    ensures |Sent(bs)| == |bs| * size
  {
    if bs != [] {
      SentLength(bs[..|bs| - 1], size);
      Distrib(|bs| - 1, size);
    }
  }

  lemma {:induction false} SentAt(bs: seq<Batch>, size: nat, j: nat, lo: nat)
    requires Sized(bs, size) && j < |bs| && lo == j * size && lo + size <= |Sent(bs)|
    ensures Sent(bs)[lo..lo + size] == bs[j].txs
  {
    var init := bs[..|bs| - 1];
    SentLength(init, size);
    if j < |init| {
      Scaled(j, |init|, size);
      SentAt(init, size, j, lo);
      assert Sent(bs)[lo..lo + size] == Sent(init)[lo..lo + size];
    } else {
      assert Sent(bs)[lo..lo + size] == bs[j].txs;
    }
  }

  /** Batch j holds the j-th stretch of the transactions, the batch size long, and there are as
      many batches as such stretches. */
  lemma {:induction false} BatchesExactly(p: Params, queue: seq<Tx>, txs: seq<Tx>, j: nat)
    requires 1 <= p.size < p.max && |queue| == p.max
    ensures var bs := After(p, queue, txs).batches;
            && |bs| * p.size <= |txs| < |bs| * p.size + p.size
            && (j < |bs| ==>
                  0 <= j * p.size <= j * p.size + p.size <= |txs| && bs[j].txs == txs[j * p.size..j * p.size + p.size])
  {
    hide After, ReadFrom;
    var st := After(p, queue, txs);
    AlwaysRing(p, queue, txs);
    BatchSizes(p, queue, txs);
    SentLength(st.batches, p.size);
    if j < |st.batches| {
      Scaled(j, |st.batches|, p.size);
      SentAt(st.batches, p.size, j, j * p.size);
    }
  }

  // ------------------------------------------------------- batches as large as the buffer

  /** Reading from the start of the buffer. */
  lemma {:induction false} ReadStart(p: Params, queue: seq<Tx>, r: int, k: nat)
    requires p.max >= 1 && |queue| == p.max && (r == -1 || r == p.max - 1) && k <= p.max
    ensures ReadFrom(p, queue, r, k) == queue[..k]
    decreases k
  {
    if k > 0 {
      ReadStart(p, queue, r, k - 1);
      ReadSplit(p, queue, r, k - 1, 1);
      ForwardIs(p, r, k - 1);
      ReadStep(p, queue, Forward(p, r, k - 1), 1);
    }
  }

  /** The buffer fills up from its start, with nothing read yet. */
  ghost predicate Filling(p: Params, st: State, txs: seq<Tx>) {
    && Shape(p, st) && |txs| <= p.max
    && st.wind == (if |txs| == p.max then 0 else |txs|) && st.rind == -1 && st.nums == |txs|
    && st.queue[..|txs|] == txs && Sent(st.batches) == []
  }

  lemma {:induction false} KeepsFilling(p: Params, st: State, txs: seq<Tx>, tx: Tx)
    requires Filling(p, st, txs) && |txs| < p.max && (p.size <= 0 || p.size > |txs| + 1)
    ensures Filling(p, Push(p, st, tx), txs + [tx])
    ensures p.size > 0 ==> Push(p, st, tx).batches == st.batches && Push(p, st, tx).bcnt == st.bcnt
  {
    var queue := st.queue[st.wind := tx];
    assert queue[..|txs| + 1] == txs + [tx];
    if p.size <= 0 {
      SentSnoc(st.batches, Batch(p.id + p.n * st.bcnt, ReadFrom(p, queue, -1, 0)));
    }
  }

  lemma {:induction false} FillsUp(p: Params, queue: seq<Tx>, txs: seq<Tx>)
    requires p.max >= 1 && |queue| == p.max && |txs| <= p.max && (p.size <= 0 || p.size > |txs|)
    ensures Filling(p, After(p, queue, txs), txs)
    ensures p.size > 0 ==> After(p, queue, txs).batches == [] && After(p, queue, txs).bcnt == 0
  {
    if txs != [] {
      var init := txs[..|txs| - 1];
      FillsUp(p, queue, init);
      KeepsFilling(p, After(p, queue, init), init, txs[|txs| - 1]);
      assert init + [txs[|txs| - 1]] == txs;
    }
  }

  function Accepted(p: Params, txs: seq<Tx>): seq<Tx>
    requires p.max >= 1
  {
    if |txs| <= 2 * p.max - 1 then txs else txs[..2 * p.max - 1]
  }

  /** One full batch is out; after it the buffer refills up to one place short. */
  ghost predicate Jammed(p: Params, st: State, txs: seq<Tx>)
    requires p.max >= 1
  {
    && Shape(p, st) && |txs| >= p.max
    && var a := |Accepted(p, txs)|;
       && st.wind == a - p.max && st.rind == p.max - 1 && st.nums == a - p.max && st.bcnt == 1
       && st.queue[..a - p.max] == txs[p.max..a]
       && st.batches == [Batch(p.id, txs[..p.max])]
  }

  lemma {:induction false} JamsUp(p: Params, st: State, txs: seq<Tx>, tx: Tx)
    requires p.max >= 1 && p.size == p.max && Jammed(p, st, txs)
    ensures Jammed(p, Push(p, st, tx), txs + [tx])
  {
    var a := |Accepted(p, txs)|;
    var txs' := txs + [tx];
    assert txs'[..p.max] == txs[..p.max];
    if a < 2 * p.max - 1 {
      var queue := st.queue[st.wind := tx];
      assert queue[..a + 1 - p.max] == txs'[p.max..a + 1];
    } else {
      assert txs'[p.max..a] == txs[p.max..a];
    }
  }

  lemma {:induction false} FirstFullBatch(p: Params, st: State, txs: seq<Tx>, tx: Tx)
    requires p.max >= 1 && p.size == p.max == |txs| + 1 && Filling(p, st, txs) && st.batches == [] && st.bcnt == 0
    ensures Jammed(p, Push(p, st, tx), txs + [tx])
  {
    hide ReadFrom;
    var queue := st.queue[st.wind := tx];
    var txs' := txs + [tx];
    assert queue == txs';
    ReadStart(p, queue, -1, p.max);
    ForwardIs(p, -1, p.max);
    assert txs'[..p.max] == txs';
    assert [] + [Batch(p.id, txs')] == [Batch(p.id, txs')];
  }

  lemma {:induction false} Jams(p: Params, queue: seq<Tx>, txs: seq<Tx>)
    requires p.max >= 1 && p.size == p.max && |queue| == p.max && |txs| >= p.max
    ensures Jammed(p, After(p, queue, txs), txs)
  {
    var init, tx := txs[..|txs| - 1], txs[|txs| - 1];
    assert init + [tx] == txs;
    if |txs| == p.max {
      FillsUp(p, queue, init);
      FirstFullBatch(p, After(p, queue, init), init, tx);
    } else {
      Jams(p, queue, init);
      JamsUp(p, After(p, queue, init), init, tx);
    }
  }

  lemma {:induction false} JammedContents(p: Params, st: State, txs: seq<Tx>)
    requires p.max >= 1 && Jammed(p, st, txs)
    ensures Contents(p, st) == Accepted(p, txs)
  {
    var acc := Accepted(p, txs);
    ReadStart(p, st.queue, p.max - 1, |acc| - p.max);
    SentSnoc([], st.batches[0]);
    assert Sent(st.batches) == txs[..p.max];
    assert txs[..p.max] + txs[p.max..|acc|] == acc;
  }

  /** With batches as large as the buffer, one batch is ever sent, and no more than twice the
      buffer minus one transactions are ever accepted; all later ones are dropped. */
  lemma {:induction false} FullSizeJams(p: Params, queue: seq<Tx>, txs: seq<Tx>)
    requires p.max >= 1 && p.size == p.max && |queue| == p.max
    ensures |After(p, queue, txs).batches| == if |txs| >= p.max then 1 else 0
    ensures Contents(p, After(p, queue, txs)) == Accepted(p, txs)
  {
    var st := After(p, queue, txs);
    if |txs| < p.max {
      FillsUp(p, queue, txs);
      ReadStart(p, st.queue, -1, |txs|);
    } else {
      Jams(p, queue, txs);
      JammedContents(p, st, txs);
    }
  }

  /** With other sizes the buffer is overwritten before it is read. */
  lemma {:induction false} Overwrites(p: Params, queue: seq<Tx>, txs: seq<Tx>)
    requires p.max >= 1 && |queue| == p.max && (p.size <= 0 || p.size > p.max) && |txs| == p.max + 1
    ensures Contents(p, After(p, queue, txs)) != [] && Contents(p, After(p, queue, txs))[0] == txs[p.max]
  {
    hide ReadFrom;
    var init, tx := txs[..p.max], txs[p.max];
    FillsUp(p, queue, init);
    var st := After(p, queue, init);
    var q := st.queue[0 := tx];
    if p.size <= 0 {
      SentSnoc(st.batches, Batch(p.id + p.n * st.bcnt, ReadFrom(p, q, -1, 0)));
    } else if p.size == p.max + 1 {
      SentSnoc(st.batches, Batch(p.id + p.n * st.bcnt, ReadFrom(p, q, -1, p.size)));
    }
    ReadStep(p, q, -1, p.max + 1);
  }

  /** The queue is a FIFO for every input exactly when 1 <= batch size < buffer size. */
  lemma {:induction false} FifoExactly(p: Params, queue: seq<Tx>)
    requires p.max >= 1 && |queue| == p.max
    ensures (forall txs: seq<Tx> :: Fifo(p, queue, txs)) <==> 1 <= p.size < p.max
  {
    if 1 <= p.size < p.max {
      forall txs: seq<Tx> ensures Fifo(p, queue, txs) {
        AlwaysRing(p, queue, txs);
      }
    } else if p.size == p.max {
      var txs: seq<Tx> := seq(2 * p.max, i => []);
      FullSizeJams(p, queue, txs);
      assert !Fifo(p, queue, txs);
    } else {
      var txs: seq<Tx> := seq(p.max + 1, i => if i == p.max then [1] else []);
      Overwrites(p, queue, txs);
      assert !Fifo(p, queue, txs);
    }
  }

  // ------------------------------------------------------------------------- batch ids

  /** The ids of the batches are Id, Id + N, Id + 2N, ... */
  lemma {:induction false} BatchIds(p: Params, queue: seq<Tx>, txs: seq<Tx>)
    requires p.max >= 1 && |queue| == p.max
    ensures var st := After(p, queue, txs);
            st.bcnt == |st.batches| && forall k :: 0 <= k < |st.batches| ==> st.batches[k].id == p.id + p.n * k
  {
    if txs != [] {
      BatchIds(p, queue, txs[..|txs| - 1]);
    }
  }

  lemma SameResidue(n: nat, id: nat, id': nat, k: nat, k': nat)
    requires id < n && id' < n && id + n * k == id' + n * k'
    ensures id == id' && k == k'
  {
    if k < k' {
      Gap(n, k, k');
    } else if k' < k {
      Gap(n, k', k);
    }
  }

  lemma {:induction false} Gap(n: nat, a: nat, b: nat)
    requires a < b
    ensures n * b >= n * a + n
  {
    if a + 1 < b {
      Gap(n, a, b - 1);
    }
    assert n * b == n * (b - 1) + n;
  }

  /** Batches of different nodes, and different batches of one node, have different ids. */
  lemma {:induction false} IdsNeverCollide(p: Params, p': Params, q: seq<Tx>, q': seq<Tx>, txs: seq<Tx>, txs': seq<Tx>, k: nat, k': nat)
    requires p.max >= 1 && p'.max >= 1 && |q| == p.max && |q'| == p'.max
    requires p.n == p'.n && 0 <= p.id < p.n && 0 <= p'.id < p'.n
    requires k < |After(p, q, txs).batches| && k' < |After(p', q', txs').batches|
    requires After(p, q, txs).batches[k].id == After(p', q', txs').batches[k'].id
    ensures p.id == p'.id && k == k'
  {
    BatchIds(p, q, txs);
    BatchIds(p', q', txs');
    SameResidue(p.n, p.id, p'.id, k, k');
  }
}

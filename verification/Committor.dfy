/** The committor: blocks come in for any epochs in any order and leave in epoch order. */
module Committor {
  import opened Messages

  /** The next epoch to emit, the blocks waiting for it, and the blocks emitted so far. */
  datatype State = State(index: int, blocks: map<int, Block>, emitted: seq<Block>)

  const INIT := State(0, map[], [])

  function Drain(st: State): State
    decreases |st.blocks|
  {
    if st.index !in st.blocks then st
    else
      var rest := st.blocks - {st.index};
      assert |rest.Keys| == |st.blocks.Keys - {st.index}|;
      Drain(State(st.index + 1, rest, st.emitted + [st.blocks[st.index]]))
  }

  function Committed(st: State, b: Block): State {
    if b.epoch < st.index then st else Drain(st.(blocks := st.blocks[b.epoch := b]))
  }

  /** The state after submitting the blocks bs one after another. */
  function After(bs: seq<Block>): State {
    if bs == [] then INIT else Committed(After(bs[..|bs| - 1]), bs[|bs| - 1])
  }

  class Committor {
    var index: int
    var blocks: map<int, Block>
    var emitted: seq<Block>

    ghost function View(): State
      reads this
    {
      State(index, blocks, emitted)
    }

    constructor ()
      ensures View() == INIT
    {
      index, blocks, emitted := 0, map[], [];
    }

    /** Takes a block and emits every block that is now due. */
    method Commit(block: Block)
      modifies this
      ensures View() == Committed(old(View()), block)
    {
      if block.epoch < index {
        return;
      }
      blocks := blocks[block.epoch := block];
      while index in blocks
        invariant Drain(View()) == Committed(old(View()), block)
        decreases |blocks|
      {
        emitted := emitted + [blocks[index]];
        ghost var before := blocks;
        blocks := blocks - {index};
        assert |blocks.Keys| == |before.Keys - {index}|;
        index := index + 1;
      }
    }
  }

  // --------------------------------------------------------------------- exactness

  ghost predicate Submitted(bs: seq<Block>, e: int) {
    exists b :: b in bs && b.epoch == e
  }

  /** All epochs from 0 to e have been submitted. */
  ghost predicate Complete(bs: seq<Block>, e: int) {
    forall i :: 0 <= i <= e ==> Submitted(bs, i)
  }

  /** The last block submitted for an epoch. */
  ghost function Last(bs: seq<Block>, e: int): Option<Block> {
    if bs == [] then None
    else if bs[|bs| - 1].epoch == e then Some(bs[|bs| - 1])
    else Last(bs[..|bs| - 1], e)
  }

  /** Epoch e became due with the k-th submission, and was emitted with the block last
      submitted for it by then. */
  ghost predicate EmittedAt(bs: seq<Block>, e: int, b: Block, k: nat) {
    0 < k <= |bs| && Complete(bs[..k], e) && !Complete(bs[..k - 1], e) && Last(bs[..k], e) == Some(b)
  }

  ghost predicate WasEmitted(bs: seq<Block>, e: int, b: Block) {
    exists k: nat :: EmittedAt(bs, e, b, k)
  }

  /** What is left waiting: the last block of every submitted epoch beyond the index. */
  ghost predicate Waiting(bs: seq<Block>, st: State, from: int) {
    forall e :: e in st.blocks <==> e >= from && Submitted(bs, e)
  }

  ghost predicate WaitingLast(bs: seq<Block>, st: State) {
    forall e :: e in st.blocks ==> Last(bs, e) == Some(st.blocks[e])
  }

  ghost predicate EmittedOk(bs: seq<Block>, st: State) {
    && |st.emitted| == st.index
    && forall e :: 0 <= e < st.index ==> WasEmitted(bs, e, st.emitted[e])
  }

  lemma SubmittedSnoc(bs: seq<Block>, b: Block, e: int)
    ensures Submitted(bs + [b], e) <==> Submitted(bs, e) || b.epoch == e
  {
    assert b in bs + [b];
    if Submitted(bs, e) {
      var x :| x in bs && x.epoch == e;
      assert x in bs + [b];
    }
  }

  lemma LastSnoc(bs: seq<Block>, b: Block, e: int)
    ensures Last(bs + [b], e) == if b.epoch == e then Some(b) else Last(bs, e)
  {
    assert (bs + [b])[..|bs|] == bs;
  }

  /** A prefix emits the same, since it emits in the same submissions. */
  lemma EmittedSnoc(bs: seq<Block>, b: Block, e: int, x: Block, k: nat)
    requires EmittedAt(bs, e, x, k)
    ensures EmittedAt(bs + [b], e, x, k)
  {
    assert (bs + [b])[..k] == bs[..k];
    assert (bs + [b])[..k - 1] == bs[..k - 1];
  }

  /** Draining emits, in order, exactly the waiting epochs from the index on without a gap. */
  lemma {:induction false} DrainOk(bs: seq<Block>, init: seq<Block>, start: int, st: State)
    requires bs != [] && init == bs[..|bs| - 1]
    requires 0 <= start <= st.index && !Submitted(init, start)
    requires Waiting(bs, st, st.index) && WaitingLast(bs, st) && EmittedOk(bs, st)
    requires forall e :: 0 <= e < st.index ==> Submitted(bs, e)
    ensures var r := Drain(st);
            && st.index <= r.index && st.emitted <= r.emitted
            && Waiting(bs, r, r.index) && WaitingLast(bs, r) && EmittedOk(bs, r)
            && (forall e :: 0 <= e < r.index ==> Submitted(bs, e)) && !Submitted(bs, r.index)
    decreases |st.blocks|
  {
    var e := st.index;
    if e in st.blocks {
      var rest := st.blocks - {e};
      assert |rest.Keys| == |st.blocks.Keys - {e}|;
      var b := st.blocks[e];
      assert bs[..|bs|] == bs;
      assert Complete(bs, e) && !Complete(init, e);
      assert EmittedAt(bs, e, b, |bs|);
      var next := State(e + 1, rest, st.emitted + [b]);
      forall i | 0 <= i < next.index ensures WasEmitted(bs, i, next.emitted[i]) {
        if i < e {
          assert next.emitted[i] == st.emitted[i];
        }
      }
      DrainOk(bs, init, start, next);
    }
  }

  /** After any submissions: the index is the least epoch from 0 on that was never submitted;
      epochs 0, 1, ... up to it were emitted in order, each with the block last submitted for
      it when it became due; and the last blocks of the later epochs wait. */
  lemma {:induction false} Exact(bs: seq<Block>)
    ensures var st := After(bs);
            && 0 <= st.index
            && (forall e :: 0 <= e < st.index ==> Submitted(bs, e)) && !Submitted(bs, st.index)
            && EmittedOk(bs, st)
            && Waiting(bs, st, st.index) && WaitingLast(bs, st)
  {
    if bs != [] {
      var init, b := bs[..|bs| - 1], bs[|bs| - 1];
      var st := After(init);
      Exact(init);
      assert bs == init + [b];
      forall e ensures (Submitted(bs, e) <==> Submitted(init, e) || b.epoch == e) && Last(bs, e) == (if b.epoch == e then Some(b) else Last(init, e)) {
        SubmittedSnoc(init, b, e);
        LastSnoc(init, b, e);
      }
      forall e | 0 <= e < st.index ensures WasEmitted(bs, e, st.emitted[e]) {
        var k: nat :| EmittedAt(init, e, st.emitted[e], k);
        EmittedSnoc(init, b, e, st.emitted[e], k);
      }
      if b.epoch >= st.index {
        DrainOk(bs, init, st.index, st.(blocks := st.blocks[b.epoch := b]));
      }
    }
  }

  // ------------------------------------------------------------------ prefix consistency

  /** No epoch is submitted with two different blocks. */
  ghost predicate Agree(bs: seq<Block>, bs': seq<Block>) {
    forall b, b' :: b in bs && b' in bs' && b.epoch == b'.epoch ==> b == b'
  }

  lemma {:induction false} LastIn(bs: seq<Block>, e: int)
    ensures Last(bs, e).Some? ==> Last(bs, e).value in bs && Last(bs, e).value.epoch == e
  {
    if bs != [] && bs[|bs| - 1].epoch != e {
      LastIn(bs[..|bs| - 1], e);
    }
  }

  /** An emitted block was submitted, for the epoch in whose place it is emitted. */
  lemma EmittedIn(bs: seq<Block>, e: int)
    requires 0 <= e < After(bs).index
    ensures |After(bs).emitted| == After(bs).index
    ensures After(bs).emitted[e] in bs && After(bs).emitted[e].epoch == e
  {
    Exact(bs);
    var b := After(bs).emitted[e];
    var k: nat :| EmittedAt(bs, e, b, k);
    LastIn(bs[..k], e);
  }

  /** Two committors fed the same block for every epoch, in any orders and with any
      repetitions, emit sequences one of which is a prefix of the other. */
  lemma PrefixConsistent(bs: seq<Block>, bs': seq<Block>)
    requires Agree(bs, bs')
    ensures After(bs).emitted <= After(bs').emitted || After(bs').emitted <= After(bs).emitted
  {
    Exact(bs);
    Exact(bs');
    var es, es' := After(bs).emitted, After(bs').emitted;
    forall e | 0 <= e < |es| && e < |es'| ensures es[e] == es'[e] {
      EmittedIn(bs, e);
      EmittedIn(bs', e);
    }
  }
}

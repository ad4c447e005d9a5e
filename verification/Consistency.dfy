/** The log checker: logs are compared after dropping repeated entries, and pass when all of
    them are prefixes of the longest. */
module Consistency {
  import opened Messages
  import C = Committor

  /** A log entry: the node and batch number of a committed micro-block. */
  type Entry = (nat, nat)

  /** The entries of a log without repetitions, in order of first occurrence. */
  function Dedup(log: seq<Entry>): (d: seq<Entry>)
    ensures forall x :: x in d <==> x in log
    ensures |d| <= |log|
  {
    if log == [] then []
    else
      var init, x := log[..|log| - 1], log[|log| - 1];
      if x in init then Dedup(init) else Dedup(init) + [x]
  }

  /** Drops repeated entries and says how many there were. */
  method RemoveDuplicates(log: seq<Entry>) returns (result: seq<Entry>, duplicates: nat)
    ensures result == Dedup(log)
    ensures duplicates == |log| - |result|
  {
    var seen: set<Entry> := {};
    result, duplicates := [], 0;
    for i := 0 to |log|
      invariant result == Dedup(log[..i])
      invariant forall x :: x in seen <==> x in log[..i]
      invariant duplicates == i - |result|
    {
      var item := log[i];
      assert log[..i + 1][..i] == log[..i];
      assert log[..i + 1] == log[..i] + [item];
      if item !in seen {
        seen := seen + {item};
        result := result + [item];
      } else {
        duplicates := duplicates + 1;
      }
    }
    assert log[..|log|] == log;
  }

  ghost predicate Distinct(s: seq<Entry>) {
    forall i, j :: 0 <= i < j < |s| ==> s[i] != s[j]
  }

  lemma {:induction false} DedupDistinct(log: seq<Entry>)
    ensures Distinct(Dedup(log))
  {
    if log != [] {
      var init, x := log[..|log| - 1], log[|log| - 1];
      DedupDistinct(init);
      if x !in init {
        forall i | 0 <= i < |Dedup(init)| ensures Dedup(init)[i] != x {
          assert Dedup(init)[i] in Dedup(init);
        }
      }
    }
  }

  lemma {:induction false} DedupOfDistinct(log: seq<Entry>)
    requires Distinct(log)
    ensures Dedup(log) == log
  {
    if log != [] {
      var init, x := log[..|log| - 1], log[|log| - 1];
      assert forall i, j :: 0 <= i < j < |init| ==> init[i] == log[i] && init[j] == log[j];
      DedupOfDistinct(init);
      assert x !in init;
      assert log == init + [x];
    }
  }

  /** Removing repetitions twice changes nothing. */
  lemma DedupIdempotent(log: seq<Entry>)
    ensures Dedup(Dedup(log)) == Dedup(log)
  {
    DedupDistinct(log);
    DedupOfDistinct(Dedup(log));
  }

  /** A prefix of a log gives a prefix of its entries. */
  lemma {:induction false} DedupPrefix(log: seq<Entry>, log': seq<Entry>)
    requires log <= log'
    ensures Dedup(log) <= Dedup(log')
  {
    if log != log' {
      var init := log'[..|log'| - 1];
      assert log <= init;
      DedupPrefix(log, init);
    }
  }

  // ------------------------------------------------------------------------ comparison

  ghost predicate Comparable(s: seq<Entry>, t: seq<Entry>) {
    s <= t || t <= s
  }

  /** The verdict the checker is for: the de-duplicated logs are pairwise prefixes. */
  ghost predicate Consistent(logs: seq<seq<Entry>>) {
    forall i, j :: 0 <= i < |logs| && 0 <= j < |logs| ==> Comparable(Dedup(logs[i]), Dedup(logs[j]))
  }

  /** Picks the first longest log and compares every log with it. Without any log the source
      fails to find a longest one, and there is no verdict. */
  method Compare(logs: seq<seq<Entry>>) returns (verdict: Option<bool>)
    ensures verdict.None? <==> logs == []
    ensures verdict.Some? ==> (verdict.value <==> Consistent(logs))
  {
    if logs == [] {
      return None;
    }
    var sequences: seq<seq<Entry>> := [];
    for i := 0 to |logs|
      invariant |sequences| == i
      invariant forall j :: 0 <= j < i ==> sequences[j] == Dedup(logs[j])
    {
      var unique, _ := RemoveDuplicates(logs[i]);
      sequences := sequences + [unique];
    }
    var ref := 0;
    for i := 1 to |sequences|
      invariant 0 <= ref < |sequences|
      invariant forall j :: 0 <= j < i ==> |sequences[j]| <= |sequences[ref]|
    {
      if |sequences[ref]| < |sequences[i]| {
        ref := i;
      }
    }
    var allMatch := true;
    for i := 0 to |sequences|
      invariant allMatch <==> forall j :: 0 <= j < i ==> sequences[j] <= sequences[ref]
    {
      if i != ref && sequences[i] != sequences[ref][..|sequences[i]|] {
        allMatch := false;
      }
    }
    PrefixesOfLongest(sequences, ref);
    verdict := Some(allMatch);
  }

  /** All are prefixes of a longest one exactly when all are pairwise comparable. */
  lemma PrefixesOfLongest(ss: seq<seq<Entry>>, ref: nat)
    requires ref < |ss| && forall j :: 0 <= j < |ss| ==> |ss[j]| <= |ss[ref]|
    ensures (forall j :: 0 <= j < |ss| ==> ss[j] <= ss[ref]) <==>
            (forall i, j :: 0 <= i < |ss| && 0 <= j < |ss| ==> Comparable(ss[i], ss[j]))
  {
    if forall j :: 0 <= j < |ss| ==> ss[j] <= ss[ref] {
      forall i, j | 0 <= i < |ss| && 0 <= j < |ss| ensures Comparable(ss[i], ss[j]) {
        assert ss[i] <= ss[ref] && ss[j] <= ss[ref];
      }
    }
    if forall i, j :: 0 <= i < |ss| && 0 <= j < |ss| ==> Comparable(ss[i], ss[j]) {
      forall j | 0 <= j < |ss| ensures ss[j] <= ss[ref] {
        assert Comparable(ss[j], ss[ref]);
      }
    }
  }

  // ------------------------------------------------------------- logs of the committor

  /** What the micro-block of a payload logs when it is committed: nothing if it has no
      transactions. Every payload of a committed block has been received. */
  type Lookup = nat -> Option<Entry>

  function BlockLog(payloads: seq<nat>, batch: Lookup): seq<Entry> {
    if payloads == [] then []
    else
      BlockLog(payloads[..|payloads| - 1], batch) +
      match batch(payloads[|payloads| - 1])
      case Some(e) => [e]
      case None => []
  }

  /** The log of a sequence of committed blocks. */
  function Log(blocks: seq<Block>, batch: Lookup): seq<Entry> {
    if blocks == [] then []
    else Log(blocks[..|blocks| - 1], batch) + BlockLog(blocks[|blocks| - 1].payloads, batch)
  }

  /** The payloads of a sequence of blocks, in order. */
  function AllPayloads(blocks: seq<Block>): seq<nat> {
    if blocks == [] then [] else AllPayloads(blocks[..|blocks| - 1]) + blocks[|blocks| - 1].payloads
  }

  /** The positions of the payloads whose batch is found. */
  function Found(payloads: seq<nat>, batch: Lookup): (at: seq<int>)
    ensures forall i :: 0 <= i < |at| ==> 0 <= at[i] < |payloads| && batch(payloads[at[i]]).Some?
    ensures forall i, j :: 0 <= i < j < |at| ==> at[i] < at[j]
    ensures forall k :: 0 <= k < |payloads| && batch(payloads[k]).Some? ==> k in at
  {
    if payloads == [] then []
    else
      var n := |payloads| - 1;
      Found(payloads[..n], batch) + if batch(payloads[n]).Some? then [n] else []
  }

  lemma {:induction false} BlockLogAppend(ps: seq<nat>, qs: seq<nat>, batch: Lookup)
    ensures BlockLog(ps + qs, batch) == BlockLog(ps, batch) + BlockLog(qs, batch)
  {
    if qs == [] {
      assert ps + qs == ps;
    } else {
      assert (ps + qs)[..|ps + qs| - 1] == ps + qs[..|qs| - 1];
      BlockLogAppend(ps, qs[..|qs| - 1], batch);
    }
  }

  lemma {:induction false} LogIsBlockLog(blocks: seq<Block>, batch: Lookup)
    ensures Log(blocks, batch) == BlockLog(AllPayloads(blocks), batch)
  {
    if blocks != [] {
      LogIsBlockLog(blocks[..|blocks| - 1], batch);
      BlockLogAppend(AllPayloads(blocks[..|blocks| - 1]), blocks[|blocks| - 1].payloads, batch);
    }
  }

  lemma {:induction false} BlockLogAt(payloads: seq<nat>, batch: Lookup)
    ensures var at := Found(payloads, batch);
            && |BlockLog(payloads, batch)| == |at|
            && forall i :: 0 <= i < |at| ==> batch(payloads[at[i]]) == Some(BlockLog(payloads, batch)[i])
  {
    if payloads != [] {
      BlockLogAt(payloads[..|payloads| - 1], batch);
    }
  }

  /** The log holds the batches of the payloads whose batch is found, one each, in the order of
      the blocks and of the payloads within a block. */
  lemma {:induction false} LogExactly(blocks: seq<Block>, batch: Lookup)
    ensures var ps := AllPayloads(blocks);
            var at := Found(ps, batch);
            && |Log(blocks, batch)| == |at|
            && forall i :: 0 <= i < |at| ==> batch(ps[at[i]]) == Some(Log(blocks, batch)[i])
  {
    LogIsBlockLog(blocks, batch);
    BlockLogAt(AllPayloads(blocks), batch);
  }

  /** Writes the log of committed blocks, payload by payload. */
  method WriteLog(blocks: seq<Block>, batch: Lookup) returns (log: seq<Entry>)
    ensures log == Log(blocks, batch)
  {
    log := [];
    for i := 0 to |blocks|
      invariant log == Log(blocks[..i], batch)
    {
      assert blocks[..i + 1][..i] == blocks[..i];
      var payloads := blocks[i].payloads;
      ghost var before := log;
      for j := 0 to |payloads|
        invariant log == before + BlockLog(payloads[..j], batch)
      {
        assert payloads[..j + 1][..j] == payloads[..j];
        match batch(payloads[j])
        case Some(e) => log := log + [e];
        case None =>
      }
      assert payloads[..|payloads|] == payloads;
    }
    assert blocks[..|blocks|] == blocks;
  }

  lemma {:induction false} LogPrefix(bs: seq<Block>, bs': seq<Block>, batch: Lookup)
    requires bs <= bs'
    ensures Log(bs, batch) <= Log(bs', batch)
  {
    if bs != bs' {
      var init := bs'[..|bs'| - 1];
      assert bs <= init;
      LogPrefix(bs, init, batch);
    }
  }

  /** The logs of committors that agree on the block of every epoch always pass. */
  lemma CommittorLogsPass(inputs: seq<seq<Block>>, logs: seq<seq<Entry>>, batch: Lookup)
    requires |logs| == |inputs|
    requires forall i :: 0 <= i < |inputs| ==> logs[i] == Log(C.After(inputs[i]).emitted, batch)
    requires forall i, j :: 0 <= i < |inputs| && 0 <= j < |inputs| ==> C.Agree(inputs[i], inputs[j])
    ensures Consistent(logs)
  {
    forall i, j | 0 <= i < |logs| && 0 <= j < |logs| ensures Comparable(Dedup(logs[i]), Dedup(logs[j])) {
      C.PrefixConsistent(inputs[i], inputs[j]);
      var es, es' := C.After(inputs[i]).emitted, C.After(inputs[j]).emitted;
      if es <= es' {
        LogPrefix(es, es', batch);
        DedupPrefix(logs[i], logs[j]);
      } else {
        LogPrefix(es', es, batch);
        DedupPrefix(logs[j], logs[i]);
      }
    }
  }

  // --------------------------------------------------------- one assignment decides for all

  /** Every payload logged under its own name. */
  function Named(): Lookup {
    (d: nat) => Some((d, 0))
  }

  /** The log that an assignment makes of named payloads. */
  function Render(log: seq<Entry>, batch: Lookup): seq<Entry> {
    if log == [] then []
    else
      Render(log[..|log| - 1], batch) +
      match batch(log[|log| - 1].0)
      case Some(e) => [e]
      case None => []
  }

  lemma {:induction false} RenderAppend(log: seq<Entry>, log': seq<Entry>, batch: Lookup)
    ensures Render(log + log', batch) == Render(log, batch) + Render(log', batch)
  {
    if log' == [] {
      assert log + log' == log;
    } else {
      var init := log'[..|log'| - 1];
      RenderAppend(log, init, batch);
      assert (log + log')[..|log + log'| - 1] == log + init;
    }
  }

  lemma {:induction false} BlockLogRender(payloads: seq<nat>, batch: Lookup)
    ensures BlockLog(payloads, batch) == Render(BlockLog(payloads, Named()), batch)
  {
    if payloads != [] {
      var init, d := payloads[..|payloads| - 1], payloads[|payloads| - 1];
      BlockLogRender(init, batch);
      var tags := BlockLog(init, Named());
      assert (tags + [(d, 0)])[..|tags|] == tags;
    }
  }

  lemma {:induction false} LogRender(blocks: seq<Block>, batch: Lookup)
    ensures Log(blocks, batch) == Render(Log(blocks, Named()), batch)
  {
    if blocks != [] {
      var init, b := blocks[..|blocks| - 1], blocks[|blocks| - 1];
      LogRender(init, batch);
      BlockLogRender(b.payloads, batch);
      RenderAppend(Log(init, Named()), BlockLog(b.payloads, Named()), batch);
    }
  }

  lemma {:induction false} RenderMembers(log: seq<Entry>, batch: Lookup, e: Entry)
    ensures e in Render(log, batch) <==> exists x :: x in log && batch(x.0) == Some(e)
  {
    if log != [] {
      var init, y := log[..|log| - 1], log[|log| - 1];
      RenderMembers(init, batch, e);
      assert forall x :: x in log <==> x in init || x == y;
    }
  }

  lemma DedupSnoc(log: seq<Entry>, x: Entry)
    ensures Dedup(log + [x]) == if x in log then Dedup(log) else Dedup(log) + [x]
  {
    assert (log + [x])[..|log|] == log;
  }

  /** Repetitions may be dropped before or after. */
  lemma {:induction false} RenderDedup(log: seq<Entry>, batch: Lookup)
    ensures Dedup(Render(log, batch)) == Dedup(Render(Dedup(log), batch))
  {
    if log != [] {
      var init, x := log[..|log| - 1], log[|log| - 1];
      RenderDedup(init, batch);
      var short := Dedup(init);
      assert (short + [x])[..|short|] == short;
      match batch(x.0)
      case None =>
        assert Render(log, batch) == Render(init, batch);
        assert x !in init ==> Render(short + [x], batch) == Render(short, batch);
      case Some(e) =>
        RenderMembers(init, batch, e);
        RenderMembers(short, batch, e);
        DedupSnoc(Render(init, batch), e);
        DedupSnoc(Render(short, batch), e);
    }
  }

  lemma {:induction false} RenderPrefix(log: seq<Entry>, log': seq<Entry>, batch: Lookup)
    requires log <= log'
    ensures Render(log, batch) <= Render(log', batch)
  {
    assert log' == log + log'[|log|..];
    RenderAppend(log, log'[|log|..], batch);
  }

  lemma {:induction false} RenderComparable(log: seq<Entry>, log': seq<Entry>, batch: Lookup)
    requires Dedup(log) <= Dedup(log')
    ensures Dedup(Render(log, batch)) <= Dedup(Render(log', batch))
  {
    RenderDedup(log, batch);
    RenderDedup(log', batch);
    RenderPrefix(Dedup(log), Dedup(log'), batch);
    DedupPrefix(Render(Dedup(log), batch), Render(Dedup(log'), batch));
  }

  ghost predicate LogsCompare(blocks: seq<Block>, blocks': seq<Block>, batch: Lookup) {
    Comparable(Dedup(Log(blocks, batch)), Dedup(Log(blocks', batch)))
  }

  /** Two sequences of blocks pass the checker under every assignment of batches if and only if their
      payloads, each logged under its own name, do. */
  lemma {:induction false} NamesDecide(blocks: seq<Block>, blocks': seq<Block>)
    ensures (forall batch: Lookup :: LogsCompare(blocks, blocks', batch)) <==> LogsCompare(blocks, blocks', Named())
  {
    if LogsCompare(blocks, blocks', Named()) {
      forall batch: Lookup ensures LogsCompare(blocks, blocks', batch) {
        var log, log' := Log(blocks, Named()), Log(blocks', Named());
        LogRender(blocks, batch);
        LogRender(blocks', batch);
        if Dedup(log) <= Dedup(log') {
          RenderComparable(log, log', batch);
        } else {
          RenderComparable(log', log, batch);
        }
      }
    }
  }
}

/** The vote aggregators as the objects they are: author sets and counters updated in place,
    each proved to answer as the sequence of accepted votes says. */
module Aggregators {
  import opened Messages
  import opened Committee
  import opened Votes
  import N = Node

  /** An answer, or the error for a second message of an author. */
  datatype Reply<T> = Answer(value: T) | OneMore

  class FinishAggreator {
    ghost const slot: Slot
    var authors: set<int>

    constructor (ghost slot: Slot)
      ensures authors == {} && this.slot == slot
    {
      this.slot := slot;
      authors := {};
    }

    /** True exactly on the finish that completes 2f+1 authors. */
    method Append(n: nat, m: Msg) returns (r: Reply<bool>)
      modifies this
      ensures r.OneMore? <==> m.author in old(authors)
      ensures authors == old(authors) + {m.author}
      ensures r.Answer? ==> (r.value <==> |old(authors)| < High(n) <= |authors|)
    {
      if m.author in authors {
        return OneMore;
      }
      authors := authors + {m.author};
      if |authors| == High(n) {
        return Answer(true);
      }
      return Answer(false);
    }
  }

  datatype DoneFlag = DoneLow | DoneHigh | DoneNone

  /** The answer to the k-th done. When the two thresholds coincide it is low. */
  function DoneLevel(n: nat, k: nat): DoneFlag {
    if k == Low(n) then DoneLow else if k == High(n) then DoneHigh else DoneNone
  }

  class DoneAggreator {
    ghost const slot: Slot
    var authors: set<int>

    constructor (ghost slot: Slot)
      ensures authors == {} && this.slot == slot
    {
      this.slot := slot;
      authors := {};
    }

    /** Low on the done that completes f+1 authors, high on the one that completes 2f+1. When
        the two thresholds coincide only low is answered. */
    method Append(n: nat, m: Msg) returns (r: Reply<DoneFlag>)
      modifies this
      ensures r.OneMore? <==> m.author in old(authors)
      ensures authors == old(authors) + {m.author}
      ensures r.Answer? ==> r.value == DoneLevel(n, |authors|)
      ensures r.Answer? ==> (r.value == DoneLow <==> |old(authors)| < Low(n) <= |authors|)
      ensures r.Answer? && r.value == DoneHigh ==> |old(authors)| < High(n) <= |authors|
      ensures r.Answer? && |old(authors)| < High(n) <= |authors| && n >= 4 ==> r.value == DoneHigh
    {
      if m.author in authors {
        return OneMore;
      }
      authors := authors + {m.author};
      if |authors| == Low(n) {
        return Answer(DoneLow);
      }
      if |authors| == High(n) {
        return Answer(DoneHigh);
      }
      return Answer(DoneNone);
    }
  }

  /** The number that bytes stand for, the most significant first. */
  function BigEndian(bytes: seq<int>): int {
    if bytes == [] then 0 else BigEndian(bytes[..|bytes| - 1]) * 256 + bytes[|bytes| - 1]
  }

  lemma RandIsBigEndian(coin: Coin)
    ensures N.Rand(coin) == BigEndian([coin.b0, coin.b1, coin.b2])
  {
    var bytes: seq<int> := [coin.b0, coin.b1, coin.b2];
    assert bytes[..2] == [bytes[0], bytes[1]] && bytes[..2][..1] == [bytes[0]] && bytes[..2][..1][..0] == [];
    assert BigEndian(bytes[..2][..1]) == bytes[0];
    assert BigEndian(bytes[..2]) == bytes[0] * 256 + bytes[1];
  }

  /** The number made of the first three bytes of a combined signature. */
  method Combine(coin: Coin) returns (rand: int)
    ensures rand == N.Rand(coin)
  {
    var bytes: seq<int> := [coin.b0, coin.b1, coin.b2];
    rand := 0;
    for i := 0 to |bytes|
      invariant rand == BigEndian(bytes[..i])
    {
      assert bytes[..i + 1][..i] == bytes[..i];
      if bytes[i] > 0 {
        rand := rand * 256 + bytes[i];
      } else {
        // the negation of an unsigned byte
        rand := rand * 256 + (256 - bytes[i]) % 256;
      }
    }
    assert bytes[..|bytes|] == bytes;
    RandIsBigEndian(coin);
  }

  class ElectAggreator {
    ghost const slot: Slot
    var shares: seq<int>
    var authors: set<int>

    ghost predicate Valid()
      reads this
    {
      |shares| == |authors|
    }

    constructor (ghost slot: Slot)
      ensures Valid() && authors == {} && this.slot == slot
    {
      this.slot := slot;
      shares, authors := [], {};
    }

    /** The leader elected by the combined signature, on the share that completes 2f+1; any
        2f+1 shares of a slot combine to the same coin. */
    method Append(c: N.Cfg, m: Msg) returns (r: Reply<int>)
      requires Valid() && c.n >= 1
      modifies this
      ensures Valid()
      ensures r.OneMore? <==> m.author in old(authors)
      ensures authors == old(authors) + {m.author}
      ensures r.Answer? ==>
                r.value == if |old(authors)| < High(c.n) <= |authors| then N.Elected(c, SlotOf(m)) else NONE
    {
      if m.author in authors {
        return OneMore;
      }
      authors := authors + {m.author};
      shares := shares + [m.author];
      if |shares| == High(c.n) {
        var rand := Combine(c.coin(SlotOf(m)));
        return Answer(rand % c.n);
      }
      return Answer(NONE);
    }
  }

  class PreVoteAggreator {
    ghost const slot: Slot
    var authors: set<int>
    var yesNums: int
    var noNums: int
    var flag: bool
    ghost var accepted: seq<Msg>

    ghost predicate Valid()
      reads this
    {
      && authors == Authors(accepted)
      && yesNums == |Yeses(accepted)| && noNums == |accepted| - |Yeses(accepted)|
      && (flag <==> |Yeses(accepted)| > 0)
    }

    constructor (ghost slot: Slot)
      ensures Valid() && accepted == [] && this.slot == slot
    {
      this.slot := slot;
      authors, yesNums, noNums, flag, accepted := {}, 0, 0, false, [];
    }

    /** Answers as the accepted prevotes say, though it keeps only counters. */
    method Append(n: nat, v: Msg) returns (r: Reply<Action>)
      requires Valid() && v.Prevote?
      modifies this
      ensures Valid()
      ensures r.OneMore? <==> v.author in Authors(old(accepted))
      ensures accepted == if r.OneMore? then old(accepted) else old(accepted) + [v]
      ensures r.Answer? ==> r.value == PreAction(old(accepted), v, High(n))
    {
      if v.author in authors {
        return OneMore;
      }
      authors := authors + {v.author};
      if v.flag == VOTE_NO {
        noNums := noNums + 1;
      } else {
        yesNums := yesNums + 1;
      }
      YesesSnoc(accepted, v);
      YesesCount(accepted);
      AuthorsSnoc(accepted, v);
      accepted := accepted + [v];
      if yesNums > 0 && !flag {
        flag := true;
        return Answer(ActionYes);
      }
      if noNums == High(n) && !flag {
        return Answer(ActionNo);
      }
      return Answer(ActionNone);
    }
  }

  class FinVoteAggreator {
    ghost const slot: Slot
    var authors: set<int>
    var yesNums: int
    var noNums: int
    ghost var accepted: seq<Msg>

    ghost predicate Valid()
      reads this
    {
      && authors == Authors(accepted)
      && yesNums == |Yeses(accepted)| && noNums == |accepted| - |Yeses(accepted)|
    }

    constructor (ghost slot: Slot)
      ensures Valid() && accepted == [] && this.slot == slot
    {
      this.slot := slot;
      authors, yesNums, noNums, accepted := {}, 0, 0, [];
    }

    /** Answers as the accepted final votes say. */
    method Append(n: nat, v: Msg) returns (r: Reply<Action>)
      requires Valid() && v.FinVote?
      modifies this
      ensures Valid()
      ensures r.OneMore? <==> v.author in Authors(old(accepted))
      ensures accepted == if r.OneMore? then old(accepted) else old(accepted) + [v]
      ensures r.Answer? ==> r.value == FinAction(old(accepted), v, High(n))
    {
      if v.author in authors {
        return OneMore;
      }
      authors := authors + {v.author};
      if v.flag == VOTE_YES {
        yesNums := yesNums + 1;
      } else {
        noNums := noNums + 1;
      }
      YesesSnoc(accepted, v);
      YesesCount(accepted);
      AuthorsSnoc(accepted, v);
      ghost var before := accepted;
      accepted := accepted + [v];
      var th := High(n);
      YesesCount(before + [v]);
      assert FinAction(before, v, th) ==
             if |accepted| != th then ActionNone
             else if yesNums == th then ActionCommit else if yesNums == 0 then ActionNo else ActionYes;
      if yesNums + noNums == th {
        if yesNums == th {
          return Answer(ActionCommit);
        } else if noNums == th {
          return Answer(ActionNo);
        }
        return Answer(ActionYes);
      }
      return Answer(ActionNone);
    }
  }

  /** The positions of the yes votes. */
  ghost function Yeses(acc: seq<Msg>): set<int> {
    set i | 0 <= i < |acc| && IsYes(acc[i])
  }

  lemma YesesSnoc(acc: seq<Msg>, v: Msg)
    ensures |Yeses(acc + [v])| == |Yeses(acc)| + if IsYes(v) then 1 else 0
  {
    if IsYes(v) {
      assert Yeses(acc + [v]) == Yeses(acc) + {|acc|};
    } else {
      assert Yeses(acc + [v]) == Yeses(acc);
    }
  }

  lemma {:induction false} YesesCount(acc: seq<Msg>)
    ensures |Yeses(acc)| == YesCount(acc)
  {
    if acc != [] {
      var init, v := acc[..|acc| - 1], acc[|acc| - 1];
      assert acc == init + [v];
      YesesCount(init);
      YesesSnoc(init, v);
    }
  }

  lemma AuthorsSnoc(acc: seq<Msg>, v: Msg)
    ensures Authors(acc + [v]) == Authors(acc) + {v.author}
  {
    assert forall x :: x in acc + [v] <==> x in acc || x == v;
  }

  // ------------------------------------------------------------------ one per slot

  /** The entry of a slot, empty when there is none. */
  function SetAt(view: map<Slot, set<int>>, sl: Slot): set<int> {
    if sl in view then view[sl] else {}
  }

  function SeqAt(view: map<Slot, seq<Msg>>, sl: Slot): seq<Msg> {
    if sl in view then view[sl] else []
  }

  /** A finish aggregator for each slot, made when first needed. */
  class FinishTable {
    var items: map<Slot, FinishAggreator>
    ghost var view: map<Slot, set<int>>
    ghost var Repr: set<object>

    ghost predicate Valid()
      reads this, Repr
      ensures Valid() ==> this in Repr
    {
      && this in Repr && items.Values <= Repr
      && items.Keys == view.Keys && (forall sl :: sl in items ==> items[sl].slot == sl)
      && (forall sl :: sl in items ==> items[sl].authors == view[sl])
    }

    constructor ()
      ensures Valid() && view == map[] && Repr == {this}
    {
      items, view, Repr := map[], map[], {this};
    }

    method Add(n: nat, m: Msg) returns (r: Reply<bool>)
      requires Valid()
      modifies Repr
      ensures Valid() && fresh(Repr - old(Repr))
      ensures view == old(view)[SlotOf(m) := SetAt(old(view), SlotOf(m)) + {m.author}]
      ensures r.OneMore? <==> m.author in SetAt(old(view), SlotOf(m))
      ensures r.Answer? ==> (r.value <==> |SetAt(old(view), SlotOf(m))| + 1 == High(n))
    {
      var sl := SlotOf(m);
      if sl !in items {
        var item := new FinishAggreator(sl);
        items := items[sl := item];
        Repr := Repr + {item};
      }
      r := items[sl].Append(n, m);
      view := view[sl := SetAt(view, sl) + {m.author}];
    }
  }

  /** A done aggregator for each slot. */
  class DoneTable {
    var items: map<Slot, DoneAggreator>
    ghost var view: map<Slot, set<int>>
    ghost var Repr: set<object>

    ghost predicate Valid()
      reads this, Repr
      ensures Valid() ==> this in Repr
    {
      && this in Repr && items.Values <= Repr
      && items.Keys == view.Keys && (forall sl :: sl in items ==> items[sl].slot == sl)
      && (forall sl :: sl in items ==> items[sl].authors == view[sl])
    }

    constructor ()
      ensures Valid() && view == map[] && Repr == {this}
    {
      items, view, Repr := map[], map[], {this};
    }

    method Add(n: nat, m: Msg) returns (r: Reply<DoneFlag>)
      requires Valid()
      modifies Repr
      ensures Valid() && fresh(Repr - old(Repr))
      ensures view == old(view)[SlotOf(m) := SetAt(old(view), SlotOf(m)) + {m.author}]
      ensures r.OneMore? <==> m.author in SetAt(old(view), SlotOf(m))
      ensures r.Answer? ==> r.value == DoneLevel(n, |SetAt(old(view), SlotOf(m))| + 1)
    {
      hide Low, High, DoneLevel;
      var sl := SlotOf(m);
      if sl !in items {
        var item := new DoneAggreator(sl);
        items := items[sl := item];
        Repr := Repr + {item};
      }
      ghost var authors := SetAt(view, sl);
      r := items[sl].Append(n, m);
      assert r.Answer? ==> |authors + {m.author}| == |authors| + 1;
      view := view[sl := authors + {m.author}];
    }
  }

  /** A prevote aggregator for each slot. */
  class PreVoteTable {
    var items: map<Slot, PreVoteAggreator>
    ghost var view: map<Slot, seq<Msg>>
    ghost var Repr: set<object>

    ghost predicate Valid()
      reads this, Repr
      ensures Valid() ==> this in Repr
    {
      && this in Repr && items.Values <= Repr
      && items.Keys == view.Keys && (forall sl :: sl in items ==> items[sl].slot == sl)
      && (forall sl :: sl in items ==> items[sl].Valid() && items[sl].accepted == view[sl])
    }

    constructor ()
      ensures Valid() && view == map[] && Repr == {this}
    {
      items, view, Repr := map[], map[], {this};
    }

    method Add(n: nat, v: Msg) returns (r: Reply<Action>)
      requires Valid() && v.Prevote?
      modifies Repr
      ensures Valid() && fresh(Repr - old(Repr))
      ensures var acc := SeqAt(old(view), SlotOf(v));
              && (r.OneMore? <==> v.author in Authors(acc))
              && view == old(view)[SlotOf(v) := if r.OneMore? then acc else acc + [v]]
              && (r.Answer? ==> r.value == PreAction(acc, v, High(n)))
    {
      hide PreVoteAggreator.Valid, Authors, PreAction;
      var sl := SlotOf(v);
      Make(sl);
      var item := items[sl];
      r := item.Append(n, v);
      view := view[sl := item.accepted];
    }

    method Make(sl: Slot)
      requires Valid()
      modifies this
      ensures Valid() && fresh(Repr - old(Repr))
      ensures sl in items && view == old(view)[sl := SeqAt(old(view), sl)]
    {
      hide PreVoteAggreator.Valid;
      if sl !in items {
        var item := new PreVoteAggreator(sl);
        items := items[sl := item];
        Repr := Repr + {item};
        view := view[sl := []];
      }
    }
  }

  /** A final-vote aggregator for each slot. */
  class FinVoteTable {
    var items: map<Slot, FinVoteAggreator>
    ghost var view: map<Slot, seq<Msg>>
    ghost var Repr: set<object>

    ghost predicate Valid()
      reads this, Repr
      ensures Valid() ==> this in Repr
    {
      && this in Repr && items.Values <= Repr
      && items.Keys == view.Keys && (forall sl :: sl in items ==> items[sl].slot == sl)
      && (forall sl :: sl in items ==> items[sl].Valid() && items[sl].accepted == view[sl])
    }

    constructor ()
      ensures Valid() && view == map[] && Repr == {this}
    {
      items, view, Repr := map[], map[], {this};
    }

    method Add(n: nat, v: Msg) returns (r: Reply<Action>)
      requires Valid() && v.FinVote?
      modifies Repr
      ensures Valid() && fresh(Repr - old(Repr))
      ensures var acc := SeqAt(old(view), SlotOf(v));
              && (r.OneMore? <==> v.author in Authors(acc))
              && view == old(view)[SlotOf(v) := if r.OneMore? then acc else acc + [v]]
              && (r.Answer? ==> r.value == FinAction(acc, v, High(n)))
    {
      hide FinVoteAggreator.Valid, Authors, FinAction;
      var sl := SlotOf(v);
      Make(sl);
      var item := items[sl];
      r := item.Append(n, v);
      view := view[sl := item.accepted];
    }

    method Make(sl: Slot)
      requires Valid()
      modifies this
      ensures Valid() && fresh(Repr - old(Repr))
      ensures sl in items && view == old(view)[sl := SeqAt(old(view), sl)]
    {
      hide FinVoteAggreator.Valid;
      if sl !in items {
        var item := new FinVoteAggreator(sl);
        items := items[sl := item];
        Repr := Repr + {item};
        view := view[sl := []];
      }
    }
  }

  /** The elector: leaders by slot, and a share aggregator for each slot. */
  class Elector {
    var leaders: map<Slot, int>
    var items: map<Slot, ElectAggreator>
    ghost var view: map<Slot, set<int>>
    ghost var Repr: set<object>

    ghost predicate Valid()
      reads this, Repr
      ensures Valid() ==> this in Repr
    {
      && this in Repr && items.Values <= Repr
      && items.Keys == view.Keys && (forall sl :: sl in items ==> items[sl].slot == sl)
      && (forall sl :: sl in items ==> items[sl].Valid() && items[sl].authors == view[sl])
    }

    constructor ()
      ensures Valid() && leaders == map[] && view == map[] && Repr == {this}
    {
      leaders, items, view, Repr := map[], map[], map[], {this};
    }

    method SetLeader(sl: Slot, leader: int)
      requires Valid()
      modifies this`leaders
      ensures Valid() && leaders == old(leaders)[sl := leader]
    {
      leaders := leaders[sl := leader];
    }

    function Leader(sl: Slot): int
      reads this`leaders
    {
      if sl in leaders then leaders[sl] else NONE
    }

    /** Records a share; the one that completes 2f+1 elects the leader of the slot and of no
        other. A second share of an author is ignored. */
    method AddShareVote(c: N.Cfg, m: Msg) returns (leader: int)
      requires Valid() && c.n >= 1
      modifies Repr
      ensures Valid() && fresh(Repr - old(Repr))
      ensures view == old(view)[SlotOf(m) := SetAt(old(view), SlotOf(m)) + {m.author}]
      ensures var before := SetAt(old(view), SlotOf(m));
              leader == if m.author !in before && |before| + 1 == High(c.n) then N.Elected(c, SlotOf(m)) else NONE
      ensures leaders == if leader == NONE then old(leaders) else old(leaders)[SlotOf(m) := leader]
    {
      hide ElectAggreator.Valid, N.Elected;
      var r := AddShare(c, m);
      if r.OneMore? {
        return NONE;
      }
      leader := r.value;
      if leader != NONE {
        leaders := leaders[SlotOf(m) := leader];
      }
    }

    method AddShare(c: N.Cfg, m: Msg) returns (r: Reply<int>)
      requires Valid() && c.n >= 1
      modifies Repr
      ensures leaders == old(leaders)
      ensures Valid() && fresh(Repr - old(Repr))
      ensures view == old(view)[SlotOf(m) := SetAt(old(view), SlotOf(m)) + {m.author}]
      ensures r.OneMore? <==> m.author in SetAt(old(view), SlotOf(m))
      ensures r.Answer? ==>
                r.value == if |SetAt(old(view), SlotOf(m))| + 1 == High(c.n) then N.Elected(c, SlotOf(m)) else NONE
    {
      hide ElectAggreator.Valid, N.Elected;
      var sl := SlotOf(m);
      Make(sl);
      var item := items[sl];
      r := item.Append(c, m);
      view := view[sl := item.authors];
    }

    method Make(sl: Slot)
      requires Valid()
      modifies this`items, this`view, this`Repr
      ensures Valid() && fresh(Repr - old(Repr))
      ensures sl in items && view == old(view)[sl := SetAt(old(view), sl)]
    {
      hide ElectAggreator.Valid;
      if sl !in items {
        var item := new ElectAggreator(sl);
        items := items[sl := item];
        Repr := Repr + {item};
        view := view[sl := {}];
      }
    }
  }
}

/** The committee's two thresholds and what they guarantee about quorums. */
module Committee {

  /** The number of faults a committee of n nodes is built for. Go's division
      truncates, so a committee of no nodes tolerates 0 and not -1. */
  function MaxFaults(n: nat): (f: nat)
    ensures n >= 1 ==> 3 * f + 1 <= n <= 3 * f + 3
  {
    if n == 0 then 0 else (n - 1) / 3
  }

  function High(n: nat): (t: nat)
    ensures 1 <= t
    ensures n >= 1 ==> t <= n
  {
    2 * MaxFaults(n) + 1
  }

  function Low(n: nat): (t: nat)
    ensures 1 <= t <= High(n)
  {
    MaxFaults(n) + 1
  }

  /** The integers from lo up to, not including, hi. */
  function Interval(lo: int, hi: int): (s: set<int>)
    requires lo <= hi
    ensures forall i :: i in s <==> lo <= i < hi
    ensures |s| == hi - lo
    decreases hi - lo
  {
    if lo == hi then {} else Interval(lo, hi - 1) + {hi - 1}
  }

  function Members(n: nat): (s: set<int>)
    ensures forall i :: i in s <==> 0 <= i < n
    ensures |s| == n
  {
    Interval(0, n)
  }

  lemma SubsetSize(a: set<int>, b: set<int>)
    requires a <= b
    ensures |a| <= |b|
  {
    assert b == a + (b - a);
  }

  lemma WithinMembers(a: set<int>, n: nat)
    requires a <= Members(n)
    ensures |a| <= n
  {
    SubsetSize(a, Members(n));
  }

  lemma Overlap(a: set<int>, b: set<int>, n: nat)
    requires a <= Members(n) && b <= Members(n)
    ensures |a * b| >= |a| + |b| - n
  {
    WithinMembers(a + b, n);
    assert |a + b| == |a| + |b| - |a * b|;
  }

  /** Any two high quorums share one more node than can be faulty. */
  ghost predicate QuorumsIntersect(n: nat) {
    forall a: set<int>, b: set<int> ::
      a <= Members(n) && b <= Members(n) && |a| >= High(n) && |b| >= High(n) ==>
        |a * b| >= Low(n)
  }

  /** The thresholds give intersecting quorums for committees of 3f+1 nodes, and
      for no others. */
  lemma QuorumsIntersectExactly(n: nat)
    requires n >= 1
    ensures QuorumsIntersect(n) <==> n == 3 * MaxFaults(n) + 1
  {
    if n == 3 * MaxFaults(n) + 1 {
      forall a: set<int>, b: set<int>
        | a <= Members(n) && b <= Members(n) && |a| >= High(n) && |b| >= High(n)
        ensures |a * b| >= Low(n)
      {
        Overlap(a, b, n);
      }
    } else {
      var h := High(n);
      var a := Interval(0, h);
      var b := Interval(n - h, n);
      assert a <= Members(n) && b <= Members(n);
      if n - h < h {
        assert a * b == Interval(n - h, h);
      } else {
        assert a * b == {};
      }
      assert |a * b| < Low(n);
    }
  }

  /** Two high quorums of a 3f+1 committee share a node outside any set of at
      most f nodes. */
  lemma CommonCorrect(a: set<int>, b: set<int>, byz: set<int>, n: nat) returns (x: int)
    requires n >= 1 && n == 3 * MaxFaults(n) + 1
    requires a <= Members(n) && b <= Members(n)
    requires |a| >= High(n) && |b| >= High(n)
    requires |byz| <= MaxFaults(n)
    ensures x in a && x in b && x !in byz
  {
    Overlap(a, b, n);
    x := Outside(a * b, byz);
  }

  /** A set larger than byz has an element outside it. */
  lemma Outside(a: set<int>, byz: set<int>) returns (x: int)
    requires |a| > |byz|
    ensures x in a && x !in byz
  {
    if forall y :: y in a ==> y in byz {
      SubsetSize(a, byz);
    }
    x :| x in a && x !in byz;
  }
}

/** Sequences of accepted votes, the abstract value of the prevote and final-vote
    aggregators: what they count and which action a new vote triggers. */
module Votes {
  import opened Messages

  datatype Action = ActionYes | ActionNo | ActionCommit | ActionNone

  /** A prevote is a yes unless it says no; a final vote is a no unless it says yes. */
  predicate IsYes(m: Msg) {
    match m
    case Prevote(_, _, _, _, flag, _) => flag != VOTE_NO
    case FinVote(_, _, _, _, flag, _) => flag == VOTE_YES
    case _ => false
  }

  function YesCount(acc: seq<Msg>): (k: nat)
    ensures k <= |acc|
  {
    if acc == [] then 0
    else YesCount(acc[..|acc| - 1]) + if IsYes(acc[|acc| - 1]) then 1 else 0
  }

  function Authors(acc: seq<Msg>): set<int> {
    set m <- acc :: m.author
  }

  /** What the prevote aggregator answers to v, the accepted votes so far being acc. */
  function PreAction(acc: seq<Msg>, v: Msg, th: nat): Action {
    if YesCount(acc) == 0 && IsYes(v) then ActionYes
    else if YesCount(acc) == 0 && |acc| + 1 == th then ActionNo
    else ActionNone
  }

  /** What the final-vote aggregator answers to v. */
  function FinAction(acc: seq<Msg>, v: Msg, th: nat): Action {
    if |acc| + 1 != th then ActionNone
    else if YesCount(acc + [v]) == th then ActionCommit
    else if YesCount(acc + [v]) == 0 then ActionNo
    else ActionYes
  }

  /** The answer the final-vote aggregator has given, once th votes were accepted. */
  function Outcome(acc: seq<Msg>, th: nat): Action
    requires th >= 1
  {
    if |acc| < th then ActionNone else FinAction(acc[..th - 1], acc[th - 1], th)
  }

  lemma {:induction false} YesCountAll(acc: seq<Msg>)
    ensures YesCount(acc) == |acc| <==> forall i :: 0 <= i < |acc| ==> IsYes(acc[i])
    ensures YesCount(acc) == 0 <==> forall i :: 0 <= i < |acc| ==> !IsYes(acc[i])
  {
    if acc != [] {
      YesCountAll(acc[..|acc| - 1]);
      assert forall i :: 0 <= i < |acc| - 1 ==> acc[..|acc| - 1][i] == acc[i];
    }
  }

  /** The outcome says how the first th votes were cast. */
  lemma OutcomeMeaning(acc: seq<Msg>, th: nat)
    requires 1 <= th <= |acc|
    ensures Outcome(acc, th) != ActionNone
    ensures Outcome(acc, th) == ActionCommit <==> forall i :: 0 <= i < th ==> IsYes(acc[i])
    ensures Outcome(acc, th) == ActionNo <==> forall i :: 0 <= i < th ==> !IsYes(acc[i])
  {
    assert acc[..th - 1] + [acc[th - 1]] == acc[..th];
    YesCountAll(acc[..th]);
    assert forall i :: 0 <= i < th ==> acc[..th][i] == acc[i];
  }

  /** Accepting another vote does not change an outcome. */
  lemma OutcomeStable(acc: seq<Msg>, v: Msg, th: nat)
    requires 1 <= th
    ensures |acc| >= th ==> Outcome(acc + [v], th) == Outcome(acc, th)
    ensures |acc| < th ==> Outcome(acc + [v], th) == FinAction(acc, v, th)
  {
    if |acc| >= th {
      assert (acc + [v])[..th - 1] == acc[..th - 1];
    } else if |acc| + 1 == th {
      assert (acc + [v])[..th - 1] == acc;
    }
  }

  /** An outcome is a commit from the vote on that made it one. */
  lemma OutcomeCommits(acc: seq<Msg>, v: Msg, th: nat)
    requires 1 <= th
    ensures Outcome(acc + [v], th) == ActionCommit <==>
            Outcome(acc, th) == ActionCommit || FinAction(acc, v, th) == ActionCommit
    ensures !(Outcome(acc, th) == ActionCommit && FinAction(acc, v, th) == ActionCommit)
  {
    OutcomeStable(acc, v, th);
  }

  lemma OutcomeNos(acc: seq<Msg>, v: Msg, th: nat)
    requires 1 <= th
    ensures Outcome(acc + [v], th) == ActionNo ==> Outcome(acc, th) == ActionNo || FinAction(acc, v, th) == ActionNo
  {
    OutcomeStable(acc, v, th);
  }

  /** The vote that fires the aggregator is the last of the first th. */
  lemma Fires(acc: seq<Msg>, v: Msg, th: nat)
    requires FinAction(acc, v, th) != ActionNone && th >= 1
    ensures |acc + [v]| == th && (acc + [v])[th - 1] == v
    ensures Outcome(acc + [v], th) == FinAction(acc, v, th)
  {
    OutcomeStable(acc, v, th);
  }

  ghost predicate DistinctAuthors(acc: seq<Msg>) {
    forall i, j :: 0 <= i < j < |acc| ==> acc[i].author != acc[j].author
  }

  /** Votes with distinct authors have as many authors as votes. */
  lemma {:induction false} AuthorsSize(acc: seq<Msg>)
    requires DistinctAuthors(acc)
    ensures |Authors(acc)| == |acc|
  {
    if acc != [] {
      var init, last := acc[..|acc| - 1], acc[|acc| - 1];
      AuthorsSize(init);
      assert acc == init + [last];
      assert Authors(acc) == Authors(init) + {last.author};
      assert last.author !in Authors(init);
    }
  }
}

// The lottery draw of scheduler() in hw3/proc.c: which draws make which slot win.
module Lottery {
  import opened Util
  import opened ProcTable

  function Weight(p: Proc): int {
    if p.state == RUNNABLE then p.tickets as int else 0
  }

  // The scheduler's counter after its scan has passed the first "k" slots.
  function Prefix(ps: Table, k: nat): int
    requires k <= |ps|
  {
    if k == 0 then 0 else Prefix(ps, k - 1) + Weight(ps[k - 1])
  }

  function Total(ps: Table): int {
    Prefix(ps, |ps|)
  }

  // "draw" makes the scan stop at slot "i".
  ghost predicate Chosen(ps: Table, draw: int, i: nat) {
    && i < |ps|
    && ps[i].state == RUNNABLE
    && draw <= Prefix(ps, i + 1)
    && forall j :: 0 <= j < i && ps[j].state == RUNNABLE ==> Prefix(ps, j + 1) < draw
  }

  ghost predicate NoneChosen(ps: Table, draw: int) {
    forall j :: 0 <= j < |ps| && ps[j].state == RUNNABLE ==> Prefix(ps, j + 1) < draw
  }

  ghost predicate IsPick(ps: Table, draw: int, r: Option<nat>) {
    match r
    case Some(i) => Chosen(ps, draw, i)
    case None => NoneChosen(ps, draw)
  }

  ghost predicate AnyRunnable(ps: Table) {
    exists i :: 0 <= i < |ps| && ps[i].state == RUNNABLE
  }

  ghost predicate FirstRunnable(ps: Table, i: nat) {
    && i < |ps|
    && ps[i].state == RUNNABLE
    && forall j :: 0 <= j < i ==> ps[j].state != RUNNABLE
  }

  // The sums the scheduler keeps in C ints are exact.
  ghost predicate SumsFit(ps: Table) {
    forall k :: 0 <= k <= |ps| ==> -INT_MAX - 1 <= Prefix(ps, k) <= INT_MAX
  }

  // The least ticket counts under which every slot gets the draws its tickets entitle it to.
  ghost predicate Fair(ps: Table) {
    forall i :: 0 <= i < |ps| && ps[i].state == RUNNABLE ==>
      (if FirstRunnable(ps, i) then -1 else 0) <= ps[i].tickets as int
  }

  ghost function Wins(ps: Table, i: nat): set<int> {
    set draw | 0 <= draw <= Total(ps) && Chosen(ps, draw, i)
  }

  /* Prefix sums */

  lemma {:induction false} PrefixSkips(ps: Table, lo: nat, hi: nat)
    requires lo <= hi <= |ps|
    requires forall j :: lo <= j < hi ==> ps[j].state != RUNNABLE
    ensures Prefix(ps, hi) == Prefix(ps, lo)
  {
    if lo < hi {
      PrefixSkips(ps, lo, hi - 1);
    }
  }

  // Every weight but the first RUNNABLE slot's is non-negative.
  lemma {:induction false} PrefixGrows(ps: Table, lo: nat, hi: nat)
    requires lo <= hi <= |ps|
    requires forall j :: lo <= j < hi && ps[j].state == RUNNABLE ==> 0 <= ps[j].tickets
    ensures Prefix(ps, lo) <= Prefix(ps, hi)
  {
    if lo < hi {
      PrefixGrows(ps, lo, hi - 1);
    }
  }

  lemma FairGrows(ps: Table, i: nat, lo: nat, hi: nat)
    requires Fair(ps) && i < lo <= hi <= |ps| && ps[i].state == RUNNABLE
    ensures Prefix(ps, lo) <= Prefix(ps, hi)
  {
    forall j | lo <= j < hi && ps[j].state == RUNNABLE ensures 0 <= ps[j].tickets {
      assert !FirstRunnable(ps, j);
    }
    PrefixGrows(ps, lo, hi);
  }

  lemma {:induction false} LastRunnable(ps: Table, hi: nat) returns (l: nat)
    requires hi <= |ps|
    requires exists i :: 0 <= i < hi && ps[i].state == RUNNABLE
    ensures l < hi && ps[l].state == RUNNABLE
    ensures forall j :: l < j < hi ==> ps[j].state != RUNNABLE
  {
    if ps[hi - 1].state == RUNNABLE {
      l := hi - 1;
    } else {
      l := LastRunnable(ps, hi - 1);
    }
  }

  lemma {:induction false} FirstRunnableExists(ps: Table, i: nat) returns (f: nat)
    requires i < |ps| && ps[i].state == RUNNABLE
    ensures f <= i && FirstRunnable(ps, f)
  {
    if j :| 0 <= j < i && ps[j].state == RUNNABLE {
      f := FirstRunnableExists(ps, j);
    } else {
      f := i;
    }
  }

  /* Work conservation */

  // A pass that drew at most the total comes away empty-handed exactly when nothing was RUNNABLE,
  // whatever the tickets were.
  lemma PassIsWorkConserving(ps: Table, draw: int)
    requires draw <= Total(ps)
    ensures NoneChosen(ps, draw) <==> !AnyRunnable(ps)
  {
    if AnyRunnable(ps) {
      var l := LastRunnable(ps, |ps|);
      PrefixSkips(ps, l + 1, |ps|);
      assert Prefix(ps, l + 1) == Total(ps);
    }
  }

  lemma ChosenIsUnique(ps: Table, draw: int, a: Option<nat>, b: Option<nat>)
    requires IsPick(ps, draw, a) && IsPick(ps, draw, b)
    ensures a == b
  {
    if a.Some? && b.Some? {
      assert !(a.value < b.value) && !(b.value < a.value);
    }
  }

  /* Counting */

  // A slot wins the draws above its lower bound, up to the counter after it.
  ghost function Lower(ps: Table, i: nat): int
    requires i < |ps|
  {
    if FirstRunnable(ps, i) then -1 else Prefix(ps, i)
  }

  lemma FirstWins(ps: Table, draw: int, i: nat)
    requires FirstRunnable(ps, i)
    ensures Prefix(ps, i) == 0
    ensures Chosen(ps, draw, i) <==> draw <= Prefix(ps, i + 1)
  {
    PrefixSkips(ps, 0, i);
  }

  lemma CountersBelow(ps: Table, i: nat)
    requires Fair(ps) && i <= |ps|
    ensures forall j :: 0 <= j < i && ps[j].state == RUNNABLE ==> Prefix(ps, j + 1) <= Prefix(ps, i)
  {
    forall j | 0 <= j < i && ps[j].state == RUNNABLE ensures Prefix(ps, j + 1) <= Prefix(ps, i) {
      FairGrows(ps, j, j + 1, i);
    }
  }

  // The counter before a later RUNNABLE slot is one the scan compared with the draw.
  lemma CounterBefore(ps: Table, i: nat) returns (l: nat)
    requires i < |ps| && ps[i].state == RUNNABLE && !FirstRunnable(ps, i)
    ensures l < i && ps[l].state == RUNNABLE && Prefix(ps, l + 1) == Prefix(ps, i)
  {
    l := LastRunnable(ps, i);
    PrefixSkips(ps, l + 1, i);
  }

  lemma OtherWins(ps: Table, draw: int, i: nat)
    requires Fair(ps) && i < |ps| && ps[i].state == RUNNABLE && !FirstRunnable(ps, i)
    ensures -1 <= Prefix(ps, i) <= Prefix(ps, i + 1)
    ensures Chosen(ps, draw, i) <==> Prefix(ps, i) < draw <= Prefix(ps, i + 1)
  {
    var l := CounterBefore(ps, i);
    CountersBelow(ps, i);
    var f := FirstRunnableExists(ps, i);
    FirstWins(ps, draw, f);
  }

  lemma WinningInterval(ps: Table, draw: int, i: nat)
    requires Fair(ps) && i < |ps| && ps[i].state == RUNNABLE && 0 <= draw
    ensures -1 <= Lower(ps, i) <= Prefix(ps, i + 1)
    ensures Chosen(ps, draw, i) <==> Lower(ps, i) < draw <= Prefix(ps, i + 1)
  {
    if FirstRunnable(ps, i) {
      FirstWins(ps, draw, i);
    } else {
      OtherWins(ps, draw, i);
    }
  }

  lemma {:induction false} IntervalSize(s: set<int>, lo: int, hi: int)
    requires lo <= hi + 1
    requires forall w :: w in s <==> lo <= w <= hi
    ensures |s| == hi + 1 - lo
    decreases hi + 1 - lo
  {
    if lo <= hi {
      IntervalSize(s - {hi}, lo, hi - 1);
      assert s == (s - {hi}) + {hi};
    } else {
      assert forall w :: w !in s;
      assert |s| == 0;
    }
  }

  lemma WinsAre(ps: Table, i: nat, draw: int)
    requires Fair(ps) && i < |ps| && ps[i].state == RUNNABLE
    ensures draw in Wins(ps, i) <==> Lower(ps, i) < draw <= Prefix(ps, i + 1)
  {
    FairGrows(ps, i, i + 1, |ps|);
    WinningInterval(ps, if 0 <= draw then draw else 0, i);
  }

  lemma WinsCount(ps: Table, i: nat)
    requires Fair(ps) && i < |ps| && ps[i].state == RUNNABLE
    ensures |Wins(ps, i)| == Prefix(ps, i + 1) - Lower(ps, i)
    ensures |Wins(ps, i)| == ps[i].tickets as int + (if FirstRunnable(ps, i) then 1 else 0)
  {
    forall draw ensures draw in Wins(ps, i) <==> Lower(ps, i) < draw <= Prefix(ps, i + 1) {
      WinsAre(ps, i, draw);
    }
    WinningInterval(ps, 0, i);
    IntervalSize(Wins(ps, i), Lower(ps, i) + 1, Prefix(ps, i + 1));
    if FirstRunnable(ps, i) {
      FirstWins(ps, 0, i);
    }
  }

  // Among the Total+1 draws of one pass, the first RUNNABLE slot wins one more than its tickets and
  // every other RUNNABLE slot exactly its tickets, if and only if no ticket count is too negative.
  lemma LotteryCounts(ps: Table)
    ensures Fair(ps) <==>
            forall i :: 0 <= i < |ps| && ps[i].state == RUNNABLE ==>
              |Wins(ps, i)| == ps[i].tickets as int + (if FirstRunnable(ps, i) then 1 else 0)
  {
    if Fair(ps) {
      forall i | 0 <= i < |ps| && ps[i].state == RUNNABLE
        ensures |Wins(ps, i)| == ps[i].tickets as int + (if FirstRunnable(ps, i) then 1 else 0)
      {
        WinsCount(ps, i);
      }
    }
  }

  // The winning sets partition the draws 0..Total.
  lemma DrawsArePartitioned(ps: Table, draw: int) returns (i: nat)
    requires AnyRunnable(ps) && 0 <= draw <= Total(ps)
    ensures draw in Wins(ps, i)
    ensures forall j: nat :: draw in Wins(ps, j) ==> j == i
  {
    PassIsWorkConserving(ps, draw);
    i := FirstReaching(ps, draw, |ps|);
    forall j: nat | draw in Wins(ps, j) ensures j == i {
      ChosenIsUnique(ps, draw, Some(i), Some(j));
    }
  }

  lemma {:induction false} FirstReaching(ps: Table, draw: int, hi: nat) returns (i: nat)
    requires hi <= |ps|
    requires exists j :: 0 <= j < hi && ps[j].state == RUNNABLE && draw <= Prefix(ps, j + 1)
    ensures Chosen(ps, draw, i)
  {
    var j :| 0 <= j < hi && ps[j].state == RUNNABLE && draw <= Prefix(ps, j + 1);
    if k :| 0 <= k < j && ps[k].state == RUNNABLE && draw <= Prefix(ps, k + 1) {
      i := FirstReaching(ps, draw, j);
    } else {
      i := j;
    }
  }

  // sys_settickets() takes any int. With -2 and 3 tickets the pass sums them to 1, and the slot that
  // holds 3 tickets wins only the 2 draws there are.
  lemma NegativeTicketsBreakTheCount(ps: Table)
    requires ps == [Proc(RUNNABLE, 1, None, NoChan, false, -2), Proc(RUNNABLE, 2, Some(0), NoChan, false, 3)]
    ensures Total(ps) == 1 && Wins(ps, 1) == {0, 1} && ps[1].tickets == 3 && !FirstRunnable(ps, 1)
  {
    assert Prefix(ps, 0) == 0 && Prefix(ps, 1) == -2 && Prefix(ps, 2) == 1;
    assert Chosen(ps, 0, 1) && Chosen(ps, 1, 1);
    assert Wins(ps, 1) == {0, 1};
  }
}

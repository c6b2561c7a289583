/**
 * The progress values `createATonOfRows` yields. Iteration `i` of the loop
 * (for `i` from 1 while `i < amountOfItems`) yields `i * 3` when `i` is a
 * multiple of 200; after the loop the generator yields
 * `amountOfItems * 3` unconditionally.
 */
module Progress {
  /** An iteration yields when its counter is a multiple of this. */
  const BatchSize: int := 200

  /** Logical rows per iteration: one item and two subitems. */
  const RowsPerItem: int := 3

  /**
   * The values yielded inside the loop by iterations 1..n, in order.
   * `InLoopBounded` and `InLoopClosedForm` state what they are.
   */
  function InLoop(n: nat): seq<int>
  {
    if n == 0 then []
    else InLoop(n - 1) + if n % BatchSize == 0 then [n * RowsPerItem] else []
  }

  /**
   * Iterations 1..n yield at most one value each; every value is positive
   * and no more than the progress of iteration n.
   */
  lemma {:induction false} InLoopBounded(n: nat)
    ensures |InLoop(n)| <= n
    ensures forall k :: 0 <= k < |InLoop(n)| ==> 0 < InLoop(n)[k] <= n * RowsPerItem
  {
    if n > 0 {
      InLoopBounded(n - 1);
    }
  }

  /**
   * Everything a completed run yields: at most one value per item, the last
   * being `amountOfItems * 3`. `ReportedIncreasing` shows the values rise.
   */
  function Reported(amountOfItems: int): (r: seq<int>)
    requires amountOfItems >= 1
    ensures 1 <= |r| <= amountOfItems
    ensures r[|r| - 1] == amountOfItems * RowsPerItem
  {
    InLoopBounded(amountOfItems - 1);
    InLoop(amountOfItems - 1) + [amountOfItems * RowsPerItem]
  }

  predicate StrictlyIncreasing(s: seq<int>)
  {
    forall j, k :: 0 <= j < k < |s| ==> s[j] < s[k]
  }

  /**
   * After n iterations the loop has yielded once per completed batch of 200,
   * and the k-th value is the progress of iteration 200 * (k + 1).
   */
  lemma {:induction false} InLoopClosedForm(n: nat)
    ensures |InLoop(n)| == n / BatchSize
    ensures forall k :: 0 <= k < |InLoop(n)| ==> InLoop(n)[k] == RowsPerItem * BatchSize * (k + 1)
  {
    if n > 0 {
      InLoopClosedForm(n - 1);
      if n % BatchSize == 0 {
        assert n / BatchSize == (n - 1) / BatchSize + 1;
        assert n == BatchSize * (n / BatchSize);
      } else {
        assert n / BatchSize == (n - 1) / BatchSize;
      }
    }
  }

  /** Iteration i yields i * 3 inside the loop exactly when i is a multiple of 200. */
  lemma YieldedByIteration(n: nat, i: int)
    requires 1 <= i <= n
    ensures i % BatchSize == 0 <==> i * RowsPerItem in InLoop(n)
    ensures i % BatchSize == 0 ==>
              0 < i / BatchSize <= |InLoop(n)| && InLoop(n)[i / BatchSize - 1] == i * RowsPerItem
  {
    InLoopClosedForm(n);
    if i % BatchSize == 0 {
      assert i == BatchSize * (i / BatchSize);
      assert i / BatchSize <= n / BatchSize;
    }
  }

  /** Every value yielded inside the loop is the progress of some iteration that is a multiple of 200. */
  lemma InLoopValuesAreBatchBoundaries(n: nat, k: int)
    requires 0 <= k < |InLoop(n)|
    ensures var i := BatchSize * (k + 1);
            1 <= i <= n && i % BatchSize == 0 && InLoop(n)[k] == i * RowsPerItem
  {
    InLoopClosedForm(n);
  }

  /**
   * A completed run reports strictly increasing values; the last is
   * amountOfItems * 3 and it exceeds everything yielded before it.
   */
  lemma ReportedIncreasing(amountOfItems: int)
    requires amountOfItems >= 1
    ensures |Reported(amountOfItems)| == (amountOfItems - 1) / BatchSize + 1
    ensures StrictlyIncreasing(Reported(amountOfItems))
    ensures Reported(amountOfItems)[|Reported(amountOfItems)| - 1] == amountOfItems * RowsPerItem
    ensures forall k :: 0 <= k < |Reported(amountOfItems)| - 1 ==>
              Reported(amountOfItems)[k] < amountOfItems * RowsPerItem
  {
    var n := amountOfItems - 1;
    InLoopClosedForm(n);
    var r := Reported(amountOfItems);
    forall k | 0 <= k < |r| - 1
      ensures r[k] < amountOfItems * RowsPerItem
    {
      assert r[k] == InLoop(n)[k];
      assert BatchSize * (k + 1) <= BatchSize * (n / BatchSize) <= n;
    }
  }

  /** The run app.tsx performs: 2499 values inside the loop, the last 1499400, then 1500000. */
  lemma ReportedFor500000()
    ensures |InLoop(499999)| == 2499
    ensures InLoop(499999)[2498] == 1499400
    ensures Reported(500000) == InLoop(499999) + [1500000]
    ensures |Reported(500000)| == 2500
  {
    InLoopClosedForm(499999);
  }
}

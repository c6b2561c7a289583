/**
 * The bulk row generator of app.tsx: `createATonOfRows` runs its loop for
 * `i` from 1 while `i < amountOfItems`, and each iteration inserts one item
 * (`createItem`) and two subitems (`createSubitem`) that carry the id just
 * returned for the item. Every 200th iteration it yields `i * 3`; after the
 * loop it yields `amountOfItems * 3`. An insert that fails ends the run
 * with the failure, keeping what was already inserted.
 */
module Generator {
  import opened Wrappers
  import opened Store
  import opened Progress

  /** The amount of items app.tsx asks for. */
  const AmountOfItems: int := 500000

  /** Stands in for `randomName`: the name handed out by its k-th call in a run. */
  type NameSource = nat -> string

  /**
   * The `items` table after n iterations of a run on a table that held
   * `items0` and whose next item id was `itemStart`: iteration j + 1 appends
   * the item with id `itemStart + j`, named by call 3 * j.
   */
  function ItemsAfter(items0: seq<ItemRow>, itemStart: int, names: NameSource, n: nat): (r: seq<ItemRow>)
    ensures |r| == |items0| + n
  {
    if n == 0 then items0
    else ItemsAfter(items0, itemStart, names, n - 1) + [ItemRow(itemStart + (n - 1), names(3 * (n - 1)))]
  }

  /**
   * The `subitems` table after n iterations of a run: iteration j + 1
   * appends two subitems with ids `subitemStart + 2 * j` and the one after,
   * both pointing at item `itemStart + j` and named by calls 3 * j + 1 and
   * 3 * j + 2.
   */
  function SubitemsAfter(subitems0: seq<SubitemRow>, itemStart: int, subitemStart: int, names: NameSource, n: nat)
    : (r: seq<SubitemRow>)
    ensures |r| == |subitems0| + 2 * n
  {
    if n == 0 then subitems0
    else
      var j := n - 1;
      SubitemsAfter(subitems0, itemStart, subitemStart, names, j) +
      [SubitemRow(subitemStart + 2 * j, itemStart + j, names(3 * j + 1)),
       SubitemRow(subitemStart + 2 * j + 1, itemStart + j, names(3 * j + 2))]
  }

  /**
   * The `items` table when insert `partial + 1` of iteration `completed + 1`
   * fails: the item of that iteration is there once its insert succeeded.
   */
  function ItemsAfterFailure(items0: seq<ItemRow>, itemStart: int, names: NameSource, completed: nat, partial: nat)
    : seq<ItemRow>
  {
    ItemsAfter(items0, itemStart, names, completed + if partial == 0 then 0 else 1)
  }

  /**
   * The `subitems` table when insert `partial + 1` of iteration
   * `completed + 1` fails: its first subitem is there if the failing insert
   * was the second subitem.
   */
  function SubitemsAfterFailure(subitems0: seq<SubitemRow>, itemStart: int, subitemStart: int, names: NameSource,
                                completed: nat, partial: nat): seq<SubitemRow>
  {
    SubitemsAfter(subitems0, itemStart, subitemStart, names, completed) +
    if partial == 2
    then [SubitemRow(subitemStart + 2 * completed, itemStart + completed, names(3 * completed + 1))]
    else []
  }

  /** Whether n iterations find an id for every insert. */
  predicate RunFits(itemStart: int, subitemStart: int, n: nat)
  {
    n == 0 || (itemStart + n - 1 <= MaxRowId && subitemStart + 2 * n - 1 <= MaxRowId)
  }

  /**
   * Where a run from next ids `itemStart` and `subitemStart` stops at its
   * first failing insert: `completed` iterations fit and the next one does
   * not, and `partial` of that iteration's three inserts succeed. The item
   * insert fails when the item counter is exhausted (`partial == 0`);
   * otherwise the first subitem insert fails when the subitem counter is
   * (`partial == 1`), and else the second one does (`partial == 2`).
   */
  predicate StoppedAt(itemStart: int, subitemStart: int, completed: nat, partial: nat)
  {
    RunFits(itemStart, subitemStart, completed) && !RunFits(itemStart, subitemStart, completed + 1) &&
    partial < 3 &&
    (partial == 0 <==> itemStart + completed > MaxRowId) &&
    (partial >= 2 <==> itemStart + completed <= MaxRowId && subitemStart + 2 * completed <= MaxRowId)
  }

  /** The counters a run starts from decide where it stops: there is only one such place. */
  lemma StoppedAtDetermined(itemStart: int, subitemStart: int, completed: nat, partial: nat,
                            completed': nat, partial': nat)
    requires StoppedAt(itemStart, subitemStart, completed, partial)
    requires StoppedAt(itemStart, subitemStart, completed', partial')
    ensures completed == completed' && partial == partial'
  {
    if completed < completed' {
      StoppedBefore(itemStart, subitemStart, completed, partial, completed');
    } else if completed' < completed {
      StoppedBefore(itemStart, subitemStart, completed', partial', completed);
    }
  }

  /**
   * Examples: with the item counter at the last rowid, iteration 1 takes it
   * and the item insert of iteration 2 fails; with the subitem counter
   * there, the second subitem insert of iteration 1 fails.
   */
  lemma StoppedAtExamples()
    ensures StoppedAt(MaxRowId, 1, 1, 0)
    ensures StoppedAt(1, MaxRowId, 0, 2)
  {
  }

  /** A run that stops inside iteration `completed + 1` does not fit any longer run either. */
  lemma StoppedBefore(itemStart: int, subitemStart: int, completed: nat, partial: nat, n: nat)
    requires StoppedAt(itemStart, subitemStart, completed, partial) && completed < n
    ensures !RunFits(itemStart, subitemStart, n)
  {
  }

  /**
   * The store after `n` completed iterations of a run that started on
   * tables `items0` and `subitems0` with next ids `a` and `b`.
   */
  predicate RunState(items0: seq<ItemRow>, subitems0: seq<SubitemRow>, a: int, b: int, names: NameSource, n: nat,
                     nextItemId: int, nextSubitemId: int, items: seq<ItemRow>, subitems: seq<SubitemRow>)
  {
    RunFits(a, b, n) && nextItemId == a + n && nextSubitemId == b + 2 * n &&
    items == ItemsAfter(items0, a, names, n) && subitems == SubitemsAfter(subitems0, a, b, names, n)
  }

  /**
   * The store after such a run stopped in iteration `completed + 1`, after
   * `partial` of its inserts.
   */
  predicate FailedState(items0: seq<ItemRow>, subitems0: seq<SubitemRow>, a: int, b: int, names: NameSource,
                        completed: nat, partial: nat,
                        nextItemId: int, nextSubitemId: int, items: seq<ItemRow>, subitems: seq<SubitemRow>)
  {
    StoppedAt(a, b, completed, partial) &&
    nextItemId == a + completed + (if partial == 0 then 0 else 1) &&
    nextSubitemId == b + 2 * completed + (if partial == 2 then 1 else 0) &&
    items == ItemsAfterFailure(items0, a, names, completed, partial) &&
    subitems == SubitemsAfterFailure(subitems0, a, b, names, completed, partial)
  }

  function Last<T>(s: seq<T>): T
    requires s != []
  {
    s[|s| - 1]
  }

  /** A run keeps the rows already there and appends item j with id `a + j` and the name of call 3 * j. */
  lemma {:induction false} ItemsAfterAt(items0: seq<ItemRow>, a: int, names: NameSource, n: nat)
    ensures ItemsAfter(items0, a, names, n)[..|items0|] == items0
    ensures forall j :: 0 <= j < n ==> ItemsAfter(items0, a, names, n)[|items0| + j] == ItemRow(a + j, names(3 * j))
  {
    if n > 0 {
      ItemsAfterAt(items0, a, names, n - 1);
    }
  }

  /**
   * A run keeps the subitems already there; iteration j + 1 appends ids
   * `b + 2 * j` and `b + 2 * j + 1`, both pointing at item `a + j`.
   */
  lemma {:induction false} SubitemsAfterAt(subitems0: seq<SubitemRow>, a: int, b: int, names: NameSource, n: nat)
    ensures SubitemsAfter(subitems0, a, b, names, n)[..|subitems0|] == subitems0
    ensures forall j :: 0 <= j < n ==>
              SubitemsAfter(subitems0, a, b, names, n)[|subitems0| + 2 * j] == SubitemRow(b + 2 * j, a + j, names(3 * j + 1))
    ensures forall j :: 0 <= j < n ==>
              SubitemsAfter(subitems0, a, b, names, n)[|subitems0| + 2 * j + 1] ==
              SubitemRow(b + 2 * j + 1, a + j, names(3 * j + 2))
  {
    if n > 0 {
      SubitemsAfterAt(subitems0, a, b, names, n - 1);
    }
  }

  /**
   * n iterations add n items and 2 * n subitems with consecutive ids from the
   * tables' next ids, and the two subitems of each iteration point at the
   * item that iteration added.
   */
  lemma RunTables(items0: seq<ItemRow>, subitems0: seq<SubitemRow>, a: int, b: int, names: NameSource, n: nat)
    ensures |ItemsAfter(items0, a, names, n)| == |items0| + n
    ensures |SubitemsAfter(subitems0, a, b, names, n)| == |subitems0| + 2 * n
    ensures forall k :: |items0| <= k < |items0| + n ==> ItemsAfter(items0, a, names, n)[k].id == a + (k - |items0|)
    ensures forall k :: |subitems0| <= k < |subitems0| + 2 * n ==>
              SubitemsAfter(subitems0, a, b, names, n)[k].id == b + (k - |subitems0|)
    ensures forall k :: |subitems0| <= k < |subitems0| + 2 * n ==>
              |items0| + (k - |subitems0|) / 2 < |items0| + n &&
              SubitemsAfter(subitems0, a, b, names, n)[k].itemId ==
              ItemsAfter(items0, a, names, n)[|items0| + (k - |subitems0|) / 2].id
  {
    ItemsAfterAt(items0, a, names, n);
    SubitemsAfterAt(subitems0, a, b, names, n);
    forall k | |items0| <= k < |items0| + n
      ensures ItemsAfter(items0, a, names, n)[k].id == a + (k - |items0|)
    {
      assert k == |items0| + (k - |items0|);
    }
    forall k | |subitems0| <= k < |subitems0| + 2 * n
      ensures SubitemsAfter(subitems0, a, b, names, n)[k].id == b + (k - |subitems0|)
      ensures SubitemsAfter(subitems0, a, b, names, n)[k].itemId == a + (k - |subitems0|) / 2
    {
      var j := (k - |subitems0|) / 2;
      if (k - |subitems0|) % 2 == 0 {
        assert k == |subitems0| + 2 * j;
      } else {
        assert k == |subitems0| + 2 * j + 1;
      }
    }
  }

  /**
   * The last value a completed run reports counts one iteration more than
   * the loop performed: three logical rows more than were inserted.
   */
  lemma FinalReportOvercounts(items0: seq<ItemRow>, subitems0: seq<SubitemRow>, a: int, b: int, names: NameSource,
                              amountOfItems: int)
    requires amountOfItems >= 1
    ensures Last(Reported(amountOfItems)) ==
            (|ItemsAfter(items0, a, names, amountOfItems - 1)| - |items0|) +
            (|SubitemsAfter(subitems0, a, b, names, amountOfItems - 1)| - |subitems0|) + RowsPerItem
  {
  }

  /** `createItem`: insert an item named by `randomName` and return its id. */
  method CreateItem(db: Database, name: string) returns (id: Option<int>)
    requires db.Valid()
    modifies db
    ensures db.Valid()
    ensures id.Some? <==> old(db.nextItemId) <= MaxRowId
    ensures id.Some? ==>
              id.value == old(db.nextItemId) && db.nextItemId == id.value + 1 &&
              db.items == old(db.items) + [ItemRow(id.value, name)]
    ensures id.Some? ==> forall k :: 0 <= k < |old(db.items)| ==> old(db.items)[k].id < id.value
    ensures id.None? ==> db.items == old(db.items) && db.nextItemId == old(db.nextItemId)
    ensures db.subitems == old(db.subitems) && db.nextSubitemId == old(db.nextSubitemId)
  {
    id := db.InsertItem(name);
  }

  /** `createSubitem`: insert a subitem of `itemId` named by `randomName` and return its id. */
  method CreateSubitem(db: Database, itemId: int, name: string) returns (id: Option<int>)
    requires db.Valid()
    modifies db
    ensures db.Valid()
    ensures id.Some? <==> old(db.nextSubitemId) <= MaxRowId
    ensures id.Some? ==>
              id.value == old(db.nextSubitemId) && db.nextSubitemId == id.value + 1 &&
              db.subitems == old(db.subitems) + [SubitemRow(id.value, itemId, name)]
    ensures id.Some? ==> forall k :: 0 <= k < |old(db.subitems)| ==> old(db.subitems)[k].id < id.value
    ensures id.None? ==> db.subitems == old(db.subitems) && db.nextSubitemId == old(db.nextSubitemId)
    ensures db.items == old(db.items) && db.nextItemId == old(db.nextItemId)
  {
    id := db.InsertSubitem(itemId, name);
  }

  /**
   * One pass of the loop body: `createItem`, then `createSubitem` twice with
   * the id it returned, naming them by calls 3k, 3k+1 and 3k+2. `done` is
   * how many of the three inserts succeeded; the first failure ends the
   * pass. Every subitem it adds points at the item inserted most recently,
   * the last row of `items`.
   */
  method CreateItemAndSubitems(db: Database, names: NameSource, k: nat) returns (done: nat)
    requires db.Valid()
    modifies db
    ensures db.Valid()
    ensures done <= 3
    ensures done == 0 <==> old(db.nextItemId) > MaxRowId
    ensures done >= 2 <==> old(db.nextItemId) <= MaxRowId && old(db.nextSubitemId) <= MaxRowId
    ensures done == 3 <==> old(db.nextItemId) <= MaxRowId && old(db.nextSubitemId) + 1 <= MaxRowId
    ensures db.nextItemId == old(db.nextItemId) + if done == 0 then 0 else 1
    ensures db.nextSubitemId == old(db.nextSubitemId) + if done <= 1 then 0 else done - 1
    ensures done == 0 ==> db.items == old(db.items)
    ensures done >= 1 ==> db.items == old(db.items) + [ItemRow(old(db.nextItemId), names(3 * k))]
    ensures done <= 1 ==> db.subitems == old(db.subitems)
    ensures done == 2 ==>
              db.subitems == old(db.subitems) + [SubitemRow(old(db.nextSubitemId), old(db.nextItemId), names(3 * k + 1))]
    ensures done == 3 ==>
              db.subitems == old(db.subitems) +
                             [SubitemRow(old(db.nextSubitemId), old(db.nextItemId), names(3 * k + 1)),
                              SubitemRow(old(db.nextSubitemId) + 1, old(db.nextItemId), names(3 * k + 2))]
    ensures forall s :: |old(db.subitems)| <= s < |db.subitems| ==>
              db.items != [] && db.subitems[s].itemId == Last(db.items).id
  {
    var id := CreateItem(db, names(3 * k));
    if id.None? {
      return 0;
    }
    var sub := CreateSubitem(db, id.value, names(3 * k + 1));
    if sub.None? {
      return 1;
    }
    sub := CreateSubitem(db, id.value, names(3 * k + 2));
    if sub.None? {
      return 2;
    }
    return 3;
  }

  /**
   * What one pass of the loop body leaves behind on top of j completed
   * iterations: the run extended by one iteration, or the tables of a run
   * that failed in iteration j + 1 after `done` inserts.
   */
  lemma IterationExtendsRun(items0: seq<ItemRow>, subitems0: seq<SubitemRow>, a: int, b: int, names: NameSource,
                            j: nat, done: nat, nextItemId: int, nextSubitemId: int,
                            items: seq<ItemRow>, subitems: seq<SubitemRow>,
                            items': seq<ItemRow>, subitems': seq<SubitemRow>)
    requires done <= 3
    requires nextItemId == a + j && nextSubitemId == b + 2 * j
    requires items == ItemsAfter(items0, a, names, j) && subitems == SubitemsAfter(subitems0, a, b, names, j)
    requires done == 0 ==> items' == items
    requires done >= 1 ==> items' == items + [ItemRow(nextItemId, names(3 * j))]
    requires done <= 1 ==> subitems' == subitems
    requires done == 2 ==> subitems' == subitems + [SubitemRow(nextSubitemId, nextItemId, names(3 * j + 1))]
    requires done == 3 ==>
               subitems' == subitems + [SubitemRow(nextSubitemId, nextItemId, names(3 * j + 1)),
                                        SubitemRow(nextSubitemId + 1, nextItemId, names(3 * j + 2))]
    ensures done == 3 ==>
              items' == ItemsAfter(items0, a, names, j + 1) && subitems' == SubitemsAfter(subitems0, a, b, names, j + 1)
    ensures done < 3 ==>
              items' == ItemsAfterFailure(items0, a, names, j, done) &&
              subitems' == SubitemsAfterFailure(subitems0, a, b, names, j, done)
  {
    if done == 0 {
      assert items' == ItemsAfter(items0, a, names, j + 0);
    }
  }

  /**
   * Iteration j + 1 of a run that started on tables `items0` and
   * `subitems0` with next ids `a` and `b`: one pass of the loop body, after
   * which the run has grown by one iteration or has failed inside it.
   */
  method RunIteration(db: Database, names: NameSource, ghost items0: seq<ItemRow>,
                      ghost subitems0: seq<SubitemRow>, ghost a: int, ghost b: int, j: nat)
    returns (done: nat)
    requires db.Valid()
    requires RunState(items0, subitems0, a, b, names, j, db.nextItemId, db.nextSubitemId, db.items, db.subitems)
    modifies db
    ensures db.Valid()
    ensures done <= 3
    ensures done < 3 <==> !RunFits(a, b, j + 1)
    ensures done == 0 <==> a + j > MaxRowId
    ensures done >= 2 <==> a + j <= MaxRowId && b + 2 * j <= MaxRowId
    ensures done == 3 ==>
              RunState(items0, subitems0, a, b, names, j + 1, db.nextItemId, db.nextSubitemId, db.items, db.subitems)
    ensures done < 3 ==>
              FailedState(items0, subitems0, a, b, names, j, done,
                          db.nextItemId, db.nextSubitemId, db.items, db.subitems)
  {
    ghost var items, subitems, nextItemId, nextSubitemId := db.items, db.subitems, db.nextItemId, db.nextSubitemId;
    done := CreateItemAndSubitems(db, names, j);
    IterationExtendsRun(items0, subitems0, a, b, names, j, done, nextItemId, nextSubitemId,
                        items, subitems, db.items, db.subitems);
  }

  /** The end of iteration `i`: every 200th iteration yields its progress, `i * 3`. */
  method YieldProgress(yielded: seq<int>, i: nat) returns (yielded': seq<int>)
    requires 1 <= i && yielded == InLoop(i - 1)
    ensures yielded' == InLoop(i)
  {
    yielded' := yielded;
    if i % BatchSize == 0 {
      yielded' := yielded' + [i * RowsPerItem];
    }
  }

  /**
   * The loop of `createATonOfRows`, run on tables `items0` and `subitems0`
   * with next ids `a` and `b`: iterations 1 .. `amountOfItems - 1` until
   * one fails. `yielded` is what the loop yields; on a failure `completed`
   * counts the iterations that finished and `partial` the inserts of the
   * one that failed.
   */
  method RunLoop(db: Database, amountOfItems: int, names: NameSource, ghost items0: seq<ItemRow>,
                 ghost subitems0: seq<SubitemRow>, ghost a: int, ghost b: int)
    returns (yielded: seq<int>, failed: bool, ghost completed: nat, ghost partial: nat)
    requires db.Valid()
    requires amountOfItems >= 1
    requires db.nextItemId == a && db.nextSubitemId == b && db.items == items0 && db.subitems == subitems0
    modifies db
    ensures db.Valid()
    ensures !failed ==>
              RunState(items0, subitems0, a, b, names, amountOfItems - 1,
                       db.nextItemId, db.nextSubitemId, db.items, db.subitems) &&
              yielded == InLoop(amountOfItems - 1)
    ensures failed ==>
              completed < amountOfItems - 1 &&
              FailedState(items0, subitems0, a, b, names, completed, partial,
                          db.nextItemId, db.nextSubitemId, db.items, db.subitems) &&
              yielded == InLoop(completed)
  {
    yielded, failed, completed, partial := [], false, 0, 0;
    var i := 1;
    while i < amountOfItems
      invariant 1 <= i <= amountOfItems
      invariant db.Valid()
      invariant RunState(items0, subitems0, a, b, names, i - 1, db.nextItemId, db.nextSubitemId, db.items, db.subitems)
      invariant yielded == InLoop(i - 1)
    {
      var done := RunIteration(db, names, items0, subitems0, a, b, i - 1);
      if done < 3 {
        failed, completed, partial := true, i - 1, done;
        break;
      }
      yielded := YieldProgress(yielded, i);
      i := i + 1;
    }
  }

  /**
   * `createATonOfRows` with the amount of items as a parameter. `yielded`
   * is every value the generator yields, in order; `failed` says that an
   * insert failed and the run ended with that failure, at the first insert
   * that found no id. On a failure the ghost `completed` counts the
   * iterations that finished and `partial` the inserts of the iteration
   * that failed.
   */
  method CreateATonOfRows(db: Database, amountOfItems: int, names: NameSource)
    returns (yielded: seq<int>, failed: bool, ghost completed: nat, ghost partial: nat)
    requires db.Valid()
    requires amountOfItems >= 1
    modifies db
    ensures db.Valid()
    ensures failed <==> !RunFits(old(db.nextItemId), old(db.nextSubitemId), amountOfItems - 1)
    ensures !failed ==>
              db.nextItemId == old(db.nextItemId) + (amountOfItems - 1) &&
              db.nextSubitemId == old(db.nextSubitemId) + 2 * (amountOfItems - 1) &&
              db.items == ItemsAfter(old(db.items), old(db.nextItemId), names, amountOfItems - 1) &&
              db.subitems ==
              SubitemsAfter(old(db.subitems), old(db.nextItemId), old(db.nextSubitemId), names, amountOfItems - 1) &&
              yielded == Reported(amountOfItems)
    ensures failed ==>
              completed < amountOfItems - 1 && StoppedAt(old(db.nextItemId), old(db.nextSubitemId), completed, partial)
    ensures failed ==>
              db.nextItemId == old(db.nextItemId) + completed + (if partial == 0 then 0 else 1) &&
              db.nextSubitemId == old(db.nextSubitemId) + 2 * completed + (if partial == 2 then 1 else 0) &&
              db.items == ItemsAfterFailure(old(db.items), old(db.nextItemId), names, completed, partial) &&
              db.subitems ==
              SubitemsAfterFailure(old(db.subitems), old(db.nextItemId), old(db.nextSubitemId), names, completed, partial) &&
              yielded == InLoop(completed)
  {
    yielded, failed, completed, partial :=
      RunLoop(db, amountOfItems, names, db.items, db.subitems, db.nextItemId, db.nextSubitemId);
    if failed {
      StoppedBefore(old(db.nextItemId), old(db.nextSubitemId), completed, partial, amountOfItems - 1);
    } else {
      yielded := yielded + [amountOfItems * RowsPerItem];
    }
  }

  /**
   * The app as it starts: a fresh database with both tables, then one click
   * on "Create a ton of rows", whose loop shows each yielded value as
   * "Rows in DB". It ends showing 1500000 while 1499997 rows were inserted.
   */
  method CreateOnFreshDatabase(names: NameSource) returns (rowCount: int, rowsInserted: nat)
    ensures rowCount == 1500000
    ensures rowsInserted == 1499997
  {
    var db := new Database();
    var yielded, failed, _, _ := CreateATonOfRows(db, AmountOfItems, names);
    assert !failed;
    ReportedFor500000();
    rowCount := 0;
    for k := 0 to |yielded|
      invariant k == 0 ==> rowCount == 0
      invariant k > 0 ==> rowCount == yielded[k - 1]
    {
      rowCount := yielded[k];
    }
    rowsInserted := |db.items| + |db.subitems|;
  }
}

/** Optional values, for operations of the store that may fail. */
module Wrappers {
  datatype Option<T> = None | Some(value: T)
}

/**
 * The two-table store the generator writes into: `items` and `subitems`,
 * each an `integer primary key autoincrement` table. Only what the core
 * relies on is modelled: inserts append a row and hand back the id the
 * table assigned; that id comes from a per-table counter that never goes
 * back, and an insert past the largest rowid fails (SQLite reports
 * SQLITE_FULL for an AUTOINCREMENT table whose counter is exhausted).
 */
module Store {
  import opened Wrappers

  /** The largest rowid SQLite assigns (2^63 - 1). */
  const MaxRowId: int := 0x7FFF_FFFF_FFFF_FFFF

  /** A row of `items (id, name)`. */
  datatype ItemRow = ItemRow(id: int, name: string)

  /** A row of `subitems (id, item_id, name)`. */
  datatype SubitemRow = SubitemRow(id: int, itemId: int, name: string)

  /** The id of row k of `items`. */
  function ItemIdAt(items: seq<ItemRow>, k: int): int
    requires 0 <= k < |items|
  {
    items[k].id
  }

  /** The id of row k of `subitems`. */
  function SubitemIdAt(subitems: seq<SubitemRow>, k: int): int
    requires 0 <= k < |subitems|
  {
    subitems[k].id
  }

  /** Every id of `items` is positive and below `next`, and each row's id exceeds the one before. */
  predicate ItemIdsBelow(items: seq<ItemRow>, next: int)
  {
    (forall k :: 0 <= k < |items| ==> 1 <= ItemIdAt(items, k) < next) &&
    (forall k :: 0 < k < |items| ==> ItemIdAt(items, k - 1) < ItemIdAt(items, k))
  }

  /** The same for `subitems`. */
  predicate SubitemIdsBelow(subitems: seq<SubitemRow>, next: int)
  {
    (forall k :: 0 <= k < |subitems| ==> 1 <= SubitemIdAt(subitems, k) < next) &&
    (forall k :: 0 < k < |subitems| ==> SubitemIdAt(subitems, k - 1) < SubitemIdAt(subitems, k))
  }

  /** Ids strictly increase along `items`, between any two rows and not only neighbours. */
  lemma ItemIdsIncrease(items: seq<ItemRow>, next: int)
    requires ItemIdsBelow(items, next)
    ensures forall k :: 0 <= k < |items| ==> 1 <= items[k].id < next
    ensures forall j, k :: 0 <= j < k < |items| ==> items[j].id < items[k].id
  {
    forall k | 0 <= k < |items|
      ensures 1 <= items[k].id < next
    {
      assert ItemIdAt(items, k) == items[k].id;
    }
    forall j, k | 0 <= j < k < |items|
      ensures items[j].id < items[k].id
    {
      var m := j + 1;
      while m < k
        invariant j < m <= k
        invariant ItemIdAt(items, j) < ItemIdAt(items, m)
      {
        assert ItemIdAt(items, m) < ItemIdAt(items, m + 1);
        m := m + 1;
      }
    }
  }

  lemma SubitemIdsIncrease(subitems: seq<SubitemRow>, next: int)
    requires SubitemIdsBelow(subitems, next)
    ensures forall k :: 0 <= k < |subitems| ==> 1 <= subitems[k].id < next
    ensures forall j, k :: 0 <= j < k < |subitems| ==> subitems[j].id < subitems[k].id
  {
    forall k | 0 <= k < |subitems|
      ensures 1 <= subitems[k].id < next
    {
      assert SubitemIdAt(subitems, k) == subitems[k].id;
    }
    forall j, k | 0 <= j < k < |subitems|
      ensures subitems[j].id < subitems[k].id
    {
      var m := j + 1;
      while m < k
        invariant j < m <= k
        invariant SubitemIdAt(subitems, j) < SubitemIdAt(subitems, m)
      {
        assert SubitemIdAt(subitems, m) < SubitemIdAt(subitems, m + 1);
        m := m + 1;
      }
    }
  }

  /** Appending a row with the next id keeps the ids in order, below the advanced counter. */
  lemma ItemIdsExtend(items: seq<ItemRow>, next: int, name: string)
    requires ItemIdsBelow(items, next) && 1 <= next
    ensures ItemIdsBelow(items + [ItemRow(next, name)], next + 1)
  {
    var items' := items + [ItemRow(next, name)];
    forall k | 0 <= k < |items'|
      ensures 1 <= ItemIdAt(items', k) < next + 1
    {
      if k < |items| {
        assert ItemIdAt(items', k) == ItemIdAt(items, k);
      }
    }
    forall k | 0 < k < |items'|
      ensures ItemIdAt(items', k - 1) < ItemIdAt(items', k)
    {
      assert ItemIdAt(items', k - 1) == ItemIdAt(items, k - 1);
      if k < |items| {
        assert ItemIdAt(items', k) == ItemIdAt(items, k);
      }
    }
  }

  lemma SubitemIdsExtend(subitems: seq<SubitemRow>, next: int, itemId: int, name: string)
    requires SubitemIdsBelow(subitems, next) && 1 <= next
    ensures SubitemIdsBelow(subitems + [SubitemRow(next, itemId, name)], next + 1)
  {
    var subitems' := subitems + [SubitemRow(next, itemId, name)];
    forall k | 0 <= k < |subitems'|
      ensures 1 <= SubitemIdAt(subitems', k) < next + 1
    {
      if k < |subitems| {
        assert SubitemIdAt(subitems', k) == SubitemIdAt(subitems, k);
      }
    }
    forall k | 0 < k < |subitems'|
      ensures SubitemIdAt(subitems', k - 1) < SubitemIdAt(subitems', k)
    {
      assert SubitemIdAt(subitems', k - 1) == SubitemIdAt(subitems, k - 1);
      if k < |subitems| {
        assert SubitemIdAt(subitems', k) == SubitemIdAt(subitems, k);
      }
    }
  }

  /**
   * An open database with the schema of app.tsx. `nextItemId` and
   * `nextSubitemId` are the AUTOINCREMENT counters: one past the largest id
   * ever handed out.
   */
  class Database {
    var items: seq<ItemRow>
    var subitems: seq<SubitemRow>
    var nextItemId: int
    var nextSubitemId: int

    ghost predicate Valid()
      reads this
    {
      1 <= nextItemId && 1 <= nextSubitemId &&
      ItemIdsBelow(items, nextItemId) && SubitemIdsBelow(subitems, nextSubitemId)
    }

    /** A fresh database after `create table if not exists` for both tables. */
    constructor ()
      ensures Valid()
      ensures items == [] && subitems == []
      ensures nextItemId == 1 && nextSubitemId == 1
    {
      items, subitems := [], [];
      nextItemId, nextSubitemId := 1, 1;
    }

    /** `insert into items (name) values (?) returning id`. */
    method InsertItem(name: string) returns (r: Option<int>)
      requires Valid()
      modifies this
      ensures Valid()
      ensures r.Some? <==> old(nextItemId) <= MaxRowId
      ensures r.Some? ==>
                r.value == old(nextItemId) && nextItemId == r.value + 1 &&
                items == old(items) + [ItemRow(r.value, name)]
      ensures r.Some? ==> forall k :: 0 <= k < |old(items)| ==> old(items)[k].id < r.value
      ensures r.None? ==> items == old(items) && nextItemId == old(nextItemId)
      ensures subitems == old(subitems) && nextSubitemId == old(nextSubitemId)
    {
      if nextItemId > MaxRowId {
        return None;
      }
      r := Some(nextItemId);
      ItemIdsIncrease(items, nextItemId);
      ItemIdsExtend(items, nextItemId, name);
      items := items + [ItemRow(nextItemId, name)];
      nextItemId := nextItemId + 1;
    }

    /**
     * `insert into subitems (item_id, name) values (?, ?) returning id`.
     * SQLite leaves foreign keys unenforced unless asked to, so `itemId`
     * is stored whatever it is.
     */
    method InsertSubitem(itemId: int, name: string) returns (r: Option<int>)
      requires Valid()
      modifies this
      ensures Valid()
      ensures r.Some? <==> old(nextSubitemId) <= MaxRowId
      ensures r.Some? ==>
                r.value == old(nextSubitemId) && nextSubitemId == r.value + 1 &&
                subitems == old(subitems) + [SubitemRow(r.value, itemId, name)]
      ensures r.Some? ==> forall k :: 0 <= k < |old(subitems)| ==> old(subitems)[k].id < r.value
      ensures r.None? ==> subitems == old(subitems) && nextSubitemId == old(nextSubitemId)
      ensures items == old(items) && nextItemId == old(nextItemId)
    {
      if nextSubitemId > MaxRowId {
        return None;
      }
      r := Some(nextSubitemId);
      SubitemIdsIncrease(subitems, nextSubitemId);
      SubitemIdsExtend(subitems, nextSubitemId, itemId, name);
      subitems := subitems + [SubitemRow(nextSubitemId, itemId, name)];
      nextSubitemId := nextSubitemId + 1;
    }
  }
}

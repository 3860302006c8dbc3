/**
 * The comment history: an IndexedDB object store keyed by an auto-incremented `id`, with an
 * index on `analyzedAt`, capped at a configurable number of records by evicting the oldest.
 */
module CommentHistory {
  import opened Wrappers
  import opened Errors

  /** A stored record: its key, its `analyzedAt` index key, and the rest of the record. */
  datatype Item<T> = Item(id: nat, analyzedAt: int, body: T)

  /** A record to add; its `id` may be left out for the key generator to fill in. */
  datatype NewItem<T> = NewItem(id: Option<nat>, analyzedAt: int, body: T)

  /** The object store: records in primary-key order, and the key generator's next key. */
  datatype Store<T> = Store(items: seq<Item<T>>, nextKey: nat)

  /** The keys held by a sequence of records. */
  function Keys<T>(items: seq<Item<T>>): set<nat>
    decreases |items|
  {
    if |items| == 0 then {} else {items[0].id} + Keys(items[1..])
  }

  /** The record at position `i` contributes its key. */
  lemma {:induction false} KeyAt<T>(items: seq<Item<T>>, i: nat)
    requires i < |items|
    ensures items[i].id in Keys(items)
    decreases i
  {
    if i > 0 {
      KeyAt(items[1..], i - 1);
    }
  }

  /** Every key is above `b`. */
  predicate Above(keys: set<nat>, b: nat) {
    forall k :: k in keys ==> k > b
  }

  /** Records in strictly ascending key order (so keys are unique). */
  predicate Sorted<T>(items: seq<Item<T>>)
    decreases |items|
  {
    |items| == 0 || (Above(Keys(items[1..]), items[0].id) && Sorted(items[1..]))
  }

  /** The store's invariant: records in key order, and the generator past every key. */
  predicate Valid<T>(st: Store<T>) {
    Sorted(st.items) && st.nextKey >= 1 && forall k :: k in Keys(st.items) ==> k < st.nextKey
  }

  /** The empty store the upgrade creates; its key generator starts at 1. */
  function EmptyStore<T>(): (st: Store<T>)
    ensures Valid(st) && st.items == []
    ensures st.nextKey == 1
  {
    Store([], 1)
  }

  /** `a` comes before `b` in the `analyzedAt` index: by index key, then by primary key. */
  predicate IndexBefore<T>(a: Item<T>, b: Item<T>) {
    a.analyzedAt < b.analyzedAt || (a.analyzedAt == b.analyzedAt && a.id <= b.id)
  }

  /** `getOldestComment`: the position of the first record of an ascending cursor on `analyzedAt`. */
  function OldestIndex<T>(items: seq<Item<T>>): (k: nat)
    requires |items| > 0
    ensures k < |items|
    ensures forall j :: 0 <= j < |items| ==> IndexBefore(items[k], items[j])
    decreases |items|
  {
    if |items| == 1 then 0
    else
      var k := OldestIndex(items[1..]) + 1;
      if IndexBefore(items[0], items[k]) then 0 else k
  }

  /** `store.delete(id)`: removes the record with that key, if any. */
  function Delete<T>(items: seq<Item<T>>, id: nat): (r: seq<Item<T>>)
    requires Sorted(items)
    ensures Sorted(r)
    ensures Keys(r) == Keys(items) - {id}
    decreases |items|
  {
    if |items| == 0 then []
    else if items[0].id == id then items[1..]
    else
      var rest := Delete(items[1..], id);
      assert ([items[0]] + rest)[1..] == rest;
      [items[0]] + rest
  }

  /** Deleting the key of the record at position `k` removes exactly that record. */
  lemma {:induction false} DeleteAt<T>(items: seq<Item<T>>, k: nat)
    requires Sorted(items) && k < |items|
    ensures Delete(items, items[k].id) == items[..k] + items[k + 1..]
    decreases |items|
  {
    if k > 0 {
      var tail := items[1..];
      assert tail[k - 1] == items[k];
      KeyAt(tail, k - 1);
      assert items[0].id != items[k].id;
      DeleteAt(tail, k - 1);
      assert Delete(items, items[k].id) == [items[0]] + tail[..k - 1] + tail[k..];
      assert tail[..k - 1] == items[1..k] && tail[k..] == items[k + 1..];
      assert items[..k] == [items[0]] + items[1..k];
    }
  }

  /** `store.add(item)` for a key not yet present: the record joins in key order. */
  function Insert<T>(items: seq<Item<T>>, it: Item<T>): (r: seq<Item<T>>)
    requires Sorted(items) && it.id !in Keys(items)
    ensures Sorted(r)
    ensures Keys(r) == Keys(items) + {it.id}
    decreases |items|
  {
    if |items| == 0 then
      assert [it][1..] == [];
      [it]
    else if it.id < items[0].id then
      assert ([it] + items)[1..] == items;
      [it] + items
    else
      var rest := Insert(items[1..], it);
      assert ([items[0]] + rest)[1..] == rest;
      [items[0]] + rest
  }

  /** Inserting adds exactly the new record and keeps every other. */
  lemma {:induction false} InsertContents<T>(items: seq<Item<T>>, it: Item<T>)
    requires Sorted(items) && it.id !in Keys(items)
    ensures multiset(Insert(items, it)) == multiset(items) + multiset{it}
    decreases |items|
  {
    if |items| > 0 && it.id >= items[0].id {
      InsertContents(items[1..], it);
      assert items == [items[0]] + items[1..];
    }
  }

  /** Deleting the record at position `k` removes one copy of it and nothing else. */
  lemma RemoveAtContents<T>(items: seq<Item<T>>, k: nat)
    requires k < |items|
    ensures multiset(items[..k] + items[k + 1..]) == multiset(items) - multiset{items[k]}
  {
    assert items == items[..k] + [items[k]] + items[k + 1..];
  }

  /**
   * The eviction step: when the store holds at least `maxHistory` records, the oldest one by
   * the `analyzedAt` index goes; an empty store has no oldest record and loses nothing.
   */
  function Evict<T>(items: seq<Item<T>>, maxHistory: real): (r: seq<Item<T>>)
    requires Sorted(items)
    ensures Sorted(r) && Keys(r) <= Keys(items)
    ensures |items| as real >= maxHistory && |items| > 0 ==>
              var k := OldestIndex(items); r == items[..k] + items[k + 1..]
    ensures |items| as real < maxHistory || |items| == 0 ==> r == items
  {
    if |items| as real >= maxHistory && |items| > 0 then
      var k := OldestIndex(items);
      DeleteAt(items, k);
      Delete(items, items[k].id)
    else items
  }

  /**
   * `addCommentToHistory`: in one transaction, deletes the oldest record when the store holds
   * at least `maxHistory` records, then adds the new one. An explicit key already present
   * aborts the transaction, undoing the deletion: `Err` leaves the store as it was.
   */
  function AddCommentToHistory<T>(st: Store<T>, comment: NewItem<T>, maxHistory: real): (r: Result<Store<T>, Error>)
    requires Valid(st)
    ensures r.Ok? ==> Valid(r.value)
    ensures r.Err? ==> r.error == ConstraintError && comment.id.Some?
    ensures comment.id.None? ==> r.Ok?
  {
    var evicted := Evict(st.items, maxHistory);
    var key := comment.id.GetOr(st.nextKey);
    if key in Keys(evicted) then Err(ConstraintError)
    else
      var next := if key >= st.nextKey then key + 1 else st.nextKey;
      Ok(Store(Insert(evicted, Item(key, comment.analyzedAt, comment.body)), next))
  }

  /**
   * A record without a key gets the generator's next key, the generator moves on by one,
   * and the store ends up holding the survivors of the eviction plus the new record.
   */
  lemma AddAutoKeyed<T>(st: Store<T>, comment: NewItem<T>, maxHistory: real)
    requires Valid(st) && comment.id.None?
    ensures var r := AddCommentToHistory(st, comment, maxHistory);
      r.Ok? && r.value.nextKey == st.nextKey + 1 &&
      multiset(r.value.items) ==
        multiset(Evict(st.items, maxHistory)) + multiset{Item(st.nextKey, comment.analyzedAt, comment.body)}
  {
    var evicted := Evict(st.items, maxHistory);
    InsertContents(evicted, Item(st.nextKey, comment.analyzedAt, comment.body));
  }

  /**
   * A record with its own key that is not taken keeps that key, and the generator moves
   * past it if it was not already beyond it.
   */
  lemma AddExplicitKey<T>(st: Store<T>, comment: NewItem<T>, maxHistory: real)
    requires Valid(st) && comment.id.Some?
    ensures var r := AddCommentToHistory(st, comment, maxHistory);
      r.Ok? ==>
        r.value.nextKey == (if comment.id.value >= st.nextKey then comment.id.value + 1 else st.nextKey) &&
        multiset(r.value.items) ==
          multiset(Evict(st.items, maxHistory)) + multiset{Item(comment.id.value, comment.analyzedAt, comment.body)}
  {
    var evicted := Evict(st.items, maxHistory);
    if comment.id.value !in Keys(evicted) {
      InsertContents(evicted, Item(comment.id.value, comment.analyzedAt, comment.body));
    }
  }

  /**
   * An add fails exactly when it names a key that is still present after the eviction; the
   * key of the record being evicted may be reused in the same transaction.
   */
  lemma AddFailsIffKeyTaken<T>(st: Store<T>, comment: NewItem<T>, maxHistory: real)
    requires Valid(st)
    ensures AddCommentToHistory(st, comment, maxHistory).Err? <==>
      comment.id.Some? && comment.id.value in Keys(Evict(st.items, maxHistory))
  {
  }

  /** When the store is full, the record that goes is the first one in `analyzedAt` order. */
  lemma EvictsOldest<T>(st: Store<T>, comment: NewItem<T>, maxHistory: real)
    requires Valid(st) && |st.items| as real >= maxHistory && |st.items| > 0
    ensures exists k :: (0 <= k < |st.items| &&
                        (forall j :: 0 <= j < |st.items| ==> IndexBefore(st.items[k], st.items[j])) &&
                        multiset(Evict(st.items, maxHistory)) == multiset(st.items) - multiset{st.items[k]})
  {
    var k := OldestIndex(st.items);
    RemoveAtContents(st.items, k);
  }

  /**
   * The cap: a successful add leaves one record more than before, or the same number when
   * the store was already at `maxHistory` or beyond.
   */
  lemma AddCount<T>(st: Store<T>, comment: NewItem<T>, maxHistory: real)
    requires Valid(st)
    ensures var r := AddCommentToHistory(st, comment, maxHistory);
      r.Ok? ==> (|r.value.items| ==
                 if |st.items| as real >= maxHistory && |st.items| > 0 then |st.items| else |st.items| + 1)
  {
    var evicted := Evict(st.items, maxHistory);
    var key := comment.id.GetOr(st.nextKey);
    if key !in Keys(evicted) {
      var it := Item(key, comment.analyzedAt, comment.body);
      InsertContents(evicted, it);
      assert |multiset(Insert(evicted, it))| == |multiset(evicted)| + 1;
      if |st.items| as real >= maxHistory && |st.items| > 0 {
        var k := OldestIndex(st.items);
        assert |evicted| == |st.items[..k]| + |st.items[k + 1..]|;
      }
    }
  }

  /**
   * With a positive cap, a store holding fewer than `maxHistory + 1` records (at most the cap
   * rounded up) still does after any add.
   */
  lemma {:induction false} HistoryStaysCapped<T>(st: Store<T>, comment: NewItem<T>, maxHistory: real)
    requires Valid(st) && maxHistory > 0.0 && (|st.items| as real) < maxHistory + 1.0
    ensures var r := AddCommentToHistory(st, comment, maxHistory);
      r.Ok? ==> (|r.value.items| as real) < maxHistory + 1.0
  {
    AddCount(st, comment, maxHistory);
  }

  /** Sorted records have strictly ascending keys, position by position. */
  lemma {:induction false} SortedAscending<T>(items: seq<Item<T>>, i: nat, j: nat)
    requires Sorted(items) && i < j < |items|
    ensures items[i].id < items[j].id
    decreases i
  {
    if i == 0 {
      KeyAt(items[1..], j - 1);
      assert items[1..][j - 1] == items[j];
    } else {
      SortedAscending(items[1..], i - 1, j - 1);
    }
  }

  /** `getAllCommentsFromHistory`: every record, in key order. */
  function GetAll<T>(st: Store<T>): (r: seq<Item<T>>)
    requires Valid(st)
    ensures |r| == |st.items|
    ensures forall i, j :: 0 <= i < j < |r| ==> r[i].id < r[j].id
    ensures multiset(r) == multiset(st.items)
  {
    forall i, j | 0 <= i < j < |st.items| ensures st.items[i].id < st.items[j].id {
      SortedAscending(st.items, i, j);
    }
    st.items
  }
}

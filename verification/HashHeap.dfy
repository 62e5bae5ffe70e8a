/** The engine's hashheap as both users in `resource.c` see it: entries with a
    unique key, a rank and a time, kept in priority order and found by key.
    A heap is its entries in order, so the front of the heap is index 0. */
module HashHeap {

  datatype Option<+T> = None | Some(value: T)

  datatype Tag<+T> = Tag(key: nat, rank: int, time: real, item: T)

  /** The two orders in use. `WaiterFirst` is the guard's: higher rank, then
      earlier entry time, then lower key. `VictimFirst` is `holder_order`. */
  datatype Order = VictimFirst | WaiterFirst

  predicate Precedes<T>(a: Tag<T>, b: Tag<T>, order: Order) {
    match order
    case VictimFirst =>
      if a.rank != b.rank then a.rank < b.rank
      else if a.time != b.time then a.time > b.time
      else a.key > b.key
    case WaiterFirst =>
      if a.rank != b.rank then a.rank > b.rank
      else if a.time != b.time then a.time < b.time
      else a.key < b.key
  }

  ghost predicate Sorted<T>(h: seq<Tag<T>>, order: Order) {
    forall i, j :: 0 <= i < j < |h| ==> Precedes(h[i], h[j], order)
  }

  ghost predicate DistinctKeys<T>(h: seq<Tag<T>>) {
    forall i, j :: 0 <= i < j < |h| ==> h[i].key != h[j].key
  }

  ghost predicate HeapOk<T>(h: seq<Tag<T>>, order: Order) {
    Sorted(h, order) && DistinctKeys(h)
  }

  function Find<T>(h: seq<Tag<T>>, key: nat): (r: Option<Tag<T>>)
    ensures r.Some? ==> r.value.key == key && r.value in h
    ensures r.None? ==> forall i :: 0 <= i < |h| ==> h[i].key != key
  {
    if h == [] then None
    else if h[0].key == key then Some(h[0])
    else Find(h[1..], key)
  }

  function Insert<T>(h: seq<Tag<T>>, t: Tag<T>, order: Order): (r: seq<Tag<T>>)
    ensures |r| == |h| + 1
  {
    if h == [] || Precedes(t, h[0], order) then [t] + h
    else [h[0]] + Insert(h[1..], t, order)
  }

  function Delete<T>(h: seq<Tag<T>>, key: nat): seq<Tag<T>> {
    if h == [] then []
    else if h[0].key == key then h[1..]
    else [h[0]] + Delete(h[1..], key)
  }

  /** Enqueue under a key, replacing the entry that has it. */
  function Put<T>(h: seq<Tag<T>>, t: Tag<T>, order: Order): seq<Tag<T>> {
    Insert(Delete(h, t.key), t, order)
  }

  // ---- Lookup ----

  lemma {:induction false} FindAt<T>(h: seq<Tag<T>>, i: nat)
    requires DistinctKeys(h) && i < |h|
    ensures Find(h, h[i].key) == Some(h[i])
  {
    if i > 0 {
      assert h[1..][i - 1] == h[i];
      FindAt(h[1..], i - 1);
    }
  }

  lemma {:induction false} FindInsert<T>(h: seq<Tag<T>>, t: Tag<T>, order: Order, k: nat)
    requires Find(h, t.key).None?
    ensures Find(Insert(h, t, order), k) == if k == t.key then Some(t) else Find(h, k)
  {
    if h == [] || Precedes(t, h[0], order) {
      assert ([t] + h)[1..] == h;
    } else {
      assert ([h[0]] + Insert(h[1..], t, order))[1..] == Insert(h[1..], t, order);
      FindInsert(h[1..], t, order, k);
    }
  }

  lemma {:induction false} FindDelete<T>(h: seq<Tag<T>>, key: nat, k: nat)
    requires DistinctKeys(h)
    ensures Find(Delete(h, key), k) == if k == key then None else Find(h, k)
  {
    if h == [] {
    } else if h[0].key == key {
    } else {
      assert ([h[0]] + Delete(h[1..], key))[1..] == Delete(h[1..], key);
      FindDelete(h[1..], key, k);
    }
  }

  lemma FindPut<T>(h: seq<Tag<T>>, t: Tag<T>, order: Order, k: nat)
    requires DistinctKeys(h)
    ensures Find(Put(h, t, order), k) == if k == t.key then Some(t) else Find(h, k)
  {
    FindDelete(h, t.key, t.key);
    FindDelete(h, t.key, k);
    FindInsert(Delete(h, t.key), t, order, k);
  }

  // ---- Shape ----

  lemma {:induction false} DeleteMembers<T>(h: seq<Tag<T>>, key: nat)
    ensures |Delete(h, key)| <= |h|
    ensures forall i :: 0 <= i < |Delete(h, key)| ==> Delete(h, key)[i] in h
    ensures Find(h, key).None? ==> Delete(h, key) == h
  {
    if h != [] && h[0].key != key {
      DeleteMembers(h[1..], key);
    }
  }

  lemma {:induction false} InsertMembers<T>(h: seq<Tag<T>>, t: Tag<T>, order: Order)
    ensures forall i :: 0 <= i < |h| + 1 ==> Insert(h, t, order)[i] == t || Insert(h, t, order)[i] in h
  {
    if h == [] || Precedes(t, h[0], order) {
    } else {
      InsertMembers(h[1..], t, order);
    }
  }

  lemma ConsOk<T>(t: Tag<T>, h: seq<Tag<T>>, order: Order)
    requires HeapOk(h, order) && forall j :: 0 <= j < |h| ==> Precedes(t, h[j], order) && t.key != h[j].key
    ensures HeapOk([t] + h, order)
  {
  }

  lemma TailOk<T>(h: seq<Tag<T>>, order: Order)
    requires HeapOk(h, order) && h != []
    ensures HeapOk(h[1..], order)
    ensures forall t :: t in h[1..] ==> Precedes(h[0], t, order) && h[0].key != t.key
  {
  }

  lemma {:induction false} DeleteOk<T>(h: seq<Tag<T>>, key: nat, order: Order)
    requires HeapOk(h, order)
    ensures HeapOk(Delete(h, key), order)
  {
    if h != [] {
      hide HeapOk, Precedes;
      TailOk(h, order);
      if h[0].key != key {
        DeleteOk(h[1..], key, order);
        DeleteMembers(h[1..], key);
        ConsOk(h[0], Delete(h[1..], key), order);
      }
    }
  }

  lemma {:induction false} InsertOk<T>(h: seq<Tag<T>>, t: Tag<T>, order: Order)
    requires HeapOk(h, order) && Find(h, t.key).None?
    ensures HeapOk(Insert(h, t, order), order)
  {
    if h == [] || Precedes(t, h[0], order) {
    } else {
      TailOk(h, order);
      InsertOk(h[1..], t, order);
      InsertMembers(h[1..], t, order);
      ConsOk(h[0], Insert(h[1..], t, order), order);
    }
  }

  lemma PutOk<T>(h: seq<Tag<T>>, t: Tag<T>, order: Order)
    requires HeapOk(h, order)
    ensures HeapOk(Put(h, t, order), order)
  {
    DeleteOk(h, t.key, order);
    FindDelete(h, t.key, t.key);
    InsertOk(Delete(h, t.key), t, order);
  }

  /** What the order is, on the entries themselves. Holders: the lowest rank
      first, of equal ranks the latest grant, then the highest key. Waiters:
      the highest rank first, of equal ranks the earliest wait, then the lowest
      key. */
  lemma PutInOrder<T>(h: seq<Tag<T>>, t: Tag<T>, order: Order, i: nat, j: nat)
    requires HeapOk(h, order) && i < j < |Put(h, t, order)|
    ensures var a, b := Put(h, t, order)[i], Put(h, t, order)[j];
      && a.key != b.key
      && match order
         case VictimFirst => a.rank < b.rank || (a.rank == b.rank && (a.time > b.time || (a.time == b.time && a.key > b.key)))
         case WaiterFirst => a.rank > b.rank || (a.rank == b.rank && (a.time < b.time || (a.time == b.time && a.key < b.key)))
  {
    PutOk(h, t, order);
    hide Put;
    assert Precedes(Put(h, t, order)[i], Put(h, t, order)[j], order);
  }

  lemma FrontIsFound<T>(h: seq<Tag<T>>)
    requires h != []
    ensures Find(h, h[0].key) == Some(h[0]) && Delete(h, h[0].key) == h[1..]
  {
  }

  /** A heap is determined by its order and what it finds: two ordered heaps
      that find the same entries are the same sequence. */
  lemma {:induction false} HeapIsItsMap<T(!new)>(a: seq<Tag<T>>, b: seq<Tag<T>>, order: Order)
    requires HeapOk(a, order) && HeapOk(b, order)
    requires forall k :: Find(a, k) == Find(b, k)
    ensures a == b
  {
    if a != [] { FrontIsFound(a); }
    if b != [] { FrontIsFound(b); }
    if a != [] && b != [] {
      assert a[0] in b && b[0] in a;
      assert a[0] == b[0];
      forall k ensures Find(a[1..], k) == Find(b[1..], k) {
        FindDelete(a, a[0].key, k);
        FindDelete(b, b[0].key, k);
      }
      HeapIsItsMap(a[1..], b[1..], order);
    }
  }
}

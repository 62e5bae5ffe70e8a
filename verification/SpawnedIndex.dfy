/** The open-addressing index over spawned models in `trial.c`: it finds by
    record what a walk of the list of spawned models would find. */
module SpawnedIndex {
  import opened HashHeap
  import opened Powers

  datatype Node = Node(record: nat, number: nat)

  type Table = seq<Option<Node>>

  const GOLDEN: nat := 0x9e37_79b9_7f4a_7c15
  const WORD: nat := 0x1_0000_0000_0000_0000
  const FIRST_CAPACITY: nat := 1024

  /** spawned_index_slot, with the mask as a remainder. */
  function Home(record: nat, capacity: nat): (h: nat)
    requires capacity > 0
    ensures h < capacity
  {
    record / 16 * GOLDEN % WORD % capacity
  }

  /** Where the record at 0x555555a0b2c0 belongs among 1024 slots. */
  lemma HomeOfOne()
    ensures Home(0x5555_55a0_b2c0, 1024) == 668
  {
    var product := 0x5_5555_5a0b_2c * GOLDEN;
    assert 0x5555_55a0_b2c0 / 16 == 0x5_5555_5a0b_2c;
    QuotientIs(product, WORD, 3624189828070);
    QuotientIs(product - 3624189828070 * WORD, 1024, 12272194426708238);
  }

  predicate IsPowerOfTwo(n: nat)
  {
    n == 1 || (n > 0 && n % 2 == 0 && IsPowerOfTwo(n / 2))
  }

  lemma {:induction false} PowersAreThese(n: nat)
    ensures IsPowerOfTwo(n) <==> exists i: nat :: n == Power(i)
  {
    if n == 1 {
      assert n == Power(0);
    } else if n > 1 && n % 2 == 0 {
      PowersAreThese(n / 2);
      if i: nat :| n / 2 == Power(i) { assert n == Power(i + 1); }
      if i: nat :| n == Power(i) { assert n / 2 == Power(i - 1); }
    } else {
      forall i: nat ensures n != Power(i) { assert i > 0 ==> Power(i) == 2 * Power(i - 1); }
    }
  }

  /** For a capacity that is a power of two, masking a word is taking the
      remainder for the next slot, and stays in range for any hash. */
  lemma MaskWraps(slot: bv64, hash: bv64, capacity: bv64)
    requires capacity != 0 && capacity & (capacity - 1) == 0 && slot < capacity
    ensures hash & (capacity - 1) < capacity
    ensures (slot + 1) & (capacity - 1) == if slot + 1 == capacity then 0 else slot + 1
  {
  }

  /** The list walk that the index replaces: the newest node is in front. */
  function Walk(list: seq<Node>, record: nat): (r: Option<Node>)
    ensures r.Some? ==> r.value in list && r.value.record == record
    ensures r.None? ==> forall n :: n in list ==> n.record != record
  {
    if list == [] then None
    else if list[0].record == record then Some(list[0])
    else Walk(list[1..], record)
  }

  // ---- Probing ----

  /** The d-th slot on the probe path from h. */
  function Probe(h: nat, d: nat, capacity: nat): (k: nat)
    requires h < capacity && d < capacity
    ensures k < capacity
  {
    if h + d < capacity then h + d else h + d - capacity
  }

  function Steps(h: nat, k: nat, capacity: nat): (d: nat)
    requires h < capacity && k < capacity
    ensures d < capacity && Probe(h, d, capacity) == k
    ensures forall e :: 0 <= e < capacity && Probe(h, e, capacity) == k ==> e == d
  {
    if k >= h then k - h else k + capacity - h
  }

  /** The slots before the d-th on the path from h are taken. */
  ghost predicate Taken(t: Table, h: nat, d: nat)
    requires h < |t| && d <= |t|
  {
    forall e :: 0 <= e < d ==> t[Probe(h, e, |t|)].Some?
  }

  /** Every node is reached from its home over taken slots, and no two nodes
      have the same record. */
  ghost predicate IndexOk(t: Table) {
    && (forall k :: 0 <= k < |t| && t[k].Some? ==>
          Taken(t, Home(t[k].value.record, |t|), Steps(Home(t[k].value.record, |t|), k, |t|)))
    && (forall j, k :: 0 <= j < k < |t| && t[j].Some? && t[k].Some? ==> t[j].value.record != t[k].value.record)
  }

  function Used(t: Table): (n: nat)
    ensures n <= |t|
  {
    if t == [] then 0 else (if t[0].Some? then 1 else 0) + Used(t[1..])
  }

  lemma {:induction false} SomeSlotIsFree(t: Table) returns (k: nat)
    requires Used(t) < |t|
    ensures k < |t| && t[k].None?
  {
    if t[0].None? {
      k := 0;
    } else {
      var j := SomeSlotIsFree(t[1..]);
      k := j + 1;
    }
  }

  lemma {:induction false} UsedFill(t: Table, k: nat, n: Node)
    requires k < |t| && t[k].None?
    ensures Used(t[k := Some(n)]) == Used(t) + 1
  {
    if k == 0 {
      assert t[k := Some(n)][1..] == t[1..];
    } else {
      assert t[k := Some(n)][1..] == t[1..][k - 1 := Some(n)];
      UsedFill(t[1..], k - 1, n);
    }
  }

  lemma {:induction false} UsedNone(t: Table)
    requires forall k :: 0 <= k < |t| ==> t[k].None?
    ensures Used(t) == 0
  {
    if t != [] { UsedNone(t[1..]); }
  }

  lemma {:induction false} UsedPrefix(t: Table, i: nat)
    requires i < |t|
    ensures Used(t[..i + 1]) == Used(t[..i]) + if t[i].Some? then 1 else 0
  {
    if i > 0 {
      assert t[..i + 1][1..] == t[1..][..i] && t[..i][1..] == t[1..][..i - 1];
      UsedPrefix(t[1..], i - 1);
    } else {
      assert t[..1][1..] == [];
    }
  }

  ghost predicate Holds(t: Table, n: Node) { Some(n) in t }

  /** A free slot that a probe from the node's home reaches may take it. */
  lemma PlaceKeeps(t: Table, n: Node, d: nat)
    requires IndexOk(t) && |t| > 0 && d < |t|
    requires Taken(t, Home(n.record, |t|), d) && t[Probe(Home(n.record, |t|), d, |t|)].None?
    requires forall m: Node :: Holds(t, m) ==> m.record != n.record
    ensures var k := Probe(Home(n.record, |t|), d, |t|); var t' := t[k := Some(n)];
      && IndexOk(t') && Used(t') == Used(t) + 1
      && forall m: Node :: Holds(t', m) <==> Holds(t, m) || m == n
  {
    var h := Home(n.record, |t|);
    var k := Probe(h, d, |t|);
    var t' := t[k := Some(n)];
    UsedFill(t, k, n);
    forall j | 0 <= j < |t| && t'[j].Some?
      ensures Taken(t', Home(t'[j].value.record, |t|), Steps(Home(t'[j].value.record, |t|), j, |t|))
    {
      if j == k { assert Steps(h, k, |t|) == d; }
      else { assert Taken(t, Home(t[j].value.record, |t|), Steps(Home(t[j].value.record, |t|), j, |t|)); }
    }
    forall j | 0 <= j < |t| && t[j].Some? ensures t[j].value.record != n.record { assert Holds(t, t[j].value); }
    forall m: Node ensures Holds(t', m) <==> Holds(t, m) || m == n {
      if Holds(t, m) {
        var j :| 0 <= j < |t| && t[j] == Some(m);
        assert t'[j] == Some(m);
      }
      if m == n { assert t'[k] == Some(m); }
    }
  }

  /** A free slot on the path: the record is not in the table. */
  lemma NotBeyondFree(t: Table, record: nat, d: nat)
    requires IndexOk(t) && |t| > 0 && d < |t| && t[Probe(Home(record, |t|), d, |t|)].None?
    requires forall e :: 0 <= e < d ==>
      t[Probe(Home(record, |t|), e, |t|)].Some? && t[Probe(Home(record, |t|), e, |t|)].value.record != record
    ensures forall m: Node :: Holds(t, m) ==> m.record != record
  {
  }

  // ---- The index ----

  class Index {
    var table: array<Option<Node>>
    var count: nat

    /** The index agrees with the list: it holds exactly the list's nodes, in a
        table of a power of two slots that is at most half full. */
    ghost predicate Valid(list: seq<Node>)
      reads this, table
    {
      && IndexOk(table[..]) && count == Used(table[..]) == |list|
      && (forall n: Node :: Holds(table[..], n) <==> n in list)
      && (if table.Length == 0 then count == 0 else IsPowerOfTwo(table.Length) && 2 * count <= table.Length)
    }

    constructor ()
      ensures Valid([]) && fresh(table)
    {
      table := new Option<Node>[0];
      count := 0;
    }

    /** spawned_index_insert, of a node whose record is new. */
    method Insert(node: Node, ghost list: seq<Node>)
      requires Valid(list) && forall n :: n in list ==> n.record != node.record
      modifies this, table
      ensures Valid([node] + list) && (table == old(table) || fresh(table))
      ensures table.Length == if 2 * |list| + 2 <= old(table.Length) then old(table.Length) else if old(table.Length) == 0 then 1024 else 2 * old(table.Length)
    {
      if (count + 1) * 2 > table.Length { Grow(list); }
      forall m: Node | Holds(table[..], m) ensures m.record != node.record { assert m in list; }
      Place(table, node);
      count := count + 1;
    }

    /** Double the table and place every node anew. */
    method Grow(ghost list: seq<Node>)
      requires Valid(list)
      modifies this
      ensures Valid(list) && fresh(table) && 2 * (count + 1) <= table.Length
      ensures count == old(count) && table.Length == if old(table.Length) == 0 then 1024 else 2 * old(table.Length)
    {
      var capacity := if table.Length == 0 then FIRST_CAPACITY else table.Length * 2;
      assert IsPowerOfTwo(capacity) by { assert capacity == 1024 || capacity / 2 == table.Length; PowersOfTwo(); }
      var index := new Option<Node>[capacity](_ => None);
      UsedNone(index[..]);
      ghost var was := table[..];
      var i := 0;
      while i < table.Length
        modifies index
        invariant 0 <= i <= table.Length && IndexOk(index[..]) && Used(index[..]) == Used(was[..i])
        invariant forall n: Node :: Holds(index[..], n) <==> Holds(was[..i], n)
      {
        UsedPrefix(was, i);
        assert was[..i + 1] == was[..i] + [was[i]];
        if table[i].Some? {
          forall m: Node | Holds(index[..], m) ensures m.record != table[i].value.record { assert Holds(was[..i], m); }
          Place(index, table[i].value);
        }
        i := i + 1;
      }
      assert was[..i] == was;
      table := index;
    }

    /** The probing loop of an insertion. */
    static method Place(index: array<Option<Node>>, node: Node)
      requires IndexOk(index[..]) && Used(index[..]) < index.Length
      requires forall m: Node :: Holds(index[..], m) ==> m.record != node.record
      modifies index
      ensures IndexOk(index[..]) && Used(index[..]) == Used(old(index[..])) + 1
      ensures forall m: Node :: Holds(index[..], m) <==> Holds(old(index[..]), m) || m == node
    {
      ghost var t := index[..];
      ghost var free := SomeSlotIsFree(t);
      var slot := Home(node.record, index.Length);
      ghost var h, d := slot, 0;
      while index[slot] != None
        invariant index[..] == t && 0 <= d <= Steps(h, free, |t|) && slot == Probe(h, d, |t|) && Taken(t, h, d)
        decreases |t| - d
      {
        slot := if slot + 1 == index.Length then 0 else slot + 1;
        d := d + 1;
      }
      PlaceKeeps(t, node, d);
      index[slot] := Some(node);
      assert index[..] == t[slot := Some(node)];
    }

    /** spawned_index_find: what the walk of the list finds. */
    method Find(record: nat, ghost list: seq<Node>) returns (r: Option<Node>)
      requires Valid(list)
      requires forall i, j :: 0 <= i < j < |list| ==> list[i].record != list[j].record
      ensures r == Walk(list, record)
    {
      if table.Length == 0 { return None; }
      ghost var t := table[..];
      ghost var free := SomeSlotIsFree(t);
      var slot := Home(record, table.Length);
      ghost var h, d := slot, 0;
      while table[slot] != None
        invariant 0 <= d <= Steps(h, free, |t|) && slot == Probe(h, d, |t|)
        invariant forall e :: 0 <= e < d ==> t[Probe(h, e, |t|)].Some? && t[Probe(h, e, |t|)].value.record != record
        decreases |t| - d
      {
        if table[slot].value.record == record {
          assert Holds(t, table[slot].value);
          return table[slot];
        }
        slot := if slot + 1 == table.Length then 0 else slot + 1;
        d := d + 1;
      }
      NotBeyondFree(t, record, d);
      assert forall n :: n in list ==> Holds(t, n);
      return None;
    }
  }

  lemma PowersOfTwo()
    ensures IsPowerOfTwo(1024)
    ensures forall n: nat :: IsPowerOfTwo(n) ==> IsPowerOfTwo(n * 2)
  {
  }
}

/** The cache of generated rows in `snapshot.py`: least recently used rows go
    when the rows held exceed the memory given. */
module RowCaches {
  import opened HashHeap

  datatype Key = Key(source: nat, tag: string, seed: nat, length: nat)

  type Row = seq<real>

  datatype Entry = Entry(key: Key, row: Row)

  function RowBytes(row: Row): nat { 8 * |row| }

  function Bytes(entries: seq<Entry>): nat {
    if entries == [] then 0 else RowBytes(entries[0].row) + Bytes(entries[1..])
  }

  /** How many values the rows have. */
  function Values(entries: seq<Entry>): nat {
    if entries == [] then 0 else |entries[0].row| + Values(entries[1..])
  }

  /** A value takes eight bytes. */
  lemma {:induction false} EightBytes(entries: seq<Entry>)
    ensures Bytes(entries) == 8 * Values(entries)
  {
    if entries != [] { EightBytes(entries[1..]); }
  }

  lemma {:induction false} BytesAppend(entries: seq<Entry>, e: Entry)
    ensures Bytes(entries + [e]) == Bytes(entries) + RowBytes(e.row)
  {
    if entries == [] {
      assert entries + [e] == [e];
    } else {
      assert (entries + [e])[1..] == entries[1..] + [e];
      BytesAppend(entries[1..], e);
    }
  }

  lemma {:induction false} BytesRemove(entries: seq<Entry>, i: nat)
    requires i < |entries|
    ensures Bytes(entries[..i] + entries[i + 1..]) == Bytes(entries) - RowBytes(entries[i].row)
  {
    if i == 0 {
      assert entries[..0] + entries[1..] == entries[1..];
    } else {
      assert (entries[..i] + entries[i + 1..])[1..] == entries[1..][..i - 1] + entries[1..][i..];
      BytesRemove(entries[1..], i - 1);
    }
  }

  lemma {:induction false} BytesSuffix(entries: seq<Entry>, k: nat)
    requires k < |entries|
    ensures Bytes(entries[k..]) == RowBytes(entries[k].row) + Bytes(entries[k + 1..])
  {
  }

  /** sorted(set(seeds)) */
  function InsertSeed(seeds: seq<nat>, s: nat): (r: seq<nat>)
    requires Ascending(seeds)
    ensures Ascending(r) && forall x :: x in r <==> x in seeds || x == s
  {
    if seeds == [] || s < seeds[0] then [s] + seeds
    else if s == seeds[0] then seeds
    else
      var r := InsertSeed(seeds[1..], s);
      AscendingCons(seeds, s, r);
      [seeds[0]] + r
  }

  lemma AscendingCons(seeds: seq<nat>, s: nat, r: seq<nat>)
    requires Ascending(seeds) && seeds != [] && seeds[0] < s && Ascending(r)
    requires forall x :: x in r ==> x in seeds[1..] || x == s
    ensures Ascending([seeds[0]] + r)
  {
    forall i | 0 <= i < |r| ensures seeds[0] < r[i] {
      assert r[i] in r;
      if r[i] != s {
        var j :| 0 <= j < |seeds[1..]| && seeds[1..][j] == r[i];
        assert seeds[1..][j] == seeds[j + 1];
      }
    }
  }

  ghost predicate Ascending(s: seq<nat>) { forall i, j :: 0 <= i < j < |s| ==> s[i] < s[j] }

  function SortedSet(seeds: seq<nat>): (r: seq<nat>)
    ensures Ascending(r) && forall x :: x in r <==> x in seeds
  {
    if seeds == [] then [] else InsertSeed(SortedSet(seeds[1..]), seeds[0])
  }

  /** What is left when front rows have gone, and the last of these because
      the rows from it on exceed the memory. */
  ghost predicate NoMoreThanNeeded(all: seq<Entry>, memory: nat, left: seq<Entry>) {
    exists k :: 0 <= k <= |all| && left == all[k..] && (k > 0 ==> Bytes(all[k - 1..]) > memory)
  }

  class RowCache {
    /** The row that a source generates; the same each time. */
    const generate: Key -> Row
    var entries: seq<Entry>   // least recently used first
    var bytes: nat

    /** Every cached row is the generated one, under one key, and the bytes add up. */
    ghost predicate Valid()
      reads this
    {
      && (forall i, j :: 0 <= i < j < |entries| ==> entries[i].key != entries[j].key)
      && (forall i :: 0 <= i < |entries| ==> entries[i].row == generate(entries[i].key))
      && bytes == Bytes(entries)
    }

    constructor (generate: Key -> Row)
      ensures Valid() && this.generate == generate && entries == []
    {
      this.generate := generate;
      entries := [];
      bytes := 0;
    }

    /** trim_rows: the oldest rows go, and no more of them than needed. */
    method Trim(memory: nat)
      requires Valid()
      modifies this
      ensures Valid() && (bytes <= memory || entries == [])
      ensures NoMoreThanNeeded(old(entries), memory, entries)
    {
      ghost var k := 0;
      while bytes > memory && |entries| > 0
        invariant Valid() && 0 <= k <= |old(entries)| && entries == old(entries)[k..]
        invariant k > 0 ==> Bytes(old(entries)[k - 1..]) > memory
        decreases |entries|
      {
        BytesSuffix(old(entries), k);
        bytes := bytes - RowBytes(entries[0].row);
        entries := entries[1..];
        k := k + 1;
      }
    }

    method Lookup(key: Key) returns (i: Option<nat>)
      ensures i.Some? ==> i.value < |entries| && entries[i.value].key == key
      ensures i.None? ==> forall j :: 0 <= j < |entries| ==> entries[j].key != key
    {
      var j := 0;
      while j < |entries|
        invariant 0 <= j <= |entries| && forall l :: 0 <= l < j ==> entries[l].key != key
      {
        if entries[j].key == key { return Some(j); }
        j := j + 1;
      }
      i := None;
    }

    /** move_to_end */
    method Touch(i: nat)
      requires Valid() && i < |entries|
      modifies this
      ensures Valid() && bytes == old(bytes) && entries == old(entries)[..i] + old(entries)[i + 1..] + [old(entries)[i]]
    {
      BytesRemove(entries, i);
      BytesAppend(entries[..i] + entries[i + 1..], entries[i]);
      entries := entries[..i] + entries[i + 1..] + [entries[i]];
    }

    /** A new row goes to the end of the cache, if it fits. */
    method Keep(key: Key, row: Row, memory: nat)
      requires Valid() && row == generate(key) && forall j :: 0 <= j < |entries| ==> entries[j].key != key
      modifies this
      ensures Valid() && (bytes <= memory || entries == [])
      ensures forall j :: 0 <= j < |entries| ==> entries[j].key == key || entries[j] in old(entries)
      ensures NoMoreThanNeeded(old(entries) + [Entry(key, row)], memory, entries)
    {
      hide Bytes;
      Append(key, row);
      ghost var all := entries;
      Trim(memory);
      assert forall j :: 0 <= j < |entries| ==> entries[j] in all;
    }

    method Append(key: Key, row: Row)
      requires Valid() && row == generate(key) && forall j :: 0 <= j < |entries| ==> entries[j].key != key
      modifies this
      ensures Valid() && entries == old(entries) + [Entry(key, row)]
    {
      BytesAppend(entries, Entry(key, row));
      entries := entries + [Entry(key, row)];
      bytes := bytes + RowBytes(row);
    }

    /** Snapshot.rows: whatever the cache holds or drops, each seed gets the row
        that its source generates, and the rows held fit the memory. */
    method Rows(source: nat, tag: string, seeds: seq<nat>, length: nat, memory: nat) returns (rows: map<Key, Row>)
      requires Valid()
      modifies this
      ensures Valid() && (8 * Values(entries) <= memory || entries == [])
      ensures forall k :: k in rows <==> (exists s :: s in seeds && k == Key(source, tag, s, length))
      ensures forall k :: k in rows ==> rows[k] == generate(k)
    {
      hide Values, Keys, NoMoreThanNeeded;
      Trim(memory);
      var wanted := SortedSet(seeds);
      var missing;
      rows, missing := Cached(source, tag, wanted, length);
      rows := Generate(source, tag, missing, length, memory, rows);
      EightBytes(entries);
    }

    /** The rows that the cache has, which become its latest, and the seeds of
        those that it has not. */
    method Cached(source: nat, tag: string, wanted: seq<nat>, length: nat) returns (rows: map<Key, Row>, missing: seq<nat>)
      requires Valid() && Ascending(wanted)
      modifies this
      ensures Valid() && bytes == old(bytes) && |entries| == |old(entries)| && Ascending(missing)
      ensures forall s :: s in missing ==> s in wanted && Key(source, tag, s, length) !in Keys(entries)
      ensures forall k :: k in rows <==> (k.seed in wanted && k.seed !in missing && k == Key(source, tag, k.seed, length))
      ensures forall k :: k in rows ==> rows[k] == generate(k)
    {
      hide Bytes, Keys;
      rows, missing := map[], [];
      var i := 0;
      while i < |wanted|
        invariant 0 <= i <= |wanted| && Valid() && bytes == old(bytes) && |entries| == |old(entries)| && Ascending(missing)
        invariant forall s :: s in missing ==> s in wanted[..i] && Key(source, tag, s, length) !in Keys(entries)
        invariant forall k :: k in rows <==> (k.seed in wanted[..i] && k.seed !in missing && k == Key(source, tag, k.seed, length))
        invariant forall k :: k in rows ==> rows[k] == generate(k)
      {
        var key := Key(source, tag, wanted[i], length);
        assert wanted[i] !in wanted[..i] && wanted[..i + 1] == wanted[..i] + [wanted[i]];
        var found := Lookup(key);
        if found.Some? {
          rows := rows[key := entries[found.value].row];
          KeysTouched(entries, found.value);
          Touch(found.value);
        } else {
          assert forall j :: 0 <= j < |missing| ==> missing[j] in missing && missing[j] < wanted[i];
          missing := missing + [wanted[i]];
        }
        i := i + 1;
      }
      assert wanted[..i] == wanted;
    }

    /** Generate the missing rows together. */
    method Generate(source: nat, tag: string, missing: seq<nat>, length: nat, memory: nat, found: map<Key, Row>) returns (rows: map<Key, Row>)
      requires Valid() && (bytes <= memory || entries == []) && Ascending(missing)
      requires forall s :: s in missing ==> Key(source, tag, s, length) !in Keys(entries)
      requires forall k :: k in found ==> found[k] == generate(k)
      modifies this
      ensures Valid() && (bytes <= memory || entries == [])
      ensures forall k :: k in rows <==> k in found || (k.seed in missing && k == Key(source, tag, k.seed, length))
      ensures forall k :: k in rows ==> rows[k] == generate(k)
    {
      hide Bytes, Keys, NoMoreThanNeeded;
      rows := found;
      var i := 0;
      while i < |missing|
        invariant 0 <= i <= |missing| && Valid() && (bytes <= memory || entries == [])
        invariant forall s :: s in missing[i..] ==> Key(source, tag, s, length) !in Keys(entries)
        invariant forall k :: k in rows <==> k in found || (k.seed in missing[..i] && k == Key(source, tag, k.seed, length))
        invariant forall k :: k in rows ==> rows[k] == generate(k)
      {
        var key := Key(source, tag, missing[i], length);
        assert missing[..i + 1] == missing[..i] + [missing[i]] && missing[i] in missing[i..];
        rows := rows[key := generate(key)];
        ghost var before := entries;
        Keep(key, generate(key), memory);
        forall s | s in missing[i + 1..] ensures Key(source, tag, s, length) !in Keys(entries) {
          assert s in missing[i..] && s != missing[i];
        }
        i := i + 1;
      }
      assert missing[..i] == missing;
    }
  }

  function Keys(entries: seq<Entry>): (ks: set<Key>)
    ensures forall k :: k in ks <==> exists i :: 0 <= i < |entries| && entries[i].key == k
  {
    set i | 0 <= i < |entries| :: entries[i].key
  }

  lemma KeysTouched(entries: seq<Entry>, i: nat)
    requires i < |entries|
    ensures Keys(entries[..i] + entries[i + 1..] + [entries[i]]) == Keys(entries)
  {
    var moved := entries[..i] + entries[i + 1..] + [entries[i]];
    forall j | 0 <= j < |entries| ensures entries[j].key in Keys(moved) {
      assert entries[j] == moved[if j < i then j else if j > i then j - 1 else |moved| - 1];
    }
    forall j | 0 <= j < |moved| ensures moved[j].key in Keys(entries) {
      assert moved[j] == entries[if j < i then j else if j < |moved| - 1 then j + 1 else i];
    }
  }
}

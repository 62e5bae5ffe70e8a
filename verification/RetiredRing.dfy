/** The ring in which `trial.c` keeps the structs of retired processes until
    the clock has passed their retirement. */
module RetiredRing {

  datatype Retired = Retired(process: nat, time: real)

  /** A time to free before; Forever at the end of the trial. */
  datatype Deadline = Before(time: real) | Forever

  predicate IsOlder(r: Retired, now: Deadline) {
    match now case Before(t) => r.time < t case Forever => true
  }

  ghost predicate InOrder(s: seq<Retired>) {
    forall i, j :: 0 <= i < j < |s| ==> s[i].time <= s[j].time
  }

  /** How many entries come off the front: up to the first that is not older. */
  function Expired(s: seq<Retired>, now: Deadline): (k: nat)
    ensures k <= |s|
  {
    if s == [] || !IsOlder(s[0], now) then 0 else 1 + Expired(s[1..], now)
  }

  /** With the entries in order, stopping at the first entry that is not older
      takes off exactly the older ones. */
  lemma {:induction false} ExpiredAreTheOlder(s: seq<Retired>, now: Deadline)
    requires InOrder(s)
    ensures forall i :: 0 <= i < |s| ==> (i < Expired(s, now) <==> IsOlder(s[i], now))
  {
    if s != [] {
      ExpiredAreTheOlder(s[1..], now);
      forall i | 0 <= i < |s| ensures i < Expired(s, now) <==> IsOlder(s[i], now) {
        if i > 0 { assert s[i] == s[1..][i - 1] && s[0].time <= s[i].time; }
      }
    }
  }

  lemma {:induction false} AllExpire(s: seq<Retired>)
    ensures Expired(s, Forever) == |s|
  {
    if s != [] { AllExpire(s[1..]); }
  }

  function Processes(s: seq<Retired>): seq<nat> {
    seq(|s|, i requires 0 <= i < |s| => s[i].process)
  }

  const FIRST_CAPACITY: nat := 64

  class Ring {
    var entries: array<Retired>
    var head: nat
    var count: nat

    ghost predicate Valid()
      reads this
    {
      count <= entries.Length && (entries.Length > 0 ==> head < entries.Length)
    }

    /** Oldest first. */
    ghost function Contents(): seq<Retired>
      requires Valid()
      reads this, entries
    {
      seq(count, i requires 0 <= i < count && Valid() reads this, entries => entries[(head + i) % entries.Length])
    }

    constructor ()
      ensures Valid() && fresh(entries) && Contents() == []
    {
      entries := new Retired[0];
      head, count := 0, 0;
    }

    /** Double the array, with the contents unrolled to its start. */
    method Grow()
      requires Valid() && count == entries.Length
      modifies this
      ensures Valid() && fresh(entries) && entries.Length == (if old(count) == 0 then FIRST_CAPACITY else 2 * old(count))
      ensures Contents() == old(Contents()) && count < entries.Length && count == old(count)
    {
      var capacity := if entries.Length > 0 then 2 * entries.Length else FIRST_CAPACITY;
      var ring := new Retired[capacity];
      var i := 0;
      while i < count
        modifies ring
        invariant 0 <= i <= count
        invariant forall j :: 0 <= j < i ==> ring[j] == old(Contents())[j]
      {
        ring[i] := entries[(head + i) % entries.Length];
        i := i + 1;
      }
      ghost var was := Contents();
      entries := ring;
      head := 0;
      forall j | 0 <= j < count ensures Contents()[j] == was[j] { Wrapped(0, j, entries.Length); }
    }

    /** keep_retired */
    method Keep(r: Retired)
      requires Valid()
      modifies this, entries
      ensures Valid() && (entries == old(entries) || fresh(entries))
      ensures Contents() == old(Contents()) + [r]
      ensures entries.Length == if old(count) < old(entries.Length) then old(entries.Length)
                                else if old(count) == 0 then 64 else 2 * old(count)
    {
      if count == entries.Length { Grow(); }
      Append(r);
    }

    /** The entry goes after the newest, where the ring has room. */
    method Append(r: Retired)
      requires Valid() && count < entries.Length
      modifies this`count, entries
      ensures Valid() && count == old(count) + 1 && Contents() == old(Contents()) + [r]
    {
      ghost var was := Contents();
      var tail := (head + count) % entries.Length;
      Wrapped(head, count, entries.Length);
      entries[tail] := r;
      count := count + 1;
      forall j | 0 <= j < |was| ensures Contents()[j] == was[j] { Wrapped(head, j, entries.Length); }
    }

    /** free_retired_before: the structs freed, oldest first. */
    method FreeBefore(now: Deadline) returns (freed: seq<nat>)
      requires Valid()
      modifies this
      ensures Valid() && entries == old(entries)
      ensures var s := old(Contents()); var k := Expired(s, now);
        Contents() == s[k..] && freed == Processes(s[..k])
    {
      ghost var s := Contents();
      freed := [];
      ghost var i := 0;
      while count > 0
        invariant Valid() && entries == old(entries) && 0 <= i <= |s| && Contents() == s[i..]
        invariant freed == Processes(s[..i]) && Expired(s, now) == i + Expired(s[i..], now)
        decreases count
      {
        assert Contents()[0] == s[i];
        Wrapped(head, 0, entries.Length);
        var oldest := entries[head];
        if !IsOlder(oldest, now) { break; }
        freed := freed + [oldest.process];
        Advance();
        assert s[i..][1..] == s[i + 1..] && s[..i] + [s[i]] == s[..i + 1];
        i := i + 1;
      }
    }

    /** The oldest entry comes off. */
    method Advance()
      requires Valid() && count > 0
      modifies this`head, this`count
      ensures Valid() && entries == old(entries) && count == old(count) - 1 && Contents() == old(Contents())[1..]
    {
      ghost var was, first := Contents(), head;
      head := (head + 1) % entries.Length;
      count := count - 1;
      forall j | 0 <= j < count ensures Contents()[j] == was[j + 1] {
        Wrapped(first, 1, entries.Length);
        Wrapped(head, j, entries.Length);
        Wrapped(first, j + 1, entries.Length);
      }
    }
  }

  lemma Wrapped(head: nat, i: nat, length: nat)
    requires head < length && i <= length
    ensures (head + i) % length == if head + i < length then head + i else head + i - length
  {
  }
}

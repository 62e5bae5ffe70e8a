/** The bootstrap row generators of `bootstrap.py`, and that each generates its
    rows in prefix order: a longer row begins with the shorter one. */
module Bootstrap {
  import opened HashHeap
  import opened Powers
  import opened InputSlots
  import opened Extension

  // ---- Random numbers ----

  /** A deterministic generator: each draw gives a number and the next state.
      An array draw is that many draws in turn. */
  datatype Random<!S> = Random(word: (S, nat) -> (nat, S), geometric: (S, real) -> (nat, S),
                               uniform: S -> (real, S), jittered: (S, real) -> (real, S))

  /** integers(0, n) */
  function Integer<S>(g: Random<S>, s: S, n: nat): (r: (nat, S))
    requires n > 0
    ensures r.0 < n
  {
    (g.word(s, n).0 % n, g.word(s, n).1)
  }

  /** geometric(p), at least 1 */
  function Run<S>(g: Random<S>, s: S, p: real): (r: (nat, S))
    ensures r.0 >= 1
  {
    (g.geometric(s, p).0 + 1, g.geometric(s, p).1)
  }

  /** integers(0, n, size=count) */
  function Integers<S>(g: Random<S>, s: S, n: nat, count: nat): (r: seq<nat>)
    requires n > 0
    ensures |r| == count && forall i :: 0 <= i < count ==> r[i] < n
    decreases count
  {
    if count == 0 then [] else [Integer(g, s, n).0] + Integers(g, Integer(g, s, n).1, n, count - 1)
  }

  lemma {:induction false} IntegersPrefix<S>(g: Random<S>, s: S, n: nat, few: nat, many: nat)
    requires n > 0 && few <= many
    ensures Integers(g, s, n, few) == Integers(g, s, n, many)[..few]
    decreases few
  {
    if few > 0 { IntegersPrefix(g, Integer(g, s, n).1, n, few - 1, many - 1); }
  }

  /** The generator's state after i draws below n. */
  function AfterDraws<S>(g: Random<S>, s: S, n: nat, i: nat): S
    decreases i
  {
    if i == 0 then s else AfterDraws(g, g.word(s, n).1, n, i - 1)
  }

  lemma {:induction false} IntegerAt<S>(g: Random<S>, s: S, n: nat, count: nat, i: nat)
    requires n > 0 && i < count
    ensures Integers(g, s, n, count)[i] == g.word(AfterDraws(g, s, n, i), n).0 % n
    decreases count
  {
    if i > 0 { IntegerAt(g, Integer(g, s, n).1, n, count - 1, i - 1); }
  }

  function Select(values: seq<real>, indices: seq<nat>): (row: seq<real>)
    requires forall i :: 0 <= i < |indices| ==> indices[i] < |values|
    ensures |row| == |indices| && forall i :: 0 <= i < |row| ==> row[i] == values[indices[i]]
  {
    seq(|indices|, i requires 0 <= i < |indices| => values[indices[i]])
  }

  // ---- iid and blocks ----

  function IidIndices<S>(g: Random<S>, s: S, size: nat, length: nat): (r: seq<nat>)
    requires size > 0
    ensures |r| == length && forall i :: 0 <= i < length ==> r[i] < size
  {
    Integers(g, s, size, length)
  }

  function CeilDiv(a: nat, b: nat): nat
    requires b > 0
  {
    (a + b - 1) / b
  }

  /** (starts[:, None] + offsets).ravel() */
  function Ravel(starts: seq<nat>, block: nat): (r: seq<nat>)
    ensures |r| == |starts| * block
  {
    if starts == [] then [] else seq(block, i requires 0 <= i < block => starts[0] + i) + Ravel(starts[1..], block)
  }

  lemma {:induction false} RavelAt(starts: seq<nat>, block: nat, q: nat, r: nat)
    requires q < |starts| && r < block
    ensures q * block + r < |Ravel(starts, block)| && Ravel(starts, block)[q * block + r] == starts[q] + r
    decreases q
  {
    if q > 0 {
      RavelAt(starts[1..], block, q - 1, r);
      assert q * block + r == block + ((q - 1) * block + r);
    }
  }

  lemma Enough(length: nat, block: nat)
    requires block > 0
    ensures CeilDiv(length, block) * block >= length
  {
  }

  lemma FewerStarts(few: nat, many: nat, block: nat)
    requires block > 0 && few <= many
    ensures CeilDiv(few, block) <= CeilDiv(many, block)
  {
    DivisionIsMonotone(few + block - 1, many + block - 1, block);
  }

  /** Indices of a block resample: `wrap` is the row count for circular blocks,
      whose starts may be any row, and whose blocks run on from the front. */
  function BlockIndices<S>(g: Random<S>, s: S, size: nat, block: nat, circular: bool, length: nat): (r: seq<nat>)
    requires 1 <= block <= size
    ensures |r| == length
  {
    var starts := Integers(g, s, if circular then size else size - block + 1, CeilDiv(length, block));
    Enough(length, block);
    var indices := Ravel(starts, block)[..length];
    if circular then seq(length, i requires 0 <= i < length => indices[i] % size) else indices
  }

  /** Entry r of block q is the block's start and r more, and a row of the data. */
  lemma BlockIndexAt<S>(g: Random<S>, s: S, size: nat, block: nat, circular: bool, length: nat, q: nat, r: nat)
    requires 1 <= block <= size && r < block && q * block + r < length
    ensures var starts := Integers(g, s, if circular then size else size - block + 1, CeilDiv(length, block));
            var x := BlockIndices(g, s, size, block, circular, length)[q * block + r];
      q < |starts| && x < size && x == (if circular then (starts[q] + r) % size else starts[q] + r)
  {
    Enough(length, block);
    QuotientIs(q * block + r, block, q);
    QuotientBelow(q * block + r, CeilDiv(length, block), block);
    RavelAt(Integers(g, s, if circular then size else size - block + 1, CeilDiv(length, block)), block, q, r);
  }

  lemma BlockPrefix<S>(g: Random<S>, s: S, size: nat, block: nat, circular: bool, few: nat, many: nat)
    requires 1 <= block <= size && few <= many
    ensures BlockIndices(g, s, size, block, circular, few) == BlockIndices(g, s, size, block, circular, many)[..few]
  {
    hide BlockIndices, CeilDiv;
    var top := if circular then size else size - block + 1;
    FewerStarts(few, many, block);
    IntegersPrefix(g, s, top, CeilDiv(few, block), CeilDiv(many, block));
    forall i | 0 <= i < few
      ensures BlockIndices(g, s, size, block, circular, few)[i] == BlockIndices(g, s, size, block, circular, many)[i]
    {
      DivisionSplits(i, block);
      BlockIndexAt(g, s, size, block, circular, few, i / block, i % block);
      BlockIndexAt(g, s, size, block, circular, many, i / block, i % block);
    }
  }

  lemma BlocksInRange<S>(g: Random<S>, s: S, size: nat, block: nat, circular: bool, length: nat)
    requires 1 <= block <= size
    ensures forall i :: 0 <= i < length ==> BlockIndices(g, s, size, block, circular, length)[i] < size
  {
    hide BlockIndices, CeilDiv;
    forall i | 0 <= i < length ensures BlockIndices(g, s, size, block, circular, length)[i] < size {
      DivisionSplits(i, block);
      BlockIndexAt(g, s, size, block, circular, length, i / block, i % block);
    }
  }

  // ---- The stationary bootstrap ----

  function BlockFrom(start: nat, size: nat, length: nat): (r: seq<nat>)
    requires size > 0
    ensures |r| == length && forall i :: 0 <= i < length ==> r[i] < size
  {
    seq(length, i requires 0 <= i < length => (start + i) % size)
  }

  /** Blocks of random start and geometric length, one after another. */
  function Stationary<S>(g: Random<S>, s: S, size: nat, p: real, length: nat): (r: seq<nat>)
    requires size > 0
    ensures |r| == length && forall i :: 0 <= i < length ==> r[i] < size
    decreases length
  {
    if length == 0 then []
    else
      var (start, s1) := Integer(g, s, size);
      var (run, s2) := Run(g, s1, p);
      if run >= length then BlockFrom(start, size, length)
      else BlockFrom(start, size, run) + Stationary(g, s2, size, p, length - run)
  }

  lemma {:induction false} StationaryPrefix<S>(g: Random<S>, s: S, size: nat, p: real, few: nat, many: nat)
    requires size > 0 && few <= many
    ensures Stationary(g, s, size, p, few) == Stationary(g, s, size, p, many)[..few]
    decreases few
  {
    if few > 0 {
      var (start, s1) := Integer(g, s, size);
      var (run, s2) := Run(g, s1, p);
      if run < few { StationaryPrefix(g, s2, size, p, few - run, many - run); }
    }
  }

  /** The generator's state after n blocks, and how many indices they have. */
  function AfterBlocks<S>(g: Random<S>, s: S, size: nat, p: real, n: nat): (S, nat)
    requires size > 0
    decreases n
  {
    if n == 0 then (s, 0)
    else
      var (length, s2) := g.geometric(g.word(s, size).1, p);
      var (t, count) := AfterBlocks(g, s2, size, p, n - 1);
      (t, length + 1 + count)
  }

  /** The start of block n, and index i as entry r of that block: start and
      length are drawn when the blocks before it are done. */
  function BlockStart<S>(g: Random<S>, s: S, size: nat, p: real, n: nat): nat
    requires size > 0
  {
    g.word(AfterBlocks(g, s, size, p, n).0, size).0 % size
  }

  predicate InBlock<S>(g: Random<S>, s: S, size: nat, p: real, i: nat, n: nat, r: nat)
    requires size > 0
  {
    var (t, offset) := AfterBlocks(g, s, size, p, n);
    i == offset + r && r <= g.geometric(g.word(t, size).1, p).0
  }

  /** Entry r of block n is the block's start and r more, wrapped. */
  lemma {:induction false} StationaryAt<S>(g: Random<S>, s: S, size: nat, p: real, length: nat, n: nat, r: nat)
    requires size > 0
    ensures var i := AfterBlocks(g, s, size, p, n).1 + r;
      i < length && InBlock(g, s, size, p, i, n, r) ==> Stationary(g, s, size, p, length)[i] == (BlockStart(g, s, size, p, n) + r) % size
    decreases n
  {
    if n > 0 && length > 0 {
      var (run, s2) := Run(g, Integer(g, s, size).1, p);
      if run < length { StationaryAt(g, s2, size, p, length - run, n - 1, r); }
    }
  }

  lemma {:induction false} SomeBlock<S>(g: Random<S>, s: S, size: nat, p: real, i: nat) returns (n: nat, r: nat)
    requires size > 0
    ensures InBlock(g, s, size, p, i, n, r)
    decreases i
  {
    var (run, s2) := g.geometric(g.word(s, size).1, p);
    if i <= run {
      n, r := 0, i;
    } else {
      n, r := SomeBlock(g, s2, size, p, i - run - 1);
      n := n + 1;
    }
  }

  /** x is the entry of the block that index i is in. */
  ghost predicate IsEntry<S>(g: Random<S>, s: S, size: nat, p: real, i: nat, x: nat)
    requires size > 0
  {
    && (exists n: nat, r: nat :: InBlock(g, s, size, p, i, n, r))
    && forall n: nat, r: nat :: InBlock(g, s, size, p, i, n, r) ==> x == (BlockStart(g, s, size, p, n) + r) % size
  }

  lemma StationaryEntry<S>(g: Random<S>, s: S, size: nat, p: real, length: nat, i: nat)
    requires size > 0 && i < length
    ensures IsEntry(g, s, size, p, i, Stationary(g, s, size, p, length)[i])
  {
    var n0, r0 := SomeBlock(g, s, size, p, i);
    forall n: nat, r: nat | InBlock(g, s, size, p, i, n, r)
      ensures Stationary(g, s, size, p, length)[i] == (BlockStart(g, s, size, p, n) + r) % size
    {
      StationaryAt(g, s, size, p, length, n, r);
    }
  }

  // ---- Intermittent demand ----

  datatype Demand = Demand(sizes: seq<real>, start: real, after0: real, after1: real, jitter: bool)

  /** One period: whether demand occurs, and its size, drawn in time order. */
  function Period<S>(g: Random<S>, s: S, d: Demand, busy: bool): (r: (real, bool, S))
    requires |d.sizes| > 0
  {
    var (u, s1) := g.uniform(s);
    if u < (if busy then d.after1 else d.after0) then
      var (k, s2) := Integer(g, s1, |d.sizes|);
      if d.jitter then
        var (moved, s3) := g.jittered(s2, d.sizes[k]);
        (if moved > 0.0 then moved else d.sizes[k], true, s3)
      else (d.sizes[k], true, s2)
    else (0.0, false, s1)
  }

  function Periods<S>(g: Random<S>, s: S, d: Demand, busy: bool, length: nat): (r: seq<real>)
    requires |d.sizes| > 0
    ensures |r| == length
    decreases length
  {
    if length == 0 then []
    else
      var (value, busy', s') := Period(g, s, d, busy);
      [value] + Periods(g, s', d, busy', length - 1)
  }

  lemma {:induction false} PeriodsPrefix<S>(g: Random<S>, s: S, d: Demand, busy: bool, few: nat, many: nat)
    requires |d.sizes| > 0 && few <= many
    ensures Periods(g, s, d, busy, few) == Periods(g, s, d, busy, many)[..few]
    decreases few
  {
    if few > 0 {
      var (value, busy', s') := Period(g, s, d, busy);
      PeriodsPrefix(g, s', d, busy', few - 1, many - 1);
    }
  }

  function Intermittent<S>(g: Random<S>, s: S, d: Demand, length: nat): (r: seq<real>)
    requires |d.sizes| > 0
    ensures |r| == length
  {
    var (u, s1) := g.uniform(s);
    Periods(g, s1, d, u < d.start, length)
  }

  // ---- All of them ----

  datatype Method = Iid | MovingBlock(block: nat) | CircularBlock(block: nat) | StationaryBlocks(meanBlock: real)

  /** The checks when a source is made. */
  predicate MethodOk(m: Method, size: nat) {
    size > 0 && match m
                case Iid => true
                case MovingBlock(block) => 1 <= block <= size
                case CircularBlock(block) => 1 <= block <= size
                case StationaryBlocks(meanBlock) => meanBlock >= 1.0
  }

  function Indices<S>(m: Method, g: Random<S>, s: S, size: nat, length: nat): (r: seq<nat>)
    requires MethodOk(m, size)
    ensures |r| == length
  {
    match m
    case Iid => IidIndices(g, s, size, length)
    case MovingBlock(block) => BlockIndices(g, s, size, block, false, length)
    case CircularBlock(block) => BlockIndices(g, s, size, block, true, length)
    case StationaryBlocks(meanBlock) => Stationary(g, s, size, 1.0 / meanBlock, length)
  }

  /** The draw of a number below n, after i such draws. */
  function Start<S>(g: Random<S>, s: S, n: nat, i: nat): nat
    requires n > 0
  {
    g.word(AfterDraws(g, s, n, i), n).0 % n
  }

  /** With a start below n drawn for every `block` indices: the i-th index, not
      wrapped. */
  function Offset<S>(g: Random<S>, s: S, n: nat, block: nat, i: nat): nat
    requires n > 0 && block > 0
  {
    Start(g, s, n, i / block) + i % block
  }

  /** Every index of each method, by its draws. Independent rows draw each
      index; blocks draw a start for every `block` indices, moving ones a start
      that leaves room for a block; stationary ones draw each block's length
      with its start, with probability 1 / meanBlock of ending. */
  lemma IndexAt<S>(m: Method, g: Random<S>, s: S, size: nat, length: nat, i: nat)
    requires MethodOk(m, size) && i < length
    ensures var x := Indices(m, g, s, size, length)[i];
      match m
      case Iid => x == Start(g, s, size, i)
      case MovingBlock(block) => x == Offset(g, s, size - block + 1, block, i)
      case CircularBlock(block) => x == Offset(g, s, size, block, i) % size
      case StationaryBlocks(meanBlock) =>
        IsEntry(g, s, size, 1.0 / meanBlock, i, x)
  {
    hide BlockIndices, Stationary, Integers, Start, IsEntry, Offset;
    match m
    case Iid => IidAt(g, s, size, length, i);
    case MovingBlock(block) => InBlocks(g, s, size, block, false, length, i);
    case CircularBlock(block) => InBlocks(g, s, size, block, true, length, i);
    case StationaryBlocks(meanBlock) => StationaryEntry(g, s, size, 1.0 / meanBlock, length, i);
  }

  lemma IidAt<S>(g: Random<S>, s: S, n: nat, count: nat, i: nat)
    requires n > 0 && i < count
    ensures Integers(g, s, n, count)[i] == Start(g, s, n, i)
  {
    IntegerAt(g, s, n, count, i);
  }

  lemma InBlocks<S>(g: Random<S>, s: S, size: nat, block: nat, circular: bool, length: nat, i: nat)
    requires 1 <= block <= size && i < length
    ensures var top := if circular then size else size - block + 1;
            var x := Offset(g, s, top, block, i);
      BlockIndices(g, s, size, block, circular, length)[i] == if circular then x % size else x
  {
    hide BlockIndices, CeilDiv;
    DivisionSplits(i, block);
    BlockIndexAt(g, s, size, block, circular, length, i / block, i % block);
    IntegerAt(g, s, if circular then size else size - block + 1, CeilDiv(length, block), i / block);
  }

  /** Every resample index is a row of the data. */
  lemma IndicesInRange<S>(m: Method, g: Random<S>, s: S, size: nat, length: nat)
    requires MethodOk(m, size)
    ensures forall i :: 0 <= i < length ==> Indices(m, g, s, size, length)[i] < size
  {
    if m.MovingBlock? || m.CircularBlock? { BlocksInRange(g, s, size, m.block, m.CircularBlock?, length); }
  }

  function Resample<S>(m: Method, g: Random<S>, s: S, values: seq<real>, length: nat): (row: seq<real>)
    requires MethodOk(m, |values|)
    ensures |row| == length
  {
    IndicesInRange(m, g, s, |values|, length);
    Select(values, Indices(m, g, s, |values|, length))
  }

  /** Prefix stability: from the same stream, n values are the first n of m. */
  lemma PrefixStability<S>(m: Method, g: Random<S>, s: S, size: nat, few: nat, many: nat)
    requires MethodOk(m, size) && few <= many
    ensures Indices(m, g, s, size, few) == Indices(m, g, s, size, many)[..few]
  {
    match m
    case Iid => IntegersPrefix(g, s, size, few, many);
    case MovingBlock(block) => BlockPrefix(g, s, size, block, false, few, many);
    case CircularBlock(block) => BlockPrefix(g, s, size, block, true, few, many);
    case StationaryBlocks(meanBlock) => StationaryPrefix(g, s, size, 1.0 / meanBlock, few, many);
  }

  lemma ResamplePrefix<S>(m: Method, g: Random<S>, s: S, values: seq<real>, few: nat, many: nat)
    requires MethodOk(m, |values|) && few <= many
    ensures Resample(m, g, s, values, few) == Resample(m, g, s, values, many)[..few]
  {
    PrefixStability(m, g, s, |values|, few, many);
  }

  lemma IntermittentPrefix<S>(g: Random<S>, s: S, d: Demand, few: nat, many: nat)
    requires |d.sizes| > 0 && few <= many
    ensures Intermittent(g, s, d, few) == Intermittent(g, s, d, many)[..few]
  {
    var (u, s1) := g.uniform(s);
    PeriodsPrefix(g, s1, d, u < d.start, few, many);
  }

  /** A generator in prefix order is what extension asks of a source: its rows
      are the beginnings of one ideal row. */
  lemma PrefixOrderHasIdeal(source: Source) returns (ideal: nat -> Value)
    requires forall n: nat :: Allows(source, n) ==> |source.generate(n)| == n
    requires forall few: nat, many: nat :: few <= many && Allows(source, few) && Allows(source, many) ==>
               source.generate(few) == source.generate(many)[..few]
    ensures IdealOf(source, ideal)
  {
    ideal := (b: nat) => if |source.generate(b + 1)| == b + 1 then source.generate(b + 1)[b] else NaN;
    forall n: nat, b: nat | b < n && Allows(source, n) ensures source.generate(n)[b] == ideal(b) {
      assert source.generate(b + 1) == source.generate(n)[..b + 1];
    }
  }

  // ---- Joint resamples ----

  /** A row source as it is bound to an input. */
  datatype Resampled = Resampled(column: seq<real>, meanBlock: real, tag: Option<string>)

  /** `first or second` for a tag that may be missing or empty. */
  function Or(first: Option<string>, second: string): string {
    if first.Some? && first.value != "" then first.value else second
  }

  /** The members of a panel, each with the tag of the panel. */
  function JointMembers(panel: seq<seq<real>>, meanBlock: real, tag: Option<string>, fingerprint: string): (members: seq<Resampled>)
    ensures |members| == |panel|
  {
    seq(|panel|, k requires 0 <= k < |panel| => Resampled(panel[k], meanBlock, Some(Or(tag, "joint:" + fingerprint))))
  }

  /** The row that a trial binds to the input called `field`: the stream is
      seeded by the trial's seed and the source's tag, or else the name. */
  function BoundRow<S>(g: Random<S>, rng: (nat, string) -> S, source: Resampled, field: string, seed: nat, length: nat): (row: seq<real>)
    requires |source.column| > 0 && source.meanBlock >= 1.0
    ensures |row| == length
  {
    Resample(StationaryBlocks(source.meanBlock), g, rng(seed, Or(source.tag, field)), source.column, length)
  }

  /** The rows of a panel stay aligned within a trial, whatever inputs its
      members are bound to: one index sequence serves them all. */
  lemma JointRowsAlign<S>(g: Random<S>, rng: (nat, string) -> S, panel: seq<seq<real>>, meanBlock: real, tag: Option<string>,
                          fingerprint: string, fields: seq<string>, seed: nat, length: nat) returns (indices: seq<nat>)
    requires |panel| > 0 && |panel[0]| > 0 && meanBlock >= 1.0 && |fields| == |panel|
    requires forall k :: 0 <= k < |panel| ==> |panel[k]| == |panel[0]|
    ensures |indices| == length && forall i :: 0 <= i < length ==> indices[i] < |panel[0]|
    ensures forall k, i :: 0 <= k < |panel| && 0 <= i < length ==>
      BoundRow(g, rng, JointMembers(panel, meanBlock, tag, fingerprint)[k], fields[k], seed, length)[i] == panel[k][indices[i]]
  {
    var shared := Or(tag, "joint:" + fingerprint);
    forall k | 0 <= k < |panel| ensures Or(Some(shared), fields[k]) == shared {}
    indices := Indices(StationaryBlocks(meanBlock), g, rng(seed, shared), |panel[0]|, length);
    IndicesInRange(StationaryBlocks(meanBlock), g, rng(seed, shared), |panel[0]|, length);
  }

  // ---- The loops ----

  /** out[offset:stop] = (start + arange(stop - offset)) % size */
  method FillBlock(out: array<nat>, offset: nat, stop: nat, start: nat, size: nat)
    requires offset <= stop <= out.Length && size > 0
    modifies out
    ensures out[..offset] == old(out[..offset]) && out[offset..stop] == BlockFrom(start, size, stop - offset)
  {
    var i := offset;
    while i < stop
      invariant offset <= i <= stop && out[..offset] == old(out[..offset])
      invariant forall j :: offset <= j < i ==> out[j] == (start + (j - offset)) % size
    {
      out[i] := (start + (i - offset)) % size;
      i := i + 1;
    }
  }

  /** stationary_indices */
  method StationaryIndices<S>(g: Random<S>, s: S, size: nat, length: nat, meanBlock: real) returns (out: array<nat>)
    requires size > 0 && meanBlock >= 1.0
    ensures fresh(out) && out[..] == Indices(StationaryBlocks(meanBlock), g, s, size, length)
  {
    out := new nat[length];
    FillStationary(g, s, size, 1.0 / meanBlock, out);
  }

  /** Its loop. */
  method FillStationary<S>(g: Random<S>, s: S, size: nat, p: real, out: array<nat>)
    requires size > 0
    modifies out
    ensures out[..] == Stationary(g, s, size, p, out.Length)
  {
    hide Stationary;
    var state, offset := s, 0;
    while offset < out.Length
      invariant 0 <= offset <= out.Length
      invariant out[..offset] + Stationary(g, state, size, p, out.Length - offset) == Stationary(g, s, size, p, out.Length)
    {
      offset, state := FillOneBlock(g, state, size, p, out, offset);
    }
    StationaryEnds(g, state, size, p);
    assert out[..offset] + [] == out[..];
  }

  /** One turn of it. */
  method FillOneBlock<S>(g: Random<S>, s: S, size: nat, p: real, out: array<nat>, offset: nat) returns (stop: nat, state: S)
    requires size > 0 && offset < out.Length
    modifies out
    ensures offset < stop <= out.Length
    ensures out[..stop] + Stationary(g, state, size, p, out.Length - stop)
            == old(out[..offset]) + Stationary(g, s, size, p, out.Length - offset)
  {
    hide BlockFrom, Stationary, Integer, Run;
    var (start, s1) := Integer(g, s, size);
    var (run, s2) := Run(g, s1, p);
    stop, state := if out.Length < offset + run then out.Length else offset + run, s2;
    StationaryStep(g, s, size, p, out.Length - offset);
    ghost var done, rest := out[..offset], Stationary(g, s2, size, p, out.Length - stop);
    FillBlock(out, offset, stop, start, size);
    ghost var block := out[offset..stop];
    assert out[..stop] == done + block;
    assert done + (block + rest) == (done + block) + rest;
  }

  lemma StationaryStep<S>(g: Random<S>, s: S, size: nat, p: real, length: nat)
    requires size > 0 && length > 0
    ensures var (start, s1) := Integer(g, s, size); var (run, s2) := Run(g, s1, p);
            var n := if length < run then length else run;
      Stationary(g, s, size, p, length) == BlockFrom(start, size, n) + Stationary(g, s2, size, p, length - n)
  {
  }

  lemma StationaryEnds<S>(g: Random<S>, s: S, size: nat, p: real)
    requires size > 0
    ensures Stationary(g, s, size, p, 0) == []
  {
  }

  /** One turn of the loop in `intermittent`. */
  method DrawPeriod<S>(g: Random<S>, s: S, d: Demand, busy: bool) returns (value: real, now: bool, state: S)
    requires |d.sizes| > 0
    ensures (value, now, state) == Period(g, s, d, busy)
    ensures now <==> g.uniform(s).0 < if busy then d.after1 else d.after0
    ensures !now ==> value == 0.0 && state == g.uniform(s).1
    ensures now ==>
      var (k, s2) := Integer(g, g.uniform(s).1, |d.sizes|);
      if !d.jitter then value == d.sizes[k] && state == s2
      else value == (if g.jittered(s2, d.sizes[k]).0 > 0.0 then g.jittered(s2, d.sizes[k]).0 else d.sizes[k]) && state == g.jittered(s2, d.sizes[k]).1
  {
    var (u, s1) := g.uniform(s);
    now, state, value := u < (if busy then d.after1 else d.after0), s1, 0.0;
    if now {
      var (k, s2) := Integer(g, state, |d.sizes|);
      value, state := d.sizes[k], s2;
      if d.jitter {
        var (moved, s3) := g.jittered(state, value);
        state := s3;
        if moved > 0.0 { value := moved; }
      }
    }
  }

  lemma PeriodsStep<S>(g: Random<S>, s: S, d: Demand, busy: bool, length: nat)
    requires |d.sizes| > 0 && length > 0
    ensures var (value, busy', s') := Period(g, s, d, busy);
      Periods(g, s, d, busy, length) == [value] + Periods(g, s', d, busy', length - 1)
  {
  }

  /** The loop of `intermittent`. */
  method FillPeriods<S>(g: Random<S>, s: S, d: Demand, first: bool, out: array<real>)
    requires |d.sizes| > 0
    modifies out
    ensures out[..] == Periods(g, s, d, first, out.Length)
  {
    hide Periods, Period;
    var state, busy := s, first;
    var i := 0;
    while i < out.Length
      invariant 0 <= i <= out.Length
      invariant out[..i] + Periods(g, state, d, busy, out.Length - i) == Periods(g, s, d, first, out.Length)
    {
      PeriodsStep(g, state, d, busy, out.Length - i);
      ghost var done := out[..i];
      var value;
      value, busy, state := DrawPeriod(g, state, d, busy);
      out[i] := value;
      assert out[..i + 1] == done + [value];
      i := i + 1;
    }
    assert out[..] == out[..i];
  }

  /** The draw of `intermittent`: a period without demand is zero. */
  method IntermittentRow<S>(g: Random<S>, s: S, d: Demand, length: nat) returns (out: array<real>)
    requires |d.sizes| > 0
    ensures fresh(out) && out[..] == Intermittent(g, s, d, length)
    ensures out[..] == Periods(g, g.uniform(s).1, d, g.uniform(s).0 < d.start, length)
  {
    out := new real[length](_ => 0.0);
    var (u, state) := g.uniform(s);
    FillPeriods(g, state, d, u < d.start, out);
  }
}

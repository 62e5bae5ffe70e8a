/** Splitting a run into parts and merging them: by structural option
    (`run.py`) and by chunks of replications (`snapshot.py`). */
module Variants {
  import opened HashHeap
  import opened Powers

  /** What a trial gives depends on its design point and its seed alone. `key`
      is the structural options a point binds, and `has` whether the model in
      question is part of the tree for those options. */
  datatype Setup<!P, !K(==), !C, !S> = Setup(key: P -> K, has: K -> bool, cell: (P, S) -> C)

  type Grid<C> = seq<seq<C>>

  ghost predicate ShapeOk<S>(points: nat, reps: nat, seeds: Grid<S>) {
    |seeds| == points && forall i :: 0 <= i < points ==> |seeds[i]| == reps
  }

  /** The results of one design point, which are absent where its options
      leave the model out. */
  function Row<P, K, C, S>(x: Setup<P, K, C, S>, point: P, seeds: seq<S>): (row: seq<Option<C>>)
    ensures |row| == |seeds|
  {
    seq(|seeds|, r requires 0 <= r < |seeds| => if x.has(x.key(point)) then Some(x.cell(point, seeds[r])) else None)
  }

  /** The whole run: every point's own results. */
  function Whole<P, K, C, S>(x: Setup<P, K, C, S>, points: seq<P>, seeds: Grid<S>): (grid: Grid<Option<C>>)
    requires |seeds| == |points|
    ensures |grid| == |points| && forall i :: 0 <= i < |points| ==> grid[i] == Row(x, points[i], seeds[i])
  {
    seq(|points|, i requires 0 <= i < |points| => Row(x, points[i], seeds[i]))
  }

  /** Replication r of point i: its cell, or nothing where its options leave
      the model out. */
  predicate IsCell<P, K, C(==), S>(x: Setup<P, K, C, S>, points: seq<P>, seeds: Grid<S>, i: nat, r: nat, result: Option<C>)
    requires |seeds| == |points| && i < |points| && r < |seeds[i]|
  {
    if x.has(x.key(points[i])) then result == Some(x.cell(points[i], seeds[i][r])) else result == None
  }

  /** Every result is the cell of its own point and its own seed. */
  ghost predicate AllCells<P, K, C, S>(x: Setup<P, K, C, S>, points: seq<P>, seeds: Grid<S>, grid: Grid<Option<C>>) {
    && |grid| == |points| == |seeds| && (forall i :: 0 <= i < |points| ==> |grid[i]| == |seeds[i]|)
    && forall i, r :: 0 <= i < |points| && 0 <= r < |seeds[i]| ==> IsCell(x, points, seeds, i, r, grid[i][r])
  }

  lemma WholeIsCells<P, K, C, S>(x: Setup<P, K, C, S>, points: seq<P>, seeds: Grid<S>)
    requires |seeds| == |points|
    ensures AllCells(x, points, seeds, Whole(x, points, seeds))
  {
  }

  // ---- Structural variants ----

  /** The groups partition the points: a group for each key, in the order in
      which the keys first appear, holding exactly the points with that key. */
  ghost predicate Partition<P, K, C, S>(x: Setup<P, K, C, S>, points: seq<P>, n: nat, keys: seq<K>, groups: map<K, seq<nat>>)
    requires n <= |points|
  {
    && (forall i, j :: 0 <= i < j < |keys| ==> keys[i] != keys[j])
    && (forall k :: k in groups ==> k in keys) && (forall i :: 0 <= i < |keys| ==> keys[i] in groups)
    && (forall k :: k in groups ==> Ascending(groups[k]))
    && (forall k, i :: k in groups && 0 <= i < |groups[k]| ==> groups[k][i] < n && x.key(points[groups[k][i]]) == k)
    && (forall i :: 0 <= i < n ==> x.key(points[i]) in groups && i in groups[x.key(points[i])])
  }

  ghost predicate Ascending(s: seq<nat>) {
    forall i, j :: 0 <= i < j < |s| ==> s[i] < s[j]
  }

  /** setdefault and append, for each point in turn. */
  method Group<P, K, C, S>(x: Setup<P, K, C, S>, points: seq<P>) returns (keys: seq<K>, groups: map<K, seq<nat>>)
    ensures Partition(x, points, |points|, keys, groups)
  {
    hide Partition;
    keys, groups := [], map[];
    NoGroups(x, points);
    var position := 0;
    while position < |points|
      invariant 0 <= position <= |points| && Partition(x, points, position, keys, groups)
    {
      var key := x.key(points[position]);
      PartitionGrows(x, points, position, keys, groups);
      if key !in groups {
        keys := keys + [key];
        groups := groups[key := []];
      }
      groups := groups[key := groups[key] + [position]];
      position := position + 1;
    }
  }

  /** The next point joins its key's group, which may be new. */
  lemma PartitionGrows<P, K, C, S>(x: Setup<P, K, C, S>, points: seq<P>, n: nat, keys: seq<K>, groups: map<K, seq<nat>>)
    requires n < |points| && Partition(x, points, n, keys, groups)
    ensures var key := x.key(points[n]);
      if key in groups then Partition(x, points, n + 1, keys, groups[key := groups[key] + [n]])
      else Partition(x, points, n + 1, keys + [key], groups[key := []][key := [] + [n]])
  {
  }

  lemma NoGroups<P, K, C, S>(x: Setup<P, K, C, S>, points: seq<P>)
    ensures Partition(x, points, 0, [], map[])
  {
  }

  /** One variant's run of its group. */
  function Part<P, K, C, S>(x: Setup<P, K, C, S>, points: seq<P>, seeds: Grid<S>, positions: seq<nat>): (part: Grid<Option<C>>)
    requires |seeds| == |points| && forall i :: 0 <= i < |positions| ==> positions[i] < |points|
    ensures |part| == |positions|
    ensures forall i :: 0 <= i < |positions| ==> part[i] == Row(x, points[positions[i]], seeds[positions[i]])
  {
    seq(|positions|, i requires 0 <= i < |positions| => Row(x, points[positions[i]], seeds[positions[i]]))
  }

  /** merged[positions] = part */
  method Scatter<C>(merged: array<seq<Option<C>>>, positions: seq<nat>, part: Grid<Option<C>>)
    requires |part| == |positions| && Ascending(positions)
    requires forall i :: 0 <= i < |positions| ==> positions[i] < merged.Length
    modifies merged
    ensures forall i :: 0 <= i < |positions| ==> merged[positions[i]] == part[i]
    ensures forall j :: 0 <= j < merged.Length && j !in positions ==> merged[j] == old(merged[j])
  {
    var local := 0;
    while local < |positions|
      invariant 0 <= local <= |positions|
      invariant forall i :: 0 <= i < local ==> merged[positions[i]] == part[i]
      invariant forall j :: 0 <= j < merged.Length && j !in positions[..local] ==> merged[j] == old(merged[j])
    {
      assert positions[..local + 1] == positions[..local] + [positions[local]];
      merged[positions[local]] := part[local];
      local := local + 1;
    }
    assert positions[..local] == positions;
  }

  /** _run_variants and _merge: run each group on its own tree, and put every
      result back at its point's place. The split cannot be seen. */
  method RunVariants<P, K, C, S>(x: Setup<P, K, C, S>, points: seq<P>, seeds: Grid<S>) returns (merged: array<seq<Option<C>>>)
    requires |seeds| == |points|
    ensures fresh(merged) && merged[..] == Whole(x, points, seeds) && AllCells(x, points, seeds, merged[..])
  {
    hide Row, AllCells;
    WholeIsCells(x, points, seeds);
    var keys, groups := Group(x, points);
    merged := new seq<Option<C>>[|points|](_ => []);
    var g := 0;
    while g < |keys|
      invariant 0 <= g <= |keys|
      invariant forall i :: 0 <= i < |points| && x.key(points[i]) in keys[..g] ==> merged[i] == Row(x, points[i], seeds[i])
    {
      var positions := groups[keys[g]];
      var part := Part(x, points, seeds, positions);
      Scatter(merged, positions, part);
      assert keys[..g + 1] == keys[..g] + [keys[g]];
      g := g + 1;
    }
    assert keys[..g] == keys;
  }

  /** divmod(index, reps): the point and the replication of a flattened trial. */
  function Place(index: int, reps: nat): (nat, nat)
    requires reps > 0
  {
    if index < 0 then (0, 0) else (index / reps, index % reps)
  }

  lemma PlaceInRange(index: int, points: nat, reps: nat)
    requires reps > 0 && 0 <= index < points * reps
    ensures Place(index, reps).0 < points && Place(index, reps).1 < reps
    ensures index == Place(index, reps).0 * reps + Place(index, reps).1
  {
  }

  /** The design points and seeds of the selected trials, or nothing if an
      index is out of range. */
  method Pick<P, S>(points: seq<P>, seeds: Grid<S>, reps: nat, selected: seq<int>) returns (picked: Option<(seq<P>, Grid<S>)>)
    requires reps > 0 && ShapeOk(|points|, reps, seeds)
    ensures picked.None? <==> exists i :: 0 <= i < |selected| && !(0 <= selected[i] < |points| * reps)
    ensures picked.Some? ==> |picked.value.0| == |picked.value.1| == |selected|
    ensures picked.Some? ==> forall i :: 0 <= i < |selected| ==>
      var (p, r) := Place(selected[i], reps); p < |points| && r < reps && picked.value.0[i] == points[p] && picked.value.1[i] == [seeds[p][r]]
  {
    hide Place;
    var chosen: seq<P>, own: Grid<S> := [], [];
    var n := 0;
    while n < |selected|
      invariant 0 <= n <= |selected| && |chosen| == |own| == n
      invariant forall i :: 0 <= i < n ==> 0 <= selected[i] < |points| * reps
      invariant forall i :: 0 <= i < n ==>
        var (p, r) := Place(selected[i], reps); p < |points| && r < reps && chosen[i] == points[p] && own[i] == [seeds[p][r]]
    {
      if selected[n] < 0 || selected[n] >= |points| * reps { return None; }
      PlaceInRange(selected[n], |points|, reps);
      var (point, replication) := Place(selected[n], reps);
      chosen := chosen + [points[point]];
      own := own + [[seeds[point][replication]]];
      n := n + 1;
    }
    picked := Some((chosen, own));
  }

  lemma PlaceIs(index: int, reps: nat, p: nat, r: nat)
    requires r < reps && index == p * reps + r
    ensures Place(index, reps) == (p, r)
  {
    QuotientIs(index, reps, p);
  }

  /** The n-th result is the cell at its index in the flattened full run. */
  ghost predicate SelectedCell<P, K, C, S>(x: Setup<P, K, C, S>, points: seq<P>, seeds: Grid<S>, reps: nat, index: int, result: seq<Option<C>>)
    requires ShapeOk(|points|, reps, seeds)
  {
    |result| == 1 && forall p: nat, r: nat :: p < |points| && r < reps && index == p * reps + r ==> IsCell(x, points, seeds, p, r, result[0])
  }

  lemma PlacedIsSelected<P, K, C, S>(x: Setup<P, K, C, S>, points: seq<P>, seeds: Grid<S>, reps: nat, index: int)
    requires reps > 0 && ShapeOk(|points|, reps, seeds) && 0 <= index < |points| * reps
    ensures var (p, r) := Place(index, reps); p < |points| && r < reps && SelectedCell(x, points, seeds, reps, index, Row(x, points[p], [seeds[p][r]]))
  {
    PlaceInRange(index, |points|, reps);
    var (p0, r0) := Place(index, reps);
    var result := Row(x, points[p0], [seeds[p0][r0]]);
    assert IsCell(x, points, seeds, p0, r0, result[0]);
    hide Row, Place, IsCell;
    forall p: nat, r: nat | p < |points| && r < reps && index == p * reps + r ensures IsCell(x, points, seeds, p, r, result[0]) {
      PlaceIs(index, reps, p, r);
    }
  }

  /** Experiment.only: the selected flattened trials with their own seeds give
      the cells of the full run at their indices. */
  method Only<P, K, C, S>(x: Setup<P, K, C, S>, points: seq<P>, seeds: Grid<S>, reps: nat, selected: seq<int>)
    returns (result: Option<array<seq<Option<C>>>>)
    requires reps > 0 && ShapeOk(|points|, reps, seeds)
    ensures result.None? <==> selected == [] || exists i :: 0 <= i < |selected| && !(0 <= selected[i] < |points| * reps)
    ensures result.Some? ==> result.value.Length == |selected|
    ensures result.Some? ==> forall n :: 0 <= n < |selected| ==> SelectedCell(x, points, seeds, reps, selected[n], result.value[n])
  {
    hide Row, Whole, Place, SelectedCell, AllCells;
    if |selected| == 0 { return None; }
    var picked := Pick(points, seeds, reps, selected);
    if picked.None? { return None; }
    var (chosen, own) := picked.value;
    var merged := RunVariants(x, chosen, own);
    forall n | 0 <= n < |selected| ensures SelectedCell(x, points, seeds, reps, selected[n], merged[n]) {
      PlacedIsSelected(x, points, seeds, reps, selected[n]);
      assert merged[..][n] == Row(x, chosen[n], own[n]);
    }
    result := Some(merged);
  }

  // ---- Chunks of replications ----

  datatype Chunked<C> = TooLarge | Results(grid: Grid<C>, size: nat, chunks: seq<Grid<C>>)

  /** seeds[:, start:stop] */
  function Columns<T>(grid: Grid<T>, start: nat, stop: nat): (part: Grid<T>)
    requires start <= stop && forall i :: 0 <= i < |grid| ==> stop <= |grid[i]|
    ensures |part| == |grid| && forall i :: 0 <= i < |grid| ==> part[i] == grid[i][start..stop]
  {
    seq(|grid|, i requires 0 <= i < |grid| => grid[i][start..stop])
  }

  /** concatenate along the replications */
  function Beside<T>(a: Grid<T>, b: Grid<T>): (c: Grid<T>)
    requires |a| == |b|
    ensures |c| == |a| && forall i :: 0 <= i < |a| ==> c[i] == a[i] + b[i]
  {
    seq(|a|, i requires 0 <= i < |a| => a[i] + b[i])
  }

  /** The chunk that holds a replication, and where: divmod by the chunk size. */
  ghost predicate MapsBack<T>(grid: Grid<T>, reps: nat, size: nat, chunks: seq<Grid<T>>) {
    size > 0 && forall p, r :: 0 <= p < |grid| && 0 <= r < reps ==> CellBack(grid, size, chunks, p, r)
  }

  ghost predicate CellBack<T>(grid: Grid<T>, size: nat, chunks: seq<Grid<T>>, p: nat, r: nat)
    requires size > 0
  {
    && p < |grid| && r < |grid[p]|
    && r / size < |chunks| && p < |chunks[r / size]| && r % size < |chunks[r / size][p]|
    && chunks[r / size][p][r % size] == grid[p][r]
  }

  /** _run_single: if the generated rows do not fit the memory, the run goes in
      chunks of as many replications as fit, at least one. The chunks side by
      side are the whole run, and each replication is found in its chunk. */
  method RunChunked<P, K, C, S>(x: Setup<P, K, C, S>, points: seq<P>, seeds: Grid<S>, reps: nat, bytes: nat, memory: nat)
    returns (result: Chunked<Option<C>>)
    requires reps > 0 && memory > 0 && ShapeOk(|points|, reps, seeds)
    ensures result.TooLarge? <==> bytes * reps > memory && bytes > memory
    ensures result.Results? ==> AllCells(x, points, seeds, result.grid) && MapsBack(result.grid, reps, result.size, result.chunks)
    ensures result.Results? ==> if bytes * reps <= memory then result.size == reps else result.size * bytes <= memory < (result.size + 1) * bytes
  {
    hide Whole, Row, MapsBack, Beside, Columns, AllCells;
    WholeIsCells(x, points, seeds);
    if bytes * reps <= memory {
      var whole := Whole(x, points, seeds);
      WholeShape(x, points, seeds, reps);
      OneChunk(whole, reps);
      return Results(whole, reps, [whole]);
    }
    if bytes > memory { return TooLarge; }
    var size := if memory / bytes > 1 then memory / bytes else 1;
    var grid, chunks := InChunks(x, points, seeds, reps, size);
    result := Results(grid, size, chunks);
  }

  /** The chunks of `size` replications, run in turn and put side by side. */
  method InChunks<P, K, C, S>(x: Setup<P, K, C, S>, points: seq<P>, seeds: Grid<S>, reps: nat, size: nat)
    returns (grid: Grid<Option<C>>, chunks: seq<Grid<Option<C>>>)
    requires size > 0 && ShapeOk(|points|, reps, seeds)
    ensures grid == Whole(x, points, seeds) && MapsBack(grid, reps, size, chunks)
  {
    hide Whole, Row, MapsBack, Beside, Columns;
    ghost var whole := Whole(x, points, seeds);
    WholeShape(x, points, seeds, reps);
    grid, chunks := seq(|points|, _ => []), [];
    NoChunks(grid, size);
    var start := 0;
    while start < reps
      invariant 0 <= start <= reps && |grid| == |points|
      invariant start < reps ==> start == |chunks| * size
      invariant forall p :: 0 <= p < |points| ==> grid[p] == whole[p][..start]
      invariant MapsBack(grid, start, size, chunks)
    {
      var stop := if reps < start + size then reps else start + size;
      var chunk := Whole(x, points, Columns(seeds, start, stop));
      ChunkIsColumns(x, points, seeds, reps, start, stop);
      AppendChunk(grid, chunks, chunk, start, stop, size);
      ColumnsJoin(whole, grid, chunk, start, stop);
      assert (|chunks| + 1) * size == |chunks| * size + size;
      grid := Beside(grid, chunk);
      chunks := chunks + [chunk];
      start := stop;
    }
    assert forall p :: 0 <= p < |points| ==> whole[p][..reps] == whole[p];
    assert grid == whole;
  }

  lemma WholeShape<P, K, C, S>(x: Setup<P, K, C, S>, points: seq<P>, seeds: Grid<S>, reps: nat)
    requires ShapeOk(|points|, reps, seeds)
    ensures |Whole(x, points, seeds)| == |points| && forall p :: 0 <= p < |points| ==> |Whole(x, points, seeds)[p]| == reps
  {
  }

  lemma OneChunk<T>(grid: Grid<T>, reps: nat)
    requires reps > 0 && forall p :: 0 <= p < |grid| ==> |grid[p]| == reps
    ensures MapsBack(grid, reps, reps, [grid])
  {
  }

  lemma NoChunks<T>(grid: Grid<T>, size: nat)
    requires size > 0
    ensures MapsBack(grid, 0, size, [])
  {
  }

  lemma ColumnsJoin<T>(whole: Grid<T>, grid: Grid<T>, chunk: Grid<T>, start: nat, stop: nat)
    requires |grid| == |chunk| == |whole| && start <= stop
    requires forall p :: 0 <= p < |whole| ==> stop <= |whole[p]| && grid[p] == whole[p][..start] && chunk[p] == whole[p][start..stop]
    ensures forall p :: 0 <= p < |whole| ==> Beside(grid, chunk)[p] == whole[p][..stop]
  {
  }

  /** A chunk's own run is the chunk of the whole run. */
  lemma ChunkIsColumns<P, K, C, S>(x: Setup<P, K, C, S>, points: seq<P>, seeds: Grid<S>, reps: nat, start: nat, stop: nat)
    requires ShapeOk(|points|, reps, seeds) && start <= stop <= reps
    ensures forall p :: 0 <= p < |points| ==>
      |Whole(x, points, Columns(seeds, start, stop))[p]| == stop - start
      && Whole(x, points, Columns(seeds, start, stop))[p] == Whole(x, points, seeds)[p][start..stop]
  {
  }

  lemma AppendChunk<T>(grid: Grid<T>, chunks: seq<Grid<T>>, chunk: Grid<T>, start: nat, stop: nat, size: nat)
    requires MapsBack(grid, start, size, chunks) && |chunk| == |grid| && start == |chunks| * size && start <= stop <= start + size
    requires forall p :: 0 <= p < |grid| ==> |grid[p]| == start && |chunk[p]| == stop - start
    ensures MapsBack(Beside(grid, chunk), stop, size, chunks + [chunk])
  {
    var grid', chunks' := Beside(grid, chunk), chunks + [chunk];
    forall p, r | 0 <= p < |grid'| && 0 <= r < stop ensures CellBack(grid', size, chunks', p, r) {
      if r >= start { NewCell(grid, chunks, chunk, start, size, p, r); }
      else { OldCell(grid, chunks, chunk, size, p, r); }
    }
  }

  lemma OldCell<T>(grid: Grid<T>, chunks: seq<Grid<T>>, chunk: Grid<T>, size: nat, p: nat, r: nat)
    requires |chunk| == |grid| && size > 0 && CellBack(grid, size, chunks, p, r)
    ensures CellBack(Beside(grid, chunk), size, chunks + [chunk], p, r)
  {
  }

  lemma NewCell<T>(grid: Grid<T>, chunks: seq<Grid<T>>, chunk: Grid<T>, start: nat, size: nat, p: nat, r: nat)
    requires |chunk| == |grid| && p < |grid| && size > 0 && start == |chunks| * size <= r < start + size
    requires |grid[p]| == start && r < start + |chunk[p]|
    ensures CellBack(Beside(grid, chunk), size, chunks + [chunk], p, r)
  {
    QuotientIs(r, size, |chunks|);
  }
}

/** The extension loop of `Batch._run_core` over all trials of a batch: their
    blocks, and the dictionaries of overrides and extensions. */
module Batches {
  import opened HashHeap
  import opened InputSlots
  import opened Extension

  type Key = (nat, nat)   // trial and input

  class Batch<!R> {
    const trials: seq<Trial<R>>
    const sources: seq<seq<Source>>
    const limit: nat
    const blocks: array<Outcome<R>>
    var overrides: map<Key, seq<Value>>
    var extensions: map<Key, nat>

    ghost predicate Valid() {
      |trials| == |sources| == blocks.Length
    }

    constructor (trials: seq<Trial<R>>, sources: seq<seq<Source>>, limit: nat)
      requires |trials| == |sources|
      ensures Valid() && fresh(blocks) && this.trials == trials && this.sources == sources && this.limit == limit
      ensures overrides == map[] && extensions == map[]
    {
      this.trials, this.sources, this.limit := trials, sources, limit;
      blocks := new Outcome<R>[|trials|](_ => Failure);
      overrides, extensions := map[], map[];
    }

    /** The row bound to an input of a trial. */
    function RowOf(i: nat, k: nat): seq<Value>
      requires i < |sources| && k < |sources[i]|
      reads this`overrides
    {
      if (i, k) in overrides then overrides[(i, k)] else sources[i][k].generate(sources[i][k].length)
    }

    function CountOf(i: nat, k: nat): nat
      reads this`extensions
    {
      if (i, k) in extensions then extensions[(i, k)] else 0
    }

    function BindingOf(i: nat): (b: Binding)
      requires i < |sources|
      reads this
      ensures |b.rows| == |b.counts| == |sources[i]|
    {
      Binding(seq(|sources[i]|, k requires 0 <= k < |sources[i]| reads this => RowOf(i, k)),
              seq(|sources[i]|, k requires 0 <= k < |sources[i]| reads this => CountOf(i, k)))
    }

    /** The other trials' rows and counts are as they were. */
    twostate predicate OnlyTrial(i: nat)
      reads this`overrides, this`extensions
    {
      forall j: nat, k: nat :: j != i ==>
        && ((j, k) in overrides <==> (j, k) in old(overrides)) && ((j, k) in extensions <==> (j, k) in old(extensions))
        && ((j, k) in overrides ==> overrides[(j, k)] == old(overrides)[(j, k)])
        && ((j, k) in extensions ==> extensions[(j, k)] == old(extensions)[(j, k)])
    }

    /** Double the row of one target: not if it cannot be generated longer, has
        been doubled six times, or would exceed its maximum; and the longer row
        must begin with the row there is. */
    method ExtendTarget(i: nat, k: nat) returns (failure: Option<Growth>)
      requires i < |sources| && k < |sources[i]|
      modifies this`overrides, this`extensions
      ensures OnlyTrial(i)
      ensures match failure
        case None => GrowOne(sources[i], old(BindingOf(i)), k) == Grown(BindingOf(i))
        case Some(g) => !g.Grown? && GrowOne(sources[i], old(BindingOf(i)), k) == g
      ensures var source, row, count := sources[i][k], old(RowOf(i, k)), old(CountOf(i, k));
        var allowed := source.generated && source.prefixStable && count < 6
                       && (source.maxLength.Some? ==> 2 * |row| <= source.maxLength.value);
        && (failure == Some(TooOften) <==> !allowed)
        && (failure == Some(Changed) <==> allowed && !(row <= source.generate(2 * |row|)))
        && (failure.None? ==> overrides == old(overrides)[(i, k) := source.generate(2 * |row|)]
                              && extensions == old(extensions)[(i, k) := count + 1])
        && (failure.Some? ==> overrides == old(overrides) && extensions == old(extensions))
    {
      ghost var b := BindingOf(i);
      var source := sources[i][k];
      var row := RowOf(i, k);
      var count := CountOf(i, k);
      if !source.generated || !source.prefixStable || count >= MOST_EXTENSIONS { return Some(TooOften); }
      var length := |row| * 2;
      if source.maxLength.Some? && length > source.maxLength.value { return Some(TooOften); }
      var longer := source.generate(length);
      if !(row <= longer) { return Some(Changed); }
      overrides := overrides[(i, k) := longer];
      extensions := extensions[(i, k) := count + 1];
      assert BindingOf(i).rows == b.rows[k := longer];
      assert BindingOf(i).counts == b.counts[k := count + 1];
      failure := None;
    }

    method ExtendTargets(i: nat, targets: seq<nat>) returns (failure: Option<Growth>)
      requires i < |sources| && forall j :: 0 <= j < |targets| ==> targets[j] < |sources[i]|
      modifies this`overrides, this`extensions
      ensures OnlyTrial(i)
      ensures match failure
        case None => Grow(sources[i], old(BindingOf(i)), targets) == Grown(BindingOf(i))
        case Some(g) => !g.Grown? && Grow(sources[i], old(BindingOf(i)), targets) == g
    {
      ghost var b := BindingOf(i);
      var j := 0;
      assert targets[0..] == targets;
      while j < |targets|
        invariant j <= |targets| && OnlyTrial(i)
        invariant Grow(sources[i], BindingOf(i), targets[j..]) == Grow(sources[i], b, targets)
      {
        ghost var before := BindingOf(i);
        var stopped := ExtendTarget(i, targets[j]);
        if stopped.Some? { return stopped; }
        assert targets[j..][1..] == targets[j + 1..];
        j := j + 1;
      }
      failure := None;
    }

    /** Rerun one trial while it asks for longer rows. Every other block, row
        and count stays as it is. */
    method Rerun(i: nat) returns (reruns: nat)
      requires Valid() && i < |trials|
      requires blocks[i] == RunOn(trials[i], sources[i], BindingOf(i).rows, limit)
      modifies this`overrides, this`extensions, blocks
      ensures (blocks[i], reruns) == Finish(trials[i], sources[i], old(BindingOf(i)), limit)
      ensures OnlyTrial(i) && forall j :: 0 <= j < blocks.Length && j != i ==> blocks[j] == old(blocks[j])
    {
      hide Finish, Grow, RunOn, Left, BindingOf;
      reruns := 0;
      ghost var b := BindingOf(i);
      while blocks[i].Exhausted?
        invariant blocks[i] == RunOn(trials[i], sources[i], BindingOf(i).rows, limit)
        invariant var (out, more) := Finish(trials[i], sources[i], BindingOf(i), limit);
          Finish(trials[i], sources[i], b, limit) == (out, reruns + more)
        invariant OnlyTrial(i) && forall j :: 0 <= j < blocks.Length && j != i ==> blocks[j] == old(blocks[j])
        decreases Left(BindingOf(i).counts)
      {
        ghost var before := BindingOf(i);
        var targets := Targets(sources[i], blocks[i].slot, blocks[i].clone);
        if |targets| == 0 {
          FinishTurn(trials[i], sources[i], before, limit);
          blocks[i] := Failure;
          return;
        }
        GrowUses(sources[i], before, targets);
        FinishTurn(trials[i], sources[i], before, limit);
        var failure := ExtendTargets(i, targets);
        if failure.Some? {
          blocks[i] := if failure.value.TooOften? then LimitReached else Unstable;
          return;
        }
        blocks[i] := RunOn(trials[i], sources[i], BindingOf(i).rows, limit);
        reruns := reruns + 1;
      }
      FinishTurn(trials[i], sources[i], BindingOf(i), limit);
    }

    /** The first run of every trial, and then the reruns of those that ran
        out. A changed prefix stops the batch with an error. */
    method Run() returns (raised: bool)
      requires Valid() && overrides == map[] && extensions == map[]
      modifies this`overrides, this`extensions, blocks
      ensures !raised ==> forall i :: 0 <= i < |trials| ==> blocks[i] == TrialOutcome(trials[i], sources[i], limit).0
      ensures raised ==> exists i :: 0 <= i < |trials| && TrialOutcome(trials[i], sources[i], limit).0 == Unstable
    {
      RunBlocks();
      var i := 0;
      while i < |trials|
        invariant 0 <= i <= |trials|
        invariant forall j :: 0 <= j < i ==> blocks[j] == TrialOutcome(trials[j], sources[j], limit).0
        invariant forall j :: i <= j < |trials| ==> BindingOf(j) == InitialBinding(sources[j])
        invariant forall j :: i <= j < |trials| ==> blocks[j] == RunOn(trials[j], sources[j], InitialBinding(sources[j]).rows, limit)
      {
        if blocks[i].Exhausted? {
          label before:
          var _ := Rerun(i);
          forall j | i < j < |trials| ensures BindingOf(j) == InitialBinding(sources[j]) {
            assert BindingOf(j) == old@before(BindingOf(j));
          }
          if blocks[i] == Unstable { return true; }
        }
        i := i + 1;
      }
      raised := false;
    }

    /** run_blocks, for all trials. */
    method RunBlocks()
      requires Valid() && overrides == map[] && extensions == map[]
      modifies blocks
      ensures forall j :: 0 <= j < |trials| ==> BindingOf(j) == InitialBinding(sources[j])
      ensures forall j :: 0 <= j < |trials| ==> blocks[j] == RunOn(trials[j], sources[j], InitialBinding(sources[j]).rows, limit)
    {
      forall j | 0 <= j < |trials| ensures BindingOf(j) == InitialBinding(sources[j]) {}
      var i := 0;
      while i < |trials|
        invariant 0 <= i <= |trials|
        invariant forall j :: 0 <= j < i ==> blocks[j] == RunOn(trials[j], sources[j], InitialBinding(sources[j]).rows, limit)
      {
        blocks[i] := RunOn(trials[i], sources[i], BindingOf(i).rows, limit);
        i := i + 1;
      }
    }
  }
}

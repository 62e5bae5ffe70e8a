/** Re-execution in `snapshot.py`: a trial that runs out of generated rows is
    run again from its initial image with its rows doubled in length. */
module Extension {
  import opened HashHeap
  import opened InputSlots

  // ---- Trials and sources ----

  /** What a read gives the trial: a value, or the news that the trial ends. */
  datatype Answer = Got(value: Value) | Ended

  /** What a trial does next. `clone` says that it reads through a slot of a
      spawned model, which the host does not see. */
  datatype Action<R> = Read(slot: nat, row: nat, clone: bool) | Return(result: R) | Abort

  /** A trial is deterministic: what it does depends on what it has read. */
  type Trial<!R> = seq<Answer> -> Action<R>

  datatype Outcome<R> =
    | Success(result: R)
    | Failure                               // the model's own, or a read that fails
    | Exhausted(slot: nat, clone: bool)     // an extendable source ran out
    | LimitReached                          // and could not be extended
    | Unstable                              // its longer row did not begin with the old one
    | Endless                               // more reads than the limit of this run

  /** A bound source. One that is not `generated` (a trace, or nothing) has one
      row of `length` values and never another. */
  datatype Source = Source(generated: bool, policy: Policy, prefixStable: bool, maxLength: Option<nat>, length: nat,
                           generate: nat -> seq<Value>)

  predicate Allows(source: Source, n: nat) {
    n >= 1 && (source.maxLength.Some? ==> n <= source.maxLength.value)
  }

  /** What the constructors of sources check: only generated rows that claim to
      be prefix stable may extend, and the rows are of an allowed length. */
  predicate Legal(source: Source) {
    && (source.policy == Extend ==> source.generated && source.prefixStable)
    && (source.generated ==> Allows(source, source.length))
  }

  type Rows = seq<seq<Value>>

  datatype Reply = Answered(answer: Answer) | Exhaust | Refuse

  function Reading(policy: Policy, row: seq<Value>, b: nat): Reply {
    if row == [] then Refuse
    else if b < |row| then Answered(Got(row[b]))
    else match policy
         case Wrap => Answered(Got(RowAt(row, b)))
         case EndTrial => Answered(Ended)
         case Extend => Exhaust
         case Fail => Refuse
  }

  // ---- Running ----

  /** A run against an oracle of replies, after the answers `h`. */
  function RunWith<R>(t: Trial<R>, replies: (nat, nat) -> Reply, h: seq<Answer>, limit: nat): Outcome<R>
    decreases limit - |h|
  {
    match t(h)
    case Return(result) => Success(result)
    case Abort => Failure
    case Read(slot, row, clone) =>
      match replies(slot, row)
      case Refuse => Failure
      case Exhaust => Outcome.Exhausted(slot, clone)
      case Answered(answer) => if |h| < limit then RunWith(t, replies, h + [answer], limit) else Endless
  }

  function RowReplies(sources: seq<Source>, rows: Rows): (nat, nat) -> Reply
    requires |rows| == |sources|
  {
    (slot: nat, row: nat) => if slot < |sources| then Reading(sources[slot].policy, rows[slot], row) else Refuse
  }

  /** What the sources would give with no end to their rows: an extendable
      source its ideal row, any other its own row as it is bound. */
  ghost function IdealReplies(sources: seq<Source>, ideals: seq<nat -> Value>): (nat, nat) -> Reply
    requires |ideals| == |sources|
  {
    (slot: nat, row: nat) =>
      if slot >= |sources| then Refuse
      else if sources[slot].policy == Extend then Answered(Got(ideals[slot](row)))
      else Reading(sources[slot].policy, sources[slot].generate(sources[slot].length), row)
  }

  /** A run that does not run out is the run on any rows that reply alike. */
  lemma {:induction false} SameRun<R>(t: Trial<R>, a: (nat, nat) -> Reply, b: (nat, nat) -> Reply, h: seq<Answer>, limit: nat)
    requires forall slot: nat, row: nat :: a(slot, row) == b(slot, row) || a(slot, row) == Exhaust
    ensures RunWith(t, a, h, limit) == RunWith(t, b, h, limit) || RunWith(t, a, h, limit).Exhausted?
    decreases limit - |h|
  {
    if t(h).Read? {
      var reply := a(t(h).slot, t(h).row);
      if reply.Answered? && |h| < limit { SameRun(t, a, b, h + [reply.answer], limit); }
    }
  }

  // ---- The loop ----

  const MOST_EXTENSIONS: nat := 6

  /** The rows bound to a trial, and how often each has been extended. */
  datatype Binding = Binding(rows: Rows, counts: seq<nat>)

  function InitialBinding(sources: seq<Source>): (b: Binding)
    ensures |b.rows| == |b.counts| == |sources|
  {
    Binding(seq(|sources|, k requires 0 <= k < |sources| => sources[k].generate(sources[k].length)), seq(|sources|, _ => 0))
  }

  datatype Growth = Grown(binding: Binding) | TooOften | Changed

  /** Double one row. */
  function GrowOne(sources: seq<Source>, b: Binding, k: nat): (g: Growth)
    requires k < |sources| == |b.rows| == |b.counts|
    ensures g.Grown? ==> |g.binding.rows| == |g.binding.counts| == |sources|
  {
    var source := sources[k];
    var length := 2 * |b.rows[k]|;
    if !source.generated || !source.prefixStable || b.counts[k] >= MOST_EXTENSIONS then TooOften
    else if source.maxLength.Some? && length > source.maxLength.value then TooOften
    else
      var row := source.generate(length);
      if !(b.rows[k] <= row) then Changed
      else Grown(Binding(b.rows[k := row], b.counts[k := b.counts[k] + 1]))
  }

  function Grow(sources: seq<Source>, b: Binding, targets: seq<nat>): (g: Growth)
    requires |b.rows| == |b.counts| == |sources| && forall i :: 0 <= i < |targets| ==> targets[i] < |sources|
    ensures g.Grown? ==> |g.binding.rows| == |g.binding.counts| == |sources|
    decreases |targets|
  {
    if targets == [] then Grown(b)
    else match GrowOne(sources, b, targets[0])
         case Grown(b') => Grow(sources, b', targets[1..])
         case failed => failed
  }

  /** The generated rows from index lo on. */
  function Generated(sources: seq<Source>, lo: nat): (ts: seq<nat>)
    requires lo <= |sources|
    ensures forall i :: 0 <= i < |ts| ==> lo <= ts[i] < |sources|
    decreases |sources| - lo
  {
    if lo == |sources| then []
    else if sources[lo].generated then [lo] + Generated(sources, lo + 1)
    else Generated(sources, lo + 1)
  }

  /** The rows to extend: the one the host sees run out, or every generated row
      when a spawned model's copy did. */
  function Targets(sources: seq<Source>, slot: nat, clone: bool): (ts: seq<nat>)
    ensures forall i :: 0 <= i < |ts| ==> ts[i] < |sources|
  {
    if clone then Generated(sources, 0)
    else if slot < |sources| then [slot] else []
  }

  lemma {:induction false} GeneratedMembers(sources: seq<Source>, lo: nat)
    requires lo <= |sources|
    ensures forall k: nat :: k in Generated(sources, lo) <==> lo <= k < |sources| && sources[k].generated
    decreases |sources| - lo
  {
    if lo < |sources| { GeneratedMembers(sources, lo + 1); }
  }

  function Left(counts: seq<nat>): nat {
    if counts == [] then 0
    else (if counts[0] < MOST_EXTENSIONS then MOST_EXTENSIONS - counts[0] else 0) + Left(counts[1..])
  }

  lemma {:induction false} LeftDrops(counts: seq<nat>, k: nat)
    requires k < |counts| && counts[k] < MOST_EXTENSIONS
    ensures Left(counts[k := counts[k] + 1]) == Left(counts) - 1
  {
    if k == 0 {
      assert counts[k := counts[k] + 1][1..] == counts[1..];
    } else {
      assert counts[k := counts[k] + 1][1..] == counts[1..][k - 1 := counts[k] + 1];
      LeftDrops(counts[1..], k - 1);
    }
  }

  /** Each target that grows uses up one of its extensions. */
  lemma {:induction false} GrowUses(sources: seq<Source>, b: Binding, targets: seq<nat>)
    requires |b.rows| == |b.counts| == |sources| && forall i :: 0 <= i < |targets| ==> targets[i] < |sources|
    ensures Grow(sources, b, targets).Grown? ==> Left(Grow(sources, b, targets).binding.counts) == Left(b.counts) - |targets|
    decreases |targets|
  {
    if targets != [] {
      var g := GrowOne(sources, b, targets[0]);
      if g.Grown? {
        LeftDrops(b.counts, targets[0]);
        GrowUses(sources, g.binding, targets[1..]);
      }
    }
  }

  function Extensible(source: Source, count: nat): nat {
    if source.policy == Extend && count < MOST_EXTENSIONS then MOST_EXTENSIONS - count else 0
  }

  /** The extensions left to the sources that extend. */
  function ExtensionsLeft(sources: seq<Source>, counts: seq<nat>): nat
    requires |sources| == |counts|
  {
    if counts == [] then 0 else Extensible(sources[0], counts[0]) + ExtensionsLeft(sources[1..], counts[1..])
  }

  lemma {:induction false} ExtensionsDrop(sources: seq<Source>, counts: seq<nat>, k: nat)
    requires k < |counts| == |sources| && counts[k] < MOST_EXTENSIONS
    ensures ExtensionsLeft(sources, counts[k := counts[k] + 1]) + (if sources[k].policy == Extend then 1 else 0)
            == ExtensionsLeft(sources, counts)
  {
    var counts' := counts[k := counts[k] + 1];
    if k == 0 {
      assert counts'[1..] == counts[1..];
    } else {
      assert counts'[1..] == counts[1..][k - 1 := counts[k] + 1];
      ExtensionsDrop(sources[1..], counts[1..], k - 1);
    }
  }

  /** A rerun uses up an extension of some source that extends, if one is among
      the targets. */
  lemma {:induction false} GrowUsesExtensions(sources: seq<Source>, b: Binding, targets: seq<nat>)
    requires |b.rows| == |b.counts| == |sources| && forall i :: 0 <= i < |targets| ==> targets[i] < |sources|
    requires Grow(sources, b, targets).Grown?
    ensures var counts := Grow(sources, b, targets).binding.counts;
      && ExtensionsLeft(sources, counts) <= ExtensionsLeft(sources, b.counts)
      && ((exists i :: 0 <= i < |targets| && sources[targets[i]].policy == Extend) ==>
            ExtensionsLeft(sources, counts) < ExtensionsLeft(sources, b.counts))
    decreases |targets|
  {
    if targets != [] {
      ExtensionsDrop(sources, b.counts, targets[0]);
      GrowUsesExtensions(sources, GrowOne(sources, b, targets[0]).binding, targets[1..]);
    }
  }

  /** How many sources extend. */
  function Extending(sources: seq<Source>): nat {
    if sources == [] then 0 else (if sources[0].policy == Extend then 1 else 0) + Extending(sources[1..])
  }

  lemma {:induction false} ExtensionsAtFirst(sources: seq<Source>)
    ensures ExtensionsLeft(sources, seq(|sources|, _ => 0)) == MOST_EXTENSIONS * Extending(sources)
  {
    if sources != [] {
      assert seq(|sources|, _ => 0)[1..] == seq(|sources[1..]|, _ => 0);
      ExtensionsAtFirst(sources[1..]);
    }
  }

  function RunOn<R>(t: Trial<R>, sources: seq<Source>, rows: Rows, limit: nat): Outcome<R>
    requires |rows| == |sources|
  {
    RunWith(t, RowReplies(sources, rows), [], limit)
  }

  /** The `while status == 4` loop for one trial. `reruns` bounds its turns. */
  ghost function Finish<R>(t: Trial<R>, sources: seq<Source>, b: Binding, limit: nat): (Outcome<R>, nat)
    requires |b.rows| == |b.counts| == |sources|
    decreases Left(b.counts)
  {
    var outcome := RunOn(t, sources, b.rows, limit);
    if !outcome.Exhausted? then (outcome, 0)
    else
      var targets := Targets(sources, outcome.slot, outcome.clone);
      if targets == [] then (Failure, 0)
      else match Grow(sources, b, targets)
           case TooOften => (LimitReached, 0)
           case Changed => (Unstable, 0)
           case Grown(b') =>
             GrowUses(sources, b, targets);
             var (final, reruns) := Finish(t, sources, b', limit);
             (final, reruns + 1)
  }

  // ---- Extending is invisible ----

  /** Each row the source may generate is the beginning of one ideal row. */
  ghost predicate IdealOf(source: Source, ideal: nat -> Value) {
    forall n: nat :: Allows(source, n) ==>
      |source.generate(n)| == n && forall b :: 0 <= b < n ==> source.generate(n)[b] == ideal(b)
  }

  /** The source cannot be extended even once. */
  predicate IsFixed(source: Source) {
    !source.prefixStable || (source.maxLength.Some? && 2 * source.length > source.maxLength.value)
  }

  predicate CanGrow(source: Source) { source.generated && !IsFixed(source) }

  /** Legal sources, of which those that may be asked for more rows keep the
      promise to be prefix stable. Nothing is asked of the others. */
  ghost predicate Stable(sources: seq<Source>, ideals: seq<nat -> Value>) {
    && |ideals| == |sources|
    && forall k :: 0 <= k < |sources| ==>
         && Legal(sources[k]) && |sources[k].generate(sources[k].length)| == sources[k].length
         && (CanGrow(sources[k]) || sources[k].policy == Extend ==> IdealOf(sources[k], ideals[k]))
  }

  /** A row as it is first bound, or longer if the source can grow. */
  ghost predicate RowOk(source: Source, row: seq<Value>) {
    && row == source.generate(|row|)
    && (|row| == source.length || (|row| > source.length && CanGrow(source) && Allows(source, |row|)))
  }

  /** The bound rows are the sources' own, and one that does not extend is
      still the first if only those that extend are asked for more. */
  ghost predicate Prefixes(sources: seq<Source>, rows: Rows, untouched: bool) {
    && |rows| == |sources|
    && forall k :: 0 <= k < |sources| ==>
         RowOk(sources[k], rows[k])
         && (untouched && sources[k].policy != Extend ==> rows[k] == sources[k].generate(sources[k].length))
  }

  /** No read is through a spawned model's copy of a row source. */
  ghost predicate OwnReads<R>(t: Trial<R>) {
    forall h :: t(h).Read? ==> !t(h).clone
  }

  predicate AllExtend(sources: seq<Source>) {
    forall k :: 0 <= k < |sources| && sources[k].generated ==> sources[k].policy == Extend
  }

  predicate NoneExtend(sources: seq<Source>) {
    forall k :: 0 <= k < |sources| ==> sources[k].policy != Extend
  }

  /** When no trial can tell that rows are extended: all generated rows extend,
      or none does, or one of them stops every extension of all. */
  predicate Transparent(sources: seq<Source>) {
    AllExtend(sources) || NoneExtend(sources)
    || exists k :: 0 <= k < |sources| && sources[k].generated && IsFixed(sources[k])
  }

  /** One source that cannot be extended stops the extension of all. */
  lemma {:induction false} GrowBlocked(sources: seq<Source>, b: Binding, targets: seq<nat>, k: nat)
    requires |b.rows| == |b.counts| == |sources| && forall i :: 0 <= i < |targets| ==> targets[i] < |sources|
    requires k < |sources| && k in targets && IsFixed(sources[k]) && |b.rows[k]| >= sources[k].length
    ensures !Grow(sources, b, targets).Grown?
    decreases |targets|
  {
    if targets[0] != k {
      var g := GrowOne(sources, b, targets[0]);
      if g.Grown? { GrowBlocked(sources, g.binding, targets[1..], k); }
    }
  }

  lemma GrowOneKeeps(sources: seq<Source>, ideals: seq<nat -> Value>, b: Binding, k: nat, untouched: bool)
    requires Stable(sources, ideals) && |b.counts| == |sources| && Prefixes(sources, b.rows, untouched)
    requires k < |sources| && (untouched ==> sources[k].policy == Extend)
    ensures var g := GrowOne(sources, b, k); !g.Changed? && (g.Grown? ==> Prefixes(sources, g.binding.rows, untouched))
  {
    assert RowOk(sources[k], b.rows[k]);
    if CanGrow(sources[k]) { assert IdealOf(sources[k], ideals[k]); }
  }

  lemma {:induction false} GrowKeeps(sources: seq<Source>, ideals: seq<nat -> Value>, b: Binding, targets: seq<nat>, untouched: bool)
    requires Stable(sources, ideals) && |b.counts| == |sources| && Prefixes(sources, b.rows, untouched)
    requires forall i :: 0 <= i < |targets| ==> targets[i] < |sources| && (untouched ==> sources[targets[i]].policy == Extend)
    ensures var g := Grow(sources, b, targets); !g.Changed? && (g.Grown? ==> Prefixes(sources, g.binding.rows, untouched))
    decreases |targets|
  {
    if targets != [] {
      GrowOneKeeps(sources, ideals, b, targets[0], untouched);
      var g := GrowOne(sources, b, targets[0]);
      if g.Grown? { GrowKeeps(sources, ideals, g.binding, targets[1..], untouched); }
    }
  }

  /** Only an extendable source runs out; and not through a copy, if no copy is read. */
  lemma {:induction false} WhatRunsOut<R>(t: Trial<R>, sources: seq<Source>, rows: Rows, h: seq<Answer>, limit: nat)
    requires |rows| == |sources|
    ensures var out := RunWith(t, RowReplies(sources, rows), h, limit);
      out.Exhausted? ==> out.slot < |sources| && sources[out.slot].policy == Extend && (OwnReads(t) ==> !out.clone)
    decreases limit - |h|
  {
    if t(h).Read? {
      var reply := RowReplies(sources, rows)(t(h).slot, t(h).row);
      if reply.Answered? && |h| < limit { WhatRunsOut(t, sources, rows, h + [reply.answer], limit); }
    }
  }

  /** On prefixes of the ideal rows a run that does not run out is the ideal run. */
  lemma RunIsIdeal<R>(t: Trial<R>, sources: seq<Source>, ideals: seq<nat -> Value>, rows: Rows, limit: nat)
    requires Stable(sources, ideals) && Prefixes(sources, rows, true)
    ensures RunOn(t, sources, rows, limit).Exhausted?
            || RunOn(t, sources, rows, limit) == RunWith(t, IdealReplies(sources, ideals), [], limit)
  {
    var a, b := RowReplies(sources, rows), IdealReplies(sources, ideals);
    forall slot: nat, row: nat ensures a(slot, row) == b(slot, row) || a(slot, row) == Exhaust {
      if slot < |sources| {
        assert RowOk(sources[slot], rows[slot]);
        if sources[slot].policy == Extend { assert IdealOf(sources[slot], ideals[slot]); }
      }
    }
    SameRun(t, a, b, [], limit);
  }

  /** The loop, from any state it reaches. */
  lemma {:induction false} ExtensionIsTransparent<R>(t: Trial<R>, sources: seq<Source>, ideals: seq<nat -> Value>, b: Binding, limit: nat)
    requires Stable(sources, ideals) && |b.counts| == |sources| && Prefixes(sources, b.rows, true)
    requires Transparent(sources) || OwnReads(t)
    ensures var (outcome, reruns) := Finish(t, sources, b, limit);
      && (outcome == RunWith(t, IdealReplies(sources, ideals), [], limit) || outcome == LimitReached)
      && reruns <= ExtensionsLeft(sources, b.counts)
    decreases Left(b.counts)
  {
    RunIsIdeal(t, sources, ideals, b.rows, limit);
    WhatRunsOut(t, sources, b.rows, [], limit);
    var outcome := RunOn(t, sources, b.rows, limit);
    if outcome.Exhausted? {
      var targets := Targets(sources, outcome.slot, outcome.clone);
      GeneratedMembers(sources, 0);
      assert outcome.slot in targets;
      GrowUses(sources, b, targets);
      var g := Grow(sources, b, targets);
      if outcome.clone && !AllExtend(sources) {
        var k :| 0 <= k < |sources| && sources[k].generated && IsFixed(sources[k]);
        assert RowOk(sources[k], b.rows[k]);
        GrowBlocked(sources, b, targets, k);
        GrowKeeps(sources, ideals, b, targets, false);
      } else {
        GrowKeeps(sources, ideals, b, targets, true);
      }
      if g.Grown? {
        GrowUsesExtensions(sources, b, targets);
        ExtensionIsTransparent(t, sources, ideals, g.binding, limit);
      }
    }
  }

  /** A whole trial: first run and reruns. */
  ghost function TrialOutcome<R>(t: Trial<R>, sources: seq<Source>, limit: nat): (Outcome<R>, nat) {
    Finish(t, sources, InitialBinding(sources), limit)
  }

  ghost function IdealOutcome<R>(t: Trial<R>, sources: seq<Source>, ideals: seq<nat -> Value>, limit: nat): Outcome<R>
    requires |ideals| == |sources|
  {
    RunWith(t, IdealReplies(sources, ideals), [], limit)
  }

  /** Extension is transparent and terminates. If the sources that may be asked
      for more rows are as prefix stable as they claim, the reruns never find a
      changed prefix, there are at most six for each source that extends, and
      they end in the very outcome of the run on the ideal unbounded rows, or
      with the extension limit reached. This holds for every trial on
      transparent sources, and for any sources if the trial reads no rows
      through a spawned model's copy. */
  lemma TrialIsTransparent<R>(t: Trial<R>, sources: seq<Source>, ideals: seq<nat -> Value>, limit: nat)
    requires Stable(sources, ideals) && (Transparent(sources) || OwnReads(t))
    ensures var (outcome, reruns) := TrialOutcome(t, sources, limit);
      && (outcome == IdealOutcome(t, sources, ideals, limit) || outcome == LimitReached)
      && reruns <= MOST_EXTENSIONS * Extending(sources)
  {
    var b := InitialBinding(sources);
    assert Prefixes(sources, b.rows, true);
    ExtensionIsTransparent(t, sources, ideals, b, limit);
    ExtensionsAtFirst(sources);
    assert b.counts == seq(|sources|, _ => 0);
  }

  // ---- When the limit is reached ----

  /** The longest row that at most `left` doublings of one of length n give. */
  function ReachFrom(n: nat, maxLength: Option<nat>, left: nat): (reach: nat)
    ensures reach >= n
    decreases left
  {
    if left == 0 || (maxLength.Some? && 2 * n > maxLength.value) then n else ReachFrom(2 * n, maxLength, left - 1)
  }

  function Reach(source: Source): nat { ReachFrom(source.length, source.maxLength, MOST_EXTENSIONS) }

  /** Without a maximum length that is 64 times the first row. */
  lemma ReachOfUnlimited(source: Source)
    requires source.maxLength.None?
    ensures Reach(source) == 64 * source.length
  {
    var n := source.length;
    assert ReachFrom(2 * n, None, 5) == ReachFrom(4 * n, None, 4) == ReachFrom(8 * n, None, 3);
    assert ReachFrom(8 * n, None, 3) == ReachFrom(16 * n, None, 2) == ReachFrom(32 * n, None, 1) == ReachFrom(64 * n, None, 0);
  }

  /** A run against an oracle comes to a read that `past` holds of. */
  ghost predicate ReadsPast<R>(t: Trial<R>, replies: (nat, nat) -> Reply, past: (nat, nat) -> bool, h: seq<Answer>, limit: nat)
    decreases limit - |h|
  {
    match t(h)
    case Read(slot, row, _) =>
      past(slot, row) ||
      (match replies(slot, row)
       case Answered(answer) => |h| < limit && ReadsPast(t, replies, past, h + [answer], limit)
       case _ => false)
    case _ => false
  }

  /** Past the longest row that a source that extends can be given. */
  ghost function PastReach(sources: seq<Source>): (nat, nat) -> bool {
    (slot: nat, row: nat) => slot < |sources| && sources[slot].policy == Extend && row >= Reach(sources[slot])
  }

  ghost function PastRow(k: nat, n: nat): (nat, nat) -> bool {
    (slot: nat, row: nat) => slot == k && row >= n
  }

  lemma {:induction false} PastLess<R>(t: Trial<R>, replies: (nat, nat) -> Reply, few: (nat, nat) -> bool, many: (nat, nat) -> bool,
                                       h: seq<Answer>, limit: nat)
    requires forall slot: nat, row: nat :: few(slot, row) ==> many(slot, row)
    ensures ReadsPast(t, replies, few, h, limit) ==> ReadsPast(t, replies, many, h, limit)
    decreases limit - |h|
  {
    if t(h).Read? {
      var reply := replies(t(h).slot, t(h).row);
      if reply.Answered? && |h| < limit { PastLess(t, replies, few, many, h + [reply.answer], limit); }
    }
  }

  /** A run on bound rows runs out just where the ideal run reads past a row. */
  lemma {:induction false} RunsOutPast<R>(t: Trial<R>, sources: seq<Source>, ideals: seq<nat -> Value>, rows: Rows, h: seq<Answer>, limit: nat)
    requires Stable(sources, ideals) && Prefixes(sources, rows, true)
    requires forall k :: 0 <= k < |sources| ==> |rows[k]| <= Reach(sources[k])
    ensures var out := RunWith(t, RowReplies(sources, rows), h, limit); var replies := IdealReplies(sources, ideals);
      if out.Exhausted? then out.slot < |sources| && ReadsPast(t, replies, PastRow(out.slot, |rows[out.slot]|), h, limit)
      else !ReadsPast(t, replies, PastReach(sources), h, limit)
    decreases limit - |h|
  {
    if t(h).Read? {
      var slot, row := t(h).slot, t(h).row;
      RepliesAgree(sources, ideals, rows, slot, row);
      var reply := RowReplies(sources, rows)(slot, row);
      if reply.Answered? && |h| < limit { RunsOutPast(t, sources, ideals, rows, h + [reply.answer], limit); }
    }
  }

  lemma RepliesAgree(sources: seq<Source>, ideals: seq<nat -> Value>, rows: Rows, slot: nat, row: nat)
    requires Stable(sources, ideals) && Prefixes(sources, rows, true)
    ensures var a, b := RowReplies(sources, rows)(slot, row), IdealReplies(sources, ideals)(slot, row);
      if slot < |sources| && sources[slot].policy == Extend && row >= |rows[slot]| then a == Exhaust else a == b && a != Exhaust
  {
    if slot < |sources| {
      assert RowOk(sources[slot], rows[slot]);
      if sources[slot].policy == Extend { assert IdealOf(sources[slot], ideals[slot]); }
    }
  }

  /** Each row is on its way to the longest it can be given. */
  ghost predicate OnTheWay(sources: seq<Source>, b: Binding) {
    && |b.rows| == |b.counts| == |sources|
    && forall k :: 0 <= k < |sources| ==>
         b.counts[k] <= MOST_EXTENSIONS
         && ReachFrom(|b.rows[k]|, sources[k].maxLength, MOST_EXTENSIONS - b.counts[k]) == Reach(sources[k])
  }

  lemma GrowOnTheWay(sources: seq<Source>, ideals: seq<nat -> Value>, b: Binding, k: nat)
    requires Stable(sources, ideals) && Prefixes(sources, b.rows, true) && OnTheWay(sources, b)
    requires k < |sources| && sources[k].policy == Extend
    ensures var g := Grow(sources, b, [k]);
      match g
      case Grown(b') => OnTheWay(sources, b') && Prefixes(sources, b'.rows, true)
      case TooOften => |b.rows[k]| == Reach(sources[k])
      case Changed => false
  {
    GrowKeeps(sources, ideals, b, [k], true);
    GrowSingle(sources, b, k);
    assert RowOk(sources[k], b.rows[k]) && IdealOf(sources[k], ideals[k]);
  }

  lemma GrowSingle(sources: seq<Source>, b: Binding, k: nat)
    requires |b.rows| == |b.counts| == |sources| && k < |sources|
    ensures Grow(sources, b, [k]) == GrowOne(sources, b, k)
  {
    var g := GrowOne(sources, b, k);
    if g.Grown? { assert Grow(sources, g.binding, [k][1..]) == g; }
  }

  lemma {:induction false} FinishLimit<R>(t: Trial<R>, sources: seq<Source>, ideals: seq<nat -> Value>, b: Binding, limit: nat)
    requires Stable(sources, ideals) && Prefixes(sources, b.rows, true) && OnTheWay(sources, b) && OwnReads(t)
    ensures Finish(t, sources, b, limit).0 == LimitReached <==>
      ReadsPast(t, IdealReplies(sources, ideals), PastReach(sources), [], limit)
    decreases Left(b.counts)
  {
    var replies := IdealReplies(sources, ideals);
    RunsOutPast(t, sources, ideals, b.rows, [], limit);
    WhatRunsOut(t, sources, b.rows, [], limit);
    NeverLimit(t, RowReplies(sources, b.rows), [], limit);
    FinishTurn(t, sources, b, limit);
    var out := RunOn(t, sources, b.rows, limit);
    if out.Exhausted? {
      var k := out.slot;
      GrowOnTheWay(sources, ideals, b, k);
      GrowUses(sources, b, [k]);
      match Grow(sources, b, [k])
      case Grown(b') => FinishLimit(t, sources, ideals, b', limit);
      case TooOften => PastLess(t, replies, PastRow(k, |b.rows[k]|), PastReach(sources), [], limit);
      case Changed =>
    }
  }

  lemma {:induction false} NeverLimit<R>(t: Trial<R>, replies: (nat, nat) -> Reply, h: seq<Answer>, limit: nat)
    ensures RunWith(t, replies, h, limit) != LimitReached
    decreases limit - |h|
  {
    if t(h).Read? {
      var reply := replies(t(h).slot, t(h).row);
      if reply.Answered? && |h| < limit { NeverLimit(t, replies, h + [reply.answer], limit); }
    }
  }

  /** A trial that reads no rows through a spawned model's copy ends with the
      limit reached exactly if its ideal run reads past the longest row that a
      source that extends can be given: 64 times its first, or as many
      doublings as its maximum length allows. Otherwise it ends as the ideal run. */
  lemma LimitIff<R>(t: Trial<R>, sources: seq<Source>, ideals: seq<nat -> Value>, limit: nat)
    requires Stable(sources, ideals) && OwnReads(t)
    ensures var past := ReadsPast(t, IdealReplies(sources, ideals), PastReach(sources), [], limit);
      && (TrialOutcome(t, sources, limit).0 == LimitReached <==> past)
      && (!past ==> TrialOutcome(t, sources, limit).0 == IdealOutcome(t, sources, ideals, limit))
  {
    var b := InitialBinding(sources);
    assert Prefixes(sources, b.rows, true);
    FinishLimit(t, sources, ideals, b, limit);
    TrialIsTransparent(t, sources, ideals, limit);
  }

  // ---- And only then ----

  function CountRow(n: nat): (row: seq<Value>)
    ensures |row| == n && forall b :: 0 <= b < n ==> row[b] == Number(b as real)
  {
    seq(n, b requires 0 <= b < n => Number(b as real))
  }

  ghost predicate Counts(source: Source) {
    forall n: nat :: source.generate(n) == CountRow(n)
  }

  /** The same settings with the rows 0, 1, 2, ... */
  function WithCounting(sources: seq<Source>): (cs: seq<Source>)
    ensures |cs| == |sources|
    ensures forall k :: 0 <= k < |sources| ==> cs[k] == sources[k].(generate := cs[k].generate) && Counts(cs[k])
  {
    seq(|sources|, k requires 0 <= k < |sources| => sources[k].(generate := CountRow))
  }

  /** Reads one row past the end of source k, through a spawned model's copy,
      then one past the end of source j, and reports that. */
  function Prober(k: nat, rowK: nat, j: nat, rowJ: nat): Trial<Value> {
    (h: seq<Answer>) =>
      if |h| == 0 then Read(k, rowK, true)
      else if |h| == 1 then Read(j, rowJ, false)
      else Return(if h[1].Got? then h[1].value else NaN)
  }

  /** The sources from lo on count, and none of the generated ones is at its
      end: each can grow and has not yet. */
  ghost predicate Fresh(sources: seq<Source>, b: Binding, lo: nat) {
    && |b.rows| == |b.counts| == |sources| && lo <= |sources|
    && forall k :: lo <= k < |sources| && sources[k].generated ==> FreshAt(sources[k], b, k)
  }

  ghost predicate FreshAt(source: Source, b: Binding, k: nat)
    requires k < |b.rows| == |b.counts|
  {
    Counts(source) && !IsFixed(source) && b.counts[k] == 0 && b.rows[k] == CountRow(source.length)
  }

  /** From lo on the generated rows are twice as long; all others are as they were. */
  ghost predicate GrownFrom(sources: seq<Source>, b: Binding, g: Growth, lo: nat)
    requires |b.rows| == |sources|
  {
    && g.Grown? && |g.binding.rows| == |sources|
    && forall k :: 0 <= k < |sources| ==>
         g.binding.rows[k] == if lo <= k && sources[k].generated then CountRow(2 * sources[k].length) else b.rows[k]
  }

  lemma {:induction false} GrowAll(sources: seq<Source>, b: Binding, lo: nat)
    requires Fresh(sources, b, lo)
    ensures GrownFrom(sources, b, Grow(sources, b, Generated(sources, lo)), lo)
    decreases |sources| - lo
  {
    if lo == |sources| {
      assert Generated(sources, lo) == [];
    } else if !sources[lo].generated {
      GrowAll(sources, b, lo + 1);
    } else {
      var b1 := Binding(b.rows[lo := CountRow(2 * sources[lo].length)], b.counts[lo := 1]);
      GrowOneCounting(sources, b, lo);
      GrowTurn(sources, b, Generated(sources, lo));
      assert Generated(sources, lo)[1..] == Generated(sources, lo + 1);
      assert Fresh(sources, b1, lo + 1) by { FreshNext(sources, b, lo); }
      GrowAll(sources, b1, lo + 1);
      GrownNext(sources, b, b1, Grow(sources, b1, Generated(sources, lo + 1)), lo);
    }
  }

  lemma FreshNext(sources: seq<Source>, b: Binding, lo: nat)
    requires Fresh(sources, b, lo) && lo < |sources|
    ensures Fresh(sources, Binding(b.rows[lo := CountRow(2 * sources[lo].length)], b.counts[lo := 1]), lo + 1)
  {
  }

  lemma GrownNext(sources: seq<Source>, b: Binding, b1: Binding, g: Growth, lo: nat)
    requires |b.rows| == |b1.rows| == |sources| && lo < |sources| && sources[lo].generated
    requires b1.rows == b.rows[lo := CountRow(2 * sources[lo].length)] && GrownFrom(sources, b1, g, lo + 1)
    ensures GrownFrom(sources, b, g, lo)
  {
  }

  lemma GrowTurn(sources: seq<Source>, b: Binding, targets: seq<nat>)
    requires |b.rows| == |b.counts| == |sources| && targets != [] && forall i :: 0 <= i < |targets| ==> targets[i] < |sources|
    requires GrowOne(sources, b, targets[0]).Grown?
    ensures Grow(sources, b, targets) == Grow(sources, GrowOne(sources, b, targets[0]).binding, targets[1..])
  {
  }

  lemma GrowOneCounting(sources: seq<Source>, b: Binding, k: nat)
    requires |b.rows| == |b.counts| == |sources| && k < |sources| && sources[k].generated && FreshAt(sources[k], b, k)
    ensures GrowOne(sources, b, k) == Grown(Binding(b.rows[k := CountRow(2 * sources[k].length)], b.counts[k := 1]))
  {
  }

  /** Two answers, and then the result. */
  lemma Probed(k: nat, rowK: nat, j: nat, rowJ: nat, replies: (nat, nat) -> Reply)
    ensures replies(k, rowK).Exhaust? ==> RunWith(Prober(k, rowK, j, rowJ), replies, [], 2) == Outcome.Exhausted(k, true)
    ensures replies(k, rowK).Answered? && replies(j, rowJ).Answered? ==>
      RunWith(Prober(k, rowK, j, rowJ), replies, [], 2)
      == Success(if replies(j, rowJ).answer.Got? then replies(j, rowJ).answer.value else NaN)
    ensures replies(k, rowK).Answered? && replies(j, rowJ).Refuse? ==> RunWith(Prober(k, rowK, j, rowJ), replies, [], 2) == Failure
  {
  }

  /** On any other settings, with rows that count, some trial succeeds after an
      extension with a result that it would not have on its ideal rows: a
      spawned model's copy runs out, every generated row is doubled, and a
      source that was to wrap, end or fail at its end goes on instead. */
  lemma ExtensionShows(sources: seq<Source>) returns (t: Trial<Value>, ideals: seq<nat -> Value>)
    requires !Transparent(sources) && forall k :: 0 <= k < |sources| ==> Legal(sources[k])
    ensures Stable(WithCounting(sources), ideals)
    ensures var outcome := TrialOutcome(t, WithCounting(sources), 2).0;
      outcome.Success? && outcome != IdealOutcome(t, WithCounting(sources), ideals, 2)
  {
    hide Transparent, Prober, RunWith, GrowOne, Grow, CountRow, Stable, Reading, Fresh, Generated, Finish, RowReplies, IdealReplies;
    var cs := WithCounting(sources);
    ideals := seq(|sources|, _ => (b: nat) => Number(b as real));
    var k, j := SomeOfEach(sources);
    var n, m := cs[k].length, cs[j].length;
    t := Prober(k, n, j, m);
    var b := InitialBinding(cs);
    CountingIsStable(cs, ideals);
    CountingStarts(cs, k);
    GrowAll(cs, b, 0);
    var b' := Grow(cs, b, Generated(cs, 0)).binding;
    CountingGoesOn(cs, ideals, b, b', k, j);
    Probed(k, n, j, m, RowReplies(cs, b.rows));
    Probed(k, n, j, m, RowReplies(cs, b'.rows));
    Probed(k, n, j, m, IdealReplies(cs, ideals));
    FinishTurn(t, cs, b, 2);
    FinishTurn(t, cs, b', 2);
  }

  lemma CountingIsStable(cs: seq<Source>, ideals: seq<nat -> Value>)
    requires |ideals| == |cs| && forall k :: 0 <= k < |cs| ==> Legal(cs[k]) && Counts(cs[k])
    requires forall k: nat, b: nat :: k < |ideals| ==> ideals[k](b) == Number(b as real)
    ensures Stable(cs, ideals)
  {
  }

  /** At first source k runs out just past its end. */
  lemma CountingStarts(cs: seq<Source>, k: nat)
    requires forall i :: 0 <= i < |cs| ==> Counts(cs[i]) && (cs[i].generated ==> !IsFixed(cs[i]))
    requires k < |cs| && cs[k].policy == Extend && Legal(cs[k])
    ensures Fresh(cs, InitialBinding(cs), 0) && RowReplies(cs, InitialBinding(cs).rows)(k, cs[k].length) == Exhaust
    ensures Targets(cs, k, true) != []
  {
    hide CountRow;
    GeneratedMembers(cs, 0);
    assert k in Generated(cs, 0);
  }

  /** Once all are doubled both have a row there, which the ideal rows of a
      source that wraps, ends or fails do not have. */
  lemma CountingGoesOn(cs: seq<Source>, ideals: seq<nat -> Value>, b: Binding, b': Binding, k: nat, j: nat)
    requires |b.rows| == |b'.rows| == |ideals| == |cs| && GrownFrom(cs, b, Grown(b'), 0)
    requires forall k: nat, b: nat :: k < |ideals| ==> ideals[k](b) == Number(b as real)
    requires k < |cs| && cs[k].policy == Extend && Legal(cs[k])
    requires j < |cs| && cs[j].policy != Extend && cs[j].generated && Legal(cs[j]) && Counts(cs[j])
    ensures RowReplies(cs, b'.rows)(k, cs[k].length).Answered? && IdealReplies(cs, ideals)(k, cs[k].length).Answered?
    ensures RowReplies(cs, b'.rows)(j, cs[j].length) == Answered(Got(Number(cs[j].length as real)))
    ensures IdealReplies(cs, ideals)(j, cs[j].length) != Answered(Got(Number(cs[j].length as real)))
    ensures !IdealReplies(cs, ideals)(j, cs[j].length).Exhaust?
  {
    var row := cs[j].generate(cs[j].length);
    assert row == CountRow(cs[j].length) && |row| % |row| == 0;
    assert IdealReplies(cs, ideals)(j, |row|) == Reading(cs[j].policy, row, |row|);
  }

  /** One turn of the loop. */
  lemma FinishTurn<R>(t: Trial<R>, sources: seq<Source>, b: Binding, limit: nat)
    requires |b.rows| == |b.counts| == |sources|
    ensures var out := RunOn(t, sources, b.rows, limit);
      Finish(t, sources, b, limit) ==
        if !out.Exhausted? then (out, 0)
        else if Targets(sources, out.slot, out.clone) == [] then (Failure, 0)
        else match Grow(sources, b, Targets(sources, out.slot, out.clone))
             case TooOften => (LimitReached, 0)
             case Changed => (Unstable, 0)
             case Grown(b') => (Finish(t, sources, b', limit).0, Finish(t, sources, b', limit).1 + 1)
  {
  }

  lemma SomeOfEach(sources: seq<Source>) returns (k: nat, j: nat)
    requires !Transparent(sources)
    ensures k < |sources| && sources[k].policy == Extend
    ensures j < |sources| && sources[j].generated && sources[j].policy != Extend
    ensures forall i :: 0 <= i < |sources| && sources[i].generated ==> !IsFixed(sources[i])
  {
    k :| 0 <= k < |sources| && sources[k].policy == Extend;
    j :| 0 <= j < |sources| && sources[j].generated && sources[j].policy != Extend;
  }
}

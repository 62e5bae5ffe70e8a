/** How a model reads an input slot of `inputs.c`: value by value, or as a
    series over time whose draws are remembered. */
module InputSlots {
  import opened Powers

  /** NaN is what a read gives when the slot cannot. */
  datatype Value = Number(x: real) | NaN

  datatype Kind = Distribution | Rows | Empty
  datatype Policy = Fail | Wrap | EndTrial | Extend
  datatype Status = Ok | Failed | Exhausted

  /** What one draw gives: the value, the state after it, and whether the
      distribution has failed. */
  datatype Drawn<S> = Drawn(value: Value, next: S, failed: bool)

  const FIRST_HISTORY: nat := 16
  const MAX_HISTORY: nat := 0x1000_0000_0000_0000  // the next doubling exceeds SIZE_MAX bytes
  const INT64_MAX: nat := 0x7FFF_FFFF_FFFF_FFFF

  // ---- The underlying sequence ----

  /** The generator's state after n draws from `seeded`. */
  ghost function StateAfter<S>(draw: S -> Drawn<S>, seeded: S, n: nat): S {
    if n == 0 then seeded else draw(StateAfter(draw, seeded, n - 1)).next
  }

  /** The b-th draw of the distribution. */
  ghost function DrawAt<S>(draw: S -> Drawn<S>, seeded: S, b: nat): Value {
    draw(StateAfter(draw, seeded, b)).value
  }

  ghost function FailsAt<S>(draw: S -> Drawn<S>, seeded: S, b: nat): bool {
    draw(StateAfter(draw, seeded, b)).failed
  }

  ghost predicate AllDraw<S>(draw: S -> Drawn<S>, seeded: S, n: nat) {
    forall b :: 0 <= b < n ==> !FailsAt(draw, seeded, b)
  }

  function Max(a: nat, b: nat): nat { if a < b then b else a }

  /** Row b of a slot that wraps. */
  function RowAt(data: seq<Value>, b: nat): Value
    requires data != []
  {
    data[b % |data|]
  }

  /** The time is in the b-th stretch of length `step` from the origin. */
  predicate InBucket(step: real, origin: real, b: nat, time: real) {
    origin + b as real * step <= time < origin + (b + 1) as real * step
  }

  /** Comparing a quotient with a whole number is comparing with its multiple. */
  lemma QuotientAtLeast(x: real, step: real, b: int)
    requires step > 0.0
    ensures x / step >= b as real <==> x >= b as real * step
  {
    var q := x / step;
    assert q * step == x;
    if q >= b as real {
      assert (q - b as real) * step >= 0.0;
    } else {
      assert (b as real - q) * step > 0.0;
    }
  }

  lemma BucketOfTime(step: real, origin: real, time: real, b: nat)
    requires step > 0.0
    ensures var position := ((time - origin) / step).Floor;
      && (position >= 0 <==> time >= origin)
      && (position > INT64_MAX <==> time >= origin + (INT64_MAX + 1) as real * step)
      && (InBucket(step, origin, b, time) <==> b == position)
  {
    QuotientAtLeast(time - origin, step, 0);
    QuotientAtLeast(time - origin, step, INT64_MAX + 1);
    QuotientAtLeast(time - origin, step, b);
    QuotientAtLeast(time - origin, step, b + 1);
  }

  /** A time from the origin on is in exactly one bucket. */
  lemma OneBucket(step: real, origin: real, time: real) returns (b: nat)
    requires step > 0.0 && time >= origin
    ensures forall c: nat :: InBucket(step, origin, c, time) <==> c == b
  {
    BucketOfTime(step, origin, time, 0);
    b := ((time - origin) / step).Floor;
    forall c: nat ensures InBucket(step, origin, c, time) <==> c == b { BucketOfTime(step, origin, time, c); }
  }

  class Slot<S> {
    const kind: Kind
    const policy: Policy
    const data: seq<Value>
    const step: real
    const origin: real
    const draw: S -> Drawn<S>
    var stream: S
    var cursor: nat
    var status: Status
    var history: array<Value>

    constructor (kind: Kind, policy: Policy, data: seq<Value>, step: real, origin: real, draw: S -> Drawn<S>, seeded: S)
      ensures this.kind == kind && this.policy == policy && this.data == data && this.step == step && this.origin == origin
      ensures this.draw == draw && stream == seeded && cursor == 0 && status == Ok && fresh(history) && Remembers(seeded)
    {
      this.kind, this.policy, this.data, this.step, this.origin, this.draw := kind, policy, data, step, origin, draw;
      stream, cursor, status := seeded, 0, Ok;
      history := new Value[0];
    }

    /** A slot with no rows, or with nothing bound. */
    predicate Unreadable() {
      kind == Empty || (kind == Rows && data == [])
    }

    /** What reading row b gives, and leaves: the row, with the cursor at
        `next`; or, past the rows, what the policy says, with the cursor as it was. */
    predicate ReadsRow(b: nat, value: Value, ended: bool, cursor0: nat, next: nat)
      requires data != []
      reads this
    {
      if b < |data| || policy == Wrap
      then value == RowAt(data, b) && !ended && status == Ok && cursor == next
      else value == NaN && ended == (policy == EndTrial) && cursor == cursor0
           && status == (match policy case EndTrial => Ok case Extend => Exhausted case _ => Failed)
    }

    /** cpy_input_next; `ended` says that it ended the trial instead. */
    method Next() returns (value: Value, ended: bool)
      modifies this`stream, this`cursor, this`status
      ensures old(status) != Ok ==> value == NaN && !ended && stream == old(stream) && cursor == old(cursor) && status == old(status)
      ensures old(status) == Ok && Unreadable() ==>
        value == NaN && !ended && stream == old(stream) && cursor == old(cursor) && status == Failed
      ensures old(status) == Ok && kind == Distribution ==>
        var d := draw(old(stream));
        value == d.value && !ended && stream == d.next && cursor == old(cursor) + 1 && status == (if d.failed then Failed else Ok)
      ensures old(status) == Ok && kind == Rows && data != [] ==>
        stream == old(stream) && ReadsRow(old(cursor), value, ended, old(cursor), old(cursor) + 1)
    {
      ended := false;
      if status != Ok { return NaN, false; }
      if kind == Distribution {
        cursor := cursor + 1;
        var d := draw(stream);
        stream := d.next;
        if d.failed { status := Failed; }
        return d.value, false;
      }
      if kind != Rows || |data| == 0 {
        status := Failed;
        return NaN, false;
      }
      if cursor < |data| {
        value := data[cursor];
        cursor := cursor + 1;
        return value, false;
      }
      if policy == Wrap {
        value := data[cursor % |data|];
        cursor := cursor + 1;
        return value, false;
      }
      if policy == EndTrial { return NaN, true; }
      status := if policy == Extend then Exhausted else Failed;
      value := NaN;
    }

    // ---- Read as a series ----

    /** What a slot that is read only as a series remembers: every draw so far,
        in order, in a buffer that has grown by doubling. Rows need no history. */
    ghost predicate Remembers(seeded: S)
      reads this, history
    {
      && GrownTo(history.Length) && (kind != Rows ==> cursor <= history.Length) && (kind == Empty && status == Ok ==> cursor == 0)
      && (kind == Distribution && status == Ok ==>
            && stream == StateAfter(draw, seeded, cursor) && AllDraw(draw, seeded, cursor)
            && forall b :: 0 <= b < cursor ==> history[b] == DrawAt(draw, seeded, b))
    }

    /** The bucket of a time, as floor((time - origin) / step). */
    function Bucket(time: real): int {
      if step > 0.0 then ((time - origin) / step).Floor else -1
    }

    /** cpy_series_at for rows. */
    method RowsAt(bucket: nat) returns (value: Value, ended: bool)
      requires kind == Rows && status == Ok
      modifies this`cursor, this`status
      ensures if data == [] then value == NaN && !ended && status == Failed && cursor == old(cursor)
        else ReadsRow(bucket, value, ended, old(cursor), Max(old(cursor), bucket + 1))
    {
      ended := false;
      if |data| == 0 {
        status := Failed;
        return NaN, false;
      }
      if bucket < |data| {
        if bucket + 1 > cursor { cursor := bucket + 1; }
        return data[bucket], false;
      }
      if policy == Wrap {
        if bucket + 1 > cursor { cursor := bucket + 1; }
        return data[bucket % |data|], false;
      }
      if policy == EndTrial { return NaN, true; }
      status := if policy == Extend then Exhausted else Failed;
      value := NaN;
    }

    /** Room for one more draw, or a failed slot. */
    method GrowHistory(ghost seeded: S)
      requires Remembers(seeded) && status == Ok && cursor == history.Length
      modifies this`history, this`status
      ensures if old(history).Length < MAX_HISTORY
        then Remembers(seeded) && status == Ok && fresh(history) && history.Length > cursor
        else status == Failed && history == old(history) && Remembers(seeded)
    {
      var capacity := if history.Length > 0 then history.Length * 2 else FIRST_HISTORY;
      GrowsTo(history.Length);
      if capacity > MAX_HISTORY {
        status := Failed;
        return;
      }
      var expanded := new Value[capacity](_ => NaN);
      var i := 0;
      while i < history.Length
        modifies expanded
        invariant 0 <= i <= history.Length && forall b :: 0 <= b < i ==> expanded[b] == history[b]
      {
        expanded[i] := history[i];
        i := i + 1;
      }
      history := expanded;
    }

    /** One more draw, at the end of the history. */
    method DrawOne(ghost seeded: S)
      requires kind != Rows && status == Ok && Remembers(seeded)
      modifies this, history
      ensures history == old(history) || fresh(history)
      ensures Remembers(seeded)
      ensures if kind == Distribution && old(cursor) < MAX_HISTORY && !FailsAt(draw, seeded, old(cursor))
        then status == Ok && cursor == old(cursor) + 1
        else status == Failed
    {
      GrowsTo(history.Length);
      if cursor == history.Length {
        GrowHistory(seeded);
        if status != Ok { return; }
      }
      var drawn, _ := Next();
      if status != Ok { return; }
      history[cursor - 1] := drawn;
    }

    /** cpy_series_at for a distribution: draw up to the bucket, then recall it.
        Whatever was asked before, the answer is the bucket's own draw. */
    method DrawsAt(bucket: nat, ghost seeded: S) returns (value: Value)
      requires kind != Rows && status == Ok && Remembers(seeded)
      modifies this, history
      ensures Remembers(seeded) && (history == old(history) || fresh(history))
      ensures kind == Empty ==> value == NaN && status == Failed
      ensures kind == Distribution && bucket < MAX_HISTORY && AllDraw(draw, seeded, bucket + 1) ==>
        value == DrawAt(draw, seeded, bucket) && status == Ok && cursor == Max(old(cursor), bucket + 1)
      ensures kind == Distribution && !(bucket < MAX_HISTORY && AllDraw(draw, seeded, bucket + 1)) ==>
        value == NaN && status == Failed
    {
      while cursor <= bucket
        invariant status == Ok && Remembers(seeded) && old(cursor) <= cursor <= Max(old(cursor), bucket + 1)
        invariant history == old(history) || fresh(history)
        invariant kind == Empty ==> cursor == 0
        decreases bucket + 1 - cursor
      {
        ghost var b := cursor;
        DrawOne(seeded);
        if status != Ok { return NaN; }
      }
      GrowsTo(history.Length);
      value := history[bucket];
    }

    /** What reading row or draw b as a series gives. */
    ghost predicate ReadsBucket(b: nat, value: Value, ended: bool, cursor0: nat, seeded: S)
      reads this
    {
      match kind
      case Rows =>
        if data == [] then value == NaN && !ended && status == Failed && cursor == cursor0
        else ReadsRow(b, value, ended, cursor0, Max(cursor0, b + 1))
      case Distribution =>
        if b < MAX_HISTORY && AllDraw(draw, seeded, b + 1)
        then value == DrawAt(draw, seeded, b) && !ended && status == Ok && cursor == Max(cursor0, b + 1)
        else value == NaN && !ended && status == Failed
      case Empty => value == NaN && !ended && status == Failed
    }

    /** cpy_series_at. Every time is in one bucket of length `step` from the
        origin on, or before the origin. The slot can be read again whatever
        the outcome, so the times may come in any order. */
    method At(time: real, ghost seeded: S) returns (value: Value, ended: bool)
      requires Remembers(seeded)
      modifies this, history
      ensures Remembers(seeded) && (history == old(history) || (kind != Rows && fresh(history)))
      ensures old(status) != Ok || step <= 0.0 || time < origin || time >= origin + 9223372036854775808.0 * step ==>
        value == NaN && !ended && status == Failed && cursor == old(cursor) && stream == old(stream)
      ensures old(status) == Ok && step > 0.0 ==>
        forall b: nat :: b < 9223372036854775808 && InBucket(step, origin, b, time) ==> ReadsBucket(b, value, ended, old(cursor), seeded)
    {
      ended := false;
      if status != Ok || step <= 0.0 {
        status := Failed;
        return NaN, false;
      }
      var position := Bucket(time);
      forall b: nat ensures InBucket(step, origin, b, time) <==> b == position { BucketOfTime(step, origin, time, b); }
      BucketOfTime(step, origin, time, 0);
      if position < 0 || position > INT64_MAX {
        status := Failed;
        return NaN, false;
      }
      if kind == Rows {
        value, ended := RowsAt(position);
      } else {
        value := DrawsAt(position, seeded);
      }
    }
  }

  /** 0, or 16 doubled some number of times, and at most the largest buffer. */
  ghost predicate GrownTo(n: nat) {
    n == 0 || exists k :: 4 <= k <= 60 && n == Power(k)
  }

  /** Doubling stays within these sizes until the largest. */
  lemma GrowsTo(n: nat)
    requires GrownTo(n)
    ensures n == 0 ==> GrownTo(FIRST_HISTORY)
    ensures n > 0 ==> (n == MAX_HISTORY || (2 * n <= MAX_HISTORY && GrownTo(2 * n)))
  {
    SmallPowers();
    if n > 0 {
      var k :| 4 <= k <= 60 && n == Power(k);
      if k < 60 {
        assert Power(k + 1) == 2 * n;
        PowerGrows(k + 1, 60);
      }
    }
  }

  lemma SmallPowers()
    ensures Power(4) == FIRST_HISTORY && Power(60) == MAX_HISTORY
  {
    assert Power(1) == 2;
    PowerSum(1, 1);
    PowerSum(2, 2);
    PowerSum(4, 60);
    PowerIsPeriod();
  }

  lemma {:induction false} PowerGrows(i: nat, j: nat)
    requires i <= j
    ensures Power(i) <= Power(j)
  {
    if i < j { PowerGrows(i, j - 1); }
  }
}

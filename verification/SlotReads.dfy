/** A trial that reads its rows through the input slots of `inputs.c`, and why
    the replies that `Extension` gives it are those of the slots. */
module SlotReads {
  import opened InputSlots
  import opened Extension

  /** What a read of a slot of rows gave the trial, from what it returned and
      the status it left. */
  function ReplyOf(value: Value, ended: bool, status: Status): Reply {
    if ended then Answered(Ended)
    else match status
         case Ok => Answered(Got(value))
         case Exhausted => Exhaust
         case Failed => Refuse
  }

  /** One value after the other: the slot replies as `Reading` says. */
  method ReadNext<S>(slot: Slot<S>) returns (reply: Reply)
    requires slot.kind == Rows && slot.status == Ok
    modifies slot`stream, slot`cursor, slot`status
    ensures reply == Reading(slot.policy, slot.data, old(slot.cursor))
    ensures reply.Answered? <==> slot.status == Ok
    ensures slot.cursor == old(slot.cursor) + if reply.Answered? && reply.answer.Got? then 1 else 0
  {
    var value, ended := slot.Next();
    reply := ReplyOf(value, ended, slot.status);
  }

  /** As a series over time, in any order. */
  method ReadAt<S>(slot: Slot<S>, bucket: nat) returns (reply: Reply)
    requires slot.kind == Rows && slot.status == Ok
    modifies slot`cursor, slot`status
    ensures reply == Reading(slot.policy, slot.data, bucket)
    ensures reply.Answered? <==> slot.status == Ok
  {
    var value, ended := slot.RowsAt(bucket);
    reply := ReplyOf(value, ended, slot.status);
  }

  /** The slots of a trial, bound to these rows of these sources. */
  ghost predicate Bound<S>(slots: seq<Slot<S>>, sources: seq<Source>, rows: Rows)
    reads slots
  {
    && |slots| == |sources| == |rows|
    && (forall k :: 0 <= k < |slots| ==>
          slots[k].kind == Rows && slots[k].policy == sources[k].policy && slots[k].data == rows[k] && slots[k].status == Ok)
    && forall k, j :: 0 <= k < j < |slots| ==> slots[k] != slots[j]
  }

  /** A trial that reads through its slots, until it returns or a slot stops
      it, ends as the run on the replies. */
  method RunOnSlots<R, S>(t: Trial<R>, slots: seq<Slot<S>>, ghost sources: seq<Source>, ghost rows: Rows, limit: nat) returns (outcome: Outcome<R>)
    requires Bound(slots, sources, rows)
    modifies slots
    ensures outcome == RunWith(t, RowReplies(sources, rows), [], limit)
  {
    var h := [];
    ghost var replies := RowReplies(sources, rows);
    while true
      invariant Bound(slots, sources, rows) && |h| <= limit
      invariant RunWith(t, replies, h, limit) == RunWith(t, replies, [], limit)
      decreases limit - |h|
    {
      match t(h) {
        case Return(result) => return Success(result);
        case Abort => return Failure;
        case Read(k, row, clone) =>
          if k >= |slots| { return Failure; }
          var reply: Reply;
          if row == slots[k].cursor {
            reply := ReadNext(slots[k]);
          } else {
            reply := ReadAt(slots[k], row);
          }
          match reply {
            case Refuse => return Failure;
            case Exhaust => return Outcome.Exhausted(k, clone);
            case Answered(answer) =>
              if |h| == limit { return Endless; }
              h := h + [answer];
          }
      }
    }
  }
}

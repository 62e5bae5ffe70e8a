/** `resource.c` as a state machine over all resources, processes and pending
    wakeups of one trial. Each step function runs a process from one yield to
    the next. Everything is a value here; `Simulation` does the same in place. */
module ResourceModel {
  import opened HashHeap
  import opened WaitKeys

  // ---- State ----

  /** What a wait returns. Any non-success value ends the call. */
  datatype Signal = Success | Preempted | Cancelled | Other(code: int)

  /** The rank of a call: explicit, or the process priority. */
  datatype Request = Request(fixed: bool, rank: int)

  /** What a holding records besides its rank and grant time. */
  datatype Stake = Stake(amount: int, fixed: bool)

  type Holding = Tag<Stake>
  type Holders = seq<Holding>
  type Queue = seq<Tag<nat>>

  datatype Pool = Pool(capacity: nat, maxCapacity: nat, inUse: int, holders: Holders, queue: Queue)

  /** Where the entries of a waiting call are: in every member's queue, in
      none with one member's grant on its way, or in none because the process
      was thrown out of a holding. */
  datatype Status = Queued | Granted(winner: nat) | Evicted

  /** What the call does when it resumes. `entry` is the holding it began with. */
  datatype Call =
    | Take(requested: nat, remaining: nat, preempt: bool, entry: Option<Holding>)
    | TakeAny

  datatype Frame =
    | Idle
    | Waiting(members: seq<nat>, key: nat, place: Place, rq: Request, status: Status, call: Call)

  /** `tags` is the holdable list, latest first. */
  datatype Proc = Proc(alive: bool, priority: int, tags: seq<nat>, frame: Frame)

  /** Events of the current instant: a grant wakeup, or an interrupt or
      preemption notice. */
  datatype Wakeup = Grant(pid: nat, pool: nat, key: nat) | Notice(pid: nat, sig: Signal)

  datatype World = World(pools: seq<Pool>, procs: seq<Proc>, events: multiset<Wakeup>, now: real, requestSeq: nat)

  datatype Outcome =
    | Suspended            // the call waits
    | Returned(sig: Signal)
    | Index(i: nat)        // acquire_any succeeded at this member
    | Done
    | Abandoned            // the trial fails
    | Discarded            // a wakeup that found nobody waiting for it

  const INT64_MAX: nat := 0x7FFF_FFFF_FFFF_FFFF

  // ---- Reading the state ----

  function Min(a: int, b: int): int { if a < b then a else b }

  function Room(pool: Pool): nat {
    if pool.inUse < pool.capacity then pool.capacity - pool.inUse else 0
  }

  function RequestRank(rq: Request, proc: Proc): int {
    if rq.fixed then rq.rank else proc.priority
  }

  function Hold(w: World, r: nat, p: nat): Option<Holding> {
    if r < |w.pools| then Find(w.pools[r].holders, p) else None
  }

  function AmountOf(h: Option<Holding>): int {
    match h case None => 0 case Some(t) => t.item.amount
  }

  function Held(w: World, r: nat, p: nat): int {
    AmountOf(Hold(w, r, p))
  }

  function Entry(w: World, r: nat, key: nat): Option<Tag<nat>> {
    if r < |w.pools| then Find(w.pools[r].queue, key) else None
  }

  /** The index at which `r` is first listed; |members| if it is not. */
  function FirstListing(members: seq<nat>, r: nat): (i: nat)
    ensures i <= |members|
    ensures i < |members| ==> members[i] == r
    ensures forall j :: 0 <= j < i ==> members[j] != r
  {
    if members == [] || members[0] == r then 0
    else
      var i := FirstListing(members[1..], r);
      assert forall j :: 0 < j <= i && j < |members| ==> members[j] == members[1..][j - 1];
      1 + i
  }

  predicate MembersOk(w: World, members: seq<nat>) {
    forall i :: 0 <= i < |members| ==> members[i] < |w.pools|
  }

  function AddTag(tags: seq<nat>, r: nat): seq<nat> {
    if r in tags then tags else [r] + tags
  }

  function AddTags(tags: seq<nat>, members: seq<nat>): seq<nat>
    decreases |members|
  {
    if members == [] then tags else AddTags(AddTag(tags, members[0]), members[1..])
  }

  function DropTag(tags: seq<nat>, r: nat): seq<nat> {
    if tags == [] then []
    else if tags[0] == r then DropTag(tags[1..], r)
    else [tags[0]] + DropTag(tags[1..], r)
  }

  // ---- Small changes ----

  function SetPool(w: World, r: nat, pool: Pool): (w': World)
    requires r < |w.pools|
    ensures |w'.pools| == |w.pools| && |w'.procs| == |w.procs|
  {
    w.(pools := w.pools[r := pool])
  }

  function SetProc(w: World, p: nat, proc: Proc): (w': World)
    requires p < |w.procs|
    ensures |w'.pools| == |w.pools| && |w'.procs| == |w.procs|
  {
    w.(procs := w.procs[p := proc])
  }

  function SetFrame(w: World, p: nat, frame: Frame): (w': World)
    requires p < |w.procs|
    ensures |w'.pools| == |w.pools| && |w'.procs| == |w.procs|
  {
    SetProc(w, p, w.procs[p].(frame := frame))
  }

  /** Remove the entries with this key from the queues of all members. */
  function Withdraw(w: World, members: seq<nat>, key: nat): (w': World)
    ensures |w'.pools| == |w.pools| && |w'.procs| == |w.procs|
  {
    w.(pools := seq(|w.pools|, i requires 0 <= i < |w.pools| =>
      if i in members then w.pools[i].(queue := Delete(w.pools[i].queue, key)) else w.pools[i]))
  }

  /** set_holding_rank, and nothing if there is no holding. */
  function SetRank(w: World, r: nat, p: nat, rank: int, fixed: bool): (w': World)
    requires r < |w.pools|
    ensures |w'.pools| == |w.pools| && |w'.procs| == |w.procs|
  {
    match Hold(w, r, p)
    case None => w
    case Some(t) =>
      var t' := t.(rank := rank, item := t.item.(fixed := fixed));
      SetPool(w, r, w.pools[r].(holders := Put(w.pools[r].holders, t', VictimFirst)))
  }

  /** Take n units: they are in use, and in the caller's one holding. */
  function TakeUnits(w: World, r: nat, p: nat, n: int, rq: Request): (w': World)
    requires r < |w.pools| && p < |w.procs|
    ensures |w'.pools| == |w.pools| && |w'.procs| == |w.procs|
  {
    var pool := w.pools[r];
    match Hold(w, r, p)
    case Some(t) =>
      var t' := t.(item := t.item.(amount := t.item.amount + n));
      SetPool(w, r, pool.(inUse := pool.inUse + n, holders := Put(pool.holders, t', VictimFirst)))
    case None =>
      var t' := Tag(p, RequestRank(rq, w.procs[p]), w.now, Stake(n, rq.fixed));
      var w1 := SetPool(w, r, pool.(inUse := pool.inUse + n, holders := Put(pool.holders, t', VictimFirst)));
      SetProc(w1, p, w.procs[p].(tags := AddTag(w.procs[p].tags, r)))
  }

  /** Give back n units of a holding; a holding of nothing is removed. */
  function GiveBack(w: World, r: nat, p: nat, n: int): (w': World)
    requires r < |w.pools|
    ensures |w'.pools| == |w.pools| && |w'.procs| == |w.procs|
  {
    var pool := w.pools[r];
    match Hold(w, r, p)
    case None => SetPool(w, r, pool.(inUse := pool.inUse - n))
    case Some(t) =>
      var holders := if t.item.amount == n then Delete(pool.holders, p)
                     else Put(pool.holders, t.(item := t.item.(amount := t.item.amount - n)), VictimFirst);
      SetPool(w, r, pool.(inUse := pool.inUse - n, holders := holders))
  }

  function SettleTag(w: World, p: nat, r: nat): (w': World)
    requires p < |w.procs|
    ensures |w'.pools| == |w.pools| && |w'.procs| == |w.procs|
  {
    if Held(w, r, p) == 0 then SetProc(w, p, w.procs[p].(tags := DropTag(w.procs[p].tags, r))) else w
  }

  function SettleTags(w: World, p: nat, members: seq<nat>): (w': World)
    requires p < |w.procs|
    ensures |w'.pools| == |w.pools| && |w'.procs| == |w.procs|
    decreases |members|
  {
    if members == [] then w else SettleTags(SettleTag(w, p, members[0]), p, members[1..])
  }

  // ---- The engine's guard ----

  /** The process is dequeued everywhere it waits, and a wakeup is scheduled. */
  function GrantTo(w: World, r: nat, q: nat): (w': World)
    ensures |w'.pools| == |w.pools| && |w'.procs| == |w.procs|
  {
    if q < |w.procs| && w.procs[q].frame.Waiting? then
      var f := w.procs[q].frame;
      var w1 := SetFrame(Withdraw(w, f.members, f.key), q, f.(status := Granted(FirstListing(f.members, r))));
      w1.(events := w1.events + multiset{Grant(q, r, f.key)})
    else w  // no queue entry belongs to a process that is not waiting
  }

  /** cmb_resourceguard_signal: look at the front waiter only. */
  function SignalGuard(w: World, r: nat): (w': World)
    requires r < |w.pools|
    ensures |w'.pools| == |w.pools| && |w'.procs| == |w.procs|
  {
    var pool := w.pools[r];
    if pool.queue == [] || Room(pool) == 0 then w else GrantTo(w, r, pool.queue[0].item)
  }

  /** Signal each distinct member from index i on, in listing order. */
  function SignalEach(w: World, members: seq<nat>, i: nat): (w': World)
    requires i <= |members| && MembersOk(w, members)
    ensures |w'.pools| == |w.pools| && |w'.procs| == |w.procs|
    decreases |members| - i
  {
    if i == |members| then w
    else SignalEach(if members[i] in members[..i] then w else SignalGuard(w, members[i]), members, i + 1)
  }

  // ---- Preemption ----

  /** preempt_front, for the holder it finds in front: it loses its holding,
      its tag and any wait, and gets a notice. */
  function Evict(w: World, r: nat, v: nat): (w': World)
    requires r < |w.pools|
    ensures |w'.pools| == |w.pools| && |w'.procs| == |w.procs|
  {
    var pool := w.pools[r];
    var w1 := SetPool(w, r, pool.(inUse := pool.inUse - Held(w, r, v), holders := Delete(pool.holders, v)));
    var w2 := w1.(events := w1.events + multiset{Notice(v, Preempted)});
    if v >= |w.procs| then w2  // no holding belongs to a process that does not exist
    else
      var proc := w.procs[v].(tags := DropTag(w.procs[v].tags, r));
      match proc.frame
      case Idle => SetProc(w2, v, proc)
      case Waiting(members, key, _, _, _, _) =>
        SetProc(Withdraw(w2, members, key), v, proc.(frame := proc.frame.(status := Evicted)))
  }

  function EvictAll(w: World, r: nat, victims: seq<nat>): (w': World)
    requires r < |w.pools|
    ensures |w'.pools| == |w.pools| && |w'.procs| == |w.procs|
    decreases |victims|
  {
    if victims == [] then w else EvictAll(Evict(w, r, victims[0]), r, victims[1..])
  }

  function Keys(h: Holders): seq<nat> {
    seq(|h|, i requires 0 <= i < |h| => h[i].key)
  }

  /** How many holders to throw out from the front to free `need` units,
      stopping before the first that is not strictly below `rank`. */
  function VictimCount(h: Holders, rank: int, need: int): (k: nat)
    ensures k <= |h|
  {
    if need <= 0 || h == [] || h[0].rank >= rank then 0
    else 1 + VictimCount(h[1..], rank, need - h[0].item.amount)
  }

  /** The same with no rank limit, as a lowered capacity needs. */
  function ShedCount(h: Holders, need: int): (k: nat)
    ensures k <= |h|
  {
    if need <= 0 || h == [] then 0 else 1 + ShedCount(h[1..], need - h[0].item.amount)
  }

  // ---- Acquire and preempt ----

  function Suspend(w: World, p: nat, members: seq<nat>, rq: Request, place: Place, call: Call): (w': World)
    requires p < |w.procs|
    ensures |w'.pools| == |w.pools| && |w'.procs| == |w.procs|
  {
    var (place', counter) := NextPlace(place, w.requestSeq, w.now);
    var key := WaitKey(place');
    var proc := w.procs[p];
    var tag := Tag(key, RequestRank(rq, proc), place'.time, p);
    w.(pools := seq(|w.pools|, i requires 0 <= i < |w.pools| =>
         if i in members then w.pools[i].(queue := Put(w.pools[i].queue, tag, WaiterFirst)) else w.pools[i]),
       procs := w.procs[p := proc.(tags := AddTags(proc.tags, members),
                                   frame := Waiting(members, key, place', rq, Queued, call))],
       requestSeq := counter)
  }

  /** What preempting frees and takes for a claim of `rem` units, when no unit
      is free to begin with: the victims first, then the caller's share. */
  function PreemptFor(w: World, p: nat, r: nat, rem: nat, rq: Request): (res: (World, int))
    requires p < |w.procs| && r < |w.pools|
    ensures |res.0.pools| == |w.pools| && |res.0.procs| == |w.procs|
    ensures 0 <= res.1 <= rem
  {
    var pool := w.pools[r];
    var k := VictimCount(pool.holders, RequestRank(rq, w.procs[p]), rem + pool.inUse - pool.capacity);
    var w1 := EvictAll(w, r, Keys(pool.holders[..k]));
    var got := Min(Room(w1.pools[r]), rem);
    (if got > 0 then TakeUnits(w1, r, p, got, rq) else w1, got)
  }

  /** One pass of acquire_inner's loop: take what is free, then preempt, then wait. */
  function Attempt(w: World, p: nat, r: nat, rq: Request, place: Place, call: Call): (res: (World, Outcome))
    requires p < |w.procs| && r < |w.pools| && call.Take?
    ensures |res.0.pools| == |w.pools| && |res.0.procs| == |w.procs|
  {
    var available := Room(w.pools[r]);
    if available >= call.remaining then
      (SignalGuard(TakeUnits(w, r, p, call.remaining, rq), r), Returned(Success))
    else
      var w1 := if available > 0 then TakeUnits(w, r, p, available, rq) else w;
      var rem := call.remaining - available;
      var (w2, got) := if call.preempt then PreemptFor(w1, p, r, rem, rq) else (w1, 0);
      if got == rem then (SignalGuard(w2, r), Returned(Success))
      else (Suspend(w2, p, [r], rq, place, call.(remaining := rem - got)), Suspended)
  }

  function StartAcquire(w: World, p: nat, r: nat, amount: nat, preempt: bool, rq: Request): (res: (World, Outcome))
    requires p < |w.procs| && r < |w.pools|
    ensures |res.0.pools| == |w.pools| && |res.0.procs| == |w.procs|
  {
    if amount == 0 || amount > INT64_MAX then (w, Abandoned)
    else
      var w1 := SetRank(w, r, p, RequestRank(rq, w.procs[p]), rq.fixed);
      Attempt(w1, p, r, rq, Unplaced, Take(amount, amount, preempt, Hold(w, r, p)))
  }

  /** The interrupted call goes back to the holding it began with. Only the
      first branch signals. */
  function Rollback(w: World, p: nat, r: nat, entry: Option<Holding>): (w': World)
    requires p < |w.procs| && r < |w.pools|
    ensures |w'.pools| == |w.pools| && |w'.procs| == |w.procs|
  {
    match entry
    case Some(t) =>
      var w1 := GiveBack(w, r, p, Held(w, r, p) - t.item.amount);
      SettleTag(SignalGuard(SetRank(w1, r, p, t.rank, t.item.fixed), r), p, r)
    case None =>
      SettleTag(GiveBack(w, r, p, Held(w, r, p)), p, r)
  }

  // ---- Acquire any ----

  /** The first member listed that has room; |members| if none has. */
  function FirstWithRoom(w: World, members: seq<nat>): (i: nat)
    requires MembersOk(w, members)
    ensures i <= |members|
    ensures i < |members| ==> Room(w.pools[members[i]]) > 0
    ensures forall j :: 0 <= j < i ==> Room(w.pools[members[j]]) == 0
  {
    if members == [] || Room(w.pools[members[0]]) > 0 then 0
    else
      var i := FirstWithRoom(w, members[1..]);
      assert forall j :: 0 < j <= i && j < |members| ==> members[j] == members[1..][j - 1];
      1 + i
  }

  /** take_one, then settle_tags. */
  function TakeOne(w: World, p: nat, members: seq<nat>, i: nat, rq: Request): (w': World)
    requires p < |w.procs| && i < |members| && members[i] < |w.pools|
    ensures |w'.pools| == |w.pools| && |w'.procs| == |w.procs|
  {
    var r := members[i];
    var w1 := SetRank(w, r, p, RequestRank(rq, w.procs[p]), rq.fixed);
    SettleTags(SignalGuard(TakeUnits(w1, r, p, 1, rq), r), p, members)
  }

  function AttemptAny(w: World, p: nat, members: seq<nat>, rq: Request, place: Place): (res: (World, Outcome))
    requires p < |w.procs| && MembersOk(w, members)
    ensures |res.0.pools| == |w.pools| && |res.0.procs| == |w.procs|
  {
    var i := FirstWithRoom(w, members);
    if i < |members| then (TakeOne(w, p, members, i, rq), Index(i))
    else (Suspend(w, p, members, rq, place, TakeAny), Suspended)
  }

  function StartAcquireAny(w: World, p: nat, members: seq<nat>, rq: Request): (res: (World, Outcome))
    requires p < |w.procs| && MembersOk(w, members)
    ensures |res.0.pools| == |w.pools| && |res.0.procs| == |w.procs|
  {
    if members == [] then (w, Abandoned) else AttemptAny(w, p, members, rq, Unplaced)
  }

  // ---- Resuming a wait ----

  /** The process is off every queue and runs again. */
  function Awaken(w: World, p: nat): (w': World)
    requires p < |w.procs|
    ensures |w'.pools| == |w.pools| && |w'.procs| == |w.procs|
  {
    match w.procs[p].frame
    case Idle => w
    case Waiting(members, key, _, _, _, _) => SetFrame(Withdraw(w, members, key), p, Idle)
  }

  /** The wait returns `sig`. `cancelled` says that the engine has already
      removed the entries, as it does to deliver an interrupt. */
  function Resume(w: World, p: nat, sig: Signal, cancelled: bool): (res: (World, Outcome))
    requires p < |w.procs| && w.procs[p].frame.Waiting?
    requires MembersOk(w, w.procs[p].frame.members)
    requires w.procs[p].frame.call.Take? ==> |w.procs[p].frame.members| == 1
    ensures |res.0.pools| == |w.pools| && |res.0.procs| == |w.procs|
  {
    var f := w.procs[p].frame;
    var w0 := Awaken(w, p);
    match f.call
    case Take(_, _, _, entry) =>
      var r := f.members[0];
      var queued := !cancelled && Entry(w, r, f.key).Some?;
      var w1 := if !queued && sig != Success && sig != Cancelled then SignalGuard(w0, r) else w0;
      if sig == Success then Attempt(w1, p, r, f.rq, f.place, f.call)
      else if sig == Preempted then (SettleTag(w1, p, r), Returned(sig))
      else (Rollback(w1, p, r, entry), Returned(sig))
    case TakeAny =>
      if sig == Success then
        if f.status.Granted? && f.status.winner < |f.members| && Room(w0.pools[f.members[f.status.winner]]) > 0 then
          (TakeOne(w0, p, f.members, f.status.winner, f.rq), Index(f.status.winner))
        else AttemptAny(w0, p, f.members, f.rq, f.place)
      else
        var w1 := if sig == Cancelled then w0 else SignalEach(w0, f.members, 0);
        (SettleTags(w1, p, f.members), Returned(sig))
  }

  // ---- The other verbs ----

  function Release(w: World, p: nat, r: nat, amount: nat): (res: (World, Outcome))
    requires p < |w.procs| && r < |w.pools|
    ensures |res.0.pools| == |w.pools| && |res.0.procs| == |w.procs|
  {
    if amount == 0 || amount > INT64_MAX || amount > Held(w, r, p) then (w, Abandoned)
    else (SignalGuard(SettleTag(GiveBack(w, r, p, amount), p, r), r), Done)
  }

  function SetCapacity(w: World, caller: Option<nat>, r: nat, value: int, preempting: bool): (res: (World, Outcome))
    requires r < |w.pools|
    ensures |res.0.pools| == |w.pools| && |res.0.procs| == |w.procs|
  {
    var pool := w.pools[r];
    if value < 0 then (w, Abandoned)
    else if value == pool.capacity then (w, Done)
    else
      var w1 := SetPool(w, r, pool.(capacity := value, maxCapacity := if value > pool.maxCapacity then value else pool.maxCapacity));
      var w2 := if preempting && pool.inUse > value then ShedOthers(w1, caller, r) else w1;
      (SignalGuard(w2, r), Done)
  }

  /** The holders a preempting set_capacity may throw out, next victim first. */
  function Others(h: Holders, caller: Option<nat>): Holders {
    match caller case None => h case Some(c) => Delete(h, c)
  }

  function ShedOthers(w: World, caller: Option<nat>, r: nat): (w': World)
    requires r < |w.pools|
    ensures |w'.pools| == |w.pools| && |w'.procs| == |w.procs|
  {
    var pool := w.pools[r];
    var others := Others(pool.holders, caller);
    EvictAll(w, r, Keys(others[..ShedCount(others, pool.inUse - pool.capacity)]))
  }

  /** reprio: a tracking holding follows the priority, and an explicitly
      ranked waiting entry goes back to its rank. */
  function Reprioritize(w: World, p: nat, r: nat, priority: int): (w': World)
    requires p < |w.procs|
    ensures |w'.pools| == |w.pools| && |w'.procs| == |w.procs|
  {
    if r >= |w.pools| then w
    else
      var w1 := match Hold(w, r, p)
                case Some(t) => if t.item.fixed then w else SetRank(w, r, p, priority, false)
                case None => w;
      match w1.procs[p].frame
      case Idle => w1
      case Waiting(_, key, _, rq, _, _) =>
        match Entry(w1, r, key)
        case None => w1
        case Some(e) =>
          if rq.fixed && e.rank != rq.rank
          then SetPool(w1, r, w1.pools[r].(queue := Put(w1.pools[r].queue, e.(rank := rq.rank), WaiterFirst)))
          else w1
  }

  function ReprioritizeAll(w: World, p: nat, tags: seq<nat>, priority: int): (w': World)
    requires p < |w.procs|
    ensures |w'.pools| == |w.pools| && |w'.procs| == |w.procs|
    decreases |tags|
  {
    if tags == [] then w else ReprioritizeAll(Reprioritize(w, p, tags[0], priority), p, tags[1..], priority)
  }

  /** The engine re-ranks the process's waiting entries at the new priority. */
  function RerankEntries(w: World, p: nat, priority: int): (w': World)
    requires p < |w.procs|
    ensures |w'.pools| == |w.pools| && |w'.procs| == |w.procs|
  {
    match w.procs[p].frame
    case Idle => w
    case Waiting(members, key, _, _, _, _) =>
      w.(pools := seq(|w.pools|, i requires 0 <= i < |w.pools| =>
        if i in members && Find(w.pools[i].queue, key).Some?
        then w.pools[i].(queue := Put(w.pools[i].queue, Find(w.pools[i].queue, key).value.(rank := priority), WaiterFirst))
        else w.pools[i]))
  }

  function SetPriority(w: World, p: nat, priority: int): (w': World)
    requires p < |w.procs|
    ensures |w'.pools| == |w.pools| && |w'.procs| == |w.procs|
  {
    var w1 := SetProc(w, p, w.procs[p].(priority := priority));
    ReprioritizeAll(RerankEntries(w1, p, priority), p, w.procs[p].tags, priority)
  }

  /** drop_holder, which finds the tag already off the list. */
  function Drop(w: World, p: nat, r: nat): (w': World)
    requires p < |w.procs|
    ensures |w'.pools| == |w.pools| && |w'.procs| == |w.procs|
  {
    var w1 := SetProc(w, p, w.procs[p].(tags := DropTag(w.procs[p].tags, r)));
    if Hold(w1, r, p).Some? then SignalGuard(GiveBack(w1, r, p, Held(w1, r, p)), r) else w1
  }

  function DropAll(w: World, p: nat, tags: seq<nat>): (w': World)
    requires p < |w.procs|
    ensures |w'.pools| == |w.pools| && |w'.procs| == |w.procs|
    decreases |tags|
  {
    if tags == [] then w else DropAll(Drop(w, p, tags[0]), p, tags[1..])
  }

  /** A process exits or is stopped: off every queue, then every holding dropped. */
  function Stop(w: World, p: nat): (w': World)
    requires p < |w.procs|
    ensures |w'.pools| == |w.pools| && |w'.procs| == |w.procs|
  {
    var w1 := DropAll(Awaken(w, p), p, w.procs[p].tags);
    SetProc(w1, p, w1.procs[p].(alive := false))
  }

  // ---- Steps ----

  datatype Step =
    | Acquire(p: nat, r: nat, amount: nat, preempt: bool, rq: Request)
    | AcquireAny(p: nat, members: seq<nat>, rq: Request)
    | ReleaseUnits(p: nat, r: nat, amount: nat)
    | ChangeCapacity(caller: Option<nat>, r: nat, value: int, preempting: bool)
    | ChangePriority(p: nat, priority: int)
    | Interrupt(p: nat, sig: Signal)
    | Deliver(event: Wakeup)
    | Timer(p: nat, sig: Signal)   // also a bare resume
    | StopProcess(p: nat)
    | Tick(time: real)

  predicate CanCall(w: World, p: nat) {
    p < |w.procs| && w.procs[p].alive && w.procs[p].frame.Idle?
  }

  /** A grant is for the process's present wait. The engine checks the key. */
  predicate GrantIsLive(w: World, e: Wakeup)
    requires e.Grant?
  {
    e.pid < |w.procs| && w.procs[e.pid].frame.Waiting? &&
    var f := w.procs[e.pid].frame;
    && f.key == e.key
    && (match f.status
        case Queued => e.pool in f.members
        case Granted(i) => i < |f.members| && f.members[i] == e.pool
        case Evicted => false)
  }

  predicate FrameOk(w: World, p: nat) {
    p < |w.procs| && w.procs[p].frame.Waiting? ==>
      var f := w.procs[p].frame;
      MembersOk(w, f.members) && (f.call.Take? ==> |f.members| == 1)
  }

  /** A waiting acquire or preempt has lost the holding its claim is in: its
      process was thrown out of this very pool. */
  predicate StakeLost(w: World, p: nat) {
    p < |w.procs| && w.procs[p].frame.Waiting? && w.procs[p].frame.call.Take? && |w.procs[p].frame.members| > 0 &&
    var f := w.procs[p].frame;
    Hold(w, f.members[0], p).None? && AmountOf(f.call.entry) + f.call.requested != f.call.remaining
  }

  /** A wait may end with any signal. But one that has lost its holding ends
      with the preemption, or with an interruption if the call began with
      nothing, so that there is no holding to go back to. */
  predicate MayResume(w: World, p: nat, sig: Signal) {
    StakeLost(w, p) ==> sig == Preempted || (sig != Success && w.procs[p].frame.call.entry.None?)
  }

  /** What the environment may do. Two clauses are assumptions on the engine:
      which signals may end the wait of a call that was thrown out of the very
      pool it waits for, and that a thread makes fewer than 2^43 - 1 requests. */
  predicate Enabled(w: World, s: Step) {
    && w.requestSeq < SEQ_MASK
    && match s
       case Acquire(p, r, _, _, _) => CanCall(w, p) && r < |w.pools|
       case AcquireAny(p, members, _) => CanCall(w, p) && MembersOk(w, members)
       case ReleaseUnits(p, r, _) => CanCall(w, p) && r < |w.pools|
       case ChangeCapacity(caller, r, _, _) => (caller.Some? ==> CanCall(w, caller.value)) && r < |w.pools|
       case ChangePriority(p, _) => p < |w.procs|
       case Interrupt(p, _) => p < |w.procs|
       case Deliver(e) =>
         && e in w.events && FrameOk(w, e.pid)
         && (e.Notice? ==> MayResume(w, e.pid, e.sig))
       case Timer(p, sig) =>
         p < |w.procs| && w.procs[p].frame.Waiting? && MayResume(w, p, sig) && FrameOk(w, p)
       case StopProcess(p) => p < |w.procs| && w.procs[p].alive
       case Tick(time) => w.now <= time
  }

  function DeliverEvent(w: World, e: Wakeup): (World, Outcome)
    requires FrameOk(w, e.pid)
  {
    var w1 := w.(events := w.events - multiset{e});
    match e
    case Grant(p, _, _) =>
      if GrantIsLive(w, e) then Resume(w1, p, Success, false) else (w1, Discarded)
    case Notice(p, sig) =>
      if p < |w.procs| && w.procs[p].frame.Waiting? then Resume(w1, p, sig, true) else (w1, Discarded)
  }

  function Exec(w: World, s: Step): (World, Outcome)
    requires Enabled(w, s)
  {
    match s
    case Acquire(p, r, amount, preempt, rq) => StartAcquire(w, p, r, amount, preempt, rq)
    case AcquireAny(p, members, rq) => StartAcquireAny(w, p, members, rq)
    case ReleaseUnits(p, r, amount) => Release(w, p, r, amount)
    case ChangeCapacity(caller, r, value, preempting) => SetCapacity(w, caller, r, value, preempting)
    case ChangePriority(p, priority) => (SetPriority(w, p, priority), Done)
    case Interrupt(p, sig) => (w.(events := w.events + multiset{Notice(p, sig)}), Done)
    case Deliver(e) => DeliverEvent(w, e)
    case Timer(p, sig) => Resume(w, p, sig, false)
    case StopProcess(p) => (Stop(w, p), Done)
    case Tick(time) => (w.(now := time), Done)
  }

  function Next(w: World, s: Step): World
    requires Enabled(w, s)
  {
    Exec(w, s).0
  }

  function NewPool(capacity: nat): Pool { Pool(capacity, capacity, 0, [], []) }

  /** A trial's initial state: every pool free, every process idle. The
      request counter is the thread's and goes on from earlier trials. */
  ghost predicate Initial(w: World) {
    && (forall r :: 0 <= r < |w.pools| ==> w.pools[r] == NewPool(w.pools[r].capacity))
    && (forall p :: 0 <= p < |w.procs| ==> w.procs[p].tags == [] && w.procs[p].frame.Idle?)
    && w.events == multiset{}
  }
}

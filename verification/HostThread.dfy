/**
 The bounded queue that feeds a host thread, its worker, and the gate they share.

 `Host` is one queue and its worker composed with a whole `Gates.Gate`, whose other threads (senders,
 retirers, other workers) act freely. An item is identified by its position in the send order, so
 "delivered in order" is "the delivered positions increase". `fates` records what became of every
 item ever sent; `Queue` is the queue's own code.
 */
module HostThreads {
  import opened Prelude
  import opened Gates

  datatype Overflow = DropOldest | DropNewest

  /** What a push does to an open queue. */
  datatype Effect = Appended | AppendedEvicting | DroppedIncoming

  function PushEffect(length: nat, capacity: Option<nat>, overflow: Overflow): Effect {
    if capacity.None? || length < capacity.value then Appended
    else if overflow.DropOldest? then AppendedEvicting
    else DroppedIncoming
  }

  function Pushed<T>(items: seq<T>, capacity: Option<nat>, overflow: Overflow, item: T): seq<T> {
    match PushEffect(|items|, capacity, overflow)
    case Appended => items + [item]
    case AppendedEvicting => (if items == [] then [] else items[1..]) + [item]
    case DroppedIncoming => items
  }

  /** A `DropOldest` queue of capacity zero still takes one item: it drops from an empty queue and appends. */
  function AtLeastOne(capacity: nat): nat {
    if capacity == 0 then 1 else capacity
  }

  // ----- the queue as code -----

  datatype Pop<T> = Item(item: T) | Closed | WouldBlock

  class Queue<T> {
    var items: seq<T>
    var closed: bool
    var dropped: nat
    const capacity: Option<nat>
    const overflow: Overflow

    ghost predicate Valid()
      reads this
    {
      && (capacity.Some? ==> |items| <= AtLeastOne(capacity.value))
      && (closed ==> items == [])
    }

    constructor (capacity: Option<nat>, overflow: Overflow)
      ensures Valid() && items == [] && !closed && dropped == 0
      ensures this.capacity == capacity && this.overflow == overflow
    {
      this.capacity, this.overflow := capacity, overflow;
      items, closed, dropped := [], false, 0;
    }

    method Push(item: T)
      requires Valid()
      modifies this
      ensures Valid() && closed == old(closed)
      ensures items == if closed then [] else Pushed(old(items), capacity, overflow, item)
      ensures !closed && (capacity.None? || |old(items)| < capacity.value) ==>
                items == old(items) + [item] && dropped == old(dropped)
      ensures !closed && capacity.Some? && |old(items)| >= capacity.value ==>
                && dropped == old(dropped) + 1
                && (overflow.DropNewest? ==> items == old(items))
                && (overflow.DropOldest? ==> items == (if old(items) == [] then [] else old(items)[1..]) + [item])
      ensures closed ==> dropped == old(dropped)
    {
      if closed {
        return;
      }
      if capacity.Some? && |items| >= capacity.value {
        match overflow {
          case DropOldest =>
            items := if items == [] then [] else items[1..];
          case DropNewest =>
            dropped := dropped + 1;
            return;
        }
        dropped := dropped + 1;
      }
      items := items + [item];
    }

    /** One turn of `pop`'s loop; `WouldBlock` is the wait on the condvar. */
    method TryPop() returns (p: Pop<T>)
      requires Valid()
      modifies this`items
      ensures Valid()
      ensures p.Item? <==> old(items) != []
      ensures p.Item? ==> old(items) == [p.item] + items
      ensures !p.Item? ==> items == old(items) && (p.Closed? <==> closed)
    {
      if items != [] {
        p := Item(items[0]);
        items := items[1..];
      } else if closed {
        p := Closed;
      } else {
        p := WouldBlock;
      }
    }

    method Close()
      modifies this
      ensures Valid() && closed && items == [] && dropped == old(dropped)
    {
      closed := true;
      items := [];
    }
  }

  // ----- queue, worker and gate composed -----

  datatype Fate =
    | Refused        // sent after the queue closed
    | Overflowed     // the arrival a full DropNewest queue discards
    | Queued
    | InHand         // popped, not yet past the gate
    | Delivered      // the callback was started with it
    | GateRejected   // popped, and the gate was shut
    | Evicted        // the oldest item of a full DropOldest queue
    | Cleared        // still queued when the queue closed

  predicate Accepted(f: Fate) {
    !f.Refused? && !f.Overflowed?
  }

  /** Where the worker stands in its loop. */
  datatype WorkerPc =
    | Popping
    | Holding(item: nat)
    | Entering(item: nat)
    | Delivering
    | Leaving
    | Stopped

  datatype Host = Host(
    gate: Gate,
    worker: ThreadId,
    capacity: Option<nat>,
    overflow: Overflow,
    queue: seq<nat>,
    closed: bool,
    dropped: nat,
    pc: WorkerPc,
    fates: seq<Fate>,
    delivered: seq<nat>)

  datatype Step =
    | Send
    | CloseQueue
    | PopItem
    | Ask                        // `gate.enter`: the load of the flag
    | Deliver                    // `gate.enter`: the increment; the callback starts
    | Return                     // the callback returned and its guard is dropped
    | Announce                   // the guard's `notify_all`
    | Stop                       // `pop` found the queue closed
    | Elsewhere(action: Action)  // any other thread at the gate, or host code run by the callback

  ghost predicate CanStep(h: Host, s: Step) {
    match s
    case Send => true
    case CloseQueue => true
    case PopItem => h.pc.Popping? && h.queue != []
    case Ask => h.pc.Holding? && Enabled(h.gate, Load(h.worker))
    case Deliver => h.pc.Entering? && Enabled(h.gate, Increment(h.worker))
    case Return => h.pc.Delivering? && Enabled(h.gate, Drop(h.worker)) && At(h.gate.inFlight, h.worker) == 1
    case Announce => h.pc.Leaving? && Enabled(h.gate, Notify(h.worker))
    case Stop => h.pc.Popping? && h.queue == [] && h.closed
    case Elsewhere(a) =>
      && Enabled(h.gate, a)
      && (a.t == h.worker ==> h.pc.Delivering? && (a.Drop? ==> At(h.gate.inFlight, a.t) > 1))
  }

  function ClearQueued(fates: seq<Fate>): (r: seq<Fate>)
    ensures |r| == |fates|
    ensures forall i :: 0 <= i < |r| ==> r[i] == if fates[i].Queued? then Cleared else fates[i]
  {
    seq(|fates|, i requires 0 <= i < |fates| => if fates[i].Queued? then Cleared else fates[i])
  }

  predicate InRange(h: Host) {
    && (h.queue != [] ==> h.queue[0] < |h.fates|)
    && (h.pc.Holding? || h.pc.Entering? ==> h.pc.item < |h.fates|)
  }

  function Sent(h: Host): Host
    requires InRange(h)
  {
    var n := |h.fates|;
    if h.closed then h.(fates := h.fates + [Refused])
    else
      var q := Pushed(h.queue, h.capacity, h.overflow, n);
      match PushEffect(|h.queue|, h.capacity, h.overflow)
      case Appended => h.(queue := q, fates := h.fates + [Queued])
      case DroppedIncoming => h.(fates := h.fates + [Overflowed], dropped := h.dropped + 1)
      case AppendedEvicting =>
        var f := if h.queue == [] then h.fates else h.fates[h.queue[0] := Evicted];
        h.(queue := q, fates := f + [Queued], dropped := h.dropped + 1)
  }

  ghost function Next(h: Host, s: Step): Host
    requires InRange(h) && CanStep(h, s)
  {
    match s
    case Send => Sent(h)
    case CloseQueue => h.(closed := true, queue := [], fates := ClearQueued(h.fates))
    case PopItem => h.(queue := h.queue[1..], pc := Holding(h.queue[0]), fates := h.fates[h.queue[0] := InHand])
    case Ask =>
      var h' := h.(gate := Apply(h.gate, Load(h.worker)));
      if h.gate.open then h'.(pc := Entering(h.pc.item))
      else h'.(pc := Stopped, fates := h.fates[h.pc.item := GateRejected])
    case Deliver =>
      h.(gate := Apply(h.gate, Increment(h.worker)), pc := Delivering,
         delivered := h.delivered + [h.pc.item], fates := h.fates[h.pc.item := Delivered])
    case Return => h.(gate := Apply(h.gate, Drop(h.worker)), pc := Leaving)
    case Announce => h.(gate := Apply(h.gate, Notify(h.worker)), pc := Popping)
    case Stop => h.(pc := Stopped)
    case Elsewhere(a) => h.(gate := Apply(h.gate, a))
  }

  // ----- the invariant -----

  predicate Increasing(s: seq<nat>) {
    forall i, j :: 0 <= i < j < |s| ==> s[i] < s[j]
  }

  predicate Hands(h: Host, i: nat) {
    (h.pc.Holding? || h.pc.Entering?) && h.pc.item == i
  }

  /** The queue, the worker's hands and the delivered log agree with every item's fate. */
  ghost predicate Traced(h: Host) {
    && Increasing(h.queue) && Increasing(h.delivered)
    && InRange(h)
    && (forall i :: i in h.queue ==> i < |h.fates|) && (forall i :: i in h.delivered ==> i < |h.fates|)
    && (forall i :: 0 <= i < |h.fates| ==> (h.fates[i].Queued? <==> i in h.queue))
    && (forall i :: 0 <= i < |h.fates| ==> (h.fates[i].Delivered? <==> i in h.delivered))
    && (forall i :: 0 <= i < |h.fates| ==> (h.fates[i].InHand? <==> Hands(h, i)))
  }

  predicate QueuedSuffix(fates: seq<Fate>) {
    forall i, j :: 0 <= i < j < |fates| && fates[i].Queued? && Accepted(fates[j]) ==> fates[j].Queued?
  }

  /** What is queued is a contiguous suffix of what was accepted, and deliveries lie before it. */
  ghost predicate Ordered(h: Host) {
    && QueuedSuffix(h.fates)
    && (forall i, j :: 0 <= i < |h.fates| && 0 <= j < |h.fates| ==>
          (h.fates[i].InHand? && h.fates[j].Delivered? ==> j < i))
  }

  /** How often `f` is among the fates. */
  ghost function Tally(h: Host, f: Fate): nat {
    multiset(h.fates)[f]
  }

  ghost predicate Counted(h: Host) {
    && Tally(h, Queued) == |h.queue| && Tally(h, Delivered) == |h.delivered|
    && Tally(h, InHand) == (if h.pc.Holding? || h.pc.Entering? then 1 else 0)
    && Tally(h, GateRejected) <= (if h.pc.Stopped? then 1 else 0)
    && h.dropped == Tally(h, Evicted) + Tally(h, Overflowed)
  }

  ghost predicate Bounded(h: Host) {
    && (h.capacity.Some? ==> 0 < h.capacity.value && |h.queue| <= h.capacity.value)
    && (h.closed ==> h.queue == [])
    && (h.overflow.DropNewest? ==> Tally(h, Evicted) == 0)
    && (h.overflow.DropOldest? ==> Tally(h, Overflowed) == 0)
  }

  /** The worker's guard is exactly the one its loop holds; nested ones exist only while delivering. */
  ghost predicate AtGate(h: Host) {
    && Gates.Valid(h.gate)
    && (h.pc.Delivering? <==> At(h.gate.inFlight, h.worker) > 0)
    && (h.pc.Popping? || h.pc.Holding? || h.pc.Stopped? ==> PcOf(h.gate, h.worker).Idle?)
    && (h.pc.Entering? ==> PcOf(h.gate, h.worker).Admitted?)
    && (h.pc.Leaving? ==> PcOf(h.gate, h.worker).Notifying?)
  }

  ghost predicate Valid(h: Host) {
    Traced(h) && Ordered(h) && Counted(h) && Bounded(h) && AtGate(h)
  }

  /** `HostThread::spawn` on a gate already in use. */
  function Spawn(g: Gate, worker: ThreadId, capacity: Option<nat>, overflow: Overflow): Host {
    Host(g, worker, capacity, overflow, [], false, 0, Popping, [], [])
  }

  lemma SpawnValid(g: Gate, worker: ThreadId, capacity: Option<nat>, overflow: Overflow)
    requires Gates.Valid(g) && PcOf(g, worker).Idle? && At(g.inFlight, worker) == 0
    requires capacity.Some? ==> capacity.value > 0
    ensures Valid(Spawn(g, worker, capacity, overflow))
  {
  }

  // ----- what every step keeps -----

  /** The gate's part in a step. */
  function GateAction(h: Host, s: Step): Option<Action> {
    match s
    case Ask => Some(Load(h.worker))
    case Deliver => Some(Increment(h.worker))
    case Return => Some(Drop(h.worker))
    case Announce => Some(Notify(h.worker))
    case Elsewhere(a) => Some(a)
    case _ => None
  }

  lemma StepKeepsAtGate(h: Host, s: Step)
    requires InRange(h) && AtGate(h) && CanStep(h, s)
    ensures AtGate(Next(h, s))
  {
    if a :| GateAction(h, s) == Some(a) {
      StepKeepsValid(h.gate, a);
      if a.t != h.worker {
        OthersStay(h.gate, a, h.worker);
      } else if a.Drop? {
        ReleaseSums(h.gate.inFlight, a.t);
      }
    }
  }

  lemma TailMembers(q: seq<nat>)
    requires Increasing(q) && q != []
    ensures Increasing(q[1..]) && forall i :: i in q[1..] <==> i in q && i != q[0]
  {
    forall i | i in q && i != q[0] ensures i in q[1..] {
      var k :| 0 <= k < |q| && q[k] == i;
      assert q[1..][k - 1] == i;
    }
  }

  lemma SnocIncreasing(q: seq<nat>, n: nat)
    requires Increasing(q) && forall i :: i in q ==> i < n
    ensures Increasing(q + [n]) && forall i :: i in q + [n] <==> i in q || i == n
  {
    assert forall k :: 0 <= k < |q| ==> q[k] in q;
  }

  lemma AppendKeepsTraced(h: Host)
    requires Traced(h)
    ensures Traced(h.(queue := h.queue + [|h.fates|], fates := h.fates + [Queued]))
  {
    var n := |h.fates|;
    SnocIncreasing(h.queue, n);
    assert (h.queue + [n])[0] in h.queue + [n];
  }

  lemma EvictKeepsTraced(h: Host)
    requires Traced(h) && h.queue != []
    ensures Traced(h.(queue := h.queue[1..], fates := h.fates[h.queue[0] := Evicted]))
  {
    TailMembers(h.queue);
    assert |h.queue| > 1 ==> h.queue[1] in h.queue;
    assert h.queue[0] in h.queue;
  }

  lemma SendKeepsTraced(h: Host)
    requires Traced(h)
    ensures Traced(Sent(h))
  {
    if h.closed {
    } else {
      match PushEffect(|h.queue|, h.capacity, h.overflow)
      case Appended =>
        AppendKeepsTraced(h);
      case DroppedIncoming =>
      case AppendedEvicting =>
        if h.queue == [] {
          AppendKeepsTraced(h);
        } else {
          EvictKeepsTraced(h);
          AppendKeepsTraced(h.(queue := h.queue[1..], fates := h.fates[h.queue[0] := Evicted]));
        }
    }
  }

  lemma PopKeepsTraced(h: Host)
    requires Traced(h) && CanStep(h, PopItem)
    ensures Traced(Next(h, PopItem))
  {
    TailMembers(h.queue);
    assert |h.queue| > 1 ==> h.queue[1] in h.queue;
    assert h.queue[0] in h.queue;
  }

  lemma DeliverKeepsTraced(h: Host)
    requires Traced(h) && Ordered(h) && CanStep(h, Deliver)
    ensures Traced(Next(h, Deliver))
  {
    var k := h.pc.item;
    assert Hands(h, k) && h.fates[k].InHand?;
    SnocIncreasing(h.delivered, k);
  }

  lemma AskKeepsTraced(h: Host)
    requires Traced(h) && CanStep(h, Ask)
    ensures Traced(Next(h, Ask))
  {
    assert Hands(h, h.pc.item) && h.fates[h.pc.item].InHand?;
  }

  lemma CloseKeepsTraced(h: Host)
    requires Traced(h)
    ensures Traced(Next(h, CloseQueue))
  {
  }

  lemma StepKeepsTraced(h: Host, s: Step)
    requires Traced(h) && Ordered(h) && CanStep(h, s)
    ensures Traced(Next(h, s))
  {
    match s
    case Send => SendKeepsTraced(h);
    case PopItem => PopKeepsTraced(h);
    case Deliver => DeliverKeepsTraced(h);
    case Ask => AskKeepsTraced(h);
    case CloseQueue => CloseKeepsTraced(h);
    case _ =>
  }

  lemma BeforeHandNothingQueued(h: Host)
    requires Traced(h) && Ordered(h) && (h.pc.Holding? || h.pc.Entering?)
    ensures h.fates[h.pc.item].InHand? && forall i :: 0 <= i < h.pc.item ==> !h.fates[i].Queued?
  {
    assert Hands(h, h.pc.item);
    assert Accepted(h.fates[h.pc.item]);
  }

  lemma OldestQueued(h: Host)
    requires Traced(h) && h.queue != []
    ensures h.fates[h.queue[0]].Queued? && forall i :: 0 <= i < h.queue[0] ==> !h.fates[i].Queued?
  {
    assert h.queue[0] in h.queue;
  }

  lemma SendKeepsOrdered(h: Host)
    requires Traced(h) && Ordered(h)
    ensures Ordered(Sent(h))
  {
    if h.queue != [] {
      OldestQueued(h);
    }
  }

  lemma PopKeepsOrdered(h: Host)
    requires Traced(h) && Ordered(h) && CanStep(h, PopItem)
    ensures Ordered(Next(h, PopItem))
  {
    var k := h.queue[0];
    OldestQueued(h);
    forall j | 0 <= j < |h.fates| && h.fates[j].Delivered? ensures j < k {
      assert Accepted(h.fates[j]);
    }
    assert forall i :: 0 <= i < |h.fates| && i != k ==> !Hands(h, i);
  }

  lemma StepKeepsOrdered(h: Host, s: Step)
    requires Traced(h) && Ordered(h) && CanStep(h, s)
    ensures Ordered(Next(h, s))
  {
    match s
    case PopItem => PopKeepsOrdered(h);
    case Send => SendKeepsOrdered(h);
    case Ask =>
      BeforeHandNothingQueued(h);
    case Deliver =>
      BeforeHandNothingQueued(h);
      assert forall i :: 0 <= i < |h.fates| && h.fates[i].InHand? ==> Hands(h, i);
    case _ =>
  }

  lemma {:induction false} ClearedTally(fates: seq<Fate>, f: Fate)
    ensures multiset(ClearQueued(fates))[f] ==
      if f.Queued? then 0
      else if f.Cleared? then multiset(fates)[f] + multiset(fates)[Queued]
      else multiset(fates)[f]
    decreases |fates|
  {
    if fates != [] {
      var n := |fates| - 1;
      ClearedTally(fates[..n], f);
      assert fates == fates[..n] + [fates[n]];
      assert ClearQueued(fates) == ClearQueued(fates[..n]) + [ClearQueued(fates)[n]];
    }
  }

  ghost function One(b: bool): nat {
    if b then 1 else 0
  }

  /** Settling item `k` as `f` moves one tally down and one up. */
  lemma SettledTally(h: Host, h': Host, k: nat, f: Fate)
    requires k < |h.fates| && h'.fates == h.fates[k := f]
    ensures forall x: Fate :: Tally(h', x) == Tally(h, x) + One(x == f) - One(x == h.fates[k])
  {
  }

  lemma SentTally(h: Host, h': Host, f: Fate)
    requires h'.fates == h.fates + [f]
    ensures forall x: Fate :: Tally(h', x) == Tally(h, x) + One(x == f)
  {
  }

  lemma EvictKeepsCounted(h: Host)
    requires InRange(h) && Counted(h) && Bounded(h) && h.queue != [] && h.fates[h.queue[0]].Queued?
    requires !h.closed && PushEffect(|h.queue|, h.capacity, h.overflow).AppendedEvicting?
    ensures Counted(Sent(h)) && Bounded(Sent(h))
  {
    var mid := h.(fates := h.fates[h.queue[0] := Evicted]);
    SettledTally(h, mid, h.queue[0], Evicted);
    SentTally(mid, Sent(h), Queued);
  }

  lemma SendKeepsCounted(h: Host)
    requires Traced(h) && Counted(h) && Bounded(h)
    ensures Counted(Sent(h)) && Bounded(Sent(h))
  {
    if h.closed {
      SentTally(h, Sent(h), Refused);
    } else {
      match PushEffect(|h.queue|, h.capacity, h.overflow)
      case Appended => SentTally(h, Sent(h), Queued);
      case DroppedIncoming => SentTally(h, Sent(h), Overflowed);
      case AppendedEvicting =>
        OldestQueued(h);
        EvictKeepsCounted(h);
    }
  }

  lemma CloseKeepsCounted(h: Host)
    requires InRange(h) && Counted(h) && Bounded(h)
    ensures Counted(Next(h, CloseQueue)) && Bounded(Next(h, CloseQueue))
  {
    forall f ensures Tally(Next(h, CloseQueue), f) ==
        if f.Queued? then 0 else if f.Cleared? then Tally(h, f) + Tally(h, Queued) else Tally(h, f) {
      ClearedTally(h.fates, f);
    }
  }

  lemma AskKeepsCounted(h: Host)
    requires Traced(h) && Ordered(h) && Counted(h) && Bounded(h) && CanStep(h, Ask)
    ensures Counted(Next(h, Ask)) && Bounded(Next(h, Ask))
  {
    BeforeHandNothingQueued(h);
    if !h.gate.open {
      SettledTally(h, Next(h, Ask), h.pc.item, GateRejected);
    }
  }

  lemma DeliverKeepsCounted(h: Host)
    requires Traced(h) && Ordered(h) && Counted(h) && Bounded(h) && CanStep(h, Deliver)
    ensures Counted(Next(h, Deliver)) && Bounded(Next(h, Deliver))
  {
    BeforeHandNothingQueued(h);
    SettledTally(h, Next(h, Deliver), h.pc.item, Delivered);
  }

  lemma PopKeepsCounted(h: Host)
    requires Traced(h) && Counted(h) && Bounded(h) && CanStep(h, PopItem)
    ensures Counted(Next(h, PopItem)) && Bounded(Next(h, PopItem))
  {
    OldestQueued(h);
    SettledTally(h, Next(h, PopItem), h.queue[0], InHand);
  }

  lemma StepKeepsCounted(h: Host, s: Step)
    requires Traced(h) && Ordered(h) && Counted(h) && Bounded(h) && CanStep(h, s)
    ensures Counted(Next(h, s)) && Bounded(Next(h, s))
  {
    match s
    case Send => SendKeepsCounted(h);
    case CloseQueue => CloseKeepsCounted(h);
    case PopItem => PopKeepsCounted(h);
    case Ask => AskKeepsCounted(h);
    case Deliver => DeliverKeepsCounted(h);
    case _ =>
  }

  lemma HostStepKeepsValid(h: Host, s: Step)
    requires Valid(h) && CanStep(h, s)
    ensures Valid(Next(h, s))
  {
    StepKeepsAtGate(h, s);
    StepKeepsTraced(h, s);
    StepKeepsOrdered(h, s);
    StepKeepsCounted(h, s);
  }

  // ----- whole runs -----

  ghost predicate HostCanRun(h: Host, steps: seq<Step>)
    decreases |steps|
  {
    steps == [] || (InRange(h) && CanStep(h, steps[0]) && HostCanRun(Next(h, steps[0]), steps[1..]))
  }

  ghost function HostAfter(h: Host, steps: seq<Step>): Host
    requires HostCanRun(h, steps)
    decreases |steps|
  {
    if steps == [] then h else HostAfter(Next(h, steps[0]), steps[1..])
  }

  lemma {:induction false} HostRunKeepsValid(h: Host, steps: seq<Step>)
    requires Valid(h) && HostCanRun(h, steps)
    ensures Valid(HostAfter(h, steps))
    ensures HostAfter(h, steps).capacity == h.capacity && HostAfter(h, steps).overflow == h.overflow
    decreases |steps|
  {
    if steps != [] {
      HostStepKeepsValid(h, steps[0]);
      HostRunKeepsValid(Next(h, steps[0]), steps[1..]);
    }
  }

  lemma {:induction false} EveryFateCounted(fates: seq<Fate>)
    ensures |fates| == multiset(fates)[Refused] + multiset(fates)[Overflowed] + multiset(fates)[Queued]
      + multiset(fates)[InHand] + multiset(fates)[Delivered] + multiset(fates)[GateRejected]
      + multiset(fates)[Evicted] + multiset(fates)[Cleared]
    decreases |fates|
  {
    if fates != [] {
      var n := |fates| - 1;
      EveryFateCounted(fates[..n]);
      assert fates == fates[..n] + [fates[n]];
      assert multiset(fates) == multiset(fates[..n]) + multiset{fates[n]};
      match fates[n]
      case Refused => case Overflowed => case Queued => case InHand =>
      case Delivered => case GateRejected => case Evicted => case Cleared =>
    }
  }

  /**
   Nothing is lost or counted twice: of the items the queue accepted, each was delivered, is queued,
   is in the worker's hands, was evicted, was cleared by close, or was the one item (at most) that the
   shut gate rejected. The drop counter is exactly the items the overflow policy discarded.
   */
  lemma ItemsConserved(spawned: Host, steps: seq<Step>)
    requires Valid(spawned) && HostCanRun(spawned, steps)
    ensures var h := HostAfter(spawned, steps);
            && |h.fates| - Tally(h, Refused) - Tally(h, Overflowed) ==
               |h.delivered| + |h.queue| + Tally(h, InHand) + Tally(h, GateRejected)
               + Tally(h, Evicted) + Tally(h, Cleared)
            && Tally(h, InHand) + Tally(h, GateRejected) <= 1
            && h.dropped == Tally(h, Evicted) + Tally(h, Overflowed)
  {
    HostRunKeepsValid(spawned, steps);
    EveryFateCounted(HostAfter(spawned, steps).fates);
  }

  /**
   Delivery follows the send order; the queue is the newest contiguous stretch of what was accepted and
   never outgrows its capacity; DropNewest never evicts an accepted item and DropOldest refuses none.
   */
  lemma DeliveredInSendOrder(spawned: Host, steps: seq<Step>)
    requires Valid(spawned) && HostCanRun(spawned, steps)
    ensures var h := HostAfter(spawned, steps);
            && Increasing(h.delivered + h.queue)
            && (forall i, j :: 0 <= i < j < |h.fates| && i in h.queue && Accepted(h.fates[j]) ==> j in h.queue)
            && (h.capacity.Some? ==> |h.queue| <= h.capacity.value)
            && (h.overflow.DropNewest? ==> Evicted !in h.fates)
            && (h.overflow.DropOldest? ==> Overflowed !in h.fates)
  {
    HostRunKeepsValid(spawned, steps);
    var h := HostAfter(spawned, steps);
    DeliveredBeforeQueued(h);
  }

  lemma DeliveredBeforeQueued(h: Host)
    requires Traced(h) && Ordered(h)
    ensures Increasing(h.delivered + h.queue)
  {
    var both := h.delivered + h.queue;
    forall i, j | 0 <= i < j < |both| ensures both[i] < both[j] {
      if i < |h.delivered| <= j {
        var d, q := both[i], both[j];
        assert d == h.delivered[i] && q == h.queue[j - |h.delivered|];
        assert d in h.delivered && q in h.queue;
        assert h.fates[d].Delivered? && h.fates[q].Queued? && Accepted(h.fates[d]);
      }
    }
  }

  /** A send that finds the queue open and at its capacity. */
  predicate Overflows(h: Host, s: Step) {
    s.Send? && !h.closed && h.capacity == Some(|h.queue|)
  }

  /**
   Only a full queue discards: in every step of every run the drop counter, and with it the items evicted or refused
   for want of room, rises exactly on a send to an open queue that holds `capacity` items; a send to an open queue
   with room appends.
   */
  lemma DropsExactlyWhenFull(spawned: Host, past: seq<Step>, s: Step)
    requires Valid(spawned) && HostCanRun(spawned, past)
    requires InRange(HostAfter(spawned, past)) && CanStep(HostAfter(spawned, past), s)
    ensures var h, h' := HostAfter(spawned, past), Next(HostAfter(spawned, past), s);
            && h'.dropped == h.dropped + One(Overflows(h, s))
            && Tally(h', Evicted) + Tally(h', Overflowed) ==
               Tally(h, Evicted) + Tally(h, Overflowed) + One(Overflows(h, s))
            && (s.Send? && !h.closed && !Overflows(h, s) ==> h'.queue == h.queue + [|h.fates|])
            && (Overflows(h, s) ==>
                  h'.queue == if h.overflow.DropNewest? then h.queue else h.queue[1..] + [|h.fates|])
  {
    var h := HostAfter(spawned, past);
    HostRunKeepsValid(spawned, past);
    HostStepKeepsValid(h, s);
    DropsWhenFull(h, s);
  }

  lemma DropsWhenFull(h: Host, s: Step)
    requires InRange(h) && Bounded(h) && CanStep(h, s)
    ensures var h' := Next(h, s);
            && h'.dropped == h.dropped + One(Overflows(h, s))
            && (s.Send? && !h.closed && !Overflows(h, s) ==> h'.queue == h.queue + [|h.fates|])
            && (Overflows(h, s) ==>
                  h'.queue == if h.overflow.DropNewest? then h.queue else h.queue[1..] + [|h.fates|])
  {
    match s
    case Send =>
    case _ =>
  }

  /** What the gate sees of a run of the host. */
  ghost function AtGateOf(h: Host, steps: seq<Step>): seq<Action>
    requires HostCanRun(h, steps)
    decreases |steps|
  {
    if steps == [] then []
    else
      (match GateAction(h, steps[0]) case None => [] case Some(a) => [a]) + AtGateOf(Next(h, steps[0]), steps[1..])
  }

  lemma {:induction false} GateSeesARun(h: Host, steps: seq<Step>)
    requires HostCanRun(h, steps)
    ensures CanRun(h.gate, AtGateOf(h, steps)) && After(h.gate, AtGateOf(h, steps)) == HostAfter(h, steps).gate
    decreases |steps|
  {
    if steps != [] {
      var rest := AtGateOf(Next(h, steps[0]), steps[1..]);
      GateSeesARun(Next(h, steps[0]), steps[1..]);
      match GateAction(h, steps[0])
      case None => assert AtGateOf(h, steps) == rest;
      case Some(a) => assert AtGateOf(h, steps)[1..] == rest;
    }
  }

  /** A delivery is an entry at the gate. */
  lemma {:induction false} DeliveryEnters(h: Host, steps: seq<Step>)
    requires HostCanRun(h, steps)
    requires forall a :: a in AtGateOf(h, steps) ==> !Enters(a)
    ensures forall i :: 0 <= i < |steps| ==> !steps[i].Deliver?
    decreases |steps|
  {
    if steps != [] {
      if steps[0].Deliver? {
        assert Increment(h.worker) in AtGateOf(h, steps);
      }
      DeliveryEnters(Next(h, steps[0]), steps[1..]);
    }
  }

  /** No delivery starts once some `retire` has answered Complete, whatever is still queued or sent. */
  lemma NoDeliveryAfterComplete(h: Host, future: seq<Step>)
    requires Valid(h) && Completed(h.gate) && HostCanRun(h, future)
    ensures forall i :: 0 <= i < |future| ==> !future[i].Deliver?
    ensures HostAfter(h, future).delivered == h.delivered
  {
    GateSeesARun(h, future);
    QuietRun(h.gate, AtGateOf(h, future));
    DeliveryEnters(h, future);
    DeliveredUnchanged(h, future);
  }

  lemma {:induction false} DeliveredUnchanged(h: Host, steps: seq<Step>)
    requires HostCanRun(h, steps) && forall i :: 0 <= i < |steps| ==> !steps[i].Deliver?
    ensures HostAfter(h, steps).delivered == h.delivered
    decreases |steps|
  {
    if steps != [] {
      DeliveredUnchanged(Next(h, steps[0]), steps[1..]);
    }
  }

  ghost function Deliveries(steps: seq<Step>): nat {
    if steps == [] then 0 else One(steps[0].Deliver?) + Deliveries(steps[1..])
  }

  /**
   Closing the queue leaves at most the item already popped to deliver, and a stopped worker delivers
   nothing: joining the thread is the end of its callbacks.
   */
  lemma {:induction false} CloseLeavesAtMostOne(h: Host, future: seq<Step>)
    requires h.closed && h.queue == [] && HostCanRun(h, future)
    ensures Deliveries(future) <= One(h.pc.Holding? || h.pc.Entering?)
    decreases |future|
  {
    if future != [] {
      CloseLeavesAtMostOne(Next(h, future[0]), future[1..]);
    }
  }

  /** A worker between items of a closed queue can only leave its loop, and one the gate turns away leaves it too. */
  lemma WorkerLeaves(h: Host)
    requires Valid(h)
    ensures h.closed && h.pc.Popping? ==>
              CanStep(h, Stop) && Next(h, Stop).pc.Stopped? && !CanStep(h, PopItem)
    ensures CanStep(h, Ask) ==>
              (Next(h, Ask).pc.Stopped? <==> !h.gate.open) && (h.gate.open ==> Next(h, Ask).pc == Entering(h.pc.item))
  {
  }

  lemma {:induction false} StoppedDeliversNothing(h: Host, future: seq<Step>)
    requires h.pc.Stopped? && HostCanRun(h, future)
    ensures Deliveries(future) == 0 && HostAfter(h, future).pc.Stopped?
    decreases |future|
  {
    if future != [] {
      StoppedDeliversNothing(Next(h, future[0]), future[1..]);
    }
  }
}

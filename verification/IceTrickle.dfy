/**
 Trickling ICE candidates: the buffer, the two flushers that drain it, and the coalescing wake.

 One step per acquisition of the state lock. Candidates and the end of gathering come from the event
 intake, which notifies the flush loop after it has let go of the lock; `finish_transport` flushes on its
 own once the connection id is known. `pushed` and `drained` are what happened since the last reset.
 */
module IceTrickle {
  import opened Prelude

  type Candidate = nat

  /** What one flush took out of the state, with the connection it is for. */
  datatype Batch = Batch(candidates: seq<Candidate>, isFinal: bool, connection: nat)

  // ----- the locked sections -----

  /** The fields of the client's state that trickling reads and writes. */
  datatype Buffer = Buffer(
    connection: Option<nat>, ready: bool, candidates: seq<Candidate>, complete: bool, finalSent: bool)

  /** The locked part of `flush_ice`. */
  function Drain(b: Buffer): (Buffer, Option<Batch>) {
    if b.connection.None? || !b.ready then (b, None)
    else
      var isFinal := b.complete && !b.finalSent;
      if b.candidates == [] && !isFinal then (b, None)
      else (b.(candidates := [], finalSent := b.finalSent || isFinal),
            Some(Batch(b.candidates, isFinal, b.connection.value)))
  }

  function Reset(b: Buffer): Buffer {
    b.(ready := false, candidates := [], complete := false, finalSent := false)
  }

  predicate Undrained(b: Buffer) {
    b.candidates != [] || (b.complete && !b.finalSent)
  }

  // ----- the protocol -----

  datatype LoopPc = Asleep | Reading | Draining | Posting

  datatype Ice = Ice(
    buffer: Buffer,
    session: bool,
    wake: bool,                // the channel's one pending signal
    notifying: nat,            // intakes past the lock, about to notify
    connecting: nat,           // `finish_transport` calls about to flush
    loop: LoopPc,
    pushed: seq<Candidate>,
    drained: seq<Batch>,
    late: bool)                // the engine emitted a candidate after it reported gathering complete

  datatype Step =
    | Push(candidate: Candidate)
    | GatheringComplete
    | NotifyLoop
    | LoopWakes
    | LoopReads                // the loop reads the session id
    | LoopDrains
    | LoopPosted
    | TransportReady(connection: nat)
    | TransportDrains
    | Reassign(connection: nat)
    | SetSession
    | Restart                  // the reset at the start of a reconnect
    | Clear(recoverable: bool) // the reset at the end of a teardown

  const NEW_ICE := Ice(Buffer(None, false, [], false, false), false, false, 0, 0, Asleep, [], [], false)

  predicate CanStep(i: Ice, s: Step) {
    match s
    case NotifyLoop => i.notifying > 0
    case LoopWakes => i.loop.Asleep? && i.wake
    case LoopReads => i.loop.Reading?
    case LoopDrains => i.loop.Draining?
    case LoopPosted => i.loop.Posting?
    case TransportDrains => i.connecting > 0
    case _ => true
  }

  function Flushed(i: Ice): Ice {
    var (b, batch) := Drain(i.buffer);
    i.(buffer := b, drained := if batch.Some? then i.drained + [batch.value] else i.drained)
  }

  function Began(i: Ice): Ice {
    i.(buffer := Reset(i.buffer), pushed := [], drained := [], late := false)
  }

  function Next(i: Ice, s: Step): Ice
    requires CanStep(i, s)
  {
    var told := i.notifying + if i.buffer.ready then 1 else 0;
    match s
    case Push(c) =>
      i.(buffer := i.buffer.(candidates := i.buffer.candidates + [c]), notifying := told,
         pushed := i.pushed + [c], late := i.late || i.buffer.complete)
    case GatheringComplete => i.(buffer := i.buffer.(complete := true), notifying := told)
    case NotifyLoop => i.(notifying := i.notifying - 1, wake := true)
    case LoopWakes => i.(wake := false, loop := Reading)
    case LoopReads => i.(loop := if i.session then Draining else Asleep)
    case LoopDrains => Flushed(i).(loop := Posting)
    case LoopPosted => i.(loop := Asleep)
    case TransportReady(id) =>
      i.(buffer := i.buffer.(connection := Some(id), ready := true), connecting := i.connecting + 1)
    case TransportDrains => Flushed(i).(connecting := i.connecting - 1)
    case Reassign(id) => i.(buffer := i.buffer.(connection := Some(id)))
    case SetSession => i.(session := true)
    case Restart => Began(i)
    case Clear(recoverable) =>
      if recoverable then Began(i)
      else Began(i).(session := false, buffer := Reset(i.buffer).(connection := None))
  }

  predicate CanRun(i: Ice, steps: seq<Step>)
    decreases |steps|
  {
    steps == [] || (CanStep(i, steps[0]) && CanRun(Next(i, steps[0]), steps[1..]))
  }

  function After(i: Ice, steps: seq<Step>): Ice
    requires CanRun(i, steps)
    decreases |steps|
  {
    if steps == [] then i else After(Next(i, steps[0]), steps[1..])
  }

  // ----- nothing lost, nothing twice -----

  /** The candidates of the drained batches, in drain order. */
  function Flat(batches: seq<Batch>): seq<Candidate> {
    if batches == [] then [] else batches[0].candidates + Flat(batches[1..])
  }

  lemma {:induction false} FlatSnoc(batches: seq<Batch>, b: Batch)
    ensures Flat(batches + [b]) == Flat(batches) + b.candidates
  {
    if batches != [] {
      FlatSnoc(batches[1..], b);
      assert (batches + [b])[1..] == batches[1..] + [b];
    }
  }

  predicate Finals(i: Ice) {
    && (forall k, l :: 0 <= k < l < |i.drained| ==> !(i.drained[k].isFinal && i.drained[l].isFinal))
    && ((exists k :: 0 <= k < |i.drained| && i.drained[k].isFinal) <==> i.buffer.finalSent)
    && (i.buffer.finalSent ==> i.buffer.complete)
    && (i.buffer.finalSent && !i.late ==>
          i.buffer.candidates == [] && i.drained != [] && i.drained[|i.drained| - 1].isFinal)
  }

  predicate Valid(i: Ice) {
    && Flat(i.drained) + i.buffer.candidates == i.pushed
    && (i.buffer.ready ==> i.buffer.connection.Some?)
    && Finals(i)
  }

  lemma FlushKeepsValid(i: Ice)
    requires Valid(i)
    ensures Valid(Flushed(i)) && (i.buffer.ready ==> !Undrained(Flushed(i).buffer))
  {
    var (b, batch) := Drain(i.buffer);
    if batch.Some? {
      FlatSnoc(i.drained, batch.value);
      var d := i.drained + [batch.value];
      assert forall k :: 0 <= k < |i.drained| ==> d[k] == i.drained[k];
      assert d[|i.drained|] == batch.value;
    }
  }

  lemma StepKeepsValid(i: Ice, s: Step)
    requires Valid(i) && CanStep(i, s)
    ensures Valid(Next(i, s))
  {
    match s
    case Push(c) =>
      assert Flat(i.drained) + (i.buffer.candidates + [c]) == Flat(i.drained) + i.buffer.candidates + [c];
    case LoopDrains => FlushKeepsValid(i);
    case TransportDrains => FlushKeepsValid(i);
    case _ =>
  }

  lemma {:induction false} RunKeepsValid(i: Ice, steps: seq<Step>)
    requires Valid(i) && CanRun(i, steps)
    ensures Valid(After(i, steps))
    decreases |steps|
  {
    if steps != [] {
      StepKeepsValid(i, steps[0]);
      RunKeepsValid(Next(i, steps[0]), steps[1..]);
    }
  }

  /**
   Between resets the drained batches, in drain order, followed by the buffer are exactly the candidates
   pushed: the two flushers lose, repeat and reorder nothing. The final mark is taken at most once and only
   after gathering completed, and unless the engine emits a candidate after that it is on the last batch.
   */
  lemma TrickleIsExact(steps: seq<Step>)
    requires CanRun(NEW_ICE, steps)
    ensures var i := After(NEW_ICE, steps);
            && Flat(i.drained) + i.buffer.candidates == i.pushed
            && (forall k, l :: 0 <= k < l < |i.drained| ==> !(i.drained[k].isFinal && i.drained[l].isFinal))
            && (forall k :: 0 <= k < |i.drained| && i.drained[k].isFinal ==>
                  i.buffer.complete && (!i.late ==> k == |i.drained| - 1 && i.buffer.candidates == []))
            && (i.buffer.ready ==> i.buffer.connection.Some?)
  {
    RunKeepsValid(NEW_ICE, steps);
  }

  /**
   What one flush takes: nothing unless the connection is ready and there is work; else every buffered candidate, for
   the connection id held at that moment, marked final exactly when gathering has completed and it was not sent.
   */
  lemma FlushTakes(i: Ice, s: Step)
    requires Valid(i) && CanStep(i, s) && (s.LoopDrains? || s.TransportDrains?)
    ensures var i' := Next(i, s);
            if i.buffer.ready && Undrained(i.buffer) then
              && |i'.drained| == |i.drained| + 1 && i'.drained[..|i.drained|] == i.drained
              && Some(i'.drained[|i.drained|].connection) == i.buffer.connection
              && i'.drained[|i.drained|].candidates == i.buffer.candidates && i'.buffer.candidates == []
              && (i'.drained[|i.drained|].isFinal <==> i.buffer.complete && !i.buffer.finalSent)
            else i'.drained == i.drained && i'.buffer == i.buffer
  {
  }

  /** Whether the engine has said that gathering completed since the last reset; `was` is at the start. */
  function SaidComplete(was: bool, steps: seq<Step>): bool
    decreases |steps|
  {
    if steps == [] then was
    else SaidComplete(steps[0].GatheringComplete? || (was && !steps[0].Restart? && !steps[0].Clear?), steps[1..])
  }

  /** Gathering counts as complete exactly when the engine has said so since the last reset. */
  lemma {:induction false} CompleteExactlyWhen(i: Ice, steps: seq<Step>)
    requires CanRun(i, steps)
    ensures After(i, steps).buffer.complete <==> SaidComplete(i.buffer.complete, steps)
    decreases |steps|
  {
    if steps != [] {
      CompleteExactlyWhen(Next(i, steps[0]), steps[1..]);
    }
  }

  /** The connection id last set or reassigned since it was last given up; `was` is at the start. */
  function LastConnection(was: Option<nat>, steps: seq<Step>): Option<nat>
    decreases |steps|
  {
    if steps == [] then was
    else
      match steps[0]
      case TransportReady(id) => LastConnection(Some(id), steps[1..])
      case Reassign(id) => LastConnection(Some(id), steps[1..])
      case Clear(recoverable) => LastConnection(if recoverable then was else None, steps[1..])
      case _ => LastConnection(was, steps[1..])
  }

  /** In every run the batches go to the connection last set or reassigned, which a recoverable clear keeps. */
  lemma {:induction false} ConnectionIsLast(i: Ice, steps: seq<Step>)
    requires CanRun(i, steps)
    ensures After(i, steps).buffer.connection == LastConnection(i.buffer.connection, steps)
    decreases |steps|
  {
    if steps != [] {
      ConnectionIsLast(Next(i, steps[0]), steps[1..]);
    }
  }

  // ----- no wake-up is lost -----

  /** Somebody is on the way to drain the buffer. */
  predicate OnTheWay(i: Ice) {
    i.wake || i.notifying > 0 || i.connecting > 0 || i.loop.Reading? || i.loop.Draining?
  }

  predicate NoLostWake(i: Ice) {
    i.session && i.buffer.ready && Undrained(i.buffer) ==> OnTheWay(i)
  }

  /** No session is taken up while a connection that finished late still has the state marked ready. */
  predicate Clean(i: Ice, s: Step) {
    s.SetSession? ==> i.session || !i.buffer.ready
  }

  predicate CleanRun(i: Ice, steps: seq<Step>)
    requires CanRun(i, steps)
    decreases |steps|
  {
    steps == [] || (Clean(i, steps[0]) && CleanRun(Next(i, steps[0]), steps[1..]))
  }

  lemma StepKeepsWake(i: Ice, s: Step)
    requires Valid(i) && NoLostWake(i) && CanStep(i, s) && Clean(i, s)
    ensures NoLostWake(Next(i, s))
  {
    FlushKeepsValid(i);
  }

  /** While a session is held and the connection is ready, undrained work always has somebody on the way. */
  lemma {:induction false} WakesAreNotLost(i: Ice, steps: seq<Step>)
    requires Valid(i) && NoLostWake(i) && CanRun(i, steps) && CleanRun(i, steps)
    ensures NoLostWake(After(i, steps))
    decreases |steps|
  {
    if steps != [] {
      StepKeepsWake(i, steps[0]);
      StepKeepsValid(i, steps[0]);
      WakesAreNotLost(Next(i, steps[0]), steps[1..]);
    }
  }

  function LostWake(c: Candidate): seq<Step> {
    [Push(c), NotifyLoop, LoopWakes, LoopReads, SetSession]
  }

  lemma IdleLosesWake(i: Ice, c: Candidate)
    requires i.buffer.ready && !i.session && !OnTheWay(i) && i.loop.Asleep?
    ensures CanRun(i, LostWake(c)) && !NoLostWake(After(i, LostWake(c)))
  {
    var i1 := Next(i, Push(c));
    var i2 := Next(i1, NotifyLoop);
    var i3 := Next(i2, LoopWakes);
    var i4 := Next(i3, LoopReads);
    var i5 := Next(i4, SetSession);
    var s := LostWake(c);
    assert CanRun(i4, s[4..]) && After(i4, s[4..]) == i5 by { assert s[4..][1..] == []; }
    assert CanRun(i3, s[3..]) && After(i3, s[3..]) == i5 by { assert s[3..][1..] == s[4..]; }
    assert CanRun(i2, s[2..]) && After(i2, s[2..]) == i5 by { assert s[2..][1..] == s[3..]; }
    assert CanRun(i1, s[1..]) && After(i1, s[1..]) == i5 by { assert s[1..][1..] == s[2..]; }
  }

  /** No transport becomes ready along the run. */
  predicate NoTransport(steps: seq<Step>) {
    forall k :: 0 <= k < |steps| ==> !steps[k].TransportReady?
  }

  /** Who is still on the way, as a number that each of their steps lowers. */
  function Busy(i: Ice): nat {
    i.connecting + 4 * i.notifying + (if i.wake then 3 else 0)
    + match i.loop case Asleep => 0 case Reading => 1 case Draining => 2 case Posting => 1
  }

  /** The next step of somebody on the way. */
  function Onward(i: Ice): Step
    requires Busy(i) > 0
  {
    if i.connecting > 0 then TransportDrains
    else if i.loop.Reading? then LoopReads
    else if i.loop.Draining? then LoopDrains
    else if i.loop.Posting? then LoopPosted
    else if i.notifying > 0 then NotifyLoop
    else LoopWakes
  }

  /**
   The condition is needed: from every state that is ready with no session there is a run, of whoever is on the way
   and then one candidate, in which the candidate's wake is spent on the missing session; taking up a session then
   leaves the candidate with nobody on the way.
   */
  lemma {:induction false} ReadyWithoutSessionLosesWake(i: Ice, c: Candidate) returns (steps: seq<Step>)
    requires i.buffer.ready && !i.session
    ensures CanRun(i, steps) && NoTransport(steps) && !NoLostWake(After(i, steps))
    decreases Busy(i)
  {
    if Busy(i) == 0 {
      IdleLosesWake(i, c);
      steps := LostWake(c);
    } else {
      var rest := ReadyWithoutSessionLosesWake(Next(i, Onward(i)), c);
      steps := [Onward(i)] + rest;
      assert steps[1..] == rest;
    }
  }

  /** Some run in which no transport becomes ready strands work with nobody on the way. */
  ghost predicate CanStrand(i: Ice) {
    exists steps :: CanRun(i, steps) && NoTransport(steps) && !NoLostWake(After(i, steps))
  }

  /** Where no session is missing for a ready connection, none goes missing until a transport becomes ready. */
  lemma {:induction false} StaysClean(i: Ice, steps: seq<Step>)
    requires (i.buffer.ready ==> i.session) && CanRun(i, steps) && NoTransport(steps)
    ensures CleanRun(i, steps)
    decreases |steps|
  {
    if steps != [] {
      StaysClean(Next(i, steps[0]), steps[1..]);
    }
  }

  /** Until another transport becomes ready, a wake can be lost exactly when the connection is ready with no session. */
  lemma StrandsExactlyWhen(i: Ice)
    requires Valid(i) && NoLostWake(i)
    ensures CanStrand(i) <==> i.buffer.ready && !i.session
  {
    if i.buffer.ready && !i.session {
      var _ := ReadyWithoutSessionLosesWake(i, 0);
    } else {
      forall steps | CanRun(i, steps) && NoTransport(steps) ensures NoLostWake(After(i, steps)) {
        StaysClean(i, steps);
        WakesAreNotLost(i, steps);
      }
    }
  }

  // ----- the locked sections as code -----

  class IceState {
    var connection: Option<nat>
    var ready: bool
    var candidates: seq<Candidate>
    var complete: bool
    var finalSent: bool

    function View(): Buffer
      reads this
    {
      Buffer(connection, ready, candidates, complete, finalSent)
    }

    constructor ()
      ensures View() == NEW_ICE.buffer
    {
      connection, ready, candidates, complete, finalSent := None, false, [], false, false;
    }

    /** Returns whether the flush loop is to be notified. */
    method OnCandidate(c: Candidate) returns (notify: bool)
      modifies this`candidates
      ensures View() == old(View()).(candidates := old(candidates) + [c]) && notify == ready
    {
      candidates := candidates + [c];
      notify := ready;
    }

    method OnGatheringComplete() returns (notify: bool)
      modifies this`complete
      ensures View() == old(View()).(complete := true) && notify == ready
    {
      complete := true;
      notify := ready;
    }

    method FlushIce() returns (batch: Option<Batch>)
      modifies this`candidates, this`finalSent
      ensures (View(), batch) == Drain(old(View()))
    {
      if connection.None? || !ready {
        return None;
      }
      var taken := candidates;
      candidates := [];
      var isFinal := complete && !finalSent;
      if taken == [] && !isFinal {
        return None;
      }
      if isFinal {
        finalSent := true;
      }
      return Some(Batch(taken, isFinal, connection.value));
    }

    method MarkReady(id: nat)
      modifies this`connection, this`ready
      ensures View() == old(View()).(connection := Some(id), ready := true)
    {
      connection, ready := Some(id), true;
    }

    method ResetTrickle()
      modifies this`ready, this`candidates, this`complete, this`finalSent
      ensures View() == Reset(old(View()))
    {
      candidates, complete, finalSent, ready := [], false, false, false;
    }
  }
}

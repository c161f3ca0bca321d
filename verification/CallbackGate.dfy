/**
 The gate in front of every host callback: who may enter, and what `retire` may conclude.

 `Gate` is the whole protocol as a state machine over atomic steps, for any number of threads,
 nested callbacks and concurrent retirers. A critical section of the gate's mutex is one step,
 except `enter`, which is two: the close flag is an atomic that `retire` stores without holding
 the mutex, so the store can fall between the load and the increment. `CallbackGate` is the
 imperative form of the same sections.
 */
module Gates {
  import opened Prelude

  type ThreadId = nat

  datatype Quiescence = Complete | Incomplete

  // ----- the per-thread counts -----

  function Admit(inFlight: map<ThreadId, nat>, t: ThreadId): map<ThreadId, nat> {
    inFlight[t := At(inFlight, t) + 1]
  }

  /** Dropping a guard: one callback fewer, and no entry left at zero. */
  function Release(inFlight: map<ThreadId, nat>, t: ThreadId): map<ThreadId, nat> {
    if At(inFlight, t) == 0 then inFlight
    else if inFlight[t] == 1 then inFlight - {t}
    else inFlight[t := inFlight[t] - 1]
  }

  lemma AdmitSums(inFlight: map<ThreadId, nat>, t: ThreadId)
    ensures Sum(Admit(inFlight, t)) == Sum(inFlight) + 1
  {
    SumUpdate(inFlight, t, At(inFlight, t) + 1);
  }

  lemma ReleaseSums(inFlight: map<ThreadId, nat>, t: ThreadId)
    requires At(inFlight, t) > 0
    ensures Sum(Release(inFlight, t)) == Sum(inFlight) - 1
    ensures forall u: ThreadId :: At(Release(inFlight, t), u) == if u == t then At(inFlight, t) - 1 else At(inFlight, u)
  {
    if inFlight[t] == 1 {
      SumRemove(inFlight, t);
    } else {
      SumUpdate(inFlight, t, inFlight[t] - 1);
    }
  }

  // ----- the protocol -----

  /** Where a thread stands between two atomic steps. */
  datatype Pc =
    | Idle                                // running host or library code, possibly inside callbacks
    | Admitted                            // `enter` read the flag as open and still holds the mutex
    | Notifying                           // dropped a guard, `notify_all` still to come
    | Stored                              // `retire` stored the close flag, mutex not taken yet
    | Waiting(own: nat)                   // in the condvar wait, mutex released
    | Woken(own: nat, timedOut: bool)     // left the wait, mutex not retaken yet

  datatype Verdict = Verdict(thread: ThreadId, quiescence: Quiescence)

  /** The gate, every thread's position in it, and every answer `retire` has given. */
  datatype Gate = Gate(
    open: bool,
    inFlight: map<ThreadId, nat>,
    mutex: Option<ThreadId>,
    pcs: map<ThreadId, Pc>,
    verdicts: seq<Verdict>)

  datatype Action =
    | Load(t: ThreadId)
    | Increment(t: ThreadId)
    | Drop(t: ThreadId)
    | Notify(t: ThreadId)
    | Store(t: ThreadId)
    | Inspect(t: ThreadId)
    | Wake(t: ThreadId)       // spurious
    | TimeOut(t: ThreadId)
    | Recheck(t: ThreadId)

  const NEW_GATE := Gate(true, map[], None, map[], [])

  function PcOf(g: Gate, t: ThreadId): Pc {
    if t in g.pcs then g.pcs[t] else Idle
  }

  predicate Enabled(g: Gate, a: Action) {
    match a
    case Load(t) => PcOf(g, t).Idle? && g.mutex.None?
    case Increment(t) => PcOf(g, t).Admitted?
    case Drop(t) => PcOf(g, t).Idle? && g.mutex.None? && At(g.inFlight, t) > 0
    case Notify(t) => PcOf(g, t).Notifying?
    case Store(t) => PcOf(g, t).Idle?
    case Inspect(t) => PcOf(g, t).Stored? && g.mutex.None?
    case Wake(t) => PcOf(g, t).Waiting?
    case TimeOut(t) => PcOf(g, t).Waiting?
    case Recheck(t) => PcOf(g, t).Woken? && g.mutex.None?
  }

  function MoveTo(g: Gate, t: ThreadId, pc: Pc): Gate {
    g.(pcs := g.pcs[t := pc])
  }

  function NotifyAll(pcs: map<ThreadId, Pc>): map<ThreadId, Pc> {
    map u | u in pcs :: if pcs[u].Waiting? then Woken(pcs[u].own, false) else pcs[u]
  }

  /** The head of `retire`'s loop, with the mutex held: wait, or answer. */
  ghost function LoopHead(g: Gate, t: ThreadId, own: nat): Gate {
    if Sum(g.inFlight) > own then MoveTo(g, t, Waiting(own))
    else Answer(g, t, if own > 0 then Incomplete else Complete)
  }

  function Answer(g: Gate, t: ThreadId, q: Quiescence): Gate {
    MoveTo(g, t, Idle).(verdicts := g.verdicts + [Verdict(t, q)])
  }

  ghost function Apply(g: Gate, a: Action): Gate
    requires Enabled(g, a)
  {
    match a
    case Load(t) => if g.open then MoveTo(g, t, Admitted).(mutex := Some(t)) else g
    case Increment(t) => MoveTo(g, t, Idle).(mutex := None, inFlight := Admit(g.inFlight, t))
    case Drop(t) => MoveTo(g, t, Notifying).(inFlight := Release(g.inFlight, t))
    case Notify(t) => g.(pcs := NotifyAll(g.pcs)[t := Idle])
    case Store(t) => MoveTo(g, t, Stored).(open := false)
    case Inspect(t) => LoopHead(g, t, At(g.inFlight, t))
    case Wake(t) => MoveTo(g, t, Woken(PcOf(g, t).own, false))
    case TimeOut(t) => MoveTo(g, t, Woken(PcOf(g, t).own, true))
    case Recheck(t) =>
      if PcOf(g, t).timedOut then Answer(g, t, Incomplete) else LoopHead(g, t, PcOf(g, t).own)
  }

  /** `actions` is a possible continuation from `g`. */
  ghost predicate CanRun(g: Gate, actions: seq<Action>)
    decreases |actions|
  {
    actions == [] || (Enabled(g, actions[0]) && CanRun(Apply(g, actions[0]), actions[1..]))
  }

  ghost function After(g: Gate, actions: seq<Action>): Gate
    requires CanRun(g, actions)
    decreases |actions|
  {
    if actions == [] then g else After(Apply(g, actions[0]), actions[1..])
  }

  // ----- what every step keeps -----

  predicate Retiring(pc: Pc) {
    pc.Stored? || pc.Waiting? || pc.Woken?
  }

  ghost predicate Completed(g: Gate) {
    exists v :: v in g.verdicts && v.quiescence.Complete?
  }

  ghost predicate SomeoneNotifying(g: Gate) {
    exists u: ThreadId :: PcOf(g, u).Notifying?
  }

  /** The mutex is held between steps only by a thread half-way through `enter`. */
  ghost predicate MutexHeld(g: Gate) {
    forall t: ThreadId :: PcOf(g, t).Admitted? <==> g.mutex == Some(t)
  }

  ghost predicate NoZeroEntry(g: Gate) {
    forall t: ThreadId :: t in g.inFlight ==> g.inFlight[t] > 0
  }

  /** A retirer's snapshot of its own callbacks stays exact through the whole wait. */
  ghost predicate OwnExact(g: Gate) {
    forall t: ThreadId :: PcOf(g, t).Waiting? || PcOf(g, t).Woken? ==> PcOf(g, t).own == At(g.inFlight, t)
  }

  ghost predicate ClosedByRetire(g: Gate) {
    (exists t: ThreadId :: Retiring(PcOf(g, t))) || g.verdicts != [] ==> !g.open
  }

  ghost predicate QuietOnceComplete(g: Gate) {
    Completed(g) ==> Sum(g.inFlight) == 0 && g.mutex.None?
  }

  /** Nobody sleeps on a condition that already holds, unless a wake-up is on its way. */
  ghost predicate NoLostWakeUp(g: Gate) {
    forall t: ThreadId :: PcOf(g, t).Waiting? ==> Sum(g.inFlight) > PcOf(g, t).own || SomeoneNotifying(g)
  }

  ghost predicate Valid(g: Gate) {
    && MutexHeld(g) && NoZeroEntry(g) && OwnExact(g)
    && ClosedByRetire(g) && QuietOnceComplete(g) && NoLostWakeUp(g)
  }

  /** A step moves no other thread, except that a notification wakes the waiting ones. */
  lemma OthersStay(g: Gate, a: Action, u: ThreadId)
    requires Enabled(g, a) && u != a.t
    ensures PcOf(Apply(g, a), u) ==
      if a.Notify? && PcOf(g, u).Waiting? then Woken(PcOf(g, u).own, false) else PcOf(g, u)
    ensures At(Apply(g, a).inFlight, u) == At(g.inFlight, u)
  {
  }

  lemma StepKeepsOwn(g: Gate, a: Action)
    requires OwnExact(g) && MutexHeld(g) && NoZeroEntry(g) && Enabled(g, a)
    ensures OwnExact(Apply(g, a)) && MutexHeld(Apply(g, a)) && NoZeroEntry(Apply(g, a))
  {
    forall u: ThreadId | u != a.t ensures
        && PcOf(Apply(g, a), u) ==
           (if a.Notify? && PcOf(g, u).Waiting? then Woken(PcOf(g, u).own, false) else PcOf(g, u))
        && At(Apply(g, a).inFlight, u) == At(g.inFlight, u) {
      OthersStay(g, a, u);
    }
  }

  lemma StepKeepsClosed(g: Gate, a: Action)
    requires ClosedByRetire(g) && Enabled(g, a)
    ensures ClosedByRetire(Apply(g, a))
  {
    if u: ThreadId :| Retiring(PcOf(Apply(g, a), u)) {
      if u != a.t {
        OthersStay(g, a, u);
      }
    }
  }

  lemma StepKeepsWakeUps(g: Gate, a: Action)
    requires Valid(g) && Enabled(g, a)
    ensures NoLostWakeUp(Apply(g, a))
  {
    var g' := Apply(g, a);
    forall t: ThreadId | PcOf(g', t).Waiting?
      ensures Sum(g'.inFlight) > PcOf(g', t).own || SomeoneNotifying(g')
    {
      if t != a.t {
        OthersStay(g, a, t);
        if a.Drop? {
          assert PcOf(g', a.t).Notifying?;
        } else if a.Increment? {
          AdmitSums(g.inFlight, a.t);
        }
        if u: ThreadId :| PcOf(g, u).Notifying? {
          if u != a.t {
            OthersStay(g, a, u);
          }
        }
      }
    }
  }

  lemma StepKeepsValid(g: Gate, a: Action)
    requires Valid(g) && Enabled(g, a)
    ensures Valid(Apply(g, a))
  {
    StepKeepsOwn(g, a);
    StepKeepsClosed(g, a);
    StepKeepsWakeUps(g, a);
  }

  // ----- whole runs -----

  lemma {:induction false} RunKeepsValid(g: Gate, actions: seq<Action>)
    requires Valid(g) && CanRun(g, actions)
    ensures Valid(After(g, actions))
    decreases |actions|
  {
    if actions != [] {
      StepKeepsValid(g, actions[0]);
      RunKeepsValid(Apply(g, actions[0]), actions[1..]);
    }
  }

  /** An action that lets a callback in. */
  predicate Enters(a: Action) {
    a.Increment?
  }

  lemma {:induction false} QuietRun(g: Gate, future: seq<Action>)
    requires Valid(g) && Completed(g) && CanRun(g, future)
    ensures Completed(After(g, future)) && Sum(After(g, future).inFlight) == 0
    ensures forall i :: 0 <= i < |future| ==> !Enters(future[i])
    decreases |future|
  {
    if future != [] {
      var a := future[0];
      assert PcOf(g, a.t).Admitted? <==> g.mutex == Some(a.t);
      var v :| v in g.verdicts && v.quiescence.Complete?;
      assert v in Apply(g, a).verdicts;
      StepKeepsValid(g, a);
      QuietRun(Apply(g, a), future[1..]);
    }
  }

  /**
   The guarantee `reactor_destroy` sells: in every interleaving, once some `retire` has answered
   Complete no callback is in flight, then or ever after, and no `enter` succeeds again.
   */
  lemma CompleteMeansQuiescent(past: seq<Action>, future: seq<Action>)
    requires CanRun(NEW_GATE, past) && Completed(After(NEW_GATE, past))
    requires CanRun(After(NEW_GATE, past), future)
    ensures Sum(After(NEW_GATE, past).inFlight) == 0
    ensures Sum(After(After(NEW_GATE, past), future).inFlight) == 0
    ensures forall i :: 0 <= i < |future| ==> !Enters(future[i])
  {
    RunKeepsValid(NEW_GATE, past);
    QuietRun(After(NEW_GATE, past), future);
  }

  /** The verdicts a step adds. */
  ghost predicate Answers(g: Gate, a: Action, q: Quiescence)
    requires Enabled(g, a)
  {
    Apply(g, a).verdicts == g.verdicts + [Verdict(a.t, q)]
  }

  /**
   Exactly when `retire` answers, and what: Complete if and only if the step saw nothing in flight
   and the wait had not timed out; Incomplete if and only if the wait timed out or every callback
   still running is the caller's own. The subtraction in the timeout report cannot underflow.
   */
  lemma AnswersExactly(g: Gate, a: Action)
    requires Valid(g) && Enabled(g, a) && (a.Inspect? || a.Recheck?)
    ensures var timedOut := a.Recheck? && PcOf(g, a.t).timedOut;
            && (Answers(g, a, Complete) <==> !timedOut && Sum(g.inFlight) == 0)
            && (Answers(g, a, Incomplete) <==> timedOut || Sum(g.inFlight) == At(g.inFlight, a.t) > 0)
    ensures At(g.inFlight, a.t) <= Sum(g.inFlight)
    ensures a.Recheck? ==> PcOf(g, a.t).own == At(g.inFlight, a.t)
  {
    SumAtLeast(g.inFlight, a.t);
    var v := g.verdicts;
    assert v + [Verdict(a.t, Complete)] != v;
    assert v + [Verdict(a.t, Incomplete)] != v;
    assert (v + [Verdict(a.t, Complete)])[|v|] != (v + [Verdict(a.t, Incomplete)])[|v|];
  }

  /** Retiring from inside a callback never answers Complete, however the wait goes. */
  lemma ReentrantNeverComplete(past: seq<Action>, a: Action)
    requires CanRun(NEW_GATE, past) && Enabled(After(NEW_GATE, past), a)
    requires At(After(NEW_GATE, past).inFlight, a.t) > 0
    ensures !Answers(After(NEW_GATE, past), a, Complete)
  {
    var g := After(NEW_GATE, past);
    RunKeepsValid(NEW_GATE, past);
    assert g.verdicts + [Verdict(a.t, Complete)] != g.verdicts;
    if a.Inspect? || a.Recheck? {
      AnswersExactly(g, a);
    }
  }

  /** `enter` gets past its load exactly when the gate is open, and its increment then counts the callback. */
  lemma EntersExactlyWhenOpen(g: Gate, t: ThreadId)
    requires Valid(g) && Enabled(g, Load(t))
    ensures var loaded := Apply(g, Load(t));
            && (Enabled(loaded, Increment(t)) <==> g.open)
            && (g.open ==>
                  var entered := Apply(loaded, Increment(t));
                  && At(entered.inFlight, t) == At(g.inFlight, t) + 1
                  && Sum(entered.inFlight) == Sum(g.inFlight) + 1 && entered.mutex.None?)
  {
    if g.open {
      AdmitSums(g.inFlight, t);
    }
  }

  /** The last guard's notification leaves nobody asleep. */
  lemma NotifyWakesEverybody(g: Gate, t: ThreadId, u: ThreadId)
    requires Enabled(g, Notify(t))
    ensures !PcOf(Apply(g, Notify(t)), u).Waiting?
    ensures PcOf(g, u).Waiting? ==> PcOf(Apply(g, Notify(t)), u) == Woken(PcOf(g, u).own, false)
  {
  }

  // ----- how much can still happen after the flag is stored -----

  ghost function Count(which: Action -> bool, actions: seq<Action>): nat {
    if actions == [] then 0 else (if which(actions[0]) then 1 else 0) + Count(which, actions[1..])
  }

  function HalfEntered(g: Gate): nat {
    if g.mutex.Some? then 1 else 0
  }

  /**
   The flag can be stored between another thread's load and its increment, so one `enter` may
   still succeed after it: the one holding the mutex, and no other.
   */
  lemma {:induction false} AtMostOneEntersAfterStore(g: Gate, future: seq<Action>)
    requires Valid(g) && !g.open && CanRun(g, future)
    ensures Count(Enters, future) + HalfEntered(After(g, future)) <= HalfEntered(g)
    ensures !After(g, future).open
    decreases |future|
  {
    if future != [] {
      var a := future[0];
      assert PcOf(g, a.t).Admitted? <==> g.mutex == Some(a.t);
      StepKeepsValid(g, a);
      AtMostOneEntersAfterStore(Apply(g, a), future[1..]);
    }
  }

  ghost function Notifiers(g: Gate): set<ThreadId> {
    set u | u in g.pcs && g.pcs[u].Notifying?
  }

  /**
   What can still wake the retirer `t` once the gate is closed: guards outstanding (or half-way in),
   notifications not yet fired, and a wake-up already received.
   */
  ghost function WakeBudget(g: Gate, t: ThreadId): nat {
    4 * (Sum(g.inFlight) + HalfEntered(g)) + 2 * |Notifiers(g)| + (if PcOf(g, t).Woken? then 1 else 0)
  }

  predicate Spurious(a: Action) {
    a.Wake? || a.TimeOut?
  }

  lemma NotifiersStep(g: Gate, a: Action)
    requires Enabled(g, a)
    ensures |Notifiers(Apply(g, a))| ==
      |Notifiers(g)| + (if a.Drop? then 1 else if a.Notify? then -1 else 0)
  {
    var before, after := Notifiers(g), Notifiers(Apply(g, a));
    forall u: ThreadId | u != a.t ensures u in after <==> u in before {
      OthersStay(g, a, u);
    }
    SizeMoves(before, after, a.t);
  }

  lemma SizeMoves(before: set<ThreadId>, after: set<ThreadId>, t: ThreadId)
    requires forall u :: u != t ==> (u in after <==> u in before)
    ensures |after| == |before| + (if t in after then 1 else 0) - (if t in before then 1 else 0)
  {
    assert after - {t} == before - {t};
    assert before == if t in before then (before - {t}) + {t} else before - {t};
    assert after == if t in after then (after - {t}) + {t} else after - {t};
  }

  /** A closed gate lets the callbacks in flight, counting the one half-way in, only go down. */
  lemma ClosedGateDrains(g: Gate, a: Action)
    requires MutexHeld(g) && !g.open && Enabled(g, a)
    ensures Sum(Apply(g, a).inFlight) + HalfEntered(Apply(g, a)) ==
      Sum(g.inFlight) + HalfEntered(g) - (if a.Drop? then 1 else 0)
  {
    assert PcOf(g, a.t).Admitted? <==> g.mutex == Some(a.t);
    match a
    case Drop(u) => ReleaseSums(g.inFlight, u);
    case Increment(u) => AdmitSums(g.inFlight, u);
    case _ =>
  }

  lemma StepSpendsBudget(g: Gate, a: Action, t: ThreadId)
    requires MutexHeld(g) && !g.open && Enabled(g, a) && !(Spurious(a) && a.t == t)
    ensures WakeBudget(Apply(g, a), t) + (if a == Recheck(t) then 1 else 0) <= WakeBudget(g, t)
  {
    NotifiersStep(g, a);
    ClosedGateDrains(g, a);
    if t != a.t {
      OthersStay(g, a, t);
    }
  }

  /**
   `retire`'s loop ends: once the gate is closed, and leaving spurious wakes and the timeout (which
   ends it at once) aside, the loop of `t` turns at most `WakeBudget` more times in any run.
   */
  lemma {:induction false} RetireLoopBounded(g: Gate, future: seq<Action>, t: ThreadId)
    requires Valid(g) && !g.open && CanRun(g, future)
    requires forall i :: 0 <= i < |future| ==> !(Spurious(future[i]) && future[i].t == t)
    ensures Count(a => a == Recheck(t), future) + WakeBudget(After(g, future), t) <= WakeBudget(g, t)
    decreases |future|
  {
    if future != [] {
      StepSpendsBudget(g, future[0], t);
      StepKeepsValid(g, future[0]);
      RetireLoopBounded(Apply(g, future[0]), future[1..], t);
    }
  }

  /** A retirer still asleep with every guard dropped and every notification fired is a contradiction. */
  lemma NobodySleepsForNothing(past: seq<Action>, t: ThreadId)
    requires CanRun(NEW_GATE, past)
    requires PcOf(After(NEW_GATE, past), t).Waiting? && Notifiers(After(NEW_GATE, past)) == {}
    ensures exists u: ThreadId :: u != t && At(After(NEW_GATE, past).inFlight, u) > 0
  {
    var g := After(NEW_GATE, past);
    RunKeepsValid(NEW_GATE, past);
    forall u: ThreadId ensures !PcOf(g, u).Notifying? {
      assert u !in Notifiers(g);
    }
    if forall u: ThreadId :: u != t ==> At(g.inFlight, u) == 0 {
      OnlyOneInFlight(g.inFlight, t);
      assert false;
    }
  }

  lemma OnlyOneInFlight(inFlight: map<ThreadId, nat>, t: ThreadId)
    requires forall u: ThreadId :: u in inFlight ==> inFlight[u] > 0
    requires forall u: ThreadId :: u != t ==> At(inFlight, u) == 0
    ensures Sum(inFlight) == At(inFlight, t)
  {
    forall u: ThreadId | u in inFlight ensures u == t {
      assert At(inFlight, u) > 0;
    }
    if t in inFlight {
      SumRemove(inFlight, t);
      assert inFlight - {t} == map[];
    } else {
      assert inFlight == map[];
    }
  }

  // ----- several gates in one process -----

  type GateId = nat

  /** An action on one gate by a thread that is in the middle of nothing on any other gate. */
  datatype Tagged = Tagged(gate: GateId, action: Action)

  ghost predicate WorldEnabled(w: map<GateId, Gate>, s: Tagged) {
    && s.gate in w && Enabled(w[s.gate], s.action)
    && forall h :: h in w && h != s.gate ==> PcOf(w[h], s.action.t).Idle?
  }

  ghost function WorldApply(w: map<GateId, Gate>, s: Tagged): map<GateId, Gate>
    requires WorldEnabled(w, s)
  {
    w[s.gate := Apply(w[s.gate], s.action)]
  }

  ghost predicate WorldCanRun(w: map<GateId, Gate>, steps: seq<Tagged>) {
    steps == [] || (WorldEnabled(w, steps[0]) && WorldCanRun(WorldApply(w, steps[0]), steps[1..]))
  }

  ghost function WorldAfter(w: map<GateId, Gate>, steps: seq<Tagged>): map<GateId, Gate>
    requires WorldCanRun(w, steps)
  {
    if steps == [] then w else WorldAfter(WorldApply(w, steps[0]), steps[1..])
  }

  /** What gate `h` sees of a run: its own actions, in order. */
  function SeenBy(h: GateId, steps: seq<Tagged>): seq<Action> {
    if steps == [] then []
    else (if steps[0].gate == h then [steps[0].action] else []) + SeenBy(h, steps[1..])
  }

  /**
   Callbacks of one gate never affect another gate's wait: every gate's share of a run is itself a
   run of that gate alone, ending in the same state, so everything proved above holds per gate.
   */
  lemma {:induction false} GatesAreIndependent(w: map<GateId, Gate>, steps: seq<Tagged>, h: GateId)
    requires h in w && WorldCanRun(w, steps)
    ensures CanRun(w[h], SeenBy(h, steps))
    ensures h in WorldAfter(w, steps) && WorldAfter(w, steps)[h] == After(w[h], SeenBy(h, steps))
    decreases |steps|
  {
    if steps != [] {
      GatesAreIndependent(WorldApply(w, steps[0]), steps[1..], h);
      var rest := SeenBy(h, steps[1..]);
      assert ([steps[0].action] + rest)[1..] == rest && [] + rest == rest;
    }
  }

  // ----- the critical sections as code -----

  /** What another thread does to the counts while `retire` waits. */
  datatype Other = OtherEnters(t: ThreadId) | OtherLeaves(t: ThreadId)

  /** One return from the condvar wait, and what happened during it. */
  datatype Wait = Wait(others: seq<Other>, timedOut: bool)

  /** The counts once an `enter` that was past the flag has landed. */
  function Landed(inFlight: map<ThreadId, nat>, halfEntered: Option<ThreadId>): map<ThreadId, nat> {
    if halfEntered.Some? then Admit(inFlight, halfEntered.value) else inFlight
  }

  /** What other threads make of the counts of a closed gate: nobody enters, guards are dropped. */
  function AfterOthers(inFlight: map<ThreadId, nat>, others: seq<Other>): map<ThreadId, nat> {
    if others == [] then inFlight
    else
      var before := AfterOthers(inFlight, others[..|others| - 1]);
      match others[|others| - 1]
      case OtherEnters(_) => before
      case OtherLeaves(u) => Release(before, u)
  }

  function AfterWaits(inFlight: map<ThreadId, nat>, waits: seq<Wait>): map<ThreadId, nat> {
    if waits == [] then inFlight
    else AfterOthers(AfterWaits(inFlight, waits[..|waits| - 1]), waits[|waits| - 1].others)
  }

  /** Ahead of each of these waits more callbacks were in flight than the caller's own. */
  ghost predicate BusyThrough(inFlight: map<ThreadId, nat>, waits: seq<Wait>, own: nat) {
    waits == [] ||
    (var init := waits[..|waits| - 1]; BusyThrough(inFlight, init, own) && Sum(AfterWaits(inFlight, init)) > own)
  }

  /** Only the last wait gone through may have timed out, and what the counts after it make of the answer. */
  predicate Verdicts(waits: seq<Wait>, waited: nat, total: nat, own: nat, q: Option<Quiescence>)
    requires waited <= |waits|
  {
    && (forall i :: 0 <= i < waited - 1 ==> !waits[i].timedOut)
    && if waited > 0 && waits[waited - 1].timedOut then q == Some(Incomplete)
       else if total > own then q == None && waited == |waits|
       else q == Some(if own > 0 then Incomplete else Complete)
  }

  lemma OneMoreWait(inFlight: map<ThreadId, nat>, waits: seq<Wait>, i: nat, own: nat)
    requires i < |waits|
    ensures AfterWaits(inFlight, waits[..i + 1]) == AfterOthers(AfterWaits(inFlight, waits[..i]), waits[i].others)
    ensures BusyThrough(inFlight, waits[..i + 1], own) <==>
            BusyThrough(inFlight, waits[..i], own) && Sum(AfterWaits(inFlight, waits[..i])) > own
  {
    assert waits[..i + 1][..i] == waits[..i];
  }

  class CallbackGate {
    var open: bool
    var inFlight: map<ThreadId, nat>

    ghost predicate Valid()
      reads this
    {
      forall t: ThreadId :: t in inFlight ==> inFlight[t] > 0
    }

    constructor ()
      ensures Valid() && open && inFlight == map[]
    {
      open, inFlight := true, map[];
    }

    method Enter(t: ThreadId) returns (admitted: bool)
      requires Valid()
      modifies this`inFlight
      ensures Valid() && admitted == open
      ensures inFlight == if admitted then Admit(old(inFlight), t) else old(inFlight)
    {
      if !open {
        return false;
      }
      inFlight := inFlight[t := At(inFlight, t) + 1];
      return true;
    }

    /** `GateGuard::drop`, up to the notification. */
    method LeaveGuard(t: ThreadId)
      requires Valid()
      modifies this`inFlight
      ensures Valid() && inFlight == Release(old(inFlight), t)
    {
      if t in inFlight {
        inFlight := inFlight[t := inFlight[t] - 1];
        if inFlight[t] == 0 {
          inFlight := inFlight - {t};
        }
      }
      assert inFlight == Release(old(inFlight), t);
    }

    method Total() returns (n: nat)
      ensures n == Sum(inFlight)
    {
      n := 0;
      var rest := inFlight;
      while rest != map[]
        invariant n + Sum(rest) == Sum(inFlight)
        decreases |rest|
      {
        var t :| t in rest;
        SumRemove(rest, t);
        n := n + rest[t];
        rest := rest - {t};
      }
    }

    method Interfere(others: seq<Other>, ghost t: ThreadId)
      requires Valid() && !open && forall o :: o in others ==> o.t != t
      modifies this`inFlight
      ensures Valid() && inFlight == AfterOthers(old(inFlight), others)
      ensures At(inFlight, t) == At(old(inFlight), t)
    {
      for i := 0 to |others|
        invariant Valid() && inFlight == AfterOthers(old(inFlight), others[..i])
        invariant At(inFlight, t) == At(old(inFlight), t)
      {
        assert others[..i + 1][..i] == others[..i];
        match others[i]
        case OtherEnters(u) => var _ := Enter(u);
        case OtherLeaves(u) => LeaveGuard(u);
      }
      assert others[..|others|] == others;
    }

    /**
     `retire` on thread `t`. An `enter` that read the flag before it was stored holds the mutex, and so
     lands (`halfEntered`) before `retire` gets it. The waits are what the condvar and the other threads
     do; running out of them is `None`, a call still waiting. It waits exactly as long as somebody else's
     callback is in flight and no wait has timed out, and the counts end as the waits leave them.
     */
    method RetireWithTimeout(t: ThreadId, halfEntered: Option<ThreadId>, waits: seq<Wait>)
      returns (q: Option<Quiescence>, ghost waited: nat)
      requires Valid() && halfEntered != Some(t)
      requires forall w, o :: w in waits && o in w.others ==> o.t != t
      modifies this
      ensures Valid() && !open && At(inFlight, t) == At(old(inFlight), t)
      ensures waited <= |waits| && inFlight == AfterWaits(Landed(old(inFlight), halfEntered), waits[..waited])
      ensures BusyThrough(Landed(old(inFlight), halfEntered), waits[..waited], At(old(inFlight), t))
      ensures Verdicts(waits, waited, Sum(inFlight), At(inFlight, t), q)
    {
      open := false;
      if halfEntered.Some? {
        inFlight := Admit(inFlight, halfEntered.value);
      }
      q, waited := AwaitOthers(t, waits);
    }

    /** The wait loop, from the moment the mutex is first taken. */
    method AwaitOthers(t: ThreadId, waits: seq<Wait>) returns (q: Option<Quiescence>, ghost waited: nat)
      requires Valid() && !open
      requires forall w, o :: w in waits && o in w.others ==> o.t != t
      modifies this`inFlight
      ensures Valid() && At(inFlight, t) == At(old(inFlight), t)
      ensures waited <= |waits| && inFlight == AfterWaits(old(inFlight), waits[..waited])
      ensures BusyThrough(old(inFlight), waits[..waited], At(old(inFlight), t))
      ensures Verdicts(waits, waited, Sum(inFlight), At(inFlight, t), q)
    {
      var own := At(inFlight, t);
      SumAtLeast(inFlight, t);
      var total := Total();
      var i := 0;
      while total > own
        invariant Valid() && !open && own == At(inFlight, t) == At(old(inFlight), t)
        invariant total == Sum(inFlight) >= own
        invariant 0 <= i <= |waits| && inFlight == AfterWaits(old(inFlight), waits[..i])
        invariant forall j :: 0 <= j < i ==> !waits[j].timedOut
        invariant BusyThrough(old(inFlight), waits[..i], own)
        decreases |waits| - i
      {
        if i == |waits| {
          return None, i;
        }
        assert waits[i] in waits;
        OneMoreWait(old(inFlight), waits, i, own);
        Interfere(waits[i].others, t);
        if waits[i].timedOut {
          return Some(Incomplete), i + 1;
        }
        i := i + 1;
        SumAtLeast(inFlight, t);
        total := Total();
      }
      return Some(if own > 0 then Incomplete else Complete), i;
    }
  }
}

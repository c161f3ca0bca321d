/**
 Correlating data-channel requests with their replies.

 `Net` is the correlator with every call in flight, as a state machine: each acquisition of the `pending` or
 `arrivals` lock is one step, the reply handler keeps the `pending` lock from the removal to the send (and the
 clean-up after a failed send), `cancel` and `begin` are two steps each, `fail_all` sends its rejections after it
 has let go of the lock, and the event of an error that matched nothing is dispatched in a step of its own. What is
 proved is about the steps of a run and the state between them. `DataCorrelator` is the code.
 */
module DataCorrelation {
  import opened Prelude

  // ----- request ids -----

  function Digit(d: nat): char
    requires d < 10
  {
    ['0', '1', '2', '3', '4', '5', '6', '7', '8', '9'][d]
  }

  function Decimal(n: nat): string {
    if n < 10 then [Digit(n)] else Decimal(n / 10) + [Digit(n % 10)]
  }

  function RequestId(n: nat): string {
    "data_" + Decimal(n)
  }

  lemma {:induction false} DecimalInjective(m: nat, n: nat)
    requires Decimal(m) == Decimal(n)
    ensures m == n
  {
    var a, b := Decimal(m), Decimal(n);
    assert a[|a| - 1] == Digit(m % 10) && b[|b| - 1] == Digit(n % 10);
    DecimalNonEmpty(m / 10);
    DecimalNonEmpty(n / 10);
    if m >= 10 && n >= 10 {
      assert Decimal(m / 10) == a[..|a| - 1] && Decimal(n / 10) == b[..|b| - 1];
      DecimalInjective(m / 10, n / 10);
    }
  }

  lemma DecimalNonEmpty(n: nat)
    ensures |Decimal(n)| >= 1
  {
  }

  /** Two requests never share an id, so the counter value can stand for the id below. */
  lemma RequestIdsDistinct(m: nat, n: nat)
    ensures RequestId(m) == RequestId(n) <==> m == n
  {
    if RequestId(m) == RequestId(n) {
      assert RequestId(m)[5..] == Decimal(m) && RequestId(n)[5..] == Decimal(n);
      DecimalInjective(m, n);
    }
  }

  // ----- messages -----

  type Id = nat

  datatype Payload = Message(content: nat) | Error(code: nat) | StepResult(frames: nat)

  /** What a call's receiver resolves with. */
  datatype Reply = Answer(payload: Option<Payload>) | Disconnected

  /** An inbound message; no id is a notification. */
  datatype Inbound = Inbound(id: Option<Id>, payload: Option<Payload>)

  predicate IsStepResult(p: Option<Payload>) {
    p.Some? && p.value.StepResult?
  }

  /** Only a reply that is not a step's result leaves its arrival times for the caller to take. */
  predicate LeavesArrival(r: Reply) {
    r.Answer? && !IsStepResult(r.payload)
  }

  // ----- the protocol -----

  /** The oneshot channel of one request. */
  datatype Chan = Empty | Full(reply: Reply) | Gone | Taken(reply: Reply)

  datatype Pc =
    | Allocated          // id drawn, not yet in `pending`
    | Sending
    | Awaiting
    | CancelPending      // `cancel` on a failed send or a timeout, first lock
    | CancelArrival      // second lock
    | TakingArrival
    | ForgetPending      // `ForgetOnDrop`, first lock
    | ForgetArrival      // second lock
    | Done

  /** How a call ended: what it received, or what it left unread when it was dropped. */
  datatype End = Running | Unsent | TimedOut | Answered(reply: Reply) | Dropped(unread: Option<Reply>)

  /** `data_request` has the guard; `send_step` has not. */
  datatype Call = Call(guarded: bool, pc: Pc, end: End)

  /** The reply handler between its steps, holding the `pending` lock. */
  datatype Handler = Resolving(id: Id, payload: Option<Payload>) | Cleaning(id: Id)

  /** `inbound` numbers the messages, so that an error event can be told from another of the same content. */
  datatype Net = Net(
    counter: nat,
    pending: set<Id>,
    arrivals: set<Id>,
    handler: Option<Handler>,
    failing: set<Id>,
    chans: map<Id, Chan>,
    calls: map<Id, Call>,
    inbound: nat,
    owed: map<nat, Payload>,          // errors handled without a match, their event not dispatched yet
    events: seq<(nat, Payload)>)      // error events, in dispatch order

  const NEW_NET := Net(0, {}, {}, None, {}, map[], map[], 0, map[], [])

  datatype Step =
    | Draw(guarded: bool)
    | Register(id: Id)
    | SendOk(id: Id)
    | SendFails(id: Id)
    | Receive(id: Id)
    | TimeOut(id: Id)
    | Abandon(id: Id)
    | Proceed(id: Id)          // the next lock of cancel, take_arrival or the guard
    | Handle(message: Inbound)
    | HandlerSends
    | HandlerCleans
    | Dispatch(number: nat)    // the error event of an uncorrelated message, the lock long released
    | FailAll
    | FailOne(id: Id)

  predicate IsAt(n: Net, id: Id, pc: Pc) {
    id in n.calls && n.calls[id].pc == pc
  }

  predicate CanStep(n: Net, s: Step) {
    match s
    case Draw(_) => true
    case Register(id) => IsAt(n, id, Allocated) && n.handler.None?
    case SendOk(id) => IsAt(n, id, Sending)
    case SendFails(id) => IsAt(n, id, Sending)
    case Receive(id) => IsAt(n, id, Awaiting) && id in n.chans && n.chans[id].Full?
    case TimeOut(id) => IsAt(n, id, Awaiting) && id in n.chans
    case Abandon(id) => IsAt(n, id, Awaiting) && id in n.chans
    case Proceed(id) =>
      && id in n.calls && id in n.chans
      && (match n.calls[id].pc
         case CancelPending => n.handler.None?
         case ForgetPending => n.handler.None?
         case CancelArrival => true
         case TakingArrival => true
         case ForgetArrival => true
         case _ => false)
    case Handle(m) => n.handler.None?
    case HandlerSends => n.handler.Some? && n.handler.value.Resolving? && n.handler.value.id in n.chans
    case HandlerCleans => n.handler.Some? && n.handler.value.Cleaning?
    case Dispatch(number) => number in n.owed
    case FailAll => n.handler.None?
    case FailOne(id) => id in n.failing && id in n.chans
  }

  function GoTo(n: Net, id: Id, pc: Pc): Net
    requires id in n.calls
  {
    n.(calls := n.calls[id := n.calls[id].(pc := pc)])
  }

  function Ends(n: Net, id: Id, pc: Pc, end: End): Net
    requires id in n.calls
  {
    n.(calls := n.calls[id := Call(n.calls[id].guarded, pc, end)])
  }

  function DropReceiver(n: Net, id: Id): Net {
    if id in n.chans && !n.chans[id].Taken? then n.(chans := n.chans[id := Gone]) else n
  }

  /** What a receiver dropped now would leave unread. */
  function Unread(n: Net, id: Id): Option<Reply> {
    if id in n.chans && n.chans[id].Full? then Some(n.chans[id].reply) else None
  }

  /** The sender's one send: it lands only while the receiver is there. */
  function Offer(n: Net, id: Id, r: Reply): Net
    requires id in n.chans
  {
    if n.chans[id].Empty? then n.(chans := n.chans[id := Full(r)]) else n
  }

  function Proceeded(n: Net, id: Id): Net
    requires id in n.calls
  {
    var c := n.calls[id];
    match c.pc
    case CancelPending => GoTo(n, id, CancelArrival).(pending := n.pending - {id})
    case CancelArrival =>
      if !c.guarded then DropReceiver(GoTo(n, id, Done).(arrivals := n.arrivals - {id}), id)
      else GoTo(n, id, if c.end.Unsent? then ForgetPending else TakingArrival).(arrivals := n.arrivals - {id})
    case TakingArrival => GoTo(n, id, ForgetPending).(arrivals := n.arrivals - {id})
    case ForgetPending => GoTo(n, id, ForgetArrival).(pending := n.pending - {id})
    case _ => DropReceiver(GoTo(n, id, Done).(arrivals := n.arrivals - {id}), id)
  }

  predicate Matches(n: Net, m: Inbound) {
    m.id.Some? && m.id.value in n.pending
  }

  predicate IsError(p: Option<Payload>) {
    p.Some? && p.value.Error?
  }

  function Handled(n: Net, m: Inbound): Net {
    if Matches(n, m) then
      var id := m.id.value;
      n.(pending := n.pending - {id},
         arrivals := if IsStepResult(m.payload) then n.arrivals else n.arrivals + {id},
         handler := Some(Resolving(id, m.payload)),
         inbound := n.inbound + 1)
    else
      n.(owed := if IsError(m.payload) then n.owed[n.inbound := m.payload.value] else n.owed,
         inbound := n.inbound + 1)
  }

  function HandlerSent(n: Net): Net
    requires CanStep(n, HandlerSends)
  {
    var Resolving(id, p) := n.handler.value;
    Offer(n, id, Answer(p)).(
      handler := if n.chans[id].Empty? || IsStepResult(p) then None else Some(Cleaning(id)))
  }

  function Next(n: Net, s: Step): Net
    requires CanStep(n, s)
  {
    match s
    case Draw(g) => n.(counter := n.counter + 1, calls := n.calls[n.counter + 1 := Call(g, Allocated, Running)])
    case Register(id) => GoTo(n, id, Sending).(pending := n.pending + {id}, chans := n.chans[id := Empty])
    case SendOk(id) => GoTo(n, id, Awaiting)
    case SendFails(id) => Ends(n, id, CancelPending, Unsent)
    case Receive(id) =>
      var r := n.chans[id].reply;
      Ends(n, id, if n.calls[id].guarded then TakingArrival else Done, Answered(r)).(chans := n.chans[id := Taken(r)])
    case TimeOut(id) => DropReceiver(Ends(n, id, CancelPending, TimedOut), id)
    case Abandon(id) =>
      DropReceiver(Ends(n, id, if n.calls[id].guarded then ForgetPending else Done, Dropped(Unread(n, id))), id)
    case Proceed(id) => Proceeded(n, id)
    case Handle(m) => Handled(n, m)
    case HandlerSends => HandlerSent(n)
    case HandlerCleans => n.(arrivals := n.arrivals - {n.handler.value.id}, handler := None)
    case Dispatch(number) => n.(events := n.events + [(number, n.owed[number])], owed := n.owed - {number})
    case FailAll => n.(pending := {}, failing := n.failing + n.pending)
    case FailOne(id) => Offer(n, id, Disconnected).(failing := n.failing - {id})
  }

  /** `steps` is a run from the start, and `After` where it ends. */
  predicate CanRun(steps: seq<Step>)
    decreases |steps|, 0
  {
    steps == [] || (CanRun(steps[..|steps| - 1]) && CanStep(After(steps[..|steps| - 1]), steps[|steps| - 1]))
  }

  function After(steps: seq<Step>): Net
    requires CanRun(steps)
    decreases |steps|, 1
  {
    if steps == [] then NEW_NET else Next(After(steps[..|steps| - 1]), steps[|steps| - 1])
  }

  lemma {:induction false} PrefixRuns(steps: seq<Step>, k: nat)
    requires CanRun(steps) && k <= |steps|
    ensures CanRun(steps[..k])
    decreases |steps|
  {
    if k < |steps| {
      PrefixRuns(steps[..|steps| - 1], k);
      assert steps[..|steps| - 1][..k] == steps[..k];
    } else {
      assert steps[..k] == steps;
    }
  }

  /** The state ahead of step `k`. */
  function StateAt(steps: seq<Step>, k: nat): Net
    requires CanRun(steps) && k <= |steps|
  {
    PrefixRuns(steps, k);
    After(steps[..k])
  }

  lemma StepsTo(steps: seq<Step>, k: nat)
    requires CanRun(steps) && k < |steps|
    ensures CanStep(StateAt(steps, k), steps[k]) && StateAt(steps, k + 1) == Next(StateAt(steps, k), steps[k])
  {
    PrefixRuns(steps, k + 1);
    assert steps[..k + 1][..k] == steps[..k];
  }

  lemma EndsAt(steps: seq<Step>)
    requires CanRun(steps)
    ensures StateAt(steps, |steps|) == After(steps)
  {
    assert steps[..|steps|] == steps;
  }

  /** The run without its last step. */
  lemma Shorter(steps: seq<Step>)
    requires CanRun(steps) && steps != []
    ensures CanRun(steps[..|steps| - 1])
    ensures forall k :: 0 <= k < |steps| ==> StateAt(steps[..|steps| - 1], k) == StateAt(steps, k)
  {
    forall k | 0 <= k < |steps| ensures StateAt(steps[..|steps| - 1], k) == StateAt(steps, k) {
      assert steps[..|steps| - 1][..k] == steps[..k];
    }
  }

  // ----- what every step keeps, for one request at a time -----

  datatype InHands = Elsewhere | Resolves(payload: Option<Payload>) | Cleans

  /** Everything the state says about one id. */
  datatype View = View(
    drawn: bool, call: Option<Call>, chan: Option<Chan>,
    pending: bool, arrival: bool, failing: bool, handler: InHands)

  function ViewOf(n: Net, id: Id): View {
    View(0 < id <= n.counter,
         if id in n.calls then Some(n.calls[id]) else None,
         if id in n.chans then Some(n.chans[id]) else None,
         id in n.pending, id in n.arrivals, id in n.failing,
         if n.handler.None? || n.handler.value.id != id then Elsewhere
         else if n.handler.value.Resolving? then Resolves(n.handler.value.payload) else Cleans)
  }

  predicate At(v: View, pc: Pc) {
    v.call.Some? && v.call.value.pc == pc
  }

  /** The sender half of the channel is still somewhere. */
  predicate HasSender(v: View) {
    v.pending || v.failing || v.handler.Resolves?
  }

  /** An id is drawn once, and has a channel from the moment it is registered. */
  predicate Drawn(v: View) {
    && (v.call.Some? ==> v.drawn)
    && (v.chan.Some? <==> v.call.Some? && v.call.value.pc != Allocated)
    && (v.pending || v.failing || v.arrival || !v.handler.Elsewhere? ==> v.chan.Some?)
  }

  /** One sender per request, in one place, and it has not been used. */
  predicate OneSender(v: View) {
    && !(v.pending && v.failing)
    && (!v.handler.Elsewhere? ==> !v.pending && !v.failing)
    && (HasSender(v) && v.chan.Some? ==> v.chan.value.Empty? || v.chan.value.Gone?)
    && (v.handler.Cleans? && v.chan.Some? ==> v.chan.value.Gone?)
  }

  /** A call that still awaits will be answered: its reply is there or its sender is alive. */
  predicate Answerable(v: View) {
    (At(v, Awaiting) || At(v, Sending)) && v.chan.Some? ==>
      v.chan.value.Full? || (v.chan.value.Empty? && HasSender(v))
  }

  /** Nothing of the correlator will touch the id again, but for its arrival. */
  predicate Unlinked(v: View) {
    !v.pending && v.handler.Elsewhere?
  }

  /** Which ends go with which places, and what a call has already removed there. */
  predicate Forgetting(v: View) {
    v.call.Some? ==>
      var Call(guarded, pc, end) := v.call.value;
      && (end.Running? <==> pc.Allocated? || pc.Sending? || pc.Awaiting?)
      && (pc.CancelPending? || pc.CancelArrival? ==> end.Unsent? || end.TimedOut?)
      && (pc.CancelArrival? || pc.TakingArrival? || pc.ForgetArrival? ==> Unlinked(v))
      && (guarded && pc.Done? ==> Unlinked(v) && !v.arrival)
      && (!guarded ==> !pc.TakingArrival? && !pc.ForgetPending? && !pc.ForgetArrival?)
      && (v.chan.Some? && v.chan.value.Taken? ==> end == Answered(v.chan.value.reply))
      && (end.Answered? ==> v.chan == Some(Taken(end.reply)))
      && (end.TimedOut? || end.Dropped? ==> v.chan == Some(Gone))
  }

  /** A reply that an unguarded call will find in its channel. */
  predicate Unclaimed(v: View) {
    v.call.Some? && v.chan.Some? && !v.call.value.guarded && v.chan.value.Full? && (At(v, Sending) || At(v, Awaiting))
  }

  /** What is left of an unguarded call that is over, by how it ended. */
  predicate Left(v: View, end: End) {
    match end
    case Running => false
    case Unsent => Unlinked(v) && !v.arrival
    case TimedOut => Unlinked(v) && !v.arrival
    case Answered(r) => Unlinked(v) && !v.failing && (v.arrival <==> LeavesArrival(r))
    case Dropped(Some(r)) => Unlinked(v) && !v.failing && (v.arrival <==> LeavesArrival(r))
    case Dropped(None) => v.chan == Some(Gone) && (v.arrival ==> !v.handler.Elsewhere?)
  }

  /** Which arrivals are there. */
  predicate Arrivals(v: View) {
    && (v.pending || v.failing ==> !v.arrival)
    && (v.handler.Resolves? ==> (v.arrival <==> !IsStepResult(v.handler.payload)))
    && (Unclaimed(v) ==> (v.arrival <==> LeavesArrival(v.chan.value.reply)))
    && (At(v, Done) && !v.call.value.guarded ==> Left(v, v.call.value.end))
  }

  predicate Sound(v: View) {
    Drawn(v) && OneSender(v) && Answerable(v) && Forgetting(v) && Arrivals(v)
  }

  /** The one request a step touches; `FailAll` touches every pending one. */
  function Subject(n: Net, s: Step): Option<Id> {
    match s
    case Draw(_) => Some(n.counter + 1)
    case Handle(m) => m.id
    case HandlerSends => if n.handler.Some? then Some(n.handler.value.id) else None
    case HandlerCleans => if n.handler.Some? then Some(n.handler.value.id) else None
    case Dispatch(_) => None
    case FailAll => None
    case _ => Some(s.id)
  }

  lemma OthersStay(n: Net, s: Step, id: Id)
    requires CanStep(n, s) && Subject(n, s) != Some(id) && !s.FailAll?
    ensures ViewOf(Next(n, s), id) == ViewOf(n, id)
  {
  }

  lemma HandlerKeepsSound(n: Net, s: Step, id: Id)
    requires Sound(ViewOf(n, id)) && CanStep(n, s)
    requires (s.HandlerSends? || s.HandlerCleans?) && n.handler.value.id == id
    ensures Sound(ViewOf(Next(n, s), id))
  {
  }

  lemma HandleKeepsSound(n: Net, m: Inbound)
    requires CanStep(n, Handle(m)) && m.id.Some? && Sound(ViewOf(n, m.id.value))
    ensures Sound(ViewOf(Handled(n, m), m.id.value))
  {
  }

  lemma ProceedKeepsSound(n: Net, id: Id)
    requires Sound(ViewOf(n, id)) && CanStep(n, Proceed(id))
    ensures Sound(ViewOf(Proceeded(n, id), id))
  {
  }

  lemma StepKeepsSound(n: Net, s: Step, id: Id)
    requires Sound(ViewOf(n, id)) && CanStep(n, s)
    ensures Sound(ViewOf(Next(n, s), id))
  {
    if Subject(n, s) != Some(id) && !s.FailAll? {
      OthersStay(n, s, id);
    } else {
      match s
      case Proceed(_) => ProceedKeepsSound(n, id);
      case Handle(m) => HandleKeepsSound(n, m);
      case HandlerSends => HandlerKeepsSound(n, s, id);
      case HandlerCleans => HandlerKeepsSound(n, s, id);
      case _ =>
    }
  }

  lemma {:induction false} RunKeepsSound(steps: seq<Step>, id: Id)
    requires CanRun(steps)
    ensures Sound(ViewOf(After(steps), id))
    decreases |steps|
  {
    if steps != [] {
      RunKeepsSound(steps[..|steps| - 1], id);
      StepKeepsSound(After(steps[..|steps| - 1]), steps[|steps| - 1], id);
    }
  }

  // ----- request ids and receivers -----

  /** Request ids are never reused: a drawn id has not been a request before. */
  lemma IdsNeverReused(steps: seq<Step>, guarded: bool)
    requires CanRun(steps)
    ensures var n := After(steps);
            && n.counter + 1 !in n.calls
            && (forall id :: id in n.calls ==> RequestId(n.counter + 1) != RequestId(id))
            && n.counter + 1 in Next(n, Draw(guarded)).calls
  {
    var n := After(steps);
    RunKeepsSound(steps, n.counter + 1);
    forall id | id in n.calls ensures RequestId(n.counter + 1) != RequestId(id) {
      RunKeepsSound(steps, id);
      RequestIdsDistinct(n.counter + 1, id);
    }
  }

  /** The request was waiting when a message of that content came in under its id. */
  predicate CameIn(steps: seq<Step>, id: Id, p: Option<Payload>)
    requires CanRun(steps)
  {
    exists h :: 0 <= h < |steps| && steps[h] == Handle(Inbound(Some(id), p)) && id in StateAt(steps, h).pending
  }

  /** The request was waiting when everything in flight was rejected. */
  predicate WasRejected(steps: seq<Step>, id: Id)
    requires CanRun(steps)
  {
    exists h :: 0 <= h < |steps| && steps[h] == FailAll && id in StateAt(steps, h).pending
  }

  predicate Comes(steps: seq<Step>, id: Id, r: Reply)
    requires CanRun(steps)
  {
    match r
    case Answer(p) => CameIn(steps, id, p)
    case Disconnected => WasRejected(steps, id)
  }

  predicate HasReply(n: Net, id: Id) {
    id in n.chans && (n.chans[id].Full? || n.chans[id].Taken?)
  }

  predicate IsResolving(n: Net, id: Id) {
    n.handler.Some? && n.handler.value.Resolving? && n.handler.value.id == id
  }

  /** Every reply for an id, in its channel or on its way, has a cause in the run. */
  predicate Caused(steps: seq<Step>, id: Id)
    requires CanRun(steps)
  {
    var n := After(steps);
    && (HasReply(n, id) ==> Comes(steps, id, n.chans[id].reply))
    && (IsResolving(n, id) ==> CameIn(steps, id, n.handler.value.payload))
    && (id in n.failing ==> WasRejected(steps, id))
  }

  lemma CausesStay(steps: seq<Step>, id: Id, r: Reply)
    requires CanRun(steps) && steps != [] && CanRun(steps[..|steps| - 1])
    requires || Comes(steps[..|steps| - 1], id, r)
             || (id in StateAt(steps, |steps| - 1).pending
                 && steps[|steps| - 1] ==
                    match r case Answer(p) => Handle(Inbound(Some(id), p)) case Disconnected => FailAll)
    ensures Comes(steps, id, r)
  {
    var init := steps[..|steps| - 1];
    if Comes(init, id, r) {
      Shorter(steps);
      match r
      case Answer(p) =>
        var h :| 0 <= h < |init| && init[h] == Handle(Inbound(Some(id), p)) && id in StateAt(init, h).pending;
        assert steps[h] == Handle(Inbound(Some(id), p)) && id in StateAt(steps, h).pending;
      case Disconnected =>
        var h :| 0 <= h < |init| && init[h] == FailAll && id in StateAt(init, h).pending;
        assert steps[h] == FailAll && id in StateAt(steps, h).pending;
    }
  }

  /** Where a reply, a reply on its way and a rejection on its way come from in one step. */
  lemma CauseStep(n: Net, s: Step, id: Id)
    requires CanStep(n, s)
    ensures var n' := Next(n, s);
            && (HasReply(n', id) ==>
                  || (HasReply(n, id) && n'.chans[id].reply == n.chans[id].reply)
                  || (IsResolving(n, id) && n'.chans[id].reply == Answer(n.handler.value.payload))
                  || (id in n.failing && n'.chans[id].reply == Disconnected))
            && (IsResolving(n', id) ==>
                  || (IsResolving(n, id) && n'.handler == n.handler)
                  || (id in n.pending && s == Handle(Inbound(Some(id), n'.handler.value.payload))))
            && (id in n'.failing ==> id in n.failing || (id in n.pending && s == FailAll))
  {
  }

  lemma {:induction false} RepliesAreCaused(steps: seq<Step>, id: Id)
    requires CanRun(steps)
    ensures Caused(steps, id)
    decreases |steps|
  {
    if steps != [] {
      var init, s := steps[..|steps| - 1], steps[|steps| - 1];
      var n, n' := After(init), After(steps);
      RepliesAreCaused(init, id);
      CauseStep(n, s, id);
      assert StateAt(steps, |steps| - 1) == n;
      if HasReply(n', id) {
        CausesStay(steps, id, n'.chans[id].reply);
      }
      if IsResolving(n', id) {
        CausesStay(steps, id, Answer(n'.handler.value.payload));
      }
      if id in n'.failing {
        CausesStay(steps, id, Disconnected);
      }
    }
  }

  predicate Settled(n: Net, id: Id) {
    id in n.calls && !n.calls[id].end.Running?
  }

  lemma SettledStays(n: Net, s: Step, id: Id)
    requires Sound(ViewOf(n, id)) && Settled(n, id) && CanStep(n, s)
    ensures s != Receive(id) && Settled(Next(n, s), id) && Next(n, s).calls[id].end == n.calls[id].end
    ensures n.calls[id].pc.Done? ==> Next(n, s).calls[id] == n.calls[id]
  {
  }

  /** A call that was answered, timed out, failed to send or was dropped never resolves afterwards. */
  lemma {:induction false} NeverResolvesAfterward(steps: seq<Step>, k: nat, id: Id)
    requires CanRun(steps) && k <= |steps| && Settled(StateAt(steps, k), id)
    ensures Settled(After(steps), id) && After(steps).calls[id].end == StateAt(steps, k).calls[id].end
    ensures IsAt(StateAt(steps, k), id, Done) ==> After(steps).calls[id] == StateAt(steps, k).calls[id]
    ensures forall i :: k <= i < |steps| ==> steps[i] != Receive(id)
    decreases |steps|
  {
    if k < |steps| {
      var init := steps[..|steps| - 1];
      Shorter(steps);
      NeverResolvesAfterward(init, k, id);
      RunKeepsSound(init, id);
      SettledStays(After(init), steps[|steps| - 1], id);
    } else {
      EndsAt(steps);
    }
  }

  /**
   A receiver resolves at most once; with a reply only if a message of that content came in under its id while it
   was waiting, and with the rejection only if everything in flight was rejected while it was.
   */
  lemma ResolvedOnceAndGenuinely(steps: seq<Step>, i: nat, id: Id)
    requires CanRun(steps) && i < |steps| && steps[i] == Receive(id)
    ensures forall j :: 0 <= j < |steps| && j != i ==> steps[j] != Receive(id)
    ensures CanStep(StateAt(steps, i), Receive(id)) && CanRun(steps[..i])
    ensures Comes(steps[..i], id, StateAt(steps, i).chans[id].reply)
  {
    PrefixRuns(steps, i);
    StepsTo(steps, i);
    RepliesAreCaused(steps[..i], id);
    NotReceivedLater(steps, i, id);
    forall j | 0 <= j < i ensures steps[j] != Receive(id) {
      if steps[j] == Receive(id) {
        NotReceivedLater(steps, j, id);
      }
    }
  }

  lemma NotReceivedLater(steps: seq<Step>, i: nat, id: Id)
    requires CanRun(steps) && i < |steps| && steps[i] == Receive(id)
    ensures forall j :: i < j < |steps| ==> steps[j] != Receive(id)
  {
    StepsTo(steps, i);
    NeverResolvesAfterward(steps, i + 1, id);
  }

  // ----- `data_request` leaves nothing behind -----

  /**
   Leak freedom: when a `data_request` is over, however it ended (answered, rejected, send refused, timed out
   or dropped while awaiting), neither `pending` nor `arrivals` holds its id, then and at every later time.
   */
  lemma NothingLeftBehind(steps: seq<Step>, k: nat, id: Id)
    requires CanRun(steps) && k <= |steps|
    requires IsAt(StateAt(steps, k), id, Done) && StateAt(steps, k).calls[id].guarded
    ensures var n := After(steps);
            IsAt(n, id, Done) && id !in n.pending && id !in n.arrivals && ViewOf(n, id).handler.Elsewhere?
  {
    PrefixRuns(steps, k);
    RunKeepsSound(steps[..k], id);
    NeverResolvesAfterward(steps, k, id);
    RunKeepsSound(steps, id);
  }

  /**
   Every way out of `data_request` ends: from any point after the receiver is done with, at most five
   more of the call's own steps finish it.
   */
  function StepsLeft(c: Call): nat {
    match c.pc
    case CancelPending => if !c.guarded then 2 else if c.end.Unsent? then 4 else 5
    case CancelArrival => if !c.guarded then 1 else if c.end.Unsent? then 3 else 4
    case TakingArrival => 3
    case ForgetPending => 2
    case ForgetArrival => 1
    case _ => 0
  }

  lemma CleanUpProgresses(n: Net, id: Id)
    requires CanStep(n, Proceed(id)) && (n.calls[id].guarded || n.calls[id].pc in {CancelPending, CancelArrival})
    ensures var c := Next(n, Proceed(id)).calls[id];
            StepsLeft(c) == StepsLeft(n.calls[id]) - 1 && (StepsLeft(c) == 0 <==> c.pc == Done)
  {
  }

  /** An awaiting call is never left without an answer to come, so the `Aborted` arm is unreachable. */
  lemma AwaitingIsNeverOrphaned(steps: seq<Step>, id: Id)
    requires CanRun(steps) && IsAt(After(steps), id, Awaiting)
    ensures var n := After(steps);
            id in n.chans && (n.chans[id].Full? || (n.chans[id].Empty? && HasSender(ViewOf(n, id))))
  {
    RunKeepsSound(steps, id);
  }

  /** A call that was answered, timed out or was dropped listens no more: nothing sent to it later lands. */
  lemma EndedListensNoMore(steps: seq<Step>, id: Id)
    requires CanRun(steps)
    ensures var n := After(steps);
            Settled(n, id) && !n.calls[id].end.Unsent? ==>
              && id in n.chans && !n.chans[id].Empty? && !n.chans[id].Full?
              && (n.chans[id].Taken? <==> n.calls[id].end.Answered?)
  {
    RunKeepsSound(steps, id);
  }

  // ----- where an error goes -----

  /** Step `j` is the send of the message step `k` handled. */
  predicate SendsFor(steps: seq<Step>, k: nat, j: nat) {
    && k < j < |steps| && steps[j] == HandlerSends
    && forall i :: k < i < j ==> steps[i] != HandlerSends && !steps[i].Handle?
  }

  /** The message step `k` handled was put into the channel of the call it names. */
  ghost predicate ReachesCaller(steps: seq<Step>, k: nat, id: Id, p: Option<Payload>)
    requires CanRun(steps)
  {
    exists j: nat :: SendsFor(steps, k, j) && id in StateAt(steps, j).chans && id in StateAt(steps, j + 1).chans
                && !StateAt(steps, j).chans[id].Full? && StateAt(steps, j + 1).chans[id] == Full(Answer(p))
  }

  /** The call was still listening when the message step `k` handled was sent to it. */
  ghost predicate Listens(steps: seq<Step>, k: nat, id: Id)
    requires CanRun(steps)
  {
    exists j: nat :: SendsFor(steps, k, j) && id in StateAt(steps, j).chans && StateAt(steps, j).chans[id].Empty?
  }

  /** The error event of message `number` was dispatched. */
  predicate Told(n: Net, number: nat) {
    exists e :: e in n.events && e.0 == number
  }

  lemma HandlerStays(n: Net, s: Step)
    requires CanStep(n, s) && s != HandlerSends && !s.Handle? && (n.handler.Some? ==> n.handler.value.Resolving?)
    ensures Next(n, s).handler == n.handler
  {
  }

  /** Between the handling of a message and its send nothing else happens to the handler. */
  lemma {:induction false} HandlerHolds(steps: seq<Step>, k: nat, j: nat)
    requires CanRun(steps) && k < j <= |steps| && steps[k].Handle?
    requires forall i :: k < i < j ==> steps[i] != HandlerSends && !steps[i].Handle?
    ensures var m := steps[k].message;
            StateAt(steps, j).handler ==
            if Matches(StateAt(steps, k), m) then Some(Resolving(m.id.value, m.payload)) else None
    decreases j
  {
    StepsTo(steps, j - 1);
    if k < j - 1 {
      HandlerHolds(steps, k, j - 1);
      HandlerStays(StateAt(steps, j - 1), steps[j - 1]);
    }
  }

  lemma SendFills(n: Net, id: Id, p: Option<Payload>)
    requires Sound(ViewOf(n, id)) && CanStep(n, HandlerSends) && n.handler == Some(Resolving(id, p))
    ensures id in n.chans && id in Next(n, HandlerSends).chans && !n.chans[id].Full?
    ensures n.chans[id].Empty? <==> Next(n, HandlerSends).chans[id] == Full(Answer(p))
  {
  }

  /** A matched message reaches its caller exactly if that is still listening; an unmatched one reaches none. */
  lemma CallerHearsExactlyWhen(steps: seq<Step>, k: nat, id: Id)
    requires CanRun(steps) && k < |steps| && steps[k].Handle? && steps[k].message.id == Some(id)
    ensures ReachesCaller(steps, k, id, steps[k].message.payload) <==> Listens(steps, k, id)
    ensures Listens(steps, k, id) ==> Matches(StateAt(steps, k), steps[k].message)
  {
    var p := steps[k].message.payload;
    forall j: nat | SendsFor(steps, k, j)
      ensures Matches(StateAt(steps, k), steps[k].message)
      ensures id in StateAt(steps, j).chans && id in StateAt(steps, j + 1).chans && !StateAt(steps, j).chans[id].Full?
      ensures StateAt(steps, j).chans[id].Empty? <==> StateAt(steps, j + 1).chans[id] == Full(Answer(p))
    {
      HandlerHolds(steps, k, j);
      StepsTo(steps, j);
      PrefixRuns(steps, j);
      RunKeepsSound(steps[..j], id);
      SendFills(StateAt(steps, j), id, p);
    }
    if Listens(steps, k, id) {
      var j: nat :| SendsFor(steps, k, j) && id in StateAt(steps, j).chans && StateAt(steps, j).chans[id].Empty?;
      assert StateAt(steps, j + 1).chans[id] == Full(Answer(p));
    }
  }

  /** Numbers are given once, and an event is owed or dispatched, not both and not twice. */
  predicate Numbered(n: Net) {
    && (forall number :: number in n.owed ==> number < n.inbound && !Told(n, number))
    && (forall e :: e in n.events ==> e.0 < n.inbound)
    && (forall i, j :: 0 <= i < j < |n.events| ==> n.events[i].0 != n.events[j].0)
  }

  lemma NumbersStay(n: Net, s: Step)
    requires CanStep(n, s) && !s.Handle? && !s.Dispatch?
    ensures Next(n, s).owed == n.owed && Next(n, s).events == n.events && Next(n, s).inbound == n.inbound
  {
  }

  lemma DispatchKeepsNumbered(n: Net, number: nat)
    requires Numbered(n) && number in n.owed
    ensures Numbered(n.(events := n.events + [(number, n.owed[number])], owed := n.owed - {number}))
  {
    forall i | 0 <= i < |n.events| ensures n.events[i].0 != number {
      assert n.events[i] in n.events;
    }
  }

  lemma StepKeepsNumbered(n: Net, s: Step)
    requires Numbered(n) && CanStep(n, s)
    ensures Numbered(Next(n, s))
  {
    match s
    case Handle(_) =>
    case Dispatch(number) => DispatchKeepsNumbered(n, number);
    case _ => NumbersStay(n, s);
  }

  lemma {:induction false} RunKeepsNumbered(steps: seq<Step>)
    requires CanRun(steps)
    ensures Numbered(After(steps))
    decreases |steps|
  {
    if steps != [] {
      RunKeepsNumbered(steps[..|steps| - 1]);
      StepKeepsNumbered(After(steps[..|steps| - 1]), steps[|steps| - 1]);
    }
  }

  /** What the state says of message `number`'s event, when one is due and when none is. */
  predicate Accounted(n: Net, number: nat, due: Option<Payload>) {
    && number < n.inbound
    && (number in n.owed ==> due == Some(n.owed[number]))
    && (forall e :: e in n.events && e.0 == number ==> due == Some(e.1))
    && (due.Some? ==> number in n.owed || Told(n, number))
  }

  /** The event due for a message that step `k` handles: its error, if it matched nothing. */
  function DueFor(n: Net, m: Inbound): Option<Payload> {
    if !Matches(n, m) && IsError(m.payload) then m.payload else None
  }

  lemma HandleAccounts(n: Net, m: Inbound)
    requires Numbered(n)
    ensures Accounted(Handled(n, m), n.inbound, DueFor(n, m))
  {
  }

  lemma StepKeepsAccounted(n: Net, s: Step, number: nat, due: Option<Payload>)
    requires Accounted(n, number, due) && CanStep(n, s)
    ensures Accounted(Next(n, s), number, due)
  {
    match s
    case Handle(_) =>
    case Dispatch(told) =>
      var n' := Next(n, s);
      assert forall e :: e in n.events ==> e in n'.events;
      assert (told, n.owed[told]) in n'.events;
    case _ => NumbersStay(n, s);
  }

  lemma {:induction false} MessageAccounted(steps: seq<Step>, k: nat)
    requires CanRun(steps) && k < |steps| && steps[k].Handle?
    ensures Accounted(After(steps), StateAt(steps, k).inbound, DueFor(StateAt(steps, k), steps[k].message))
    decreases |steps|
  {
    var init := steps[..|steps| - 1];
    Shorter(steps);
    if k == |steps| - 1 {
      RunKeepsNumbered(init);
      EndsAt(init);
      HandleAccounts(After(init), steps[k].message);
    } else {
      MessageAccounted(init, k);
      StepKeepsAccounted(After(init), steps[|steps| - 1], StateAt(steps, k).inbound,
                         DueFor(StateAt(steps, k), steps[k].message));
    }
  }

  /**
   An error that came in reaches at most one of the awaiting caller and the event stream, at most once, and one of
   them if and only if it matched no request or its caller was still listening at the send (once its event, where
   one is due, has been dispatched, and its send, where it matched, has happened).
   */
  lemma ErrorReachesOne(steps: seq<Step>, k: nat, id: Id)
    requires CanRun(steps) && k < |steps| && steps[k].Handle? && IsError(steps[k].message.payload)
    requires steps[k].message.id == Some(id)
    ensures var n, p, number := After(steps), steps[k].message.payload, StateAt(steps, k).inbound;
            && !(Told(n, number) && ReachesCaller(steps, k, id, p))
            && (forall e :: e in n.events && e.0 == number ==> Some(e.1) == p)
            && (forall i, j :: 0 <= i < j < |n.events| ==> n.events[i].0 != n.events[j].0)
            && (number !in n.owed ==>
                  (Told(n, number) || ReachesCaller(steps, k, id, p) <==>
                   !Matches(StateAt(steps, k), steps[k].message) || Listens(steps, k, id)))
  {
    CallerHearsExactlyWhen(steps, k, id);
    MessageAccounted(steps, k);
    RunKeepsNumbered(steps);
  }

  /** An error that names no request is dispatched as an event, once, as soon as its turn has come. */
  lemma NotificationErrorsAreTold(steps: seq<Step>, k: nat)
    requires CanRun(steps) && k < |steps| && steps[k].Handle? && IsError(steps[k].message.payload)
    requires steps[k].message.id.None?
    ensures var n, number := After(steps), StateAt(steps, k).inbound;
            && (Told(n, number) <==> number !in n.owed)
            && (forall i, j :: 0 <= i < j < |n.events| ==> n.events[i].0 != n.events[j].0)
  {
    MessageAccounted(steps, k);
    RunKeepsNumbered(steps);
  }

  // ----- what `send_step`, which has no guard, leaves behind -----

  /** The step that ended the call, and what it saw. */
  predicate EndedBy(steps: seq<Step>, id: Id, end: End)
    requires CanRun(steps)
  {
    match end
    case Running => true
    case Unsent => SendFails(id) in steps
    case TimedOut => TimeOut(id) in steps
    case Answered(r) =>
      exists k :: 0 <= k < |steps| && steps[k] == Receive(id) && Unread(StateAt(steps, k), id) == Some(r)
    case Dropped(u) =>
      exists k :: 0 <= k < |steps| && steps[k] == Abandon(id) && Unread(StateAt(steps, k), id) == u
  }

  lemma EndStays(steps: seq<Step>, id: Id, end: End)
    requires CanRun(steps) && steps != [] && CanRun(steps[..|steps| - 1]) && EndedBy(steps[..|steps| - 1], id, end)
    ensures EndedBy(steps, id, end)
  {
    Shorter(steps);
    var init := steps[..|steps| - 1];
    assert forall s :: s in init ==> s in steps;
    match end
    case Answered(r) =>
      var k :| 0 <= k < |init| && init[k] == Receive(id) && Unread(StateAt(init, k), id) == Some(r);
      assert steps[k] == Receive(id) && Unread(StateAt(steps, k), id) == Some(r);
    case Dropped(u) =>
      var k :| 0 <= k < |init| && init[k] == Abandon(id) && Unread(StateAt(init, k), id) == u;
      assert steps[k] == Abandon(id) && Unread(StateAt(steps, k), id) == u;
    case _ =>
  }

  /** How a call's end comes about in one step. */
  lemma EndStep(n: Net, s: Step, id: Id)
    requires CanStep(n, s) && id in Next(n, s).calls
    ensures var end := Next(n, s).calls[id].end;
            || end.Running?
            || (id in n.calls && end == n.calls[id].end)
            || (end.Unsent? && s == SendFails(id))
            || (end.TimedOut? && s == TimeOut(id))
            || (end.Answered? && s == Receive(id) && Unread(n, id) == Some(end.reply))
            || (end.Dropped? && s == Abandon(id) && Unread(n, id) == end.unread)
  {
  }

  lemma {:induction false} EndsAsStepped(steps: seq<Step>, id: Id)
    requires CanRun(steps) && id in After(steps).calls
    ensures EndedBy(steps, id, After(steps).calls[id].end)
    decreases |steps|
  {
    if steps != [] {
      var init, s := steps[..|steps| - 1], steps[|steps| - 1];
      var n, end := After(init), After(steps).calls[id].end;
      EndStep(n, s, id);
      assert s in steps && StateAt(steps, |steps| - 1) == n;
      if id in n.calls && end == n.calls[id].end {
        EndsAsStepped(init, id);
        EndStays(steps, id, end);
      }
    }
  }

  /** A step that takes the request out of `pending` other than by cancelling it. */
  predicate Clears(s: Step, id: Id) {
    s.FailAll? || (s.Handle? && s.message.id == Some(id))
  }

  /** Since the request was registered no reply under its id was handled and nothing was rejected. */
  predicate Untouched(steps: seq<Step>, id: Id) {
    && steps != []
    && var s := steps[|steps| - 1];
       s == Register(id) || (!Clears(s, id) && Untouched(steps[..|steps| - 1], id))
  }

  /** The call has not cancelled its request. */
  predicate NotCancelled(c: Call) {
    c.pc.Sending? || c.pc.Awaiting? || (!c.guarded && c.pc.Done? && (c.end.Answered? || c.end.Dropped?))
  }

  predicate Unregistered(v: View) {
    v.call.None? || v.call.value.pc.Allocated?
  }

  predicate Holds(v: View) {
    v.call.Some? && NotCancelled(v.call.value)
  }

  lemma PendingStep(n: Net, s: Step, id: Id)
    requires Sound(ViewOf(n, id)) && CanStep(n, s)
    ensures var v, v' := ViewOf(n, id), ViewOf(Next(n, s), id);
            && (Unregistered(v') ==> Unregistered(v) && s != Register(id))
            && (Holds(v') && s == Register(id) ==> v'.pending)
            && (Holds(v') && s != Register(id) ==> Holds(v) && (v'.pending <==> v.pending && !Clears(s, id)))
  {
    if Subject(n, s) != Some(id) && !s.FailAll? {
      OthersStay(n, s, id);
    } else {
      match s
      case FailAll =>
      case Handle(_) =>
      case Proceed(_) =>
      case _ =>
    }
  }

  /** While it is not cancelled, a request is pending exactly as long as nothing cleared it. */
  lemma {:induction false} PendingWhileUntouched(steps: seq<Step>, id: Id)
    requires CanRun(steps)
    ensures var n := After(steps);
            && (id !in n.calls || n.calls[id].pc.Allocated? ==> !Untouched(steps, id))
            && (id in n.calls && NotCancelled(n.calls[id]) ==> (id in n.pending <==> Untouched(steps, id)))
    decreases |steps|
  {
    if steps != [] {
      var init := steps[..|steps| - 1];
      PendingWhileUntouched(init, id);
      RunKeepsSound(init, id);
      PendingStep(After(init), steps[|steps| - 1], id);
    }
  }

  /** How an unguarded call must have ended to leave nothing in the correlator. */
  predicate EndsClean(steps: seq<Step>, id: Id, end: End) {
    match end
    case Running => false
    case Unsent => true
    case TimedOut => true
    case Answered(r) => !LeavesArrival(r)
    case Dropped(u) => !Untouched(steps, id) && !(u.Some? && LeavesArrival(u.value))
  }

  /**
   What a `send_step` that is over leaves, while the handler is not in the middle of a reply to it: nothing after a
   failed send or a timeout; its arrival after an answer that was not a step's result; and when it was dropped, its
   request for as long as no reply or rejection has cleared it, and the arrival of such an answer it had not read.
   */
  lemma StepLeavesExactly(steps: seq<Step>, id: Id)
    requires CanRun(steps)
    requires IsAt(After(steps), id, Done) && !After(steps).calls[id].guarded
    requires ViewOf(After(steps), id).handler.Elsewhere?
    ensures var n, end := After(steps), After(steps).calls[id].end;
            && EndedBy(steps, id, end)
            && (id in n.pending <==> end.Dropped? && Untouched(steps, id))
            && (id in n.arrivals <==> match end case Answered(r) => LeavesArrival(r)
                                                case Dropped(u) => u.Some? && LeavesArrival(u.value)
                                                case _ => false)
            && (id !in n.pending && id !in n.arrivals <==> EndsClean(steps, id, end))
  {
    RunKeepsSound(steps, id);
    EndsAsStepped(steps, id);
    PendingWhileUntouched(steps, id);
  }

  lemma Extend(steps: seq<Step>, s: Step)
    requires CanRun(steps) && CanStep(After(steps), s)
    ensures CanRun(steps + [s]) && After(steps + [s]) == Next(After(steps), s)
  {
    assert (steps + [s])[..|steps|] == steps;
  }

  const SENT_STEP := [Draw(false), Register(1), SendOk(1)]
  const REFUSAL := Inbound(Some(1), Some(Error(7)))

  lemma SentStep() returns (n: Net)
    ensures CanRun(SENT_STEP) && n == After(SENT_STEP)
    ensures n.pending == {1} && n.chans == map[1 := Empty] && n.calls == map[1 := Call(false, Awaiting, Running)]
    ensures n.arrivals == {} && n.handler == None
  {
    Extend([], Draw(false));
    Extend([Draw(false)], Register(1));
    Extend([Draw(false), Register(1)], SendOk(1));
    assert [] + [Draw(false)] == [Draw(false)];
    assert [Draw(false)] + [Register(1)] == [Draw(false), Register(1)];
    assert [Draw(false), Register(1)] + [SendOk(1)] == SENT_STEP;
    n := After(SENT_STEP);
  }

  /**
   The three ways to leak: a step answered by an error keeps its arrival, so does one dropped with that answer
   unread, and one dropped while awaiting keeps its request.
   */
  lemma StepCanLeak()
    ensures var refused := SENT_STEP + [Handle(REFUSAL)] + [HandlerSends] + [Receive(1)];
            CanRun(refused) && IsAt(After(refused), 1, Done) && 1 in After(refused).arrivals
    ensures var unread := SENT_STEP + [Handle(REFUSAL)] + [HandlerSends] + [Abandon(1)];
            CanRun(unread) && IsAt(After(unread), 1, Done) && 1 in After(unread).arrivals
    ensures var dropped := SENT_STEP + [Abandon(1)];
            CanRun(dropped) && IsAt(After(dropped), 1, Done) && 1 in After(dropped).pending
  {
    var n := SentStep();
    Extend(SENT_STEP, Abandon(1));
    Extend(SENT_STEP, Handle(REFUSAL));
    Extend(SENT_STEP + [Handle(REFUSAL)], HandlerSends);
    Extend(SENT_STEP + [Handle(REFUSAL)] + [HandlerSends], Receive(1));
    Extend(SENT_STEP + [Handle(REFUSAL)] + [HandlerSends], Abandon(1));
  }

  // ----- the correlator as code -----

  datatype ReplyArrival = ReplyArrival(arrivedMs: real, resolvedMs: real)

  /** What the caller of `handle_message` gets back, and what the request's own caller was sent. */
  datatype HandledMessage = HandledMessage(payload: Option<Payload>, correlated: bool)

  class DataCorrelator {
    var counter: nat
    var pending: map<Id, string>
    var arrivals: map<Id, ReplyArrival>

    /** The state a sequential caller sees, as the state machine has it. */
    ghost predicate Shows(n: Net)
      reads this
    {
      counter == n.counter && pending.Keys == n.pending && arrivals.Keys == n.arrivals && n.handler.None?
    }

    constructor ()
      ensures counter == 0 && pending == map[] && arrivals == map[]
    {
      counter, pending, arrivals := 0, map[], map[];
    }

    method Begin(command: string) returns (id: Id, requestId: string)
      modifies this`counter, this`pending
      ensures id == counter == old(counter) + 1 && requestId == RequestId(id)
      ensures pending == old(pending)[id := command]
    {
      id := counter + 1;
      counter := id;
      requestId := RequestId(id);
      pending := pending[id := command];
    }

    /**
     `handle_message_at`; `arrival` is what its clock reads, if it has one, and `listening` whether the receiver is
     still there. With a clock it ends in the state the handler's steps end in; without one no arrival is kept.
     */
    method HandleMessage(m: Inbound, arrival: Option<ReplyArrival>, listening: bool, ghost n: Net)
      returns (handled: HandledMessage, sent: Option<Reply>)
      requires Shows(n) && (Matches(n, m) ==> m.id.value in n.chans && (listening <==> n.chans[m.id.value].Empty?))
      modifies this`pending, this`arrivals
      ensures handled.correlated <==> m.id.Some? && m.id.value in old(pending)
      ensures handled.payload == if handled.correlated && IsStepResult(m.payload) then None else m.payload
      ensures sent == if handled.correlated && listening then Some(Answer(m.payload)) else None
      ensures pending == if handled.correlated then old(pending) - {m.id.value} else old(pending)
      ensures handled.correlated && arrival.Some? ==>
        var n1 := HandlerSent(Handled(n, m));
        Shows(if n1.handler.Some? then n1.(arrivals := n1.arrivals - {m.id.value}, handler := None) else n1)
      ensures !handled.correlated ==> Shows(n)
      ensures arrivals ==
        if !handled.correlated || IsStepResult(m.payload) then old(arrivals)
        else if !listening then old(arrivals) - {m.id.value}
        else if arrival.Some? then old(arrivals)[m.id.value := arrival.value]
        else old(arrivals)
    {
      sent := None;
      if m.id.None? || m.id.value !in pending {
        handled := HandledMessage(m.payload, false);
        return;
      }
      var id := m.id.value;
      pending := pending - {id};
      if IsStepResult(m.payload) {
        if listening {
          sent := Some(Answer(m.payload));
        }
        handled := HandledMessage(None, true);
        return;
      }
      if arrival.Some? {
        arrivals := arrivals[id := arrival.value];
      }
      if listening {
        sent := Some(Answer(m.payload));
      } else {
        arrivals := arrivals - {id};
      }
      handled := HandledMessage(m.payload, true);
    }

    method Cancel(id: Id)
      modifies this`pending, this`arrivals
      ensures pending == old(pending) - {id} && arrivals == old(arrivals) - {id}
    {
      pending := pending - {id};
      arrivals := arrivals - {id};
    }

    method TakeArrival(id: Id) returns (a: Option<ReplyArrival>)
      modifies this`arrivals
      ensures a == if id in old(arrivals) then Some(old(arrivals)[id]) else None
      ensures arrivals == old(arrivals) - {id}
    {
      a := if id in arrivals then Some(arrivals[id]) else None;
      arrivals := arrivals - {id};
    }

    /** Rejects every request in flight, each exactly once, naming its command. */
    method FailAll() returns (rejected: seq<(Id, string)>)
      modifies this`pending
      ensures pending == map[]
      ensures forall e :: e in rejected <==> e.0 in old(pending) && old(pending)[e.0] == e.1
      ensures forall i, j :: 0 <= i < j < |rejected| ==> rejected[i].0 != rejected[j].0
    {
      var taken := pending;
      pending := map[];
      rejected := [];
      while taken != map[]
        invariant forall id :: id in taken ==> id in old(pending) && taken[id] == old(pending)[id]
        invariant forall e :: e in rejected <==> e.0 in old(pending) && e.0 !in taken && old(pending)[e.0] == e.1
        invariant forall i, j :: 0 <= i < j < |rejected| ==> rejected[i].0 != rejected[j].0
        decreases |taken|
      {
        var id :| id in taken;
        assert forall i :: 0 <= i < |rejected| ==> rejected[i] in rejected;
        rejected := rejected + [(id, taken[id])];
        taken := taken - {id};
      }
    }
  }
}

/**
 The session state machine: connect, reconnect, disconnect and peer failure over the client's locked state.

 Calls run concurrently; each acquisition of the state lock is one step, and whatever the coordinator, the
 signaling client and the peer answer is the choice of which step comes next. `State` holds the fields of
 the client's state these calls share, and its functions are the locked sections; `ReactorState` is their code.
 */
module Session {
  import opened Prelude

  type SessionId = nat
  type GateId = nat

  datatype Status = Disconnected | Connecting | Waiting | Ready

  datatype PeerState = Failed | Lost | Closed

  // ----- the locked sections -----

  datatype State = State(
    status: Status,
    session: Option<SessionId>,
    created: bool,
    connection: Option<nat>,
    peerConnected: bool,
    dataOpen: bool,
    controlOpen: bool,
    readyGate: Option<GateId>,
    iceReady: bool,
    closing: bool,
    teardownReason: Option<PeerState>)

  const NEW_STATE := State(Disconnected, None, false, None, false, false, false, None, false, false, None)

  datatype Flag = PeerConnected | DataOpen | ControlOpen

  predicate AllUp(s: State) {
    s.peerConnected && s.dataOpen && s.controlOpen
  }

  /** `check_ready_locked`: the state after it, and the gate it fired. */
  function CheckReady(s: State): (State, Option<GateId>) {
    if AllUp(s) then (s.(readyGate := None), s.readyGate) else (s, None)
  }

  function Raise(s: State, f: Flag): State {
    match f
    case PeerConnected => s.(peerConnected := true)
    case DataOpen => s.(dataOpen := true)
    case ControlOpen => s.(controlOpen := true)
  }

  function TransportDown(s: State): State {
    s.(peerConnected := false, dataOpen := false, controlOpen := false, iceReady := false)
  }

  /** The start of `connect`, once its guard has passed. */
  function BeginConnect(s: State): State {
    s.(closing := false, teardownReason := None, status := Connecting)
  }

  /** The start of `reconnect`, once it has found a session. */
  function BeginReconnect(s: State): State {
    TransportDown(s).(closing := false, teardownReason := None, status := Connecting)
  }

  /** The first section of `teardown`, and the session it will terminate. */
  function BeginTeardown(s: State, recoverable: bool): (State, Option<SessionId>) {
    (s.(closing := true, readyGate := None), if !recoverable && s.created then s.session else None)
  }

  /** The second section of `teardown`. */
  function EndTeardown(s: State, recoverable: bool): State {
    if recoverable then TransportDown(s)
    else TransportDown(s).(session := None, created := false, connection := None)
  }

  // ----- the protocol -----

  datatype Outcome =
    | Success
    | InvalidState
    | PeerGone          // `CoreError::Disconnected`, with the recorded peer state
    | Aborted
    | OtherError        // HTTP, signaling, timeout, mismatch, chunking
    | Finished          // a disconnect or a peer failure has no result
    | Resume            // `reconnect` closing the live connection before it goes on

  datatype Kind =
    | Connect(adopt: Option<SessionId>, adoptConnection: Option<nat>)
    | Reconnect
    | Disconnect
    | PeerFailure(state: PeerState)

  datatype Pc =
    | Start
    | Reading
    | Creating
    | HasSession
    | Negotiating
    | Gated(gate: GateId)
    | Registering(gate: GateId, existing: Option<nat>)
    | Offered(gate: GateId)
    | Described(gate: GateId)
    | AwaitingGate(gate: GateId)
    | Up
    | Recording
    | Teardown(recoverable: bool, outcome: Outcome)
    | Closing(recoverable: bool, terminate: Option<SessionId>, outcome: Outcome)
    | Clearing(recoverable: bool, outcome: Outcome)
    | Cleared(outcome: Outcome)
    | Done(outcome: Outcome)

  /** `sawReason`: a peer state was recorded since this attempt's reset. */
  datatype Task = Task(kind: Kind, pc: Pc, sawReason: bool)

  type TaskId = nat

  datatype Client = Client(
    state: State,
    tasks: map<TaskId, Task>,
    gates: nat,                       // gates made so far
    fired: seq<GateId>,               // in firing order
    created: set<SessionId>,          // ids the coordinator gave this client
    terminated: seq<SessionId>)       // DELETEs issued, in order

  const NEW_CLIENT := Client(NEW_STATE, map[], 0, [], {}, [])

  datatype Step =
    | Spawn(task: TaskId, kind: Kind)
    | Event(flag: Flag)
    | Act(task: TaskId, act: Action)

  /** What the call does next, where it has a choice the answers it got decide. */
  datatype Action =
    | Enter
    | Create(id: SessionId)             // or, for a call that adopts one, take that up
    | SetWaiting
    | Install
    | ReadConnection
    | SetConnection(registered: nat)
    | Reassign(connection: nat)
    | CheckReason
    | Describe(ok: bool)
    | SeeGate
    | SetReady
    | Fail
    | Record
    | TearDown
    | Terminate
    | Clear
    | SetDisconnected

  predicate CanFail(pc: Pc) {
    pc.Creating? || pc.Negotiating? || pc.Registering? || pc.Offered? || pc.AwaitingGate? || pc.Up?
  }

  predicate CanAct(c: Client, t: Task, a: Action) {
    match a
    case Enter => t.pc.Start? || t.pc.Reading?
    case Create(id) => t.pc.Creating? && t.kind.Connect? && (t.kind.adopt.None? ==> id !in c.created)
    case SetWaiting => t.pc.HasSession?
    case Install => t.pc.Negotiating?
    case ReadConnection => t.pc.Gated?
    case SetConnection(_) => t.pc.Registering?
    case Reassign(_) => t.pc.Offered?
    case CheckReason => t.pc.Offered?
    case Describe(_) => t.pc.Described?
    case SeeGate => t.pc.AwaitingGate? && (t.pc.gate in c.fired || c.state.readyGate != Some(t.pc.gate))
    case SetReady => t.pc.Up?
    case Fail => CanFail(t.pc)
    case Record => t.pc.Recording? && t.kind.PeerFailure?
    case TearDown => t.pc.Teardown?
    case Terminate => t.pc.Closing?
    case Clear => t.pc.Clearing?
    case SetDisconnected => t.pc.Cleared?
  }

  predicate CanStep(c: Client, s: Step) {
    match s
    case Spawn(t, _) => t !in c.tasks
    case Event(_) => true
    case Act(t, a) => t in c.tasks && CanAct(c, c.tasks[t], a)
  }

  /** A failing attempt tears down, keeping the session only if it was a reconnect. */
  function FailWith(t: Task, o: Outcome): Pc {
    Teardown(t.kind.Reconnect?, o)
  }

  /** `teardown_error`, or the error at hand. */
  function Blame(s: State, otherwise: Outcome): Outcome {
    if s.teardownReason.Some? then PeerGone else otherwise
  }

  /** Whether the call passes its guard here, and resets the cause of an earlier teardown with it. */
  predicate Resets(s: State, t: Task, a: Action) {
    && a.Enter?
    && if t.pc.Reading? then s.session.Some? else t.kind.Connect? && s.status.Disconnected?
  }

  function ConnectionFor(t: Task, existing: Option<nat>, registered: nat): nat {
    if t.kind.Connect? && t.kind.adoptConnection.Some? then t.kind.adoptConnection.value
    else if t.kind.Reconnect? && existing.Some? then existing.value
    else registered
  }

  function CreateMove(s: State, t: Task, given: SessionId): State
    requires t.kind.Connect?
  {
    if t.kind.adopt.Some? then s.(session := t.kind.adopt, created := false)
    else s.(session := Some(given), created := true)
  }

  /** The state after one locked section of a call. */
  function StateAfter(c: Client, t: Task, a: Action): State
    requires CanAct(c, t, a)
  {
    var s := c.state;
    match a
    case Enter => if !Resets(s, t, a) then s else if t.pc.Reading? then BeginReconnect(s) else BeginConnect(s)
    case Create(given) => CreateMove(s, t, given)
    case SetWaiting => s.(status := Waiting)
    case Install => s.(readyGate := Some(c.gates))
    case SetConnection(registered) =>
      s.(connection := Some(ConnectionFor(t, t.pc.existing, registered)), iceReady := true)
    case Reassign(n) => s.(connection := Some(n))
    case SetReady => s.(status := Ready)
    case Record => s.(teardownReason := Some(t.kind.state))
    case TearDown => BeginTeardown(s, t.pc.recoverable).0
    case Clear => EndTeardown(s, t.pc.recoverable)
    case SetDisconnected => s.(status := Disconnected)
    case _ => s
  }

  /** Where a call stands once it has entered, or gone on after the disconnect inside `reconnect`. */
  function EnteredAt(s: State, t: Task): Pc {
    if t.pc.Reading? then if s.session.None? then Done(InvalidState) else HasSession
    else
      match t.kind
      case Connect(_, _) => if s.status.Disconnected? then Creating else Done(InvalidState)
      case Reconnect => if s.status.Ready? then Teardown(true, Resume) else Reading
      case Disconnect => Teardown(false, Finished)
      case PeerFailure(_) => if !s.closing && !s.status.Disconnected? then Recording else Done(Finished)
  }

  /** Where the call stands after that section. */
  function PcAfter(c: Client, t: Task, a: Action): Pc
    requires CanAct(c, t, a)
  {
    var s := c.state;
    match a
    case Enter => EnteredAt(s, t)
    case Create(_) => HasSession
    case SetWaiting => Negotiating
    case Install => Gated(c.gates)
    case ReadConnection => Registering(t.pc.gate, s.connection)
    case SetConnection(_) => Offered(t.pc.gate)
    case Reassign(_) => t.pc
    case CheckReason => if s.teardownReason.Some? then FailWith(t, PeerGone) else Described(t.pc.gate)
    case Describe(ok) => if ok then AwaitingGate(t.pc.gate) else FailWith(t, Blame(s, OtherError))
    case SeeGate => if t.pc.gate in c.fired then Up else FailWith(t, Blame(s, Aborted))
    case SetReady => Done(Success)
    case Fail => FailWith(t, OtherError)
    case Record => Teardown(true, Finished)
    case TearDown => Closing(t.pc.recoverable, BeginTeardown(s, t.pc.recoverable).1, t.pc.outcome)
    case Terminate => Clearing(t.pc.recoverable, t.pc.outcome)
    case Clear => Cleared(t.pc.outcome)
    case SetDisconnected => if t.pc.outcome.Resume? then Reading else Done(t.pc.outcome)
  }

  /** A locked section that ends in `check_ready_locked`. */
  function Checked(c: Client, s: State): Client {
    var (s', gate) := CheckReady(s);
    c.(state := s', fired := if gate.Some? then c.fired + [gate.value] else c.fired)
  }

  function TasksAfter(c: Client, id: TaskId, a: Action): map<TaskId, Task>
    requires id in c.tasks && CanAct(c, c.tasks[id], a)
  {
    var t := c.tasks[id];
    var seen := if a.Record? then map u | u in c.tasks :: c.tasks[u].(sawReason := true) else c.tasks;
    seen[id := Task(t.kind, PcAfter(c, t, a), if Resets(c.state, t, a) then false else t.sawReason || a.Record?)]
  }

  function Acted(c: Client, id: TaskId, a: Action): Client
    requires id in c.tasks && CanAct(c, c.tasks[id], a)
  {
    var t := c.tasks[id];
    var c' := c.(
      state := StateAfter(c, t, a),
      tasks := TasksAfter(c, id, a),
      created := if a.Create? && t.kind.adopt.None? then c.created + {a.id} else c.created,
      terminated :=
        if a.Terminate? && t.pc.terminate.Some? then c.terminated + [t.pc.terminate.value] else c.terminated);
    if a.Install? then Checked(c', c'.state).(gates := c.gates + 1) else c'
  }

  function Next(c: Client, s: Step): Client
    requires CanStep(c, s)
  {
    match s
    case Spawn(id, kind) => c.(tasks := c.tasks[id := Task(kind, Start, false)])
    case Event(flag) => Checked(c, Raise(c.state, flag))
    case Act(id, a) => Acted(c, id, a)
  }

  predicate CanRun(c: Client, steps: seq<Step>)
    decreases |steps|
  {
    steps == [] || (CanStep(c, steps[0]) && CanRun(Next(c, steps[0]), steps[1..]))
  }

  function After(c: Client, steps: seq<Step>): Client
    requires CanRun(c, steps)
    decreases |steps|
  {
    if steps == [] then c else After(Next(c, steps[0]), steps[1..])
  }

  // ----- what every step keeps -----

  /** An installed gate is waiting for something, and no gate has fired twice. */
  predicate GateArmed(c: Client) {
    && (c.state.readyGate.Some? ==>
          !AllUp(c.state) && c.state.readyGate.value !in c.fired && c.state.readyGate.value < c.gates)
    && (forall g :: g in c.fired ==> g < c.gates)
    && (forall i, j :: 0 <= i < j < |c.fired| ==> c.fired[i] != c.fired[j])
  }

  /** What this client would terminate, it created. */
  predicate Owned(c: Client) {
    && (c.state.created ==> c.state.session.Some? && c.state.session.value in c.created)
    && (forall id :: id in c.terminated ==> id in c.created)
    && (c.state.iceReady ==> c.state.connection.Some?)
  }

  /** The attempt is between its reset and its end. */
  predicate InAttempt(pc: Pc) {
    pc.Creating? || pc.HasSession? || pc.Negotiating? || pc.Gated? || pc.Registering? || pc.Offered?
    || pc.Described? || pc.AwaitingGate? || pc.Up?
  }

  predicate Blames(pc: Pc) {
    (pc.Teardown? || pc.Closing? || pc.Clearing? || pc.Cleared? || pc.Done?) && pc.outcome.PeerGone?
  }

  predicate TaskSound(c: Client, t: Task) {
    && (InAttempt(t.pc) && c.state.teardownReason.Some? ==> t.sawReason)
    && (Blames(t.pc) ==> t.sawReason)
    && (t.pc.Closing? && t.pc.terminate.Some? ==> t.pc.terminate.value in c.created)
  }

  predicate Valid(c: Client) {
    GateArmed(c) && Owned(c) && forall id :: id in c.tasks ==> TaskSound(c, c.tasks[id])
  }

  lemma CheckKeepsGates(c: Client, s: State)
    requires (forall g :: g in c.fired ==> g < c.gates)
    requires forall i, j :: 0 <= i < j < |c.fired| ==> c.fired[i] != c.fired[j]
    requires s.readyGate.Some? ==> s.readyGate.value !in c.fired && s.readyGate.value < c.gates
    ensures GateArmed(Checked(c, s))
    ensures forall g :: g in Checked(c, s).fired && g !in c.fired ==> AllUp(Checked(c, s).state)
  {
    assert forall i :: 0 <= i < |c.fired| ==> c.fired[i] in c.fired;
  }

  lemma MoveKeepsGate(c: Client, t: Task, a: Action)
    requires CanAct(c, t, a) && !a.Install?
    ensures var s := StateAfter(c, t, a);
            s.readyGate.None? || (s.readyGate == c.state.readyGate && (AllUp(s) ==> AllUp(c.state)))
  {
  }

  lemma ActKeepsGates(c: Client, id: TaskId, a: Action)
    requires GateArmed(c) && id in c.tasks && CanAct(c, c.tasks[id], a) && !a.Install?
    ensures GateArmed(Acted(c, id, a)) && Acted(c, id, a).fired == c.fired
  {
    MoveKeepsGate(c, c.tasks[id], a);
  }

  /** A step fires nothing, or the gate that was installed (or that it installs), with all three flags set. */
  predicate FiresProperly(c: Client, c': Client) {
    c'.fired != c.fired ==>
      && |c'.fired| == |c.fired| + 1 && c'.fired[..|c.fired|] == c.fired
      && AllUp(c'.state) && c'.state.readyGate.None?
      && var g := c'.fired[|c.fired|];
         if c'.gates == c.gates then c.state.readyGate == Some(g) else g == c.gates && c'.gates == g + 1
  }

  lemma InstallKeepsGates(c: Client, id: TaskId)
    requires GateArmed(c) && id in c.tasks && c.tasks[id].pc.Negotiating?
    ensures GateArmed(Acted(c, id, Install)) && FiresProperly(c, Acted(c, id, Install))
  {
    CheckKeepsGates(c.(gates := c.gates + 1), c.state.(readyGate := Some(c.gates)));
  }

  lemma EventKeepsGates(c: Client, flag: Flag)
    requires GateArmed(c)
    ensures GateArmed(Checked(c, Raise(c.state, flag))) && FiresProperly(c, Checked(c, Raise(c.state, flag)))
  {
    CheckKeepsGates(c, Raise(c.state, flag));
  }

  /** A gate fires only in a step that leaves all three flags set, and never again. */
  lemma StepKeepsGates(c: Client, s: Step)
    requires GateArmed(c) && CanStep(c, s)
    ensures GateArmed(Next(c, s)) && FiresProperly(c, Next(c, s))
  {
    match s
    case Spawn(_, _) =>
    case Event(flag) => EventKeepsGates(c, flag);
    case Act(id, a) =>
      if a.Install? {
        InstallKeepsGates(c, id);
      } else {
        ActKeepsGates(c, id, a);
      }
  }

  lemma ActKeepsOwned(c: Client, id: TaskId, a: Action)
    requires Owned(c) && id in c.tasks && CanAct(c, c.tasks[id], a) && TaskSound(c, c.tasks[id])
    ensures Owned(Acted(c, id, a))
  {
    match a
    case Enter =>
    case Create(_) =>
    case Terminate =>
    case Clear =>
    case _ =>
  }

  lemma StepKeepsOwned(c: Client, s: Step)
    requires Owned(c) && CanStep(c, s) && (s.Act? ==> TaskSound(c, c.tasks[s.task]))
    ensures Owned(Next(c, s))
  {
    match s
    case Spawn(_, _) =>
    case Event(_) =>
    case Act(id, a) => ActKeepsOwned(c, id, a);
  }

  /** Where a blame, a recorded cause and a pending termination can come from. */
  lemma MoveKeepsTask(c: Client, t: Task, a: Action)
    requires CanAct(c, t, a)
    ensures var (s, pc) := (StateAfter(c, t, a), PcAfter(c, t, a));
            && (s.teardownReason.Some? ==> a.Record? || (c.state.teardownReason.Some? && !Resets(c.state, t, a)))
            && (InAttempt(pc) ==> InAttempt(t.pc) || Resets(c.state, t, a))
            && (Blames(pc) ==>
                  !Resets(c.state, t, a) && (Blames(t.pc) || (InAttempt(t.pc) && c.state.teardownReason.Some?)))
            && (pc.Closing? && pc.terminate.Some? ==> c.state.created && pc.terminate == c.state.session)
  {
  }

  lemma StepKeepsTask(c: Client, s: Step, id: TaskId)
    requires Owned(c) && CanStep(c, s) && id in Next(c, s).tasks
    requires id in c.tasks ==> TaskSound(c, c.tasks[id])
    requires s.Act? ==> TaskSound(c, c.tasks[s.task])
    ensures TaskSound(Next(c, s), Next(c, s).tasks[id])
  {
    match s
    case Spawn(_, _) =>
    case Event(_) =>
    case Act(actor, a) => MoveKeepsTask(c, c.tasks[actor], a);
  }

  lemma StepKeepsValid(c: Client, s: Step)
    requires Valid(c) && CanStep(c, s)
    ensures Valid(Next(c, s))
  {
    StepKeepsGates(c, s);
    StepKeepsOwned(c, s);
    forall id | id in Next(c, s).tasks ensures TaskSound(Next(c, s), Next(c, s).tasks[id]) {
      StepKeepsTask(c, s, id);
    }
  }

  lemma {:induction false} RunKeepsValid(c: Client, steps: seq<Step>)
    requires Valid(c) && CanRun(c, steps)
    ensures Valid(After(c, steps))
    decreases |steps|
  {
    if steps != [] {
      StepKeepsValid(c, steps[0]);
      RunKeepsValid(Next(c, steps[0]), steps[1..]);
    }
  }

  // ----- the ready gate -----

  /**
   Over all event orders, channels opening before the gate is there included: an installed gate always has
   something left to wait for, gates fire at most once each, and a step fires one only with all three flags set.
   */
  lemma ReadyGateSound(past: seq<Step>, s: Step)
    requires CanRun(NEW_CLIENT, past) && CanStep(After(NEW_CLIENT, past), s)
    ensures var c := After(NEW_CLIENT, past);
            && (c.state.readyGate.Some? ==> !AllUp(c.state))
            && (forall i, j :: 0 <= i < j < |c.fired| ==> c.fired[i] != c.fired[j])
            && FiresProperly(c, Next(c, s))
  {
    RunKeepsValid(NEW_CLIENT, past);
    StepKeepsGates(After(NEW_CLIENT, past), s);
  }

  // ----- the cause of a teardown -----

  predicate Records(s: Step) {
    s.Act? && s.act.Record?
  }

  lemma {:induction false} SeenMeansRecorded(c: Client, steps: seq<Step>, id: TaskId)
    requires CanRun(c, steps) && id in c.tasks && !c.tasks[id].sawReason
    requires id in After(c, steps).tasks && After(c, steps).tasks[id].sawReason
    ensures exists i :: 0 <= i < |steps| && Records(steps[i])
    decreases |steps|
  {
    if !Records(steps[0]) {
      SeenMeansRecorded(Next(c, steps[0]), steps[1..], id);
      var i :| 0 <= i < |steps| - 1 && Records(steps[1..][i]);
      assert steps[i + 1] == steps[1..][i];
    }
  }

  /**
   An attempt reports the peer's disconnection only if a peer-state event recorded one since that attempt's
   own reset. A caller's disconnect records nothing, so runs without peer failures never report it.
   */
  lemma PeerGoneOnlyIfRecorded(c: Client, attempt: seq<Step>, id: TaskId)
    requires Valid(c) && id in c.tasks && !c.tasks[id].sawReason && CanRun(c, attempt)
    requires id in After(c, attempt).tasks && Blames(After(c, attempt).tasks[id].pc)
    ensures exists i :: 0 <= i < |attempt| && Records(attempt[i])
  {
    RunKeepsValid(c, attempt);
    assert TaskSound(After(c, attempt), After(c, attempt).tasks[id]);
    SeenMeansRecorded(c, attempt, id);
  }

  /** An attempt starts, at its reset, having seen nothing. */
  lemma ResetSeesNothing(c: Client, id: TaskId)
    requires CanStep(c, Act(id, Enter))
    ensures var t := Next(c, Act(id, Enter)).tasks[id];
            InAttempt(t.pc) ==> !t.sawReason && Next(c, Act(id, Enter)).state.teardownReason.None?
  {
  }

  // ----- who owns the session -----

  /** Every terminate ever issued is for an id this client created, and a ready trickle has its connection id. */
  lemma TerminatesOnlyItsOwn(steps: seq<Step>)
    requires CanRun(NEW_CLIENT, steps)
    ensures var c := After(NEW_CLIENT, steps);
            && (forall id :: id in c.terminated ==> id in c.created)
            && (c.state.iceReady ==> c.state.connection.Some?)
  {
    RunKeepsValid(NEW_CLIENT, steps);
  }

  predicate ResumesAfter(pc: Pc) {
    (pc.Teardown? || pc.Closing? || pc.Clearing? || pc.Cleared?) && pc.outcome.Resume?
  }

  /** A reconnect, and a peer failure, creates nothing, only ever tears down recoverably and terminates nothing. */
  predicate RecoversAt(kind: Kind, pc: Pc) {
    && (kind.Reconnect? || kind.PeerFailure?) && !pc.Creating?
    && (kind.PeerFailure? ==> !InAttempt(pc) && !pc.Reading? && !ResumesAfter(pc))
    && (pc.Teardown? || pc.Closing? || pc.Clearing? ==> pc.recoverable)
    && (pc.Closing? ==> pc.terminate.None?)
  }

  predicate Recovers(t: Task) {
    RecoversAt(t.kind, t.pc)
  }

  /** Every call that is not over is a reconnect or a peer failure. */
  predicate AllRecover(c: Client) {
    forall id :: id in c.tasks ==> c.tasks[id].pc.Done? || Recovers(c.tasks[id])
  }

  /** No call but a reconnect or a peer failure starts. */
  predicate OnlyRecovers(s: Step) {
    s.Spawn? ==> s.kind.Reconnect? || s.kind.PeerFailure?
  }

  lemma PcRecovers(c: Client, t: Task, a: Action)
    requires CanAct(c, t, a) && Recovers(t)
    ensures RecoversAt(t.kind, PcAfter(c, t, a))
  {
  }

  lemma MoveRecovers(c: Client, t: Task, a: Action)
    requires CanAct(c, t, a) && Recovers(t)
    ensures StateAfter(c, t, a).session == c.state.session && StateAfter(c, t, a).created == c.state.created
    ensures !a.Create? && (a.Terminate? ==> t.pc.terminate.None?)
  {
    match a
    case Enter =>
    case Create(_) =>
    case TearDown =>
    case Clear =>
    case _ =>
  }

  lemma ActRecovers(c: Client, id: TaskId, a: Action)
    requires id in c.tasks && CanAct(c, c.tasks[id], a) && AllRecover(c)
    ensures var c' := Acted(c, id, a);
            && AllRecover(c') && c'.terminated == c.terminated
            && c'.state.session == c.state.session && c'.state.created == c.state.created
  {
    MoveRecovers(c, c.tasks[id], a);
    PcRecovers(c, c.tasks[id], a);
  }

  lemma StepRecovers(c: Client, s: Step)
    requires AllRecover(c) && CanStep(c, s) && OnlyRecovers(s)
    ensures var c' := Next(c, s);
            && AllRecover(c') && c'.terminated == c.terminated
            && c'.state.session == c.state.session && c'.state.created == c.state.created
  {
    match s
    case Spawn(_, _) =>
    case Event(_) =>
    case Act(id, a) => ActRecovers(c, id, a);
  }

  /**
   Over every run of reconnects and peer failures, however they interleave and end, and whether or not a connection
   id was there, the client keeps its session and what it owns of it, and terminates nothing.
   */
  lemma {:induction false} RecoveryKeepsSession(c: Client, steps: seq<Step>)
    requires AllRecover(c) && CanRun(c, steps) && forall i :: 0 <= i < |steps| ==> OnlyRecovers(steps[i])
    ensures var c' := After(c, steps);
            && AllRecover(c') && c'.terminated == c.terminated
            && c'.state.session == c.state.session && c'.state.created == c.state.created
    decreases |steps|
  {
    if steps != [] {
      StepRecovers(c, steps[0]);
      RecoveryKeepsSession(Next(c, steps[0]), steps[1..]);
    }
  }

  /** The connection id is there, and no call that found none is still registering one. */
  predicate AllGoOnWith(c: Client, x: nat) {
    && AllRecover(c) && c.state.connection == Some(x)
    && forall id :: id in c.tasks && c.tasks[id].pc.Registering? ==> c.tasks[id].pc.existing == Some(x)
  }

  predicate Reassigns(s: Step) {
    s.Act? && s.act.Reassign?
  }

  lemma MoveGoesOn(c: Client, t: Task, a: Action, x: nat)
    requires CanAct(c, t, a) && !a.Reassign? && Recovers(t) && c.state.connection == Some(x)
    requires t.pc.Registering? ==> t.pc.existing == Some(x)
    ensures StateAfter(c, t, a).connection == Some(x)
    ensures PcAfter(c, t, a).Registering? ==> PcAfter(c, t, a).existing == Some(x)
  {
    match a
    case Enter =>
    case ReadConnection =>
    case SetConnection(_) =>
    case TearDown =>
    case Clear =>
    case _ =>
  }

  lemma StepGoesOn(c: Client, s: Step, x: nat)
    requires AllGoOnWith(c, x) && CanStep(c, s) && OnlyRecovers(s) && !Reassigns(s)
    ensures AllGoOnWith(Next(c, s), x)
  {
    StepRecovers(c, s);
    if s.Act? {
      MoveGoesOn(c, c.tasks[s.task], s.act, x);
    }
  }

  predicate Quiet(steps: seq<Step>) {
    forall i :: 0 <= i < |steps| ==> OnlyRecovers(steps[i]) && !Reassigns(steps[i])
  }

  /** And it keeps a connection id that is there, unless the server reassigns it. */
  lemma {:induction false} RecoveryKeepsConnection(c: Client, steps: seq<Step>, x: nat)
    requires AllGoOnWith(c, x) && CanRun(c, steps) && Quiet(steps)
    ensures After(c, steps).state.connection == Some(x)
    decreases |steps|
  {
    if steps != [] {
      StepGoesOn(c, steps[0], x);
      RecoveryKeepsConnection(Next(c, steps[0]), steps[1..], x);
    }
  }

  ghost predicate ConnectionStays(c: Client, x: nat) {
    forall steps :: CanRun(c, steps) && Quiet(steps) ==> After(c, steps).state.connection == Some(x)
  }

  /** A call still registering that found another id, or none, replaces the one that is there. */
  lemma LateRegistrationReplaces(c: Client, id: TaskId, x: nat)
    requires id in c.tasks && Recovers(c.tasks[id]) && c.tasks[id].pc.Registering? && c.tasks[id].pc.existing != Some(x)
    ensures var late := [Act(id, SetConnection(x + 1))];
            CanRun(c, late) && Quiet(late) && After(c, late).state.connection != Some(x)
  {
    var late := [Act(id, SetConnection(x + 1))];
    assert late[1..] == [];
    assert After(c, late) == Next(c, late[0]);
  }

  /**
   Over all runs of reconnects and peer failures without a reassignment, the connection id stays if and only if no
   reconnect that found another id, or none, is still registering.
   */
  lemma ConnectionStaysExactlyWhen(c: Client, x: nat)
    requires AllRecover(c) && c.state.connection == Some(x)
    ensures ConnectionStays(c, x) <==> AllGoOnWith(c, x)
  {
    if AllGoOnWith(c, x) {
      forall steps | CanRun(c, steps) && Quiet(steps) ensures After(c, steps).state.connection == Some(x) {
        RecoveryKeepsConnection(c, steps, x);
      }
    } else {
      var id :| id in c.tasks && c.tasks[id].pc.Registering? && c.tasks[id].pc.existing != Some(x);
      LateRegistrationReplaces(c, id, x);
    }
  }

  // ----- a held session has its connection id -----

  /** A connect between taking up its session and setting its connection id, or on the way to giving the session up. */
  predicate OwesAt(kind: Kind, pc: Pc) {
    && kind.Connect?
    && (pc.HasSession? || pc.Negotiating? || pc.Gated? || pc.Registering?
        || ((pc.Teardown? || pc.Closing? || pc.Clearing?) && !pc.recoverable))
  }

  predicate Unconnected(s: State) {
    s.session.Some? && s.connection.None?
  }

  /** A session without a connection id is some running connect's. */
  predicate Accounted(c: Client) {
    Unconnected(c.state) ==> exists id :: id in c.tasks && OwesAt(c.tasks[id].kind, c.tasks[id].pc)
  }

  lemma ActKeepsAccounted(c: Client, id: TaskId, a: Action)
    requires Accounted(c) && id in c.tasks && CanAct(c, c.tasks[id], a) && Unconnected(StateAfter(c, c.tasks[id], a))
    ensures exists u :: u in Acted(c, id, a).tasks && OwesAt(Acted(c, id, a).tasks[u].kind, Acted(c, id, a).tasks[u].pc)
  {
    var c' := Acted(c, id, a);
    if a.Create? {
      assert OwesAt(c'.tasks[id].kind, c'.tasks[id].pc);
    } else {
      var u :| u in c.tasks && OwesAt(c.tasks[u].kind, c.tasks[u].pc);
      assert OwesAt(c'.tasks[u].kind, c'.tasks[u].pc);
    }
  }

  lemma StepKeepsAccounted(c: Client, s: Step)
    requires Accounted(c) && CanStep(c, s)
    ensures Accounted(Next(c, s))
  {
    var c' := Next(c, s);
    if Unconnected(c'.state) {
      match s
      case Spawn(_, _) =>
        var u :| u in c.tasks && OwesAt(c.tasks[u].kind, c.tasks[u].pc);
        assert c'.tasks[u] == c.tasks[u];
      case Event(_) =>
      case Act(id, a) => ActKeepsAccounted(c, id, a);
    }
  }

  lemma {:induction false} RunKeepsAccounted(c: Client, steps: seq<Step>)
    requires Accounted(c) && CanRun(c, steps)
    ensures Accounted(After(c, steps))
    decreases |steps|
  {
    if steps != [] {
      StepKeepsAccounted(c, steps[0]);
      RunKeepsAccounted(Next(c, steps[0]), steps[1..]);
    }
  }

  /** In every reachable state with only recoveries under way, a held session has its connection id. */
  lemma HeldSessionHasConnection(steps: seq<Step>)
    requires CanRun(NEW_CLIENT, steps) && AllRecover(After(NEW_CLIENT, steps))
    ensures After(NEW_CLIENT, steps).state.session.Some? ==> After(NEW_CLIENT, steps).state.connection.Some?
  {
    RunKeepsAccounted(NEW_CLIENT, steps);
  }

  predicate AllOver(c: Client) {
    forall id :: id in c.tasks ==> c.tasks[id].pc.Done?
  }

  /**
   What a caller of `reconnect` relies on: once every call is over, a client that holds a session holds its connection
   id, and keeps both over every run of reconnects and peer failures without a reassignment, terminating nothing.
   */
  lemma SettledClientKeepsBoth(past: seq<Step>, future: seq<Step>)
    requires CanRun(NEW_CLIENT, past) && AllOver(After(NEW_CLIENT, past)) && After(NEW_CLIENT, past).state.session.Some?
    requires CanRun(After(NEW_CLIENT, past), future) && Quiet(future)
    ensures var c, c' := After(NEW_CLIENT, past), After(After(NEW_CLIENT, past), future);
            && c.state.connection.Some? && c'.state.connection == c.state.connection
            && c'.state.session == c.state.session && c'.state.created == c.state.created
            && c'.terminated == c.terminated
  {
    var c := After(NEW_CLIENT, past);
    HeldSessionHasConnection(past);
    RecoveryKeepsSession(c, future);
    RecoveryKeepsConnection(c, future, c.state.connection.value);
  }

  // ----- a connect that fails on its own -----

  /** Only call `id` acts; the peer may still report its flags. */
  predicate Alone(steps: seq<Step>, id: TaskId) {
    forall i :: 0 <= i < |steps| ==> steps[i].Event? || (steps[i].Act? && steps[i].task == id)
  }

  /** The session the client owns, having created it, and would terminate. */
  predicate Holds(c: Client, mine: Option<SessionId>) {
    if mine.Some? then c.state.created && c.state.session == mine else !c.state.created
  }

  predicate Unbound(c: Client) {
    c.state.session.None? && c.state.connection.None? && !c.state.created
  }

  function Listed(mine: Option<SessionId>): seq<SessionId> {
    if mine.Some? then [mine.value] else []
  }

  predicate Failure(o: Outcome) {
    !o.Success? && !o.Resume?
  }

  /** A lone connect, followed to its end: `mine` is the session it owns, `before` what was terminated before. */
  predicate Followed(c: Client, id: TaskId, mine: Option<SessionId>, before: seq<SessionId>) {
    && id in c.tasks && c.tasks[id].kind.Connect?
    && var pc := c.tasks[id].pc;
    match pc
    case Teardown(rec, o) => !rec && Failure(o) && Holds(c, mine) && c.terminated == before
    case Closing(rec, term, o) => !rec && Failure(o) && term == mine && c.terminated == before
    case Clearing(rec, o) => !rec && Failure(o) && c.terminated == before + Listed(mine)
    case Cleared(o) => Failure(o) && Unbound(c) && c.terminated == before + Listed(mine)
    case Done(o) =>
      if o.Success? then Holds(c, mine) && c.terminated == before
      else Unbound(c) && c.terminated == before + Listed(mine) && c.state.status.Disconnected?
    case _ => InAttempt(pc) && Holds(c, mine) && c.terminated == before
  }

  function Mine(t: Task, mine: Option<SessionId>, s: Step): Option<SessionId> {
    if s.Act? && s.act.Create? && t.kind.Connect? then
      if t.kind.adopt.None? then Some(s.act.id) else None
    else mine
  }

  lemma ActFollowed(c: Client, id: TaskId, a: Action, mine: Option<SessionId>, before: seq<SessionId>)
    requires Followed(c, id, mine, before) && CanAct(c, c.tasks[id], a)
    ensures Followed(Acted(c, id, a), id, Mine(c.tasks[id], mine, Act(id, a)), before)
  {
  }

  lemma EventFollowed(c: Client, id: TaskId, flag: Flag, mine: Option<SessionId>, before: seq<SessionId>)
    requires Followed(c, id, mine, before)
    ensures Followed(Next(c, Event(flag)), id, mine, before)
  {
  }

  /** The session owned after a lone run: the last one created, unless it was adopted. */
  function MineAfter(t: Task, mine: Option<SessionId>, steps: seq<Step>): Option<SessionId>
    decreases |steps|
  {
    if steps == [] then mine else MineAfter(t, Mine(t, mine, steps[0]), steps[1..])
  }

  lemma {:induction false} RunFollowed(c: Client, steps: seq<Step>, id: TaskId,
                                       mine: Option<SessionId>, before: seq<SessionId>)
    requires Followed(c, id, mine, before) && CanRun(c, steps) && Alone(steps, id)
    ensures Followed(After(c, steps), id, MineAfter(c.tasks[id], mine, steps), before)
    decreases |steps|
  {
    if steps != [] {
      var c' := Next(c, steps[0]);
      if steps[0].Act? {
        ActFollowed(c, id, steps[0].act, mine, before);
      } else {
        EventFollowed(c, id, steps[0].flag, mine, before);
      }
      var mine' := Mine(c.tasks[id], mine, steps[0]);
      RunFollowed(c', steps[1..], id, mine', before);
      SameKind(c.tasks[id], c'.tasks[id], mine', steps[1..]);
    }
  }

  lemma {:induction false} SameKind(t: Task, u: Task, mine: Option<SessionId>, steps: seq<Step>)
    requires t.kind == u.kind
    ensures MineAfter(t, mine, steps) == MineAfter(u, mine, steps)
    decreases |steps|
  {
    if steps != [] {
      SameKind(t, u, Mine(t, mine, steps[0]), steps[1..]);
    }
  }

  /**
   A connect that fails with nobody else acting terminates the session it created, once, and nothing else, and
   leaves the client with no session, no connection id and disconnected; one that adopted terminates nothing.
   */
  lemma FailedConnectTerminates(c: Client, steps: seq<Step>, id: TaskId, mine: Option<SessionId>)
    requires id in c.tasks && c.tasks[id].kind.Connect? && c.tasks[id].pc.Creating? && Holds(c, mine)
    requires CanRun(c, steps) && Alone(steps, id)
    requires id in After(c, steps).tasks && After(c, steps).tasks[id].pc.Done?
    requires !After(c, steps).tasks[id].pc.outcome.Success?
    ensures var c' := After(c, steps);
            && c'.terminated == c.terminated + Listed(MineAfter(c.tasks[id], mine, steps))
            && Unbound(c') && c'.state.status.Disconnected?
  {
    RunFollowed(c, steps, id, mine, c.terminated);
  }

  // ----- a connect or reconnect that succeeds -----

  /** No teardown is for a call that succeeded. */
  predicate FailsAt(pc: Pc) {
    pc.Teardown? || pc.Closing? || pc.Clearing? || pc.Cleared? ==> !pc.outcome.Success?
  }

  lemma {:induction false} TeardownsFail(c: Client, steps: seq<Step>, id: TaskId)
    requires CanRun(c, steps) && (id in c.tasks ==> FailsAt(c.tasks[id].pc)) && id in After(c, steps).tasks
    ensures FailsAt(After(c, steps).tasks[id].pc)
    decreases |steps|
  {
    if steps != [] {
      if steps[0].Act? && steps[0].task == id {
        MoveFails(c, c.tasks[id], steps[0].act);
      }
      TeardownsFail(Next(c, steps[0]), steps[1..], id);
    }
  }

  lemma MoveFails(c: Client, t: Task, a: Action)
    requires CanAct(c, t, a) && FailsAt(t.pc)
    ensures FailsAt(PcAfter(c, t, a))
  {
  }

  /** In every run, the step in which a call succeeds leaves the client ready. */
  lemma SuccessIsReady(past: seq<Step>, s: Step, id: TaskId)
    requires CanRun(NEW_CLIENT, past) && CanStep(After(NEW_CLIENT, past), s)
    requires id in After(NEW_CLIENT, past).tasks && After(NEW_CLIENT, past).tasks[id].pc != Done(Success)
    requires Next(After(NEW_CLIENT, past), s).tasks[id].pc == Done(Success)
    ensures s == Act(id, SetReady) && Next(After(NEW_CLIENT, past), s).state.status.Ready?
  {
    var c := After(NEW_CLIENT, past);
    TeardownsFail(NEW_CLIENT, past, id);
    match s
    case Spawn(_, _) =>
    case Event(_) =>
    case Act(actor, a) =>
      if actor == id {
        OnlySetReadySucceeds(c, c.tasks[id], a);
      }
  }

  lemma OnlySetReadySucceeds(c: Client, t: Task, a: Action)
    requires CanAct(c, t, a) && FailsAt(t.pc) && PcAfter(c, t, a) == Done(Success)
    ensures a.SetReady?
  {
  }

  /** The last session a run created, connection it registered, and connection the server reassigned. */
  function CreatedIn(steps: seq<Step>): Option<SessionId> {
    if steps == [] then None
    else
      var s := steps[|steps| - 1];
      if s.Act? && s.act.Create? then Some(s.act.id) else CreatedIn(steps[..|steps| - 1])
  }

  function RegisteredIn(steps: seq<Step>): Option<nat> {
    if steps == [] then None
    else
      var s := steps[|steps| - 1];
      if s.Act? && s.act.SetConnection? then Some(s.act.registered) else RegisteredIn(steps[..|steps| - 1])
  }

  function ReassignedIn(steps: seq<Step>): Option<nat> {
    if steps == [] then None
    else
      var s := steps[|steps| - 1];
      if s.Act? && s.act.Reassign? then Some(s.act.connection) else ReassignedIn(steps[..|steps| - 1])
  }

  /** The session a call is for: the one it adopts, the one it created, the one the client held. */
  function SessionOf(kind: Kind, start: State, past: seq<Step>): Option<SessionId> {
    if !kind.Connect? then start.session else if kind.adopt.Some? then kind.adopt else CreatedIn(past)
  }

  /** The connection it is on: one the server reassigned, else one it adopts, else one a reconnect found, else new. */
  function ConnectionOf(kind: Kind, start: State, past: seq<Step>): Option<nat> {
    if ReassignedIn(past).Some? then ReassignedIn(past)
    else if kind.Connect? && kind.adoptConnection.Some? then kind.adoptConnection
    else if kind.Reconnect? && start.connection.Some? then start.connection
    else RegisteredIn(past)
  }

  predicate OwnGateFired(start: Client, c: Client) {
    exists g :: g in c.fired && g >= start.gates
  }

  /** A lone connect or reconnect that has not failed, by where it stands; `past` is its run from `start`. */
  predicate OnCourse(start: Client, past: seq<Step>, c: Client, t: Task) {
    var s := c.state;
    var session := s.session == SessionOf(t.kind, start.state, past) && s.session.Some?;
    var connection := s.connection == ConnectionOf(t.kind, start.state, past) && s.connection.Some? && s.iceReady;
    var untouched := s.session == start.state.session && s.connection == start.state.connection;
    match t.pc
    case Start => untouched && ReassignedIn(past).None?
    case Reading => untouched && t.kind.Reconnect? && ReassignedIn(past).None?
    case Creating => t.kind.Connect? && s.status.Connecting? && ReassignedIn(past).None?
    case HasSession => session && s.status.Connecting? && BeforeOffer(start, past, c, t)
    case Negotiating => session && s.status.Waiting? && BeforeOffer(start, past, c, t)
    case Gated(g) => session && s.status.Waiting? && BeforeOffer(start, past, c, t) && g >= start.gates
    case Registering(g, existing) =>
      && session && s.status.Waiting? && BeforeOffer(start, past, c, t) && g >= start.gates
      && (t.kind.Reconnect? ==> existing == start.state.connection)
    case Offered(g) => session && s.status.Waiting? && connection && g >= start.gates
    case Described(g) => session && s.status.Waiting? && connection && g >= start.gates
    case AwaitingGate(g) => session && s.status.Waiting? && connection && g >= start.gates
    case Up => session && s.status.Waiting? && connection && OwnGateFired(start, c)
    case Done(Success) => session && s.status.Ready? && connection && OwnGateFired(start, c)
    case Teardown(recoverable, Resume) => untouched && recoverable && t.kind.Reconnect? && ReassignedIn(past).None?
    case Closing(recoverable, _, Resume) => untouched && recoverable && t.kind.Reconnect? && ReassignedIn(past).None?
    case Clearing(recoverable, Resume) => untouched && recoverable && t.kind.Reconnect? && ReassignedIn(past).None?
    case Cleared(Resume) => untouched && t.kind.Reconnect? && ReassignedIn(past).None?
    case Teardown(_, o) => !o.Success?
    case Closing(_, _, o) => !o.Success?
    case Clearing(_, o) => !o.Success?
    case Cleared(o) => !o.Success?
    case Done(_) => true
    case Recording => false
  }

  predicate BeforeOffer(start: Client, past: seq<Step>, c: Client, t: Task) {
    && ReassignedIn(past).None? && (t.kind.Connect? || t.kind.Reconnect?)
    && (t.kind.Reconnect? ==> c.state.connection == start.state.connection)
  }

  lemma PastGrows(past: seq<Step>, s: Step)
    ensures CreatedIn(past + [s]) == if s.Act? && s.act.Create? then Some(s.act.id) else CreatedIn(past)
    ensures RegisteredIn(past + [s]) ==
            if s.Act? && s.act.SetConnection? then Some(s.act.registered) else RegisteredIn(past)
    ensures ReassignedIn(past + [s]) == if s.Act? && s.act.Reassign? then Some(s.act.connection) else ReassignedIn(past)
  {
    assert (past + [s])[..|past|] == past;
  }

  /** Up to its offer, or closing the live connection first. */
  predicate Early(pc: Pc) {
    pc.Start? || pc.Reading? || pc.Creating? || pc.HasSession? || pc.Negotiating? || pc.Gated? || ResumesAfter(pc)
  }

  lemma ActEarly(start: Client, past: seq<Step>, c: Client, id: TaskId, a: Action)
    requires id in c.tasks && (c.tasks[id].kind.Connect? || c.tasks[id].kind.Reconnect?) && Early(c.tasks[id].pc)
    requires c.gates >= start.gates && OnCourse(start, past, c, c.tasks[id]) && CanAct(c, c.tasks[id], a)
    ensures var c' := Acted(c, id, a); OnCourse(start, past + [Act(id, a)], c', c'.tasks[id])
  {
    PastGrows(past, Act(id, a));
    match a
    case Enter =>
    case Create(_) =>
    case Clear =>
    case _ =>
  }

  lemma ActLate(start: Client, past: seq<Step>, c: Client, id: TaskId, a: Action)
    requires id in c.tasks && (c.tasks[id].kind.Connect? || c.tasks[id].kind.Reconnect?) && !Early(c.tasks[id].pc)
    requires c.gates >= start.gates && OnCourse(start, past, c, c.tasks[id]) && CanAct(c, c.tasks[id], a)
    ensures var c' := Acted(c, id, a); OnCourse(start, past + [Act(id, a)], c', c'.tasks[id])
  {
    PastGrows(past, Act(id, a));
    match a
    case SetConnection(_) =>
    case Reassign(_) =>
    case CheckReason =>
    case SeeGate =>
    case SetReady =>
    case _ =>
  }

  lemma ActOnCourse(start: Client, past: seq<Step>, c: Client, id: TaskId, a: Action)
    requires id in c.tasks && (c.tasks[id].kind.Connect? || c.tasks[id].kind.Reconnect?)
    requires c.gates >= start.gates && OnCourse(start, past, c, c.tasks[id]) && CanAct(c, c.tasks[id], a)
    ensures OnCourse(start, past + [Act(id, a)], Acted(c, id, a), Acted(c, id, a).tasks[id])
  {
    if Early(c.tasks[id].pc) {
      ActEarly(start, past, c, id, a);
    } else {
      ActLate(start, past, c, id, a);
    }
  }

  /** Where a call stands depends on no flag and no gate but those that fired. */
  lemma CourseStays(start: Client, past: seq<Step>, more: seq<Step>, c: Client, c': Client, t: Task)
    requires OnCourse(start, past, c, t) && (forall g :: g in c.fired ==> g in c'.fired)
    requires c'.state.session == c.state.session && c'.state.connection == c.state.connection
    requires c'.state.status == c.state.status && c'.state.iceReady == c.state.iceReady
    requires CreatedIn(more) == CreatedIn(past) && RegisteredIn(more) == RegisteredIn(past)
    requires ReassignedIn(more) == ReassignedIn(past)
    ensures OnCourse(start, more, c', t)
  {
  }

  lemma EventOnCourse(start: Client, past: seq<Step>, c: Client, id: TaskId, flag: Flag)
    requires id in c.tasks && OnCourse(start, past, c, c.tasks[id])
    ensures OnCourse(start, past + [Event(flag)], Next(c, Event(flag)), c.tasks[id])
  {
    PastGrows(past, Event(flag));
    CourseStays(start, past, past + [Event(flag)], c, Next(c, Event(flag)), c.tasks[id]);
  }

  lemma {:induction false} RunOnCourse(start: Client, past: seq<Step>, c: Client, steps: seq<Step>, id: TaskId)
    requires id in c.tasks && (c.tasks[id].kind.Connect? || c.tasks[id].kind.Reconnect?)
    requires c.gates >= start.gates && OnCourse(start, past, c, c.tasks[id]) && CanRun(c, steps) && Alone(steps, id)
    ensures var c' := After(c, steps);
            && id in c'.tasks && c'.tasks[id].kind == c.tasks[id].kind
            && OnCourse(start, past + steps, c', c'.tasks[id])
    decreases |steps|
  {
    if steps == [] {
      assert past + steps == past;
    } else {
      if steps[0].Act? {
        ActOnCourse(start, past, c, id, steps[0].act);
        KindStep(c, steps[0], id);
      } else {
        EventOnCourse(start, past, c, id, steps[0].flag);
      }
      RunOnCourse(start, past + [steps[0]], Next(c, steps[0]), steps[1..], id);
      assert past + [steps[0]] + steps[1..] == past + steps;
    }
  }

  /**
   A connect or reconnect that succeeds with nobody else acting leaves the client ready, on the session it adopted,
   created or found, on the connection the server reassigned, or it adopted, found or registered, and with a gate made
   for it fired.
   */
  lemma LoneSuccess(start: Client, steps: seq<Step>, id: TaskId)
    requires id in start.tasks && start.tasks[id].pc.Start?
    requires start.tasks[id].kind.Connect? || start.tasks[id].kind.Reconnect?
    requires CanRun(start, steps) && Alone(steps, id)
    requires id in After(start, steps).tasks && After(start, steps).tasks[id].pc == Done(Success)
    ensures var s, kind := After(start, steps).state, start.tasks[id].kind;
            && s.status.Ready? && s.iceReady
            && s.session.Some? && s.session == SessionOf(kind, start.state, steps)
            && s.connection.Some? && s.connection == ConnectionOf(kind, start.state, steps)
    ensures OwnGateFired(start, After(start, steps))
  {
    assert [] + steps == steps;
    RunOnCourse(start, [], start, steps, id);
  }

  /** A reconnect of a ready client, by what it has done to the live connection so far. */
  predicate ClosesFirst(c: Client, t: Task, past: seq<Step>, id: TaskId) {
    && t.kind.Reconnect?
    && match t.pc
       case Start => c.state.status.Ready?
       case Teardown(_, Resume) => true
       case Closing(_, _, Resume) => Act(id, TearDown) in past
       case Clearing(_, Resume) => Act(id, TearDown) in past
       case _ => Act(id, TearDown) in past && Act(id, Clear) in past
  }

  lemma StepClosesFirst(c: Client, s: Step, past: seq<Step>, id: TaskId)
    requires id in c.tasks && ClosesFirst(c, c.tasks[id], past, id) && CanStep(c, s)
    requires s.Event? || (s.Act? && s.task == id)
    ensures id in Next(c, s).tasks && ClosesFirst(Next(c, s), Next(c, s).tasks[id], past + [s], id)
  {
    if s.Act? {
      MoveClosesFirst(c, c.tasks[id], s.act, past, id);
    }
  }

  lemma MoveClosesFirst(c: Client, t: Task, a: Action, past: seq<Step>, id: TaskId)
    requires CanAct(c, t, a) && ClosesFirst(c, t, past, id)
    ensures forall c', seen :: ClosesFirst(c', Task(t.kind, PcAfter(c, t, a), seen), past + [Act(id, a)], id)
  {
    match a
    case Enter =>
    case TearDown =>
    case Clear =>
    case _ =>
  }

  lemma {:induction false} RunClosesFirst(c: Client, steps: seq<Step>, past: seq<Step>, id: TaskId)
    requires id in c.tasks && ClosesFirst(c, c.tasks[id], past, id) && CanRun(c, steps) && Alone(steps, id)
    ensures id in After(c, steps).tasks
    ensures ClosesFirst(After(c, steps), After(c, steps).tasks[id], past + steps, id)
    decreases |steps|
  {
    if steps == [] {
      assert past + steps == past;
    } else {
      StepClosesFirst(c, steps[0], past, id);
      RunClosesFirst(Next(c, steps[0]), steps[1..], past + [steps[0]], id);
      assert past + [steps[0]] + steps[1..] == past + steps;
    }
  }

  /** A reconnect of a ready client, with nobody else acting, tears the live connection down before it goes on. */
  lemma ReconnectClosesLive(c: Client, steps: seq<Step>, id: TaskId)
    requires id in c.tasks && c.tasks[id].kind.Reconnect? && c.tasks[id].pc.Start? && c.state.status.Ready?
    requires CanRun(c, steps) && Alone(steps, id)
    requires id in After(c, steps).tasks
    requires InAttempt(After(c, steps).tasks[id].pc) || After(c, steps).tasks[id].pc.Done?
    ensures Act(id, TearDown) in steps && Act(id, Clear) in steps
  {
    assert [] + steps == steps;
    RunClosesFirst(c, steps, [], id);
  }

  // ----- what the flags, the cause and the closing mark say of a run -----

  /** The step passes a guard and resets the cause of an earlier teardown. */
  predicate ResetsAt(c: Client, s: Step)
    requires CanStep(c, s)
  {
    s.Act? && Resets(c.state, c.tasks[s.task], s.act)
  }

  /** The step takes the transport down: the end of a teardown, or a reconnect's reset. */
  predicate LowersAt(c: Client, s: Step)
    requires CanStep(c, s)
  {
    s.Act? && (s.act.Clear? || (Resets(c.state, c.tasks[s.task], s.act) && c.tasks[s.task].pc.Reading?))
  }

  function FlagOf(s: State, f: Flag): bool {
    match f case PeerConnected => s.peerConnected case DataOpen => s.dataOpen case ControlOpen => s.controlOpen
  }

  /** Whether the flag was raised since the transport was last taken down. */
  predicate RaisedSince(was: bool, c: Client, steps: seq<Step>, f: Flag)
    requires CanRun(c, steps)
    decreases |steps|
  {
    if steps == [] then was
    else
      RaisedSince(steps[0] == Event(f) || (was && !LowersAt(c, steps[0])), Next(c, steps[0]), steps[1..], f)
  }

  lemma FlagStep(c: Client, s: Step, f: Flag)
    requires CanStep(c, s)
    ensures FlagOf(Next(c, s).state, f) <==> s == Event(f) || (FlagOf(c.state, f) && !LowersAt(c, s))
  {
    match s
    case Spawn(_, _) =>
    case Event(_) =>
    case Act(id, a) => FlagMove(c, c.tasks[id], a, f);
  }

  lemma FlagMove(c: Client, t: Task, a: Action, f: Flag)
    requires CanAct(c, t, a)
    ensures FlagOf(StateAfter(c, t, a), f) <==>
            FlagOf(c.state, f) && !a.Clear? && !(Resets(c.state, t, a) && t.pc.Reading?)
  {
    match a
    case Enter =>
    case Clear =>
    case _ =>
  }

  /** In every run a flag is up exactly when its event came in since the transport was last taken down. */
  lemma {:induction false} FlagExactlyWhen(c: Client, steps: seq<Step>, f: Flag)
    requires CanRun(c, steps)
    ensures FlagOf(After(c, steps).state, f) <==> RaisedSince(FlagOf(c.state, f), c, steps, f)
    decreases |steps|
  {
    if steps != [] {
      FlagStep(c, steps[0], f);
      FlagExactlyWhen(Next(c, steps[0]), steps[1..], f);
    }
  }

  /** Whether a peer state was recorded since the last reset of any call. */
  predicate RecordedSince(was: bool, c: Client, steps: seq<Step>)
    requires CanRun(c, steps)
    decreases |steps|
  {
    if steps == [] then was
    else RecordedSince(Records(steps[0]) || (was && !ResetsAt(c, steps[0])), Next(c, steps[0]), steps[1..])
  }

  lemma ReasonStep(c: Client, s: Step)
    requires CanStep(c, s)
    ensures Next(c, s).state.teardownReason.Some? <==>
            Records(s) || (c.state.teardownReason.Some? && !ResetsAt(c, s))
  {
    match s
    case Spawn(_, _) =>
    case Event(_) =>
    case Act(id, a) => ReasonMove(c, c.tasks[id], a);
  }

  lemma ReasonMove(c: Client, t: Task, a: Action)
    requires CanAct(c, t, a)
    ensures StateAfter(c, t, a).teardownReason.Some? <==>
            a.Record? || (c.state.teardownReason.Some? && !Resets(c.state, t, a))
  {
    match a
    case Enter =>
    case Record =>
    case _ =>
  }

  /** In every run a cause is on record exactly when a peer state was recorded since the last reset. */
  lemma {:induction false} ReasonExactlyWhen(c: Client, steps: seq<Step>)
    requires CanRun(c, steps)
    ensures After(c, steps).state.teardownReason.Some? <==> RecordedSince(c.state.teardownReason.Some?, c, steps)
    decreases |steps|
  {
    if steps != [] {
      ReasonStep(c, steps[0]);
      ReasonExactlyWhen(Next(c, steps[0]), steps[1..]);
    }
  }

  /** The three places an attempt looks for the cause: before and after the remote description, and at a lost gate. */
  predicate Looks(c: Client, t: Task, a: Action)
    requires CanAct(c, t, a)
  {
    a.CheckReason? || a == Describe(false) || (a.SeeGate? && t.pc.gate !in c.fired)
  }

  /**
   The other half of blaming the peer: an attempt that looks for the cause reports the peer's disconnection if and
   only if one was recorded since the last reset in the run.
   */
  lemma BlamesExactlyWhen(steps: seq<Step>, id: TaskId, a: Action)
    requires CanRun(NEW_CLIENT, steps) && CanStep(After(NEW_CLIENT, steps), Act(id, a))
    requires Looks(After(NEW_CLIENT, steps), After(NEW_CLIENT, steps).tasks[id], a)
    ensures Blames(Next(After(NEW_CLIENT, steps), Act(id, a)).tasks[id].pc) <==> RecordedSince(false, NEW_CLIENT, steps)
  {
    ReasonExactlyWhen(NEW_CLIENT, steps);
  }

  /** Whether a teardown has begun since the last reset of any call. */
  predicate TornDownSince(was: bool, c: Client, steps: seq<Step>)
    requires CanRun(c, steps)
    decreases |steps|
  {
    if steps == [] then was
    else
      var begins := steps[0].Act? && steps[0].act.TearDown?;
      TornDownSince(begins || (was && !ResetsAt(c, steps[0])), Next(c, steps[0]), steps[1..])
  }

  lemma ClosingStep(c: Client, s: Step)
    requires CanStep(c, s)
    ensures Next(c, s).state.closing <==>
            (s.Act? && s.act.TearDown?) || (c.state.closing && !ResetsAt(c, s))
  {
    match s
    case Spawn(_, _) =>
    case Event(_) =>
    case Act(id, a) => ClosingMove(c, c.tasks[id], a);
  }

  lemma ClosingMove(c: Client, t: Task, a: Action)
    requires CanAct(c, t, a)
    ensures StateAfter(c, t, a).closing <==> a.TearDown? || (c.state.closing && !Resets(c.state, t, a))
  {
    match a
    case Enter =>
    case TearDown =>
    case _ =>
  }

  lemma {:induction false} ClosingExactlyWhen(c: Client, steps: seq<Step>)
    requires CanRun(c, steps)
    ensures After(c, steps).state.closing <==> TornDownSince(c.state.closing, c, steps)
    decreases |steps|
  {
    if steps != [] {
      ClosingStep(c, steps[0]);
      ClosingExactlyWhen(Next(c, steps[0]), steps[1..]);
    }
  }

  /** A failing peer is reported exactly when the client is not disconnected and nobody has begun to tear it down. */
  lemma PeerFailureReportedExactlyWhen(steps: seq<Step>, id: TaskId)
    requires CanRun(NEW_CLIENT, steps) && id in After(NEW_CLIENT, steps).tasks
    requires var t := After(NEW_CLIENT, steps).tasks[id]; t.kind.PeerFailure? && t.pc.Start?
    ensures var c := After(NEW_CLIENT, steps);
            && CanStep(c, Act(id, Enter))
            && (Next(c, Act(id, Enter)).tasks[id].pc.Recording? <==>
                !c.state.status.Disconnected? && !TornDownSince(false, NEW_CLIENT, steps))
            && Next(c, Act(id, Enter)).state == c.state
  {
    ClosingExactlyWhen(NEW_CLIENT, steps);
  }

  // ----- a gate that was dropped, a disconnect, a peer failure -----

  lemma GateGone(c: Client, s: Step, g: GateId)
    requires CanStep(c, s) && g < c.gates && g !in c.fired && c.state.readyGate != Some(g)
    ensures g < Next(c, s).gates && g !in Next(c, s).fired && Next(c, s).state.readyGate != Some(g)
  {
    match s
    case Spawn(_, _) =>
    case Event(_) =>
    case Act(id, a) =>
      if !a.Install? {
        MoveKeepsGate(c, c.tasks[id], a);
      }
  }

  lemma {:induction false} DroppedGateNeverFires(c: Client, steps: seq<Step>, g: GateId)
    requires CanRun(c, steps) && g < c.gates && g !in c.fired && c.state.readyGate != Some(g)
    ensures g !in After(c, steps).fired
    decreases |steps|
  {
    if steps != [] {
      GateGone(c, steps[0], g);
      DroppedGateNeverFires(Next(c, steps[0]), steps[1..], g);
    }
  }

  /** A teardown drops the gate: no attempt that is waiting when one begins gets through it. */
  lemma TeardownDropsGate(c: Client, id: TaskId, future: seq<Step>, g: GateId)
    requires CanStep(c, Act(id, TearDown)) && g < c.gates && g !in c.fired
    requires CanRun(Next(c, Act(id, TearDown)), future)
    ensures g !in After(Next(c, Act(id, TearDown)), future).fired
  {
    DroppedGateNeverFires(Next(c, Act(id, TearDown)), future, g);
  }

  /** A lone disconnect, followed to its end. */
  predicate Disconnecting(c: Client, t: Task, mine: Option<SessionId>, before: seq<SessionId>) {
    && t.kind.Disconnect?
    && match t.pc
       case Start => Holds(c, mine) && c.terminated == before
       case Teardown(rec, o) => !rec && o.Finished? && Holds(c, mine) && c.terminated == before
       case Closing(rec, term, o) => !rec && o.Finished? && term == mine && c.terminated == before
       case Clearing(rec, o) => !rec && o.Finished? && c.terminated == before + Listed(mine)
       case Cleared(o) => o.Finished? && Unbound(c) && c.terminated == before + Listed(mine)
       case Done(o) =>
         o.Finished? && Unbound(c) && c.terminated == before + Listed(mine) && c.state.status.Disconnected?
       case _ => false
  }

  lemma {:induction false} RunDisconnecting(c: Client, steps: seq<Step>, id: TaskId, mine: Option<SessionId>,
                                            before: seq<SessionId>)
    requires id in c.tasks && Disconnecting(c, c.tasks[id], mine, before) && CanRun(c, steps) && Alone(steps, id)
    ensures id in After(c, steps).tasks && Disconnecting(After(c, steps), After(c, steps).tasks[id], mine, before)
    decreases |steps|
  {
    if steps != [] {
      if steps[0].Act? {
        ActDisconnecting(c, id, steps[0].act, mine, before);
      } else {
        EventDisconnecting(c, steps[0].flag, id, mine, before);
      }
      RunDisconnecting(Next(c, steps[0]), steps[1..], id, mine, before);
    }
  }

  lemma EventDisconnecting(c: Client, flag: Flag, id: TaskId, mine: Option<SessionId>, before: seq<SessionId>)
    requires id in c.tasks && Disconnecting(c, c.tasks[id], mine, before)
    ensures Disconnecting(Next(c, Event(flag)), c.tasks[id], mine, before)
  {
  }

  lemma ActDisconnecting(c: Client, id: TaskId, a: Action, mine: Option<SessionId>, before: seq<SessionId>)
    requires id in c.tasks && Disconnecting(c, c.tasks[id], mine, before) && CanAct(c, c.tasks[id], a)
    ensures Disconnecting(Acted(c, id, a), Acted(c, id, a).tasks[id], mine, before)
  {
    match a
    case Enter =>
    case TearDown =>
    case Terminate =>
    case Clear =>
    case SetDisconnected =>
    case _ => assert false;
  }

  /**
   A disconnect with nobody else acting terminates the session if the client created it, once, and nothing else, and
   leaves the client with no session, no connection id and disconnected.
   */
  lemma LoneDisconnect(c: Client, steps: seq<Step>, id: TaskId)
    requires id in c.tasks && c.tasks[id].kind.Disconnect? && c.tasks[id].pc.Start?
    requires Owned(c) && CanRun(c, steps) && Alone(steps, id)
    requires id in After(c, steps).tasks && After(c, steps).tasks[id].pc.Done?
    ensures var c' := After(c, steps);
            && c'.terminated == c.terminated + (if c.state.created then [c.state.session.value] else [])
            && Unbound(c') && c'.state.status.Disconnected?
  {
    var mine := if c.state.created then c.state.session else None;
    RunDisconnecting(c, steps, id, mine, c.terminated);
  }

  /** A lone peer failure that is reported, followed to its end. */
  predicate Failing(start: Client, c: Client, t: Task) {
    && t.kind.PeerFailure? && c.terminated == start.terminated
    && c.state.session == start.state.session && c.state.created == start.state.created
    && c.state.connection == start.state.connection
    && match t.pc
       case Recording => true
       case Teardown(rec, o) => rec && o.Finished? && c.state.teardownReason == Some(t.kind.state)
       case Closing(rec, term, o) =>
         rec && o.Finished? && term.None? && c.state.teardownReason == Some(t.kind.state) && c.state.closing
       case Clearing(rec, o) =>
         rec && o.Finished? && c.state.teardownReason == Some(t.kind.state) && c.state.closing
       case Cleared(o) =>
         o.Finished? && c.state.teardownReason == Some(t.kind.state) && c.state.closing && !c.state.iceReady
       case Done(o) =>
         && o.Finished? && c.state.teardownReason == Some(t.kind.state) && c.state.closing && !c.state.iceReady
         && c.state.status.Disconnected?
       case _ => false
  }

  lemma EventFailing(start: Client, c: Client, flag: Flag, id: TaskId)
    requires id in c.tasks && Failing(start, c, c.tasks[id])
    ensures Failing(start, Next(c, Event(flag)), c.tasks[id])
  {
  }

  lemma ActFailing(start: Client, c: Client, id: TaskId, a: Action)
    requires id in c.tasks && Failing(start, c, c.tasks[id]) && CanAct(c, c.tasks[id], a)
    ensures Failing(start, Acted(c, id, a), Acted(c, id, a).tasks[id])
  {
    match a
    case Record =>
    case TearDown =>
    case Terminate =>
    case Clear =>
    case SetDisconnected =>
    case _ => assert false;
  }

  lemma {:induction false} RunFailing(start: Client, c: Client, steps: seq<Step>, id: TaskId)
    requires id in c.tasks && Failing(start, c, c.tasks[id]) && CanRun(c, steps) && Alone(steps, id)
    ensures id in After(c, steps).tasks && Failing(start, After(c, steps), After(c, steps).tasks[id])
    decreases |steps|
  {
    if steps != [] {
      if steps[0].Act? {
        ActFailing(start, c, id, steps[0].act);
      } else {
        EventFailing(start, c, steps[0].flag, id);
      }
      RunFailing(start, Next(c, steps[0]), steps[1..], id);
    }
  }

  /**
   A reported peer failure with nobody else acting records what the peer said, ends disconnected, and keeps session,
   ownership and connection id for the reconnect, terminating nothing.
   */
  lemma LonePeerFailure(c: Client, steps: seq<Step>, id: TaskId)
    requires id in c.tasks && c.tasks[id].kind.PeerFailure? && c.tasks[id].pc.Recording?
    requires CanRun(c, steps) && Alone(steps, id)
    requires id in After(c, steps).tasks && After(c, steps).tasks[id].pc.Done?
    ensures var c' := After(c, steps);
            && c'.state.teardownReason == Some(c.tasks[id].kind.state) && c'.state.status.Disconnected?
            && c'.state.session == c.state.session && c'.state.created == c.state.created
            && c'.state.connection == c.state.connection && c'.terminated == c.terminated
  {
    RunFailing(c, c, steps, id);
    KindStays(c, steps, id);
  }

  lemma {:induction false} KindStays(c: Client, steps: seq<Step>, id: TaskId)
    requires id in c.tasks && CanRun(c, steps)
    ensures id in After(c, steps).tasks && After(c, steps).tasks[id].kind == c.tasks[id].kind
    decreases |steps|
  {
    if steps != [] {
      KindStep(c, steps[0], id);
      KindStays(Next(c, steps[0]), steps[1..], id);
    }
  }

  lemma KindStep(c: Client, s: Step, id: TaskId)
    requires id in c.tasks && CanStep(c, s)
    ensures id in Next(c, s).tasks && Next(c, s).tasks[id].kind == c.tasks[id].kind
  {
  }

  // ----- a transport that finishes too late -----

  lemma {:induction false} Extend(c: Client, steps: seq<Step>, s: Step)
    requires CanRun(c, steps) && CanStep(After(c, steps), s)
    ensures CanRun(c, steps + [s]) && After(c, steps + [s]) == Next(After(c, steps), s)
    decreases |steps|
  {
    if steps == [] {
      assert ([] + [s])[1..] == [];
    } else {
      Extend(Next(c, steps[0]), steps[1..], s);
      assert (steps + [s])[1..] == steps[1..] + [s];
    }
  }

  /** A connect on its way to registering its connection. */
  lemma ReachesRegistering(session: SessionId) returns (steps: seq<Step>)
    ensures CanRun(NEW_CLIENT, steps)
    ensures var c := After(NEW_CLIENT, steps);
            && c.tasks == map[0 := Task(Connect(None, None), Registering(0, None), false)]
            && c.state.session == Some(session)
  {
    steps := [];
    Extend(NEW_CLIENT, steps, Spawn(0, Connect(None, None)));
    steps := steps + [Spawn(0, Connect(None, None))];
    assert After(NEW_CLIENT, steps).tasks == map[0 := Task(Connect(None, None), Start, false)];
    Extend(NEW_CLIENT, steps, Act(0, Enter));
    steps := steps + [Act(0, Enter)];
    assert After(NEW_CLIENT, steps).tasks == map[0 := Task(Connect(None, None), Creating, false)];
    Extend(NEW_CLIENT, steps, Act(0, Create(session)));
    steps := steps + [Act(0, Create(session))];
    assert After(NEW_CLIENT, steps).tasks == map[0 := Task(Connect(None, None), HasSession, false)];
    Extend(NEW_CLIENT, steps, Act(0, SetWaiting));
    steps := steps + [Act(0, SetWaiting)];
    assert After(NEW_CLIENT, steps).tasks == map[0 := Task(Connect(None, None), Negotiating, false)];
    Extend(NEW_CLIENT, steps, Act(0, Install));
    steps := steps + [Act(0, Install)];
    assert After(NEW_CLIENT, steps).tasks == map[0 := Task(Connect(None, None), Gated(0), false)];
    Extend(NEW_CLIENT, steps, Act(0, ReadConnection));
    steps := steps + [Act(0, ReadConnection)];
  }

  /** A whole disconnect, whatever the other calls are in the middle of. */
  lemma DisconnectRuns(c: Client, id: TaskId) returns (steps: seq<Step>)
    requires id !in c.tasks
    ensures CanRun(c, steps)
    ensures var c' := After(c, steps); OnlyMoved(c, c', id) && c'.state.session.None? && c'.state.status.Disconnected?
  {
    steps := [];
    Extend(c, steps, Spawn(id, Disconnect));
    steps := steps + [Spawn(id, Disconnect)];
    Extend(c, steps, Act(id, Enter));
    steps := steps + [Act(id, Enter)];
    var more := TearsDown(After(c, steps), id);
    Continue(c, steps, more);
    steps := steps + more;
  }

  lemma {:induction false} Continue(c: Client, a: seq<Step>, b: seq<Step>)
    requires CanRun(c, a) && CanRun(After(c, a), b)
    ensures CanRun(c, a + b) && After(c, a + b) == After(After(c, a), b)
    decreases |a|
  {
    if a == [] {
      assert a + b == b;
    } else {
      Continue(Next(c, a[0]), a[1..], b);
      assert (a + b)[1..] == a[1..] + b;
    }
  }

  /**
   A connect overtaken by a whole disconnect still marks its connection ready, so the client can hold a ready
   connection and no session.
   */
  lemma ReadyWithoutSession(session: SessionId, connection: nat) returns (steps: seq<Step>)
    ensures CanRun(NEW_CLIENT, steps)
    ensures After(NEW_CLIENT, steps).state.iceReady && After(NEW_CLIENT, steps).state.session.None?
  {
    var connecting := ReachesRegistering(session);
    var c := After(NEW_CLIENT, connecting);
    var disconnecting := DisconnectRuns(c, 1);
    Continue(NEW_CLIENT, connecting, disconnecting);
    steps := connecting + disconnecting;
    Extend(NEW_CLIENT, steps, Act(0, SetConnection(connection)));
    steps := steps + [Act(0, SetConnection(connection))];
  }

  // ----- a reconnect that registers too late -----

  /** Of the calls, only `id` has started or moved. */
  predicate OnlyMoved(c: Client, c': Client, id: TaskId) {
    id in c'.tasks && c'.tasks == c.tasks[id := c'.tasks[id]]
  }

  /** A reconnect that finds a session with no connection id yet, up to registering. */
  lemma ReconnectFindsNone(c: Client, id: TaskId) returns (steps: seq<Step>)
    requires id !in c.tasks && Unconnected(c.state) && !c.state.status.Ready?
    ensures CanRun(c, steps)
    ensures var c' := After(c, steps);
            && id in c'.tasks && c'.tasks[id] == Task(Reconnect, Registering(c.gates, None), false)
            && OnlyMoved(c, c', id) && c'.state.session == c.state.session && c'.created == c.created
  {
    steps := [];
    Extend(c, steps, Spawn(id, Reconnect));
    steps := steps + [Spawn(id, Reconnect)];
    Extend(c, steps, Act(id, Enter));
    steps := steps + [Act(id, Enter)];
    Extend(c, steps, Act(id, Enter));
    steps := steps + [Act(id, Enter)];
    Extend(c, steps, Act(id, SetWaiting));
    steps := steps + [Act(id, SetWaiting)];
    var more := GateThenRead(After(c, steps), id);
    Continue(c, steps, more);
    steps := steps + more;
  }

  lemma GateThenRead(c: Client, id: TaskId) returns (steps: seq<Step>)
    requires id in c.tasks && c.tasks[id].pc.Negotiating? && !AllUp(c.state)
    ensures CanRun(c, steps)
    ensures var c' := After(c, steps);
            && OnlyMoved(c, c', id)
            && c'.tasks[id] == c.tasks[id].(pc := Registering(c.gates, c.state.connection))
            && c'.state == c.state.(readyGate := Some(c.gates)) && c'.created == c.created && c'.fired == c.fired
  {
    steps := [];
    Extend(c, steps, Act(id, Install));
    steps := steps + [Act(id, Install)];
    Extend(c, steps, Act(id, ReadConnection));
    steps := steps + [Act(id, ReadConnection)];
  }

  /** A connect that fails before it has a connection, through the whole teardown. */
  lemma ConnectFails(c: Client, id: TaskId) returns (steps: seq<Step>)
    requires id in c.tasks && c.tasks[id].kind.Connect? && c.tasks[id].pc.HasSession?
    ensures CanRun(c, steps)
    ensures var c' := After(c, steps);
            && OnlyMoved(c, c', id) && c'.tasks[id].pc.Done? && c'.created == c.created
            && Unbound(c') && c'.state.status.Disconnected? && !c'.state.peerConnected
  {
    steps := [];
    Extend(c, steps, Act(id, SetWaiting));
    steps := steps + [Act(id, SetWaiting)];
    Extend(c, steps, Act(id, Fail));
    steps := steps + [Act(id, Fail)];
    var more := TearsDown(After(c, steps), id);
    Continue(c, steps, more);
    steps := steps + more;
  }

  lemma TearsDown(c: Client, id: TaskId) returns (steps: seq<Step>)
    requires id in c.tasks && c.tasks[id].pc.Teardown? && !c.tasks[id].pc.recoverable && !c.tasks[id].pc.outcome.Resume?
    ensures CanRun(c, steps)
    ensures var c' := After(c, steps);
            && OnlyMoved(c, c', id) && c'.tasks[id].pc.Done? && c'.created == c.created
            && Unbound(c') && c'.state.status.Disconnected? && !c'.state.peerConnected
  {
    steps := [];
    Extend(c, steps, Act(id, TearDown));
    steps := steps + [Act(id, TearDown)];
    Extend(c, steps, Act(id, Terminate));
    steps := steps + [Act(id, Terminate)];
    Extend(c, steps, Act(id, Clear));
    steps := steps + [Act(id, Clear)];
    Extend(c, steps, Act(id, SetDisconnected));
    steps := steps + [Act(id, SetDisconnected)];
  }

  /** A connect up to its session, on a client nobody has connected. */
  lemma ConnectBegins(c: Client, id: TaskId, session: SessionId) returns (steps: seq<Step>)
    requires id !in c.tasks && c.state.status.Disconnected? && session !in c.created
    ensures CanRun(c, steps)
    ensures var c' := After(c, steps);
            && OnlyMoved(c, c', id) && c'.tasks[id] == Task(Connect(None, None), HasSession, false)
            && c'.state == BeginConnect(c.state).(session := Some(session), created := true)
            && c'.created == c.created + {session} && c'.fired == c.fired && c'.gates == c.gates
  {
    steps := [];
    Extend(c, steps, Spawn(id, Connect(None, None)));
    steps := steps + [Spawn(id, Connect(None, None))];
    Extend(c, steps, Act(id, Enter));
    steps := steps + [Act(id, Enter)];
    Extend(c, steps, Act(id, Create(session)));
    steps := steps + [Act(id, Create(session))];
  }

  /** The rest of a connect that goes well: its connection, the answer, the three flags, ready. */
  lemma ConnectSucceeds(c: Client, id: TaskId, connection: nat) returns (steps: seq<Step>)
    requires id in c.tasks && c.tasks[id] == Task(Connect(None, None), HasSession, false)
    requires c.state.session.Some? && !c.state.peerConnected && c.state.teardownReason.None?
    ensures CanRun(c, steps)
    ensures var c' := After(c, steps);
            && OnlyMoved(c, c', id) && c'.tasks[id].pc == Done(Success)
            && c'.state.session == c.state.session && c'.state.connection == Some(connection)
  {
    steps := [];
    Extend(c, steps, Act(id, SetWaiting));
    steps := steps + [Act(id, SetWaiting)];
    var gate := GateThenRead(After(c, steps), id);
    Continue(c, steps, gate);
    steps := steps + gate;
    var answer := AnswerArrives(After(c, steps), id, connection);
    Continue(c, steps, answer);
    steps := steps + answer;
    var ready := BecomesReady(After(c, steps), id);
    Continue(c, steps, ready);
    steps := steps + ready;
  }

  lemma AnswerArrives(c: Client, id: TaskId, connection: nat) returns (steps: seq<Step>)
    requires id in c.tasks && c.tasks[id].kind == Connect(None, None) && c.tasks[id].pc.Registering?
    requires c.state.teardownReason.None?
    ensures CanRun(c, steps)
    ensures var c' := After(c, steps);
            && OnlyMoved(c, c', id) && c'.tasks[id].pc == AwaitingGate(c.tasks[id].pc.gate)
            && c'.state == c.state.(connection := Some(connection), iceReady := true)
  {
    steps := [];
    Extend(c, steps, Act(id, SetConnection(connection)));
    steps := steps + [Act(id, SetConnection(connection))];
    Extend(c, steps, Act(id, CheckReason));
    steps := steps + [Act(id, CheckReason)];
    Extend(c, steps, Act(id, Describe(true)));
    steps := steps + [Act(id, Describe(true))];
  }

  lemma BecomesReady(c: Client, id: TaskId) returns (steps: seq<Step>)
    requires id in c.tasks && c.tasks[id].pc.AwaitingGate? && c.state.readyGate == Some(c.tasks[id].pc.gate)
    requires !c.state.peerConnected
    ensures CanRun(c, steps)
    ensures var c' := After(c, steps);
            && OnlyMoved(c, c', id) && c'.tasks[id].pc == Done(Success)
            && c'.state.session == c.state.session && c'.state.connection == c.state.connection
  {
    var flags := FlagsUp(c);
    var c' := After(c, flags);
    Extend(c, flags, Act(id, SeeGate));
    steps := flags + [Act(id, SeeGate)];
    Extend(c, steps, Act(id, SetReady));
    steps := steps + [Act(id, SetReady)];
  }

  lemma FlagsUp(c: Client) returns (steps: seq<Step>)
    requires c.state.readyGate.Some? && !c.state.peerConnected
    ensures CanRun(c, steps)
    ensures var c' := After(c, steps);
            && c'.tasks == c.tasks && c.state.readyGate.value in c'.fired
            && c'.state.session == c.state.session && c'.state.connection == c.state.connection
  {
    steps := [];
    Extend(c, steps, Event(DataOpen));
    steps := steps + [Event(DataOpen)];
    Extend(c, steps, Event(ControlOpen));
    steps := steps + [Event(ControlOpen)];
    Extend(c, steps, Event(PeerConnected));
    steps := steps + [Event(PeerConnected)];
  }

  /** A reconnect left registering, having found no connection id, on a client that has nothing any more. */
  lemma StaleReconnect() returns (steps: seq<Step>)
    ensures CanRun(NEW_CLIENT, steps)
    ensures var c := After(NEW_CLIENT, steps);
            && c.tasks.Keys == {0, 1} && c.tasks[0].pc.Done?
            && c.tasks[1] == Task(Reconnect, Registering(0, None), false)
            && c.created == {1} && c.state.status.Disconnected? && !c.state.peerConnected
  {
    steps := ConnectBegins(NEW_CLIENT, 0, 1);
    assert After(NEW_CLIENT, steps).tasks.Keys == {0};
    var stale := ReconnectFindsNone(After(NEW_CLIENT, steps), 1);
    Continue(NEW_CLIENT, steps, stale);
    steps := steps + stale;
    assert After(NEW_CLIENT, steps).tasks.Keys == {0, 1};
    var failed := ConnectFails(After(NEW_CLIENT, steps), 0);
    Continue(NEW_CLIENT, steps, failed);
    steps := steps + failed;
  }

  lemma FreshConnect(c: Client) returns (steps: seq<Step>)
    requires 2 !in c.tasks && 3 !in c.created && c.state.status.Disconnected? && !c.state.peerConnected
    ensures CanRun(c, steps)
    ensures var c' := After(c, steps);
            && OnlyMoved(c, c', 2) && c'.tasks[2].pc == Done(Success)
            && c'.state.session == Some(3) && c'.state.connection == Some(7)
  {
    steps := ConnectBegins(c, 2, 3);
    var done := ConnectSucceeds(After(c, steps), 2, 7);
    Continue(c, steps, done);
    steps := steps + done;
  }

  /**
   A run to such a state. A reconnect reads the connection while a connect has a session and no connection yet; the
   connect fails and is torn down; another connect succeeds, and the client holds its session and connection 7. The
   reconnect, still registering, then replaces the connection.
   */
  lemma StaleReconnectReplaces() returns (steps: seq<Step>)
    ensures CanRun(NEW_CLIENT, steps)
    ensures var c := After(NEW_CLIENT, steps);
            && AllRecover(c) && c.state.session.Some? && c.state.connection == Some(7) && !AllGoOnWith(c, 7)
            && CanStep(c, Act(1, SetConnection(8))) && Next(c, Act(1, SetConnection(8))).state.connection == Some(8)
  {
    steps := StaleReconnect();
    var connected := FreshConnect(After(NEW_CLIENT, steps));
    Continue(NEW_CLIENT, steps, connected);
    steps := steps + connected;
    var c := After(NEW_CLIENT, steps);
    assert c.tasks.Keys == {0, 1, 2};
    assert c.tasks[1].pc.Registering? && c.tasks[1].pc.existing.None?;
  }

  // ----- the preset tracks -----

  /** `swap_remove`: the last element takes the place of the removed one. */
  function SwapRemove<T>(s: seq<T>, i: nat): seq<T>
    requires i < |s|
  {
    var last := |s| - 1;
    if i == last then s[..last] else s[..last][i := s[last]]
  }

  lemma SwapRemoveTakesOne<T>(s: seq<T>, i: nat)
    requires i < |s|
    ensures multiset(SwapRemove(s, i)) == multiset(s) - multiset{s[i]}
  {
    var last := |s| - 1;
    assert s == s[..last] + [s[last]];
    if i != last {
      var t := s[..last];
      assert multiset(t[i := s[last]]) == multiset(t) - multiset{t[i]} + multiset{s[last]};
    }
  }

  lemma MissingOne<T>(a: seq<T>, b: seq<T>, remaining: seq<T>, k: nat)
    requires k < |a| && a[k] !in remaining
    requires multiset(remaining) + multiset(a[..k]) == multiset(b)
    ensures multiset(a) != multiset(b)
  {
    assert a == a[..k] + [a[k]] + a[k + 1..];
    assert multiset(a)[a[k]] >= multiset(a[..k])[a[k]] + 1;
    assert multiset(b)[a[k]] == multiset(a[..k])[a[k]];
  }

  /** Whether the preset tracks are the negotiated ones, in any order and with the same multiplicities. */
  method TracksMatch<T(==)>(a: seq<T>, b: seq<T>) returns (same: bool)
    ensures same <==> multiset(a) == multiset(b)
  {
    if |a| != |b| {
      assert |multiset(a)| != |multiset(b)|;
      return false;
    }
    var remaining := b;
    for k := 0 to |a|
      invariant |remaining| == |b| - k
      invariant multiset(remaining) + multiset(a[..k]) == multiset(b)
    {
      var i := 0;
      while i < |remaining| && remaining[i] != a[k]
        invariant 0 <= i <= |remaining| && a[k] !in remaining[..i]
      {
        i := i + 1;
      }
      if i == |remaining| {
        assert remaining[..i] == remaining;
        MissingOne(a, b, remaining, k);
        return false;
      }
      assert a[..k + 1] == a[..k] + [a[k]];
      SwapRemoveTakesOne(remaining, i);
      remaining := SwapRemove(remaining, i);
    }
    assert a[..|a|] == a;
    return true;
  }

  // ----- the locked sections as code -----

  class ReactorState {
    var status: Status
    var session: Option<SessionId>
    var created: bool
    var connection: Option<nat>
    var peerConnected: bool
    var dataOpen: bool
    var controlOpen: bool
    var readyGate: Option<GateId>
    var iceReady: bool
    var closing: bool
    var teardownReason: Option<PeerState>

    function View(): State
      reads this
    {
      State(status, session, created, connection, peerConnected, dataOpen, controlOpen, readyGate,
            iceReady, closing, teardownReason)
    }

    constructor ()
      ensures View() == NEW_STATE
    {
      status, session, created, connection := Disconnected, None, false, None;
      peerConnected, dataOpen, controlOpen, readyGate := false, false, false, None;
      iceReady, closing, teardownReason := false, false, None;
    }

    method GuardConnect() returns (admitted: bool)
      modifies this
      ensures admitted <==> old(status).Disconnected?
      ensures View() == if admitted then BeginConnect(old(View())) else old(View())
    {
      if !status.Disconnected? {
        return false;
      }
      closing, teardownReason, status := false, None, Connecting;
      return true;
    }

    method GuardReconnect() returns (held: Option<SessionId>)
      modifies this
      ensures held == old(session)
      ensures View() == if held.Some? then BeginReconnect(old(View())) else old(View())
    {
      held := session;
      if held.None? {
        return;
      }
      closing, teardownReason := false, None;
      peerConnected, dataOpen, controlOpen, iceReady := false, false, false, false;
      status := Connecting;
    }

    method CheckReadyLocked() returns (fired: Option<GateId>)
      modifies this`readyGate
      ensures (View(), fired) == CheckReady(old(View()))
    {
      fired := None;
      if peerConnected && dataOpen && controlOpen {
        fired := readyGate;
        readyGate := None;
      }
    }

    method InstallGate(gate: GateId) returns (fired: Option<GateId>)
      modifies this`readyGate
      ensures (View(), fired) == CheckReady(old(View()).(readyGate := Some(gate)))
    {
      readyGate := Some(gate);
      fired := CheckReadyLocked();
    }

    method OnFlag(flag: Flag) returns (fired: Option<GateId>)
      modifies this
      ensures (View(), fired) == CheckReady(Raise(old(View()), flag))
    {
      match flag {
        case PeerConnected => peerConnected := true;
        case DataOpen => dataOpen := true;
        case ControlOpen => controlOpen := true;
      }
      fired := CheckReadyLocked();
    }

    method StartTeardown(recoverable: bool) returns (terminate: Option<SessionId>)
      modifies this
      ensures (View(), terminate) == BeginTeardown(old(View()), recoverable)
    {
      closing := true;
      readyGate := None;
      terminate := if !recoverable && created then session else None;
    }

    method FinishTeardown(recoverable: bool)
      modifies this
      ensures View() == EndTeardown(old(View()), recoverable)
    {
      peerConnected, dataOpen, controlOpen, iceReady := false, false, false, false;
      if !recoverable {
        session, created, connection := None, false, None;
      }
    }
  }
}

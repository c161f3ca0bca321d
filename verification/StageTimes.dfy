/**
 The stage times the SDK keeps itself: totals per stage, tagged with the connection they belong to.

 `StageTimes` keeps a total per track and stage, `MessageTimes` a total per stage; what is proved here is
 about both, so the totals are a map from an arbitrary key. A `Book` is one of them with every batch taken
 from it, and records which measurements a total is made of.
 */
module StageTotals {
  import opened Prelude

  datatype Reading = Reading(ms: real, count: nat)

  const ZERO := Reading(0.0, 0)

  function Plus(a: Reading, b: Reading): Reading {
    Reading(a.ms + b.ms, a.count + b.count)
  }

  function Get<K(==)>(totals: map<K, Reading>, k: K): Reading {
    if k in totals then totals[k] else ZERO
  }

  /** Only a finite time of at least zero counts. */
  predicate Measured(ms: Float) {
    ms.Finite? && ms.value >= 0.0
  }

  /** `add_to`: one reading more under `k`, unless there is nothing to add. */
  function AddTo<K(==)>(totals: map<K, Reading>, k: K, ms: Float, count: nat): map<K, Reading> {
    if !Measured(ms) || count == 0 then totals
    else OneMore(totals, k, Reading(ms.value, count))
  }

  function OneMore<K(==)>(totals: map<K, Reading>, k: K, r: Reading): map<K, Reading> {
    totals[k := Plus(Get(totals, k), r)]
  }

  /** Putting back what was taken: every known stage's reading is added again. */
  function GivenBack<K(==)>(known: K -> bool, totals: map<K, Reading>, stages: map<K, Reading>): map<K, Reading> {
    map k | k in totals.Keys + stages.Keys && (k in totals || known(k)) ::
      if known(k) then Plus(Get(totals, k), Get(stages, k)) else Get(totals, k)
  }

  /** Giving back one reading more. */
  lemma GiveBackOne<K>(known: K -> bool, totals: map<K, Reading>, stages: map<K, Reading>, k: K, r: Reading)
    requires k !in stages
    ensures GivenBack(known, totals, stages[k := r]) ==
      var t := GivenBack(known, totals, stages);
      if known(k) then OneMore(t, k, r) else t
  {
  }

  lemma GiveBackNothing<K>(known: K -> bool, totals: map<K, Reading>)
    ensures GivenBack(known, totals, map[]) == totals
  {
    forall k | k in totals ensures GivenBack(known, totals, map[])[k] == totals[k] {
      assert Plus(totals[k], ZERO) == totals[k];
    }
  }

  /** Every entry counts something, and no time is negative. */
  predicate Counting<K>(totals: map<K, Reading>) {
    forall k :: k in totals ==> totals[k].count > 0 && totals[k].ms >= 0.0
  }

  // ----- totals and the measurements they are made of -----

  /** One frame or command timed in one stage, tagged with the connection its timing started on. */
  datatype Measure<K> = Measure(tag: nat, key: K, ms: real)

  /** The time these measurements add up to under `k`, and how many they are. */
  function Time<K(==)>(from: seq<Measure<K>>, k: K): real {
    if from == [] then 0.0 else (if from[0].key == k then from[0].ms else 0.0) + Time(from[1..], k)
  }

  function Count<K(==)>(from: seq<Measure<K>>, k: K): nat {
    if from == [] then 0 else (if from[0].key == k then 1 else 0) + Count(from[1..], k)
  }

  function Totalled<K(==)>(from: seq<Measure<K>>, k: K): Reading {
    Reading(Time(from, k), Count(from, k))
  }

  lemma {:induction false} SumAppend<K>(a: seq<Measure<K>>, b: seq<Measure<K>>, k: K)
    ensures Time(a + b, k) == Time(a, k) + Time(b, k)
    ensures Count(a + b, k) == Count(a, k) + Count(b, k)
  {
    if a == [] {
      assert a + b == b;
    } else {
      SumAppend(a[1..], b, k);
      assert (a + b)[1..] == a[1..] + b;
    }
  }

  /** The totals are exactly the sums of these measurements. */
  ghost predicate Tallies<K(!new)>(totals: map<K, Reading>, from: seq<Measure<K>>) {
    Counting(totals) && forall k :: Get(totals, k) == Totalled(from, k)
  }

  ghost predicate Tagged<K(!new)>(from: seq<Measure<K>>, tag: nat, known: K -> bool) {
    forall m :: m in from ==> m.tag == tag && known(m.key) && m.ms >= 0.0
  }

  // ----- adds, takes, give-backs and connections, in any order -----

  /** A batch taken by the reporter of connection `generation`. */
  datatype Batch<K> = Batch(generation: nat, stages: map<K, Reading>, from: seq<Measure<K>>)

  datatype Book<K> = Book(
    generation: nat,
    totals: map<K, Reading>,
    out: map<nat, Batch<K>>,       // taken and not given back
    held: seq<Measure<K>>,         // what the totals are made of
    added: seq<Measure<K>>,        // measurements counted, of the current connection
    ever: seq<Measure<K>>)         // measurements counted, of any connection

  function NewBook<K>(): Book<K> {
    Book(0, map[], map[], [], [], [])
  }

  datatype Step<K> =
    | Begin
    | AddFrom(tag: nat, key: K, ms: Float)
    | TakeFrom(tag: nat, batch: nat)
    | GiveBack(batch: nat)

  predicate CanStep<K>(known: K -> bool, b: Book<K>, s: Step<K>) {
    match s
    case Begin => true
    case AddFrom(_, key, _) => known(key)
    case TakeFrom(_, id) => id !in b.out
    case GiveBack(id) => id in b.out
  }

  function Next<K(==)>(known: K -> bool, b: Book<K>, s: Step<K>): Book<K>
    requires CanStep(known, b, s)
  {
    match s
    case Begin => Book(b.generation + 1, map[], b.out, [], [], b.ever)
    case AddFrom(tag, key, ms) =>
      if !Measured(ms) || tag != b.generation then b
      else
        var m := [Measure(tag, key, ms.value)];
        b.(totals := AddTo(b.totals, key, ms, 1), held := b.held + m, added := b.added + m, ever := b.ever + m)
    case TakeFrom(tag, id) =>
      if tag != b.generation then b
      else b.(totals := map[], held := [], out := b.out[id := Batch(tag, b.totals, b.held)])
    case GiveBack(id) =>
      var batch := b.out[id];
      if batch.generation != b.generation then b.(out := b.out - {id})
      else b.(totals := GivenBack(known, b.totals, batch.stages), held := b.held + batch.from, out := b.out - {id})
  }

  predicate CanRun<K>(known: K -> bool, b: Book<K>, steps: seq<Step<K>>)
    decreases |steps|
  {
    steps == [] || (CanStep(known, b, steps[0]) && CanRun(known, Next(known, b, steps[0]), steps[1..]))
  }

  function After<K(==)>(known: K -> bool, b: Book<K>, steps: seq<Step<K>>): Book<K>
    requires CanRun(known, b, steps)
    decreases |steps|
  {
    if steps == [] then b else After(known, Next(known, b, steps[0]), steps[1..])
  }

  // ----- what every step keeps -----

  ghost predicate BatchSound<K(!new)>(known: K -> bool, b: Book<K>, batch: Batch<K>) {
    && Tallies(batch.stages, batch.from) && Tagged(batch.from, batch.generation, known)
    && forall m :: m in batch.from ==> m in b.ever
  }

  /** What the batches of one connection that are out carry under `k`, batch by batch. */
  function CountsOut<K(==)>(out: map<nat, Batch<K>>, generation: nat, k: K): map<nat, nat> {
    map id | id in out && out[id].generation == generation :: Get(out[id].stages, k).count
  }

  function TimesOut<K(==)>(out: map<nat, Batch<K>>, generation: nat, k: K): map<nat, real> {
    map id | id in out && out[id].generation == generation :: Get(out[id].stages, k).ms
  }

  /** Added is what is held plus what the current connection's batches that are out carry, key by key. */
  ghost predicate Conserved<K(!new)>(b: Book<K>) {
    && (forall k :: Time(b.added, k) == Time(b.held, k) + RealSum(TimesOut(b.out, b.generation, k)))
    && (forall k :: Count(b.added, k) == Count(b.held, k) + Sum(CountsOut(b.out, b.generation, k)))
  }

  ghost predicate Valid<K(!new)>(known: K -> bool, b: Book<K>) {
    && Tallies(b.totals, b.held) && Tagged(b.held, b.generation, known)
    && (forall m :: m in b.held ==> m in b.ever)
    && (forall id :: id in b.out ==> BatchSound(known, b, b.out[id]) && b.out[id].generation <= b.generation)
    && Conserved(b)
  }

  lemma OneMoreOut<K>(out: map<nat, Batch<K>>, id: nat, batch: Batch<K>, generation: nat, k: K)
    requires id !in out && batch.generation == generation
    ensures Sum(CountsOut(out[id := batch], generation, k)) ==
            Sum(CountsOut(out, generation, k)) + Get(batch.stages, k).count
    ensures RealSum(TimesOut(out[id := batch], generation, k)) ==
            RealSum(TimesOut(out, generation, k)) + Get(batch.stages, k).ms
  {
    var counts, times := CountsOut(out[id := batch], generation, k), TimesOut(out[id := batch], generation, k);
    SumRemove(counts, id);
    RealSumRemove(times, id);
    assert counts - {id} == CountsOut(out, generation, k);
    assert times - {id} == TimesOut(out, generation, k);
  }

  lemma OneFewerOut<K>(out: map<nat, Batch<K>>, id: nat, generation: nat, k: K)
    requires id in out
    ensures var given := if out[id].generation == generation then Get(out[id].stages, k) else ZERO;
            && Sum(CountsOut(out - {id}, generation, k)) == Sum(CountsOut(out, generation, k)) - given.count
            && RealSum(TimesOut(out - {id}, generation, k)) == RealSum(TimesOut(out, generation, k)) - given.ms
  {
    var counts, times := CountsOut(out, generation, k), TimesOut(out, generation, k);
    assert CountsOut(out - {id}, generation, k) == counts - {id};
    assert TimesOut(out - {id}, generation, k) == times - {id};
    if out[id].generation == generation {
      SumRemove(counts, id);
      RealSumRemove(times, id);
    } else {
      assert counts - {id} == counts && times - {id} == times;
    }
  }

  lemma AddKeepsTally<K(!new)>(totals: map<K, Reading>, from: seq<Measure<K>>, m: Measure<K>)
    requires Tallies(totals, from) && m.ms >= 0.0
    ensures Tallies(AddTo(totals, m.key, Finite(m.ms), 1), from + [m])
  {
    forall k ensures Get(AddTo(totals, m.key, Finite(m.ms), 1), k) == Totalled(from + [m], k) {
      SumAppend(from, [m], k);
      assert [m][1..] == [];
      assert Totalled([m], k) == if m.key == k then Reading(m.ms, 1) else ZERO;
      assert Get(totals, k) == Totalled(from, k);
    }
  }

  lemma GiveBackKeepsTally<K(!new)>(known: K -> bool, totals: map<K, Reading>, from: seq<Measure<K>>, batch: Batch<K>)
    requires Tallies(totals, from) && Tallies(batch.stages, batch.from) && Tagged(batch.from, batch.generation, known)
    ensures Tallies(GivenBack(known, totals, batch.stages), from + batch.from)
  {
    var t := GivenBack(known, totals, batch.stages);
    forall k ensures Get(t, k) == Totalled(from + batch.from, k) {
      SumAppend(from, batch.from, k);
      assert Get(totals, k) == Totalled(from, k) && Get(batch.stages, k) == Totalled(batch.from, k);
      if !known(k) {
        UnknownSumsToNothing(known, batch.from, batch.generation, k);
      }
    }
  }

  lemma {:induction false} UnknownSumsToNothing<K(!new)>(known: K -> bool, from: seq<Measure<K>>, tag: nat, k: K)
    requires Tagged(from, tag, known) && !known(k)
    ensures Totalled(from, k) == ZERO
  {
    if from != [] {
      assert from[0] in from;
      assert forall m :: m in from[1..] ==> m in from;
      UnknownSumsToNothing(known, from[1..], tag, k);
    }
  }

  lemma StepConserves<K(!new)>(known: K -> bool, b: Book<K>, s: Step<K>)
    requires Valid(known, b) && CanStep(known, b, s)
    ensures Conserved(Next(known, b, s))
  {
    forall k
      ensures var b' := Next(known, b, s);
              && Time(b'.added, k) == Time(b'.held, k) + RealSum(TimesOut(b'.out, b'.generation, k))
              && Count(b'.added, k) == Count(b'.held, k) + Sum(CountsOut(b'.out, b'.generation, k))
    {
      StepConservesAt(known, b, s, k);
    }
  }

  lemma StepConservesAt<K(!new)>(known: K -> bool, b: Book<K>, s: Step<K>, k: K)
    requires Valid(known, b) && CanStep(known, b, s)
    ensures var b' := Next(known, b, s);
            && Time(b'.added, k) == Time(b'.held, k) + RealSum(TimesOut(b'.out, b'.generation, k))
            && Count(b'.added, k) == Count(b'.held, k) + Sum(CountsOut(b'.out, b'.generation, k))
  {
    match s
    case Begin =>
    case AddFrom(tag, key, ms) =>
      if Measured(ms) {
        SumAppend(b.held, [Measure(tag, key, ms.value)], k);
        SumAppend(b.added, [Measure(tag, key, ms.value)], k);
      }
    case TakeFrom(tag, id) =>
      assert Get(b.totals, k) == Totalled(b.held, k);
      if tag == b.generation {
        OneMoreOut(b.out, id, Batch(tag, b.totals, b.held), tag, k);
      }
    case GiveBack(id) =>
      assert BatchSound(known, b, b.out[id]) && Get(b.out[id].stages, k) == Totalled(b.out[id].from, k);
      SumAppend(b.held, b.out[id].from, k);
      OneFewerOut(b.out, id, b.generation, k);
  }

  lemma StepKeepsValid<K(!new)>(known: K -> bool, b: Book<K>, s: Step<K>)
    requires Valid(known, b) && CanStep(known, b, s)
    ensures Valid(known, Next(known, b, s))
  {
    StepConserves(known, b, s);
    var b' := Next(known, b, s);
    match s
    case Begin =>
    case AddFrom(tag, key, ms) =>
      if Measured(ms) {
        AddKeepsTally(b.totals, b.held, Measure(tag, key, ms.value));
      }
      assert forall id :: id in b'.out ==> BatchSound(known, b, b'.out[id]);
    case TakeFrom(_, id) =>
      assert forall i :: i in b.out ==> BatchSound(known, b, b.out[i]);
    case GiveBack(id) =>
      assert BatchSound(known, b, b.out[id]);
      GiveBackKeepsTally(known, b.totals, b.held, b.out[id]);
  }

  lemma {:induction false} RunKeepsValid<K(!new)>(known: K -> bool, b: Book<K>, steps: seq<Step<K>>)
    requires Valid(known, b) && CanRun(known, b, steps)
    ensures Valid(known, After(known, b, steps))
    decreases |steps|
  {
    if steps != [] {
      StepKeepsValid(known, b, steps[0]);
      RunKeepsValid(known, Next(known, b, steps[0]), steps[1..]);
    }
  }

  // ----- whole runs -----

  /**
   Generation isolation: for every interleaving, each batch taken for a connection is exactly the sum of
   measurements tagged with that connection, all of them counted while it was current.
   */
  lemma BatchesAreIsolated<K(!new)>(known: K -> bool, steps: seq<Step<K>>, id: nat)
    requires CanRun(known, NewBook<K>(), steps) && id in After(known, NewBook<K>(), steps).out
    ensures var b := After(known, NewBook<K>(), steps);
            var batch := b.out[id];
            && (forall k :: Get(batch.stages, k) == Totalled(batch.from, k))
            && (forall m :: m in batch.from ==> m.tag == batch.generation && m in b.ever)
  {
    RunKeepsValid(known, NewBook<K>(), steps);
    assert BatchSound(known, After(known, NewBook<K>(), steps), After(known, NewBook<K>(), steps).out[id]);
  }

  /**
   Within a connection nothing is lost or counted twice: added is held in the totals plus what the batches taken and
   not given back carry, for counts and for times, and the totals hold this connection's measurements only.
   */
  lemma TotalsConserved<K(!new)>(known: K -> bool, steps: seq<Step<K>>, k: K)
    requires CanRun(known, NewBook<K>(), steps)
    ensures var b := After(known, NewBook<K>(), steps);
            && Count(b.added, k) == Get(b.totals, k).count + Sum(CountsOut(b.out, b.generation, k))
            && Time(b.added, k) == Get(b.totals, k).ms + RealSum(TimesOut(b.out, b.generation, k))
            && forall m :: m in b.held ==> m.tag == b.generation
  {
    RunKeepsValid(known, NewBook<K>(), steps);
    assert Get(After(known, NewBook<K>(), steps).totals, k) == Totalled(After(known, NewBook<K>(), steps).held, k);
  }

  /**
   A batch put back whole is restored exactly for the stages the SDK knows; a reading under any other name is
   lost, so taking and giving back is lossless if and only if every stage in the batch is known.
   */
  lemma GiveBackRestoresKnown<K(!new)>(known: K -> bool, taken: map<K, Reading>)
    requires Counting(taken)
    ensures GivenBack(known, map[], taken) == taken <==> forall k :: k in taken ==> known(k)
  {
    var t := GivenBack(known, map[], taken);
    if forall k :: k in taken ==> known(k) {
      assert forall k :: k in taken ==> t[k] == taken[k];
      assert t.Keys == taken.Keys;
    } else {
      var k :| k in taken && !known(k);
      assert k !in t;
    }
  }

  // ----- the two stores as code -----

  /** The names `StageTimes` knows, and any other. */
  datatype FrameStage =
    | Submit | EncodeWait | Encode | Packetize | Pacer | JitterBuffer | Decode | Delivery | OutputPacing | OutputQueue
    | OtherStage(name: string)

  /** The names `MessageTimes` knows, and any other. */
  datatype MessageStage =
    | FfiParse | Spawn | Build | EncodeMessage | Enqueue | QueueWait | FirstCheck | FirstBuild | FirstNative
    | SendMessage | RestNative | Stall | Reassembly | Dispatch | Handler | ReplyDecode | DeliveryToApp | FfiReturn
    | OtherMessageStage(name: string)

  /** A frame's total is kept per track and stage. */
  type FrameKey = (string, FrameStage)

  predicate KnownFrame(k: FrameKey) {
    !k.1.OtherStage?
  }

  predicate KnownMessage(stage: MessageStage) {
    !stage.OtherMessageStage?
  }

  predicate Countable(r: Reading) {
    r.count > 0 && r.ms >= 0.0
  }

  /** The stages `StageTimes` takes back: those it knows, when there is something to add. */
  function TakenBack(stages: map<FrameKey, Reading>): FrameKey -> bool {
    k => KnownFrame(k) && Countable(Get(stages, k))
  }

  /** What was taken from the totals is always countable, so for a batch the check changes nothing. */
  lemma BatchIsCountable(totals: map<FrameKey, Reading>, stages: map<FrameKey, Reading>)
    requires Counting(stages)
    ensures GivenBack(TakenBack(stages), totals, stages) == GivenBack(KnownFrame, totals, stages)
  {
    var a, b := GivenBack(TakenBack(stages), totals, stages), GivenBack(KnownFrame, totals, stages);
    assert forall k :: k in a <==> k in b;
    forall k | k in a ensures a[k] == b[k] {
      if k !in stages {
        assert Plus(Get(totals, k), ZERO) == Get(totals, k);
      }
    }
  }

  /** The loop both stores put stages back with: one entry at a time, in whatever order they come. */
  method GiveAll<K(==)>(wanted: K -> bool, before: map<K, Reading>, stages: map<K, Reading>)
    returns (totals: map<K, Reading>)
    ensures totals == GivenBack(wanted, before, stages)
  {
    totals := before;
    var left := stages;
    ghost var done: map<K, Reading> := map[];
    GiveBackNothing(wanted, before);
    while left != map[]
      invariant forall k :: k in stages <==> k in left || k in done
      invariant forall k :: k in left ==> k !in done
      invariant forall k :: k in left ==> left[k] == stages[k]
      invariant forall k :: k in done ==> done[k] == stages[k]
      invariant totals == GivenBack(wanted, before, done)
      decreases |left|
    {
      var k :| k in left;
      GiveBackOne(wanted, before, done, k, left[k]);
      if wanted(k) {
        totals := OneMore(totals, k, left[k]);
      }
      done := done[k := left[k]];
      left := left - {k};
    }
    assert done == stages;
  }

  class StageTimes {
    var totals: map<FrameKey, Reading>
    var generation: nat

    constructor ()
      ensures totals == map[] && generation == 0
    {
      totals, generation := map[], 0;
    }

    method BeginConnection()
      modifies this
      ensures totals == map[] && generation == old(generation) + 1
    {
      totals := map[];
      generation := generation + 1;
    }

    /** A frame timed on one thread: counted whatever the connection. */
    method Add(track: string, stage: FrameStage, ms: Float)
      modifies this`totals
      ensures totals == AddTo(old(totals), (track, stage), ms, 1)
    {
      totals := AddTo(totals, (track, stage), ms, 1);
    }

    method AddFrom(tag: nat, track: string, stage: FrameStage, ms: Float)
      modifies this`totals
      ensures totals == if tag == generation then AddTo(old(totals), (track, stage), ms, 1) else old(totals)
    {
      if generation == tag {
        Add(track, stage, ms);
      }
    }

    method TakeFrom(tag: nat) returns (taken: Option<map<FrameKey, Reading>>)
      modifies this`totals
      ensures taken == if tag == generation then Some(old(totals)) else None
      ensures totals == if tag == generation then map[] else old(totals)
    {
      if generation != tag {
        return None;
      }
      taken := Some(totals);
      totals := map[];
    }

    method GiveBack(tag: nat, stages: map<FrameKey, Reading>)
      modifies this`totals
      ensures totals == if tag == generation then GivenBack(TakenBack(stages), old(totals), stages) else old(totals)
    {
      if generation != tag {
        return;
      }
      totals := GiveAll(TakenBack(stages), totals, stages);
    }
  }

  class MessageTimes {
    var totals: map<MessageStage, Reading>
    var generation: nat

    constructor ()
      ensures totals == map[] && generation == 0
    {
      totals, generation := map[], 0;
    }

    method BeginConnection()
      modifies this
      ensures totals == map[] && generation == old(generation) + 1
    {
      totals := map[];
      generation := generation + 1;
    }

    method AddFrom(tag: nat, stage: MessageStage, ms: Float)
      modifies this`totals
      ensures totals == if tag == generation then AddTo(old(totals), stage, ms, 1) else old(totals)
    {
      if ms.NotFinite? || ms.value < 0.0 {
        return;
      }
      if generation != tag {
        return;
      }
      totals := OneMore(totals, stage, Reading(ms.value, 1));
    }

    method TakeFrom(tag: nat) returns (taken: Option<map<MessageStage, Reading>>)
      modifies this`totals
      ensures taken == if tag == generation then Some(old(totals)) else None
      ensures totals == if tag == generation then map[] else old(totals)
    {
      if generation != tag {
        return None;
      }
      taken := Some(totals);
      totals := map[];
    }

    method GiveBack(tag: nat, stages: map<MessageStage, Reading>)
      modifies this`totals
      ensures totals == if tag == generation then GivenBack(KnownMessage, old(totals), stages) else old(totals)
    {
      if generation != tag {
        return;
      }
      totals := GiveAll(KnownMessage, totals, stages);
    }
  }
}

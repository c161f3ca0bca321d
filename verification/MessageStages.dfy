/**
 The engine's message stages: running totals turned into one window per batch.

 A batch is measured against the totals of the last one that went out. Time spent in the native send and in stalls
 can pass in a batch interval that completes no message; it is then carried over until some interval completes one.
 */
module MessageStages {
  import opened Prelude

  /** The chunked channel's running totals, times in seconds. */
  datatype Totals = Totals(
    sent: nat, queueWait: real, send: real, stall: real, received: nat, reassembly: real,
    enqueue: real, firstCheck: real, firstBuild: real, firstNative: real, nativeSend: real)

  datatype Held = Held(nativeSend: real, stall: real)

  const NOTHING_HELD := Held(0.0, 0.0)

  datatype Name = Enqueue | QueueWait | FirstCheck | FirstBuild | FirstNative | Send | RestNative | Stall | Reassembly

  datatype Stage = Stage(name: Name, ms: real, messages: nat, partOf: Option<Name>)

  /** The stage a part's time is within. */
  function PartOf(n: Name): Option<Name> {
    match n
    case FirstCheck => Some(QueueWait)
    case FirstBuild => Some(QueueWait)
    case FirstNative => Some(QueueWait)
    case RestNative => Some(Send)
    case _ => None
  }

  /** One stage of a window; a negative time is dropped. */
  function Kept(name: Name, seconds: real, messages: nat): seq<Stage> {
    if seconds * 1000.0 >= 0.0 then [Stage(name, seconds * 1000.0, messages, PartOf(name))] else []
  }

  function KeptAll(times: seq<(Name, real)>, messages: nat): seq<Stage> {
    if times == [] then []
    else KeptAll(times[..|times| - 1], messages) + Kept(times[|times| - 1].0, times[|times| - 1].1, messages)
  }

  /** What is due to leave in this window: its own growth and what earlier ones held. */
  function Due(before: Totals, held: Held, now: Totals): Held {
    Held(now.nativeSend - before.nativeSend + held.nativeSend, now.stall - before.stall + held.stall)
  }

  /** The times of a window in which messages finished leaving. */
  function SendTimes(before: Totals, held: Held, now: Totals): seq<(Name, real)> {
    var due := Due(before, held, now);
    var firstNative := now.firstNative - before.firstNative;
    [(Enqueue, now.enqueue - before.enqueue),
     (QueueWait, now.queueWait - before.queueWait),
     (FirstCheck, now.firstCheck - before.firstCheck),
     (FirstBuild, now.firstBuild - before.firstBuild),
     (FirstNative, firstNative),
     (Send, now.send - before.send),
     (RestNative, due.nativeSend - firstNative),
     (Stall, due.stall)]
  }

  function Reassembled(before: Totals, now: Totals): seq<Stage> {
    if now.received > before.received
    then Kept(Reassembly, now.reassembly - before.reassembly, now.received - before.received) else []
  }

  /** The stages of one window, against the committed baseline. */
  function Window(last: Option<Totals>, held: Held, now: Option<Totals>): seq<Stage> {
    if last.None? || now.None? then []
    else
      (if now.value.sent <= last.value.sent then []
       else KeptAll(SendTimes(last.value, held, now.value), now.value.sent - last.value.sent))
      + Reassembled(last.value, now.value)
  }

  /** What a window leaves held, once its batch goes out. */
  function HeldAfter(last: Option<Totals>, held: Held, now: Option<Totals>): Held {
    if last.Some? && now.Some? && now.value.sent == last.value.sent
    then Due(last.value, held, now.value) else NOTHING_HELD
  }

  // ----- the reporter as code -----

  method Collect(times: seq<(Name, real)>, messages: nat) returns (stages: seq<Stage>)
    ensures stages == KeptAll(times, messages)
  {
    stages := [];
    for i := 0 to |times|
      invariant stages == KeptAll(times[..i], messages)
    {
      assert times[..i + 1][..i] == times[..i];
      var (name, seconds) := times[i];
      if seconds * 1000.0 >= 0.0 {
        stages := stages + [Stage(name, seconds * 1000.0, messages, PartOf(name))];
      }
    }
    assert times[..|times|] == times;
  }

  class MessageStageReporter {
    var last: Option<Totals>
    var held: Held
    var pending: Option<(Option<Totals>, Held)>

    constructor ()
      ensures last == None && held == NOTHING_HELD && pending == None
    {
      last, held, pending := None, NOTHING_HELD, None;
    }

    method Stages(chunking: Option<Totals>) returns (stages: seq<Stage>)
      modifies this`pending
      ensures stages == Window(last, held, chunking)
      ensures pending == Some((chunking, HeldAfter(last, held, chunking)))
    {
      stages := [];
      var next := held;
      if chunking.Some? && last.Some? && chunking.value.sent < last.value.sent {
        next := NOTHING_HELD;
      } else if chunking.Some? && last.Some? {
        var now, before := chunking.value, last.value;
        var sent := now.sent - before.sent;
        if sent == 0 {
          next := Due(before, held, now);
        } else {
          next := NOTHING_HELD;
          stages := Collect(SendTimes(before, held, now), sent);
        }
      } else {
        next := NOTHING_HELD;
      }
      if chunking.Some? && last.Some? && chunking.value.received > last.value.received {
        stages := stages + Kept(Reassembly, chunking.value.reassembly - last.value.reassembly,
                                chunking.value.received - last.value.received);
      }
      pending := Some((chunking, next));
    }

    method Commit()
      modifies this
      ensures pending == None
      ensures if old(pending).Some? then last == old(pending).value.0 && held == old(pending).value.1
              else last == old(last) && held == old(held)
    {
      if pending.Some? {
        last, held := pending.value.0, pending.value.1;
        pending := None;
      }
    }
  }

  // ----- runs of the reporter -----

  datatype Reporter = Reporter(last: Option<Totals>, held: Held, pending: Option<(Option<Totals>, Held)>)

  function Report(r: Reporter, now: Option<Totals>): Reporter {
    r.(pending := Some((now, HeldAfter(r.last, r.held, now))))
  }

  function Committed(r: Reporter): Reporter {
    if r.pending.Some? then Reporter(r.pending.value.0, r.pending.value.1, None) else r
  }

  function ReportAll(r: Reporter, calls: seq<Option<Totals>>): Reporter
    decreases |calls|
  {
    if calls == [] then r else ReportAll(Report(r, calls[0]), calls[1..])
  }

  /**
   Batches that do not go out are invisible: after any number of them the next window is the one it would have
   been, and committing it leaves the same baseline.
   */
  lemma {:induction false} UncommittedInvisible(r: Reporter, calls: seq<Option<Totals>>, now: Option<Totals>)
    ensures var r' := ReportAll(r, calls);
            && Window(r'.last, r'.held, now) == Window(r.last, r.held, now)
            && Committed(Report(r', now)) == Committed(Report(r, now))
    decreases |calls|
  {
    if calls != [] {
      UncommittedInvisible(Report(r, calls[0]), calls[1..], now);
    }
  }

  /** One batch: the totals it was built from, and whether it went out. */
  datatype Tick = Tick(now: Totals, out: bool)

  function Ticked(r: Reporter, t: Tick): Reporter {
    var r' := Report(r, Some(t.now));
    if t.out then Committed(r') else r'
  }

  function After(r: Reporter, ticks: seq<Tick>): Reporter
    decreases |ticks|
  {
    if ticks == [] then r else After(Ticked(r, ticks[0]), ticks[1..])
  }

  /** The batches that went out. */
  function Out(r: Reporter, ticks: seq<Tick>): seq<seq<Stage>>
    decreases |ticks|
  {
    if ticks == [] then []
    else
      (if ticks[0].out then [Window(r.last, r.held, Some(ticks[0].now))] else [])
      + Out(Ticked(r, ticks[0]), ticks[1..])
  }

  function Ms(stages: seq<Stage>, n: Name): real {
    if stages == [] then 0.0
    else Ms(stages[..|stages| - 1], n) + if stages[|stages| - 1].name == n then stages[|stages| - 1].ms else 0.0
  }

  function Messages(stages: seq<Stage>, n: Name): nat {
    if stages == [] then 0
    else
      Messages(stages[..|stages| - 1], n)
      + if stages[|stages| - 1].name == n then stages[|stages| - 1].messages else 0
  }

  function OutMs(batches: seq<seq<Stage>>, n: Name): real {
    if batches == [] then 0.0 else Ms(batches[0], n) + OutMs(batches[1..], n)
  }

  function OutMessages(batches: seq<seq<Stage>>, n: Name): nat {
    if batches == [] then 0 else Messages(batches[0], n) + OutMessages(batches[1..], n)
  }

  /** What a time contributes under its own name. */
  function Credit(seconds: real): real {
    if seconds >= 0.0 then seconds * 1000.0 else 0.0
  }

  function Counted(seconds: real, messages: nat): nat {
    if seconds >= 0.0 then messages else 0
  }

  /** What one more time contributes. */
  lemma MsKept(stages: seq<Stage>, name: Name, seconds: real, messages: nat, n: Name)
    ensures Ms(stages + Kept(name, seconds, messages), n) == Ms(stages, n) + if name == n then Credit(seconds) else 0.0
  {
    var all := stages + Kept(name, seconds, messages);
    if seconds >= 0.0 {
      assert all[..|stages|] == stages;
    } else {
      assert all == stages;
    }
  }

  lemma MessagesKept(stages: seq<Stage>, name: Name, seconds: real, messages: nat, n: Name)
    ensures Messages(stages + Kept(name, seconds, messages), n) ==
            Messages(stages, n) + if name == n then Counted(seconds, messages) else 0
  {
    var all := stages + Kept(name, seconds, messages);
    if seconds >= 0.0 {
      assert all[..|stages|] == stages;
    } else {
      assert all == stages;
    }
  }

  lemma KeptSnoc(front: seq<(Name, real)>, name: Name, seconds: real, messages: nat)
    ensures KeptAll(front + [(name, seconds)], messages) == KeptAll(front, messages) + Kept(name, seconds, messages)
  {
    assert (front + [(name, seconds)])[..|front|] == front;
  }

  /** The time a list of times contributes under a name that occurs in it once, at `at`. */
  lemma {:induction false} OneTimeMs(times: seq<(Name, real)>, messages: nat, at: nat, n: Name, seconds: real)
    requires at < |times| && times[at] == (n, seconds) && forall i :: 0 <= i < |times| && i != at ==> times[i].0 != n
    ensures Ms(KeptAll(times, messages), n) == Credit(seconds)
    decreases |times|
  {
    var k := |times| - 1;
    var front := times[..k];
    assert times == front + [(times[k].0, times[k].1)];
    KeptSnoc(front, times[k].0, times[k].1, messages);
    MsKept(KeptAll(front, messages), times[k].0, times[k].1, messages, n);
    if k == at {
      NoTimeMs(front, messages, n);
    } else {
      OneTimeMs(front, messages, at, n, seconds);
    }
  }

  /** And the messages it counts there. */
  lemma {:induction false} OneTimeMessages(times: seq<(Name, real)>, messages: nat, at: nat, n: Name, seconds: real)
    requires at < |times| && times[at] == (n, seconds) && forall i :: 0 <= i < |times| && i != at ==> times[i].0 != n
    ensures Messages(KeptAll(times, messages), n) == Counted(seconds, messages)
    decreases |times|
  {
    var k := |times| - 1;
    var front := times[..k];
    assert times == front + [(times[k].0, times[k].1)];
    KeptSnoc(front, times[k].0, times[k].1, messages);
    MessagesKept(KeptAll(front, messages), times[k].0, times[k].1, messages, n);
    if k == at {
      NoTimeMessages(front, messages, n);
    } else {
      OneTimeMessages(front, messages, at, n, seconds);
    }
  }

  lemma {:induction false} NoTimeMs(times: seq<(Name, real)>, messages: nat, n: Name)
    requires forall i :: 0 <= i < |times| ==> times[i].0 != n
    ensures Ms(KeptAll(times, messages), n) == 0.0
    decreases |times|
  {
    if times != [] {
      var k := |times| - 1;
      var front := times[..k];
      assert times == front + [(times[k].0, times[k].1)];
      NoTimeMs(front, messages, n);
      KeptSnoc(front, times[k].0, times[k].1, messages);
      MsKept(KeptAll(front, messages), times[k].0, times[k].1, messages, n);
    }
  }

  lemma {:induction false} NoTimeMessages(times: seq<(Name, real)>, messages: nat, n: Name)
    requires forall i :: 0 <= i < |times| ==> times[i].0 != n
    ensures Messages(KeptAll(times, messages), n) == 0
    decreases |times|
  {
    if times != [] {
      var k := |times| - 1;
      var front := times[..k];
      assert times == front + [(times[k].0, times[k].1)];
      NoTimeMessages(front, messages, n);
      KeptSnoc(front, times[k].0, times[k].1, messages);
      MessagesKept(KeptAll(front, messages), times[k].0, times[k].1, messages, n);
    }
  }

  // ----- what one window reports -----

  /** The send stages of a window, each under its own name. */
  lemma SendReports(before: Totals, held: Held, now: Totals, messages: nat, at: nat, n: Name, seconds: real)
    requires at < 8 && SendTimes(before, held, now)[at] == (n, seconds)
    ensures var sends := KeptAll(SendTimes(before, held, now), messages);
            Ms(sends, n) == Credit(seconds) && Messages(sends, n) == Counted(seconds, messages)
  {
    OneTimeMs(SendTimes(before, held, now), messages, at, n, seconds);
    OneTimeMessages(SendTimes(before, held, now), messages, at, n, seconds);
  }

  lemma ReassemblyIsApart(stages: seq<Stage>, before: Totals, now: Totals, n: Name)
    requires n != Reassembly
    ensures Ms(stages + Reassembled(before, now), n) == Ms(stages, n)
    ensures Messages(stages + Reassembled(before, now), n) == Messages(stages, n)
  {
    if now.received > before.received {
      MsKept(stages, Reassembly, now.reassembly - before.reassembly, now.received - before.received, n);
      MessagesKept(stages, Reassembly, now.reassembly - before.reassembly, now.received - before.received, n);
    } else {
      assert stages + [] == stages;
    }
  }

  /** What a window reports under one of the send stages: its time, if messages finished leaving. */
  lemma WindowReportsAt(before: Totals, held: Held, now: Totals, sends: seq<Stage>, n: Name, seconds: real)
    requires now.sent >= before.sent && n != Reassembly
    requires now.sent > before.sent ==>
      Ms(sends, n) == Credit(seconds) && Messages(sends, n) == Counted(seconds, now.sent - before.sent)
    requires sends ==
             if now.sent == before.sent then [] else KeptAll(SendTimes(before, held, now), now.sent - before.sent)
    ensures var w := Window(Some(before), held, Some(now));
            && Ms(w, n) == (if now.sent == before.sent then 0.0 else Credit(seconds))
            && Messages(w, n) == if now.sent == before.sent || seconds < 0.0 then 0 else now.sent - before.sent
  {
    ReassemblyIsApart(sends, before, now, n);
  }

  /** What a window reports of the stages that can be held: the times due, or nothing when no message finished. */
  lemma WindowReports(before: Totals, held: Held, now: Totals)
    requires now.sent >= before.sent
    ensures var w := Window(Some(before), held, Some(now));
            var due := Due(before, held, now);
            var first := now.firstNative - before.firstNative;
            if now.sent == before.sent then
              Ms(w, Stall) == 0.0 && Ms(w, FirstNative) == 0.0 && Ms(w, RestNative) == 0.0 && Messages(w, Stall) == 0
            else
              && Ms(w, Stall) == Credit(due.stall)
              && Ms(w, FirstNative) == Credit(first)
              && Ms(w, RestNative) == Credit(due.nativeSend - first)
              && Messages(w, Stall) == Counted(due.stall, now.sent - before.sent)
  {
    var sent := now.sent - before.sent;
    var due, first := Due(before, held, now), now.firstNative - before.firstNative;
    var sends := if sent == 0 then [] else KeptAll(SendTimes(before, held, now), sent);
    if sent > 0 {
      SendReports(before, held, now, sent, 4, FirstNative, first);
      SendReports(before, held, now, sent, 6, RestNative, due.nativeSend - first);
      SendReports(before, held, now, sent, 7, Stall, due.stall);
    }
    WindowReportsAt(before, held, now, sends, FirstNative, first);
    WindowReportsAt(before, held, now, sends, RestNative, due.nativeSend - first);
    WindowReportsAt(before, held, now, sends, Stall, due.stall);
  }

  /** What a window in which messages finished leaving gives each stage of sending, by name. */
  function SendSeconds(n: Name, before: Totals, held: Held, now: Totals): real
    requires n != Reassembly
  {
    match n
    case Enqueue => now.enqueue - before.enqueue
    case QueueWait => now.queueWait - before.queueWait
    case FirstCheck => now.firstCheck - before.firstCheck
    case FirstBuild => now.firstBuild - before.firstBuild
    case FirstNative => now.firstNative - before.firstNative
    case Send => now.send - before.send
    case RestNative => held.nativeSend + (now.nativeSend - before.nativeSend) - (now.firstNative - before.firstNative)
    case Stall => held.stall + (now.stall - before.stall)
  }

  function PlaceOf(n: Name): nat
    requires n != Reassembly
  {
    match n
    case Enqueue => 0 case QueueWait => 1 case FirstCheck => 2 case FirstBuild => 3
    case FirstNative => 4 case Send => 5 case RestNative => 6 case Stall => 7
  }

  /**
   Every stage of a window: in one where messages finished, the growth of its own total (and for the rest of the
   native sends and for stalls what was held), over the messages sent; else nothing.
   */
  lemma EveryStageReports(before: Totals, held: Held, now: Totals, n: Name)
    requires now.sent >= before.sent && n != Reassembly
    ensures var w := Window(Some(before), held, Some(now));
            var seconds := SendSeconds(n, before, held, now);
            && Ms(w, n) == (if now.sent == before.sent then 0.0 else Credit(seconds))
            && Messages(w, n) == if now.sent == before.sent then 0 else Counted(seconds, now.sent - before.sent)
  {
    var sent := now.sent - before.sent;
    var seconds := SendSeconds(n, before, held, now);
    var sends := if sent == 0 then [] else KeptAll(SendTimes(before, held, now), sent);
    if sent > 0 {
      assert SendTimes(before, held, now)[PlaceOf(n)] == (n, seconds);
      SendReports(before, held, now, sent, PlaceOf(n), n, seconds);
    }
    WindowReportsAt(before, held, now, sends, n, seconds);
  }

  lemma SendsNotReassembly(before: Totals, held: Held, now: Totals, messages: nat)
    ensures Ms(KeptAll(SendTimes(before, held, now), messages), Reassembly) == 0.0
    ensures Messages(KeptAll(SendTimes(before, held, now), messages), Reassembly) == 0
  {
    NoTimeMs(SendTimes(before, held, now), messages, Reassembly);
    NoTimeMessages(SendTimes(before, held, now), messages, Reassembly);
  }

  lemma ReassemblyAfter(sends: seq<Stage>, before: Totals, now: Totals)
    requires Ms(sends, Reassembly) == 0.0 && Messages(sends, Reassembly) == 0
    ensures var w, seconds := sends + Reassembled(before, now), now.reassembly - before.reassembly;
            && Ms(w, Reassembly) == (if now.received <= before.received then 0.0 else Credit(seconds))
            && Messages(w, Reassembly) ==
               if now.received <= before.received then 0 else Counted(seconds, now.received - before.received)
  {
    if now.received > before.received {
      MsKept(sends, Reassembly, now.reassembly - before.reassembly, now.received - before.received, Reassembly);
      MessagesKept(sends, Reassembly, now.reassembly - before.reassembly, now.received - before.received, Reassembly);
    } else {
      assert sends + [] == sends;
    }
  }

  /** And reassembly the growth of its total over the messages received, if there were any. */
  lemma ReassemblyReports(before: Totals, held: Held, now: Totals)
    requires now.sent >= before.sent
    ensures var w := Window(Some(before), held, Some(now));
            var seconds := now.reassembly - before.reassembly;
            && Ms(w, Reassembly) == (if now.received <= before.received then 0.0 else Credit(seconds))
            && Messages(w, Reassembly) ==
               if now.received <= before.received then 0 else Counted(seconds, now.received - before.received)
  {
    if now.sent == before.sent {
      ReassemblyAfter([], before, now);
    } else {
      var sent := now.sent - before.sent;
      SendsNotReassembly(before, held, now, sent);
      ReassemblyAfter(KeptAll(SendTimes(before, held, now), sent), before, now);
    }
  }

  /** The time of the stages a window marks as parts of `whole`. */
  function PartsMs(stages: seq<Stage>, whole: Name): real {
    if stages == [] then 0.0
    else
      PartsMs(stages[..|stages| - 1], whole)
      + if stages[|stages| - 1].partOf == Some(whole) then stages[|stages| - 1].ms else 0.0
  }

  lemma PartsKept(stages: seq<Stage>, name: Name, seconds: real, messages: nat, whole: Name)
    ensures PartsMs(stages + Kept(name, seconds, messages), whole) ==
            PartsMs(stages, whole) + if PartOf(name) == Some(whole) then Credit(seconds) else 0.0
  {
    var all := stages + Kept(name, seconds, messages);
    if seconds >= 0.0 {
      assert all[..|stages|] == stages;
    } else {
      assert all == stages;
    }
  }

  lemma PartsSnoc(front: seq<(Name, real)>, name: Name, seconds: real, messages: nat, whole: Name)
    ensures PartsMs(KeptAll(front + [(name, seconds)], messages), whole) ==
            PartsMs(KeptAll(front, messages), whole) + if PartOf(name) == Some(whole) then Credit(seconds) else 0.0
  {
    assert (front + [(name, seconds)])[..|front|] == front;
    PartsKept(KeptAll(front, messages), name, seconds, messages, whole);
  }

  function CreditedParts(times: seq<(Name, real)>, whole: Name): real {
    if times == [] then 0.0
    else
      var (name, seconds) := times[|times| - 1];
      CreditedParts(times[..|times| - 1], whole) + if PartOf(name) == Some(whole) then Credit(seconds) else 0.0
  }

  lemma {:induction false} PartsAreCredited(times: seq<(Name, real)>, messages: nat, whole: Name)
    ensures PartsMs(KeptAll(times, messages), whole) == CreditedParts(times, whole)
    decreases |times|
  {
    if times != [] {
      var n := |times| - 1;
      PartsAreCredited(times[..n], messages, whole);
      PartsSnoc(times[..n], times[n].0, times[n].1, messages, whole);
      assert times == times[..n] + [(times[n].0, times[n].1)];
    }
  }

  /**
   A part never counts beside its stage for more than the stage: if the engine's first check, build and native send of
   a message lie within its wait in the queue, and its other native sends within its send, then in every window the
   stages marked as parts of a stage add up to no more than that stage.
   */
  lemma PartsLieWithin(before: Totals, held: Held, now: Totals, whole: Name)
    requires now.sent > before.sent
    requires Credit(now.firstCheck - before.firstCheck) + Credit(now.firstBuild - before.firstBuild)
             + Credit(now.firstNative - before.firstNative) <= Credit(now.queueWait - before.queueWait)
    requires Credit(SendSeconds(RestNative, before, held, now)) <= Credit(now.send - before.send)
    requires whole != Reassembly
    ensures var w := Window(Some(before), held, Some(now)); PartsMs(w, whole) <= Ms(w, whole)
  {
    WindowParts(before, held, now, whole);
    EveryStageReports(before, held, now, whole);
    PartsOfSends(before, held, now, whole);
    CreditNotNegative(SendSeconds(whole, before, held, now));
  }

  lemma CreditNotNegative(seconds: real)
    ensures Credit(seconds) >= 0.0
  {
  }

  lemma WindowParts(before: Totals, held: Held, now: Totals, whole: Name)
    requires now.sent > before.sent
    ensures PartsMs(Window(Some(before), held, Some(now)), whole) == CreditedParts(SendTimes(before, held, now), whole)
  {
    PartsOfWindow(SendTimes(before, held, now), now.sent - before.sent, before, now, whole);
  }

  lemma PartsOfWindow(times: seq<(Name, real)>, messages: nat, before: Totals, now: Totals, whole: Name)
    ensures PartsMs(KeptAll(times, messages) + Reassembled(before, now), whole) == CreditedParts(times, whole)
  {
    PartsAreCredited(times, messages, whole);
    PartsAfter(KeptAll(times, messages), before, now, whole);
  }

  lemma PartsAfter(sends: seq<Stage>, before: Totals, now: Totals, whole: Name)
    ensures PartsMs(sends + Reassembled(before, now), whole) == PartsMs(sends, whole)
  {
    if now.received > before.received {
      PartsKept(sends, Reassembly, now.reassembly - before.reassembly, now.received - before.received, whole);
    } else {
      assert sends + [] == sends;
    }
  }

  lemma CreditedSnoc(front: seq<(Name, real)>, name: Name, seconds: real, whole: Name)
    ensures CreditedParts(front + [(name, seconds)], whole) ==
            CreditedParts(front, whole) + if PartOf(name) == Some(whole) then Credit(seconds) else 0.0
  {
    assert (front + [(name, seconds)])[..|front|] == front;
  }

  lemma PartsOfSends(before: Totals, held: Held, now: Totals, whole: Name)
    ensures CreditedParts(SendTimes(before, held, now), whole) ==
            match whole
            case QueueWait => Credit(now.firstCheck - before.firstCheck) + Credit(now.firstBuild - before.firstBuild)
                              + Credit(now.firstNative - before.firstNative)
            case Send => Credit(SendSeconds(RestNative, before, held, now))
            case _ => 0.0
  {
    var t := SendTimes(before, held, now);
    assert t[..0] == [];
    CreditedSnoc(t[..0], t[0].0, t[0].1, whole);
    assert t[..1] == t[..0] + [(t[0].0, t[0].1)];
    CreditedSnoc(t[..1], t[1].0, t[1].1, whole);
    assert t[..2] == t[..1] + [(t[1].0, t[1].1)];
    CreditedSnoc(t[..2], t[2].0, t[2].1, whole);
    assert t[..3] == t[..2] + [(t[2].0, t[2].1)];
    CreditedSnoc(t[..3], t[3].0, t[3].1, whole);
    assert t[..4] == t[..3] + [(t[3].0, t[3].1)];
    CreditedSnoc(t[..4], t[4].0, t[4].1, whole);
    assert t[..5] == t[..4] + [(t[4].0, t[4].1)];
    CreditedSnoc(t[..5], t[5].0, t[5].1, whole);
    assert t[..6] == t[..5] + [(t[5].0, t[5].1)];
    CreditedSnoc(t[..6], t[6].0, t[6].1, whole);
    assert t[..7] == t[..6] + [(t[6].0, t[6].1)];
    CreditedSnoc(t[..7], t[7].0, t[7].1, whole);
    assert t == t[..7] + [(t[7].0, t[7].1)];
  }

  // ----- conservation over whole runs -----

  /** The engine's totals only grow. */
  predicate Grows(a: Totals, b: Totals) {
    a.sent <= b.sent && a.stall <= b.stall && a.firstNative <= b.firstNative && a.nativeSend <= b.nativeSend
  }

  predicate Monotone(first: Totals, ticks: seq<Tick>) {
    && (forall i :: 0 <= i < |ticks| ==> Grows(first, ticks[i].now))
    && (forall i, j :: 0 <= i < j < |ticks| ==> Grows(ticks[i].now, ticks[j].now))
  }

  predicate Running(r: Reporter) {
    r.last.Some? && r.held.stall >= 0.0 && r.held.nativeSend >= 0.0
  }

  lemma TailMonotone(r: Reporter, ticks: seq<Tick>)
    requires Running(r) && ticks != [] && Monotone(r.last.value, ticks)
    ensures Running(Ticked(r, ticks[0])) && Monotone(Ticked(r, ticks[0]).last.value, ticks[1..])
  {
    assert forall i :: 0 <= i < |ticks| - 1 ==> ticks[1..][i] == ticks[i + 1];
  }

  /**
   Over any mix of batches that went out and batches that did not, the stall time reported plus the stall time
   held is the growth of the engine's total, and the message counts reported are the messages sent.
   */
  lemma {:induction false} StallConserved(r: Reporter, ticks: seq<Tick>)
    requires Running(r) && Monotone(r.last.value, ticks)
    ensures var r' := After(r, ticks);
            && Running(r')
            && OutMs(Out(r, ticks), Stall) + r'.held.stall * 1000.0 ==
               (r'.last.value.stall - r.last.value.stall + r.held.stall) * 1000.0
            && OutMessages(Out(r, ticks), Stall) == r'.last.value.sent - r.last.value.sent
    decreases |ticks|
  {
    if ticks != [] {
      var t := ticks[0];
      var r1 := Ticked(r, t);
      TailMonotone(r, ticks);
      StallConserved(r1, ticks[1..]);
      WindowReports(r.last.value, r.held, t.now);
      OutStep(r, ticks, Stall);
    }
  }

  lemma OutStep(r: Reporter, ticks: seq<Tick>, n: Name)
    requires ticks != []
    ensures var rest := Out(Ticked(r, ticks[0]), ticks[1..]);
            var w := Window(r.last, r.held, Some(ticks[0].now));
            && OutMs(Out(r, ticks), n) == OutMs(rest, n) + (if ticks[0].out then Ms(w, n) else 0.0)
            && OutMessages(Out(r, ticks), n) == OutMessages(rest, n) + (if ticks[0].out then Messages(w, n) else 0)
  {
    var rest := Out(Ticked(r, ticks[0]), ticks[1..]);
    var w := Window(r.last, r.held, Some(ticks[0].now));
    if ticks[0].out {
      assert ([w] + rest)[1..] == rest;
    } else {
      assert [] + rest == rest;
    }
  }

  /** The first chunks' native time fits in the native time due, so the rest is not negative and is reported. */
  predicate PartsFit(before: Totals, held: Held, now: Totals) {
    now.sent > before.sent ==> now.firstNative - before.firstNative <= Due(before, held, now).nativeSend
  }

  predicate AllFit(r: Reporter, ticks: seq<Tick>)
    requires Running(r) && Monotone(r.last.value, ticks)
    decreases |ticks|
  {
    ticks == [] ||
    (TailMonotone(r, ticks);
     (ticks[0].out ==> PartsFit(r.last.value, r.held, ticks[0].now)) && AllFit(Ticked(r, ticks[0]), ticks[1..]))
  }

  function NativeMs(r: Reporter, ticks: seq<Tick>): real {
    OutMs(Out(r, ticks), FirstNative) + OutMs(Out(r, ticks), RestNative)
  }

  /**
   The native send time reported, over its two parts, plus what is held is never less than the growth of the
   engine's total, and is exactly that growth if and only if in every batch that went out the parts fit.
   */
  lemma {:induction false} NativeConservedExactlyWhen(r: Reporter, ticks: seq<Tick>)
    requires Running(r) && Monotone(r.last.value, ticks)
    ensures var r' := After(r, ticks);
            && Running(r')
            && var reported := NativeMs(r, ticks) + r'.held.nativeSend * 1000.0;
               var grown := (r'.last.value.nativeSend - r.last.value.nativeSend + r.held.nativeSend) * 1000.0;
               reported >= grown && (reported == grown <==> AllFit(r, ticks))
    decreases |ticks|
  {
    if ticks != [] {
      TailMonotone(r, ticks);
      NativeConservedExactlyWhen(Ticked(r, ticks[0]), ticks[1..]);
      WindowReports(r.last.value, r.held, ticks[0].now);
      OutStep(r, ticks, FirstNative);
      OutStep(r, ticks, RestNative);
    }
  }

  /** The native sends of frames other than a message's first, which the engine's two totals imply, only grow. */
  predicate RestGrows(a: Totals, b: Totals) {
    b.firstNative - a.firstNative <= b.nativeSend - a.nativeSend
  }

  predicate Consistent(first: Totals, ticks: seq<Tick>) {
    && (forall i :: 0 <= i < |ticks| ==> RestGrows(first, ticks[i].now))
    && (forall i, j :: 0 <= i < j < |ticks| ==> RestGrows(ticks[i].now, ticks[j].now))
  }

  lemma {:induction false} ConsistentFits(r: Reporter, ticks: seq<Tick>)
    requires Running(r) && Monotone(r.last.value, ticks) && Consistent(r.last.value, ticks)
    ensures AllFit(r, ticks)
    decreases |ticks|
  {
    if ticks != [] {
      TailMonotone(r, ticks);
      assert forall i :: 0 <= i < |ticks| - 1 ==> ticks[1..][i] == ticks[i + 1];
      ConsistentFits(Ticked(r, ticks[0]), ticks[1..]);
    }
  }

  /**
   As long as the total over all frames counts every first frame too, no window's parts fail to fit, and the native
   send time reported plus what is held is exactly the total's growth.
   */
  lemma NativeConserved(r: Reporter, ticks: seq<Tick>)
    requires Running(r) && Monotone(r.last.value, ticks) && Consistent(r.last.value, ticks)
    ensures var r' := After(r, ticks);
            && Running(r')
            && NativeMs(r, ticks) + r'.held.nativeSend * 1000.0 ==
               (r'.last.value.nativeSend - r.last.value.nativeSend + r.held.nativeSend) * 1000.0
  {
    ConsistentFits(r, ticks);
    NativeConservedExactlyWhen(r, ticks);
  }

  const ZERO_TOTALS := Totals(0, 0.0, 0.0, 0.0, 0, 0.0, 0.0, 0.0, 0.0, 0.0, 0.0)

  /** One message sent, its first frame's native send (2 s) counted, the total over all frames (1 s) behind it. */
  const BEHIND := ZERO_TOTALS.(sent := 1, firstNative := 2.0, nativeSend := 1.0)

  lemma OneBatchReports(before: Totals, now: Totals)
    requires now.sent > before.sent
    ensures var r, ticks := Reporter(Some(before), NOTHING_HELD, None), [Tick(now, true)];
            var first := now.firstNative - before.firstNative;
            && NativeMs(r, ticks) ==
               Credit(first) + Credit(now.nativeSend - before.nativeSend - first)
            && After(r, ticks) == Reporter(Some(now), NOTHING_HELD, None)
  {
    var r, ticks := Reporter(Some(before), NOTHING_HELD, None), [Tick(now, true)];
    assert ticks[1..] == [];
    assert After(r, ticks) == Ticked(r, ticks[0]);
    WindowReports(before, NOTHING_HELD, now);
    OutStep(r, ticks, FirstNative);
    OutStep(r, ticks, RestNative);
  }

  /** A reading in which the total lags its own part reports more than the total grew. */
  lemma NativeCanExceed()
    ensures var r, ticks := Reporter(Some(ZERO_TOTALS), NOTHING_HELD, None), [Tick(BEHIND, true)];
            && Running(r) && Monotone(r.last.value, ticks) && !Consistent(r.last.value, ticks)
            && NativeMs(r, ticks) == 2000.0
            && After(r, ticks) == Reporter(Some(BEHIND), NOTHING_HELD, None)
            && (BEHIND.nativeSend - ZERO_TOTALS.nativeSend) * 1000.0 == 1000.0
  {
    OneBatchReports(ZERO_TOTALS, BEHIND);
    assert !RestGrows(ZERO_TOTALS, BEHIND);
    assert [Tick(BEHIND, true)][0].now == BEHIND;
  }
}

/**
 Bitrates from successive transport snapshots.

 A rate is measured between two samples of one connection (one live candidate pair, one list of SSRCs) at least
 200 ms apart. A sample that comes too early leaves the baseline where it was, so its bytes belong to the next
 window.
 */
module BitrateSampling {
  import opened Prelude

  datatype CandidatePair = CandidatePair(
    priority: nat, nominated: bool, succeeded: bool, bytesReceived: nat, bytesSent: nat)

  /** The engine's report: its candidate pairs, and the SSRCs of its streams. */
  datatype Raw = Raw(pairs: seq<CandidatePair>, inbound: seq<nat>, outbound: seq<nat>)

  datatype Baseline = Baseline(atMs: real, received: nat, sent: nat, priority: nat, streams: seq<nat>)

  datatype Rates = Rates(incoming: real, outgoing: real)

  const MIN_RATE_WINDOW_MS := 200.0

  /** The first pair that is nominated and succeeded. */
  function LivePair(pairs: seq<CandidatePair>): Option<CandidatePair> {
    if pairs == [] then None
    else if pairs[0].nominated && pairs[0].succeeded then Some(pairs[0])
    else LivePair(pairs[1..])
  }

  /** What a report says of the connection carrying media, if there is one. */
  function Reading(raw: Raw, nowMs: real): Option<Baseline> {
    match LivePair(raw.pairs)
    case None => None
    case Some(p) => Some(Baseline(nowMs, p.bytesReceived, p.bytesSent, p.priority, raw.inbound + raw.outbound))
  }

  predicate SameConnection(a: Baseline, b: Baseline) {
    a.priority == b.priority && a.streams == b.streams
  }

  /** Bits per second between two byte counts; a counter that went backwards reads as no traffic. */
  function RateBps(before: nat, now: nat, elapsedMs: real): real
    requires elapsedMs > 0.0
  {
    (if now >= before then now - before else 0) as real * 8.0 / elapsedMs * 1000.0
  }

  lemma RateNotNegative(before: nat, now: nat, elapsedMs: real)
    requires elapsedMs > 0.0
    ensures RateBps(before, now, elapsedMs) >= 0.0
  {
    var bits := (if now >= before then now - before else 0) as real * 8.0;
    assert bits / elapsedMs >= 0.0;
  }

  function RatesBetween(a: Baseline, b: Baseline): Rates
    requires b.atMs > a.atMs
  {
    Rates(RateBps(a.received, b.received, b.atMs - a.atMs), RateBps(a.sent, b.sent, b.atMs - a.atMs))
  }

  predicate Measures(previous: Option<Baseline>, current: Option<Baseline>) {
    && previous.Some? && current.Some? && SameConnection(previous.value, current.value)
    && current.value.atMs - previous.value.atMs >= MIN_RATE_WINDOW_MS
  }

  function BaselineAfter(previous: Option<Baseline>, current: Option<Baseline>): Option<Baseline> {
    if current.None? then previous
    else if previous.Some? && SameConnection(previous.value, current.value) && !Measures(previous, current)
    then previous
    else current
  }

  function Reported(previous: Option<Baseline>, current: Option<Baseline>): Option<Rates> {
    if Measures(previous, current) then Some(RatesBetween(previous.value, current.value)) else None
  }

  // ----- the sampler as code -----

  class StatsSampler {
    var previous: Option<Baseline>

    constructor ()
      ensures previous == None
    {
      previous := None;
    }

    method Reset()
      modifies this
      ensures previous == None
    {
      previous := None;
    }

    method Sample(raw: Raw, nowMs: real) returns (rates: Option<Rates>)
      modifies this
      ensures rates == Reported(old(previous), Reading(raw, nowMs))
      ensures previous == BaselineAfter(old(previous), Reading(raw, nowMs))
    {
      rates := None;
      var live := LivePair(raw.pairs);
      if live.None? { return; }
      var pair := live.value;
      var current := Baseline(nowMs, pair.bytesReceived, pair.bytesSent, pair.priority, raw.inbound + raw.outbound);
      if previous.Some? && previous.value.priority == current.priority && previous.value.streams == current.streams {
        var elapsedMs := current.atMs - previous.value.atMs;
        if elapsedMs >= MIN_RATE_WINDOW_MS {
          rates := Some(Rates(RateBps(previous.value.received, current.received, elapsedMs),
                              RateBps(previous.value.sent, current.sent, elapsedMs)));
          previous := Some(current);
        }
      } else {
        previous := Some(current);
      }
    }
  }

  // ----- runs -----

  datatype Event = Sample(raw: Raw, nowMs: real) | Reset

  function ReadingOf(e: Event): Option<Baseline> {
    if e.Sample? then Reading(e.raw, e.nowMs) else None
  }

  function Next(previous: Option<Baseline>, e: Event): Option<Baseline> {
    if e.Reset? then None else BaselineAfter(previous, ReadingOf(e))
  }

  function After(previous: Option<Baseline>, events: seq<Event>): Option<Baseline> {
    if events == [] then previous else Next(After(previous, events[..|events| - 1]), events[|events| - 1])
  }

  /** The rates event `i` of a run reports. */
  function ReportAt(events: seq<Event>, i: nat): Option<Rates>
    requires i < |events|
  {
    Reported(After(None, events[..i]), ReadingOf(events[i]))
  }

  /** Events `j` and `i` read one connection, and nothing between them is a reset or reads another. */
  predicate Unbroken(events: seq<Event>, j: nat, i: nat)
    requires j <= i < |events|
  {
    && ReadingOf(events[j]).Some? && ReadingOf(events[i]).Some?
    && forall k :: j <= k <= i ==>
      events[k].Sample?
      && (ReadingOf(events[k]).Some? ==> SameConnection(ReadingOf(events[j]).value, ReadingOf(events[k]).value))
  }

  /** Event `j` is where the baseline held before event `i` was read. */
  predicate BaselineFrom(events: seq<Event>, j: nat, i: nat)
    requires j < i <= |events|
  {
    && ReadingOf(events[j]).Some?
    && After(None, events[..i]) == ReadingOf(events[j])
    && forall k :: j <= k < i ==>
      events[k].Sample?
      && (ReadingOf(events[k]).Some? ==> SameConnection(ReadingOf(events[j]).value, ReadingOf(events[k]).value))
  }

  lemma {:induction false} BaselineIsASample(events: seq<Event>, i: nat) returns (j: nat)
    requires i <= |events| && After(None, events[..i]).Some?
    ensures j < i && BaselineFrom(events, j, i)
    decreases i
  {
    assert events[..i][..i - 1] == events[..i - 1];
    var before := After(None, events[..i - 1]);
    var current := ReadingOf(events[i - 1]);
    assert After(None, events[..i]) == Next(before, events[i - 1]);
    if before.Some? && BaselineAfter(before, current) == before {
      j := BaselineIsASample(events, i - 1);
    } else {
      j := i - 1;
    }
  }

  /**
   A reported rate is never negative, spans at least 200 ms, and is the rate between two samples of one
   connection with no reset and no change of pair or SSRCs between them.
   */
  lemma RatesNeverCross(events: seq<Event>, i: nat) returns (j: nat)
    requires i < |events| && ReportAt(events, i).Some?
    ensures j < i && Unbroken(events, j, i)
    ensures events[i].nowMs - events[j].nowMs >= 200.0
    ensures ReportAt(events, i).value == RatesBetween(ReadingOf(events[j]).value, ReadingOf(events[i]).value)
    ensures ReportAt(events, i).value.incoming >= 0.0 && ReportAt(events, i).value.outgoing >= 0.0
  {
    j := BaselineIsASample(events, i);
    var a, b := ReadingOf(events[j]).value, ReadingOf(events[i]).value;
    RateNotNegative(a.received, b.received, b.atMs - a.atMs);
    RateNotNegative(a.sent, b.sent, b.atMs - a.atMs);
  }

  /**
   A sample with a live pair reports no rate only when it is the first of its connection, or comes within 200 ms
   of an earlier sample of it (or of a clock that read later).
   */
  lemma WithheldOnlyWhen(events: seq<Event>, i: nat)
    requires i < |events| && ReadingOf(events[i]).Some? && ReportAt(events, i).None?
    ensures || (forall j :: 0 <= j < i ==> !Unbroken(events, j, i))
            || (exists j :: 0 <= j < i && Unbroken(events, j, i) && events[i].nowMs - events[j].nowMs < 200.0)
  {
    if j :| 0 <= j < i && Unbroken(events, j, i) {
      BaselineHeld(events, j, i);
      var b := BaselineIsASample(events, i);
      assert Unbroken(events, b, i);
    }
  }

  /** After a sample of a connection its baseline is on that connection, until a break. */
  lemma {:induction false} BaselineHeld(events: seq<Event>, j: nat, i: nat)
    requires j < i <= |events| && ReadingOf(events[j]).Some?
    requires forall k :: j <= k < i ==>
               events[k].Sample?
               && (ReadingOf(events[k]).Some? ==>
                     SameConnection(ReadingOf(events[j]).value, ReadingOf(events[k]).value))
    ensures After(None, events[..i]).Some?
    ensures SameConnection(ReadingOf(events[j]).value, After(None, events[..i]).value)
    decreases i
  {
    assert events[..i][..i - 1] == events[..i - 1];
    if i - 1 > j {
      BaselineHeld(events, j, i - 1);
    }
  }

  // ----- no byte is counted twice or lost -----

  /** The bits a sample's report accounts for: its rate times its window. */
  function WindowBits(before: Option<Baseline>, current: Option<Baseline>, incoming: bool): real {
    if !Measures(before, current) then 0.0
    else
      var rates := Reported(before, current).value;
      (if incoming then rates.incoming else rates.outgoing) * ((current.value.atMs - before.value.atMs) / 1000.0)
  }

  function Bits(previous: Option<Baseline>, events: seq<Event>, incoming: bool): real {
    if events == [] then 0.0
    else
      var init := events[..|events| - 1];
      Bits(previous, init, incoming)
      + WindowBits(After(previous, init), ReadingOf(events[|events| - 1]), incoming)
  }

  predicate Grows(a: Baseline, b: Baseline) {
    a.received <= b.received && a.sent <= b.sent
  }

  /** Every event samples one connection, or no live one, and no counter goes backwards. */
  predicate OneConnection(first: Baseline, events: seq<Event>) {
    && (forall k :: 0 <= k < |events| ==> events[k].Sample?)
    && (forall k :: 0 <= k < |events| && ReadingOf(events[k]).Some? ==>
          SameConnection(first, ReadingOf(events[k]).value) && Grows(first, ReadingOf(events[k]).value))
    && (forall j, k :: 0 <= j < k < |events| && ReadingOf(events[j]).Some? && ReadingOf(events[k]).Some? ==>
          Grows(ReadingOf(events[j]).value, ReadingOf(events[k]).value))
  }

  lemma RateTimesWindow(before: nat, now: nat, elapsedMs: real)
    requires before <= now && elapsedMs > 0.0
    ensures RateBps(before, now, elapsedMs) * (elapsedMs / 1000.0) == 8.0 * (now - before) as real
  {
    var bits := (now - before) as real * 8.0;
    var perMs := bits / elapsedMs;
    assert perMs * elapsedMs == bits;
    assert perMs * 1000.0 * (elapsedMs / 1000.0) == perMs * elapsedMs;
  }

  /** A count that went backwards reads as no traffic, not as negative traffic. */
  lemma BackwardsIsNoTraffic(before: nat, now: nat, elapsedMs: real)
    requires now < before && elapsedMs > 0.0
    ensures RateBps(before, now, elapsedMs) == 0.0
  {
  }

  lemma WindowIsExact(before: Baseline, current: Option<Baseline>)
    requires current.Some? ==> SameConnection(before, current.value) && Grows(before, current.value)
    ensures var after := BaselineAfter(Some(before), current);
            && after.Some?
            && WindowBits(Some(before), current, true) == 8.0 * (after.value.received - before.received) as real
            && WindowBits(Some(before), current, false) == 8.0 * (after.value.sent - before.sent) as real
  {
    if Measures(Some(before), current) {
      RateTimesWindow(before.received, current.value.received, current.value.atMs - before.atMs);
      RateTimesWindow(before.sent, current.value.sent, current.value.atMs - before.atMs);
    }
  }

  /** The baseline is the first one or a reading of the run. */
  lemma {:induction false} BaselineOnConnection(first: Baseline, events: seq<Event>)
    requires OneConnection(first, events)
    ensures var last := After(Some(first), events);
            && last.Some? && SameConnection(first, last.value)
            && (last.value == first || exists k :: 0 <= k < |events| && ReadingOf(events[k]) == last)
    decreases |events|
  {
    if events != [] {
      var init := events[..|events| - 1];
      assert forall k :: 0 <= k < |init| ==> init[k] == events[k];
      BaselineOnConnection(first, init);
    }
  }

  /**
   Along any run on one connection, however fast it is polled and whatever the clock does, the rates times their
   windows add up to the bytes between the first baseline and the last, in each direction.
   */
  lemma {:induction false} BytesAccounted(first: Baseline, events: seq<Event>)
    requires OneConnection(first, events)
    ensures var last := After(Some(first), events);
            && last.Some?
            && Bits(Some(first), events, true) == 8.0 * (last.value.received - first.received) as real
            && Bits(Some(first), events, false) == 8.0 * (last.value.sent - first.sent) as real
    decreases |events|
  {
    if events != [] {
      var init := events[..|events| - 1];
      assert forall k :: 0 <= k < |init| ==> init[k] == events[k];
      BytesAccounted(first, init);
      BaselineOnConnection(first, init);
      WindowIsExact(After(Some(first), init).value, ReadingOf(events[|events| - 1]));
    }
  }

  // ----- on the engine's own counters -----

  /** Pair `k` is the first that is nominated and succeeded. */
  predicate FirstLive(pairs: seq<CandidatePair>, k: nat) {
    && k < |pairs| && pairs[k].nominated && pairs[k].succeeded
    && forall j :: 0 <= j < k ==> !(pairs[j].nominated && pairs[j].succeeded)
  }

  lemma {:induction false} LivePairIsFirst(pairs: seq<CandidatePair>, k: nat)
    requires FirstLive(pairs, k)
    ensures LivePair(pairs) == Some(pairs[k])
  {
    if k > 0 {
      assert !(pairs[0].nominated && pairs[0].succeeded);
      LivePairIsFirst(pairs[1..], k - 1);
    }
  }

  lemma {:induction false} FindFirstLive(pairs: seq<CandidatePair>) returns (k: nat)
    requires LivePair(pairs).Some?
    ensures FirstLive(pairs, k)
  {
    if pairs[0].nominated && pairs[0].succeeded {
      k := 0;
    } else {
      var rest := FindFirstLive(pairs[1..]);
      k := rest + 1;
      assert forall j :: 1 <= j < k ==> pairs[j] == pairs[1..][j - 1];
    }
  }

  /** What a sample reads: the counters of that pair, its priority, and the SSRCs received and then sent. */
  lemma ReadsFirstLive(raw: Raw, nowMs: real, k: nat)
    requires FirstLive(raw.pairs, k)
    ensures var p := raw.pairs[k];
            && Reading(raw, nowMs).Some?
            && Reading(raw, nowMs).value.atMs == nowMs
            && Reading(raw, nowMs).value.received == p.bytesReceived && Reading(raw, nowMs).value.sent == p.bytesSent
            && Reading(raw, nowMs).value.priority == p.priority
            && Reading(raw, nowMs).value.streams == raw.inbound + raw.outbound
  {
    LivePairIsFirst(raw.pairs, k);
  }

  lemma {:induction false} FirstSampleBegins(events: seq<Event>)
    requires events != [] && ReadingOf(events[0]).Some?
    ensures After(None, events) == After(ReadingOf(events[0]), events[1..])
    ensures Bits(None, events, true) == Bits(ReadingOf(events[0]), events[1..], true)
    ensures Bits(None, events, false) == Bits(ReadingOf(events[0]), events[1..], false)
    decreases |events|
  {
    var n := |events| - 1;
    if n == 0 {
      assert events[..0] == [] && events[1..] == [];
    } else {
      FirstSampleBegins(events[..n]);
      assert events[..n][1..] == events[1..][..n - 1];
    }
  }

  /**
   On the counters themselves: a run that starts with a live sample and stays on its connection reports, in each
   direction, eight times the bytes its live pair counted between the first sample and the one its baseline is from.
   */
  lemma CountersAccounted(events: seq<Event>, k0: nat) returns (j: nat, k: nat)
    requires events != [] && events[0].Sample? && FirstLive(events[0].raw.pairs, k0)
    requires Reading(events[0].raw, events[0].nowMs).Some?
    requires OneConnection(Reading(events[0].raw, events[0].nowMs).value, events[1..])
    ensures j < |events| && events[j].Sample? && FirstLive(events[j].raw.pairs, k)
    ensures var p0, p := events[0].raw.pairs[k0], events[j].raw.pairs[k];
            && Bits(None, events, true) == 8.0 * (p.bytesReceived - p0.bytesReceived) as real
            && Bits(None, events, false) == 8.0 * (p.bytesSent - p0.bytesSent) as real
  {
    var first, rest := Reading(events[0].raw, events[0].nowMs).value, events[1..];
    ReadsFirstLive(events[0].raw, events[0].nowMs, k0);
    FirstSampleBegins(events);
    BytesAccounted(first, rest);
    BaselineOnConnection(first, rest);
    if After(Some(first), rest).value == first {
      j, k := 0, k0;
    } else {
      var i :| 0 <= i < |rest| && ReadingOf(rest[i]) == After(Some(first), rest);
      j := i + 1;
      k := FindFirstLive(events[j].raw.pairs);
      ReadsFirstLive(events[j].raw, events[j].nowMs, k);
    }
  }
}

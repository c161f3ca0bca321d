/**
 The per-track part of a client-stats batch: baselines, and the windows measured against them.

 `track_stats` measures against the committed baselines and only notes where they would move; `commit` moves
 them. `Batch` and `Moves` are what one call computes, `ClientStatsReporter` is the code.
 */
module TrackStats {
  import opened Prelude

  datatype Codec = Vp8 | Vp9 | Av1 | H264 | H265 | Opus | OtherCodec

  datatype Track = Track(name: string, mid: string, received: bool, video: bool)

  datatype TimingFrame = TimingFrame(rtpTimestamp: nat, encodeWaitMs: Float, packetizeMs: Float, pacerMs: Float)

  /** One RTP stream of the engine's report. The delay and timing fields are a received stream's. */
  datatype Stream = Stream(
    ssrc: nat, mid: Option<string>, codec: Option<Codec>, bytes: nat,
    codecSeconds: Float, codecFrames: nat, delaySeconds: Float, delayFrames: nat, timing: Option<TimingFrame>)

  datatype StageName = EncodeWait | Encode | Packetize | Pacer | JitterBuffer | Decode

  datatype Stage = Stage(name: StageName, ms: real, frames: nat)

  datatype TrackStat = TrackStat(track: string, bitrate: Option<real>, stages: seq<Stage>)

  // ----- which streams stand for a track -----

  predicate Carries(video: bool, c: Codec) {
    if video then c.Vp8? || c.Vp9? || c.Av1? || c.H264? || c.H265? else c.Opus?
  }

  /** The first track of that direction on the stream's `mid`. */
  function TrackOn(tracks: seq<Track>, received: bool, mid: string): Option<Track> {
    if tracks == [] then None
    else if tracks[0].mid == mid && tracks[0].received == received then Some(tracks[0])
    else TrackOn(tracks[1..], received, mid)
  }

  function Resolve(tracks: seq<Track>, received: bool, s: Stream): Option<Track> {
    if s.mid.None? then None
    else
      var t := TrackOn(tracks, received, s.mid.value);
      if t.None? || s.codec.None? || !Carries(t.value.video, s.codec.value) then None else t
  }

  predicate Seen(picked: seq<(Track, Stream)>, mid: string) {
    exists i :: 0 <= i < |picked| && picked[i].0.mid == mid
  }

  /** The streams that stand for a track: of several on one `mid`, the first. */
  function Picked(tracks: seq<Track>, received: bool, streams: seq<Stream>): seq<(Track, Stream)> {
    if streams == [] then []
    else
      var init := Picked(tracks, received, streams[..|streams| - 1]);
      var s := streams[|streams| - 1];
      var t := Resolve(tracks, received, s);
      if t.Some? && !Seen(init, t.value.mid) then init + [(t.value, s)] else init
  }

  // ----- measuring against the baselines -----

  datatype ByteSample = ByteSample(bytes: nat, atMs: real)

  datatype ByteKey = ByteKey(received: bool, ssrc: nat)

  datatype StageKey = StageKey(received: bool, ssrc: nat, stage: StageName)

  datatype Total = Total(seconds: real, frames: nat)

  /** The committed baselines. */
  datatype Baselines = Baselines(bytes: map<ByteKey, ByteSample>, totals: map<StageKey, Total>, timing: map<nat, nat>)

  const NO_BASELINES := Baselines(map[], map[], map[])

  /** Where a batch moves them once it went out; `None` drops a baseline. */
  datatype Moves = Moves(
    bytes: seq<(ByteKey, ByteSample)>, totals: seq<(StageKey, Option<Total>)>, timing: seq<(nat, nat)>)

  const NO_MOVES := Moves([], [], [])

  function Then(a: Moves, b: Moves): Moves {
    Moves(a.bytes + b.bytes, a.totals + b.totals, a.timing + b.timing)
  }

  function Bitrate(b: Baselines, key: ByteKey, bytes: nat, nowMs: real): Option<real> {
    if key !in b.bytes || nowMs <= b.bytes[key].atMs || bytes < b.bytes[key].bytes then None
    else
      var bits := (bytes - b.bytes[key].bytes) as real * 8.0;
      Some((bits * 1000.0 / (nowMs - b.bytes[key].atMs) + 0.5).Floor as real)
  }

  /** One stage's window, if it has a baseline, a frame went through it and no total went backwards. */
  function StageWindow(b: Baselines, key: StageKey, seconds: Float, frames: nat): seq<Stage> {
    if seconds.NotFinite? || key !in b.totals then []
    else
      var before := b.totals[key];
      if frames <= before.frames || seconds.value < before.seconds then []
      else [Stage(key.stage, (seconds.value - before.seconds) * 1000.0, frames - before.frames)]
  }

  function TotalMove(key: StageKey, seconds: Float, frames: nat): (StageKey, Option<Total>) {
    (key, if seconds.Finite? then Some(Total(seconds.value, frames)) else None)
  }

  function TimingStage(name: StageName, ms: Float): seq<Stage> {
    if ms.Finite? && ms.value >= 0.0 then [Stage(name, ms.value, 1)] else []
  }

  /** The sender's stages of a timing frame this stream has not reported before. */
  function TimingWindow(b: Baselines, ssrc: nat, timing: Option<TimingFrame>): seq<Stage> {
    if timing.None? || (ssrc in b.timing && b.timing[ssrc] == timing.value.rtpTimestamp) then []
    else TimingStage(EncodeWait, timing.value.encodeWaitMs) + TimingStage(Packetize, timing.value.packetizeMs)
         + TimingStage(Pacer, timing.value.pacerMs)
  }

  function StatOf(b: Baselines, received: bool, p: (Track, Stream), nowMs: real): TrackStat {
    var (t, s) := p;
    var stages :=
      if !t.video then []
      else if received then
        TimingWindow(b, s.ssrc, s.timing)
        + StageWindow(b, StageKey(true, s.ssrc, JitterBuffer), s.delaySeconds, s.delayFrames)
        + StageWindow(b, StageKey(true, s.ssrc, Decode), s.codecSeconds, s.codecFrames)
      else StageWindow(b, StageKey(false, s.ssrc, Encode), s.codecSeconds, s.codecFrames);
    TrackStat(t.name, Bitrate(b, ByteKey(received, s.ssrc), s.bytes, nowMs), stages)
  }

  function MovesOf(received: bool, p: (Track, Stream), nowMs: real): Moves {
    var (t, s) := p;
    Moves([(ByteKey(received, s.ssrc), ByteSample(s.bytes, nowMs))],
          if !t.video then []
          else if received then
            [TotalMove(StageKey(true, s.ssrc, JitterBuffer), s.delaySeconds, s.delayFrames),
             TotalMove(StageKey(true, s.ssrc, Decode), s.codecSeconds, s.codecFrames)]
          else [TotalMove(StageKey(false, s.ssrc, Encode), s.codecSeconds, s.codecFrames)],
          if t.video && received && s.timing.Some? then [(s.ssrc, s.timing.value.rtpTimestamp)] else [])
  }

  function Stats(b: Baselines, received: bool, picked: seq<(Track, Stream)>, nowMs: real): seq<TrackStat> {
    if picked == [] then []
    else Stats(b, received, picked[..|picked| - 1], nowMs) + [StatOf(b, received, picked[|picked| - 1], nowMs)]
  }

  function AllMoves(received: bool, picked: seq<(Track, Stream)>, nowMs: real): Moves {
    if picked == [] then NO_MOVES
    else Then(AllMoves(received, picked[..|picked| - 1], nowMs), MovesOf(received, picked[|picked| - 1], nowMs))
  }

  /** The engine's report one batch is built from. */
  datatype Raw = Raw(inbound: seq<Stream>, outbound: seq<Stream>, tracks: seq<Track>, nowMs: real)

  function Batch(b: Baselines, raw: Raw): seq<TrackStat> {
    Stats(b, true, Picked(raw.tracks, true, raw.inbound), raw.nowMs)
    + Stats(b, false, Picked(raw.tracks, false, raw.outbound), raw.nowMs)
  }

  function BatchMoves(raw: Raw): Moves {
    Then(AllMoves(true, Picked(raw.tracks, true, raw.inbound), raw.nowMs),
         AllMoves(false, Picked(raw.tracks, false, raw.outbound), raw.nowMs))
  }

  /** `commit`: the moves in the order they were noted, so the last one of a key counts. */
  function MovedBytes(m: map<ByteKey, ByteSample>, moves: seq<(ByteKey, ByteSample)>): map<ByteKey, ByteSample> {
    if moves == [] then m
    else MovedBytes(m, moves[..|moves| - 1])[moves[|moves| - 1].0 := moves[|moves| - 1].1]
  }

  function MovedTotals(m: map<StageKey, Total>, moves: seq<(StageKey, Option<Total>)>): map<StageKey, Total> {
    if moves == [] then m
    else
      var init := MovedTotals(m, moves[..|moves| - 1]);
      var (k, t) := moves[|moves| - 1];
      if t.Some? then init[k := t.value] else init - {k}
  }

  function MovedTiming(m: map<nat, nat>, moves: seq<(nat, nat)>): map<nat, nat> {
    if moves == [] then m
    else MovedTiming(m, moves[..|moves| - 1])[moves[|moves| - 1].0 := moves[|moves| - 1].1]
  }

  function Moved(b: Baselines, m: Moves): Baselines {
    Baselines(MovedBytes(b.bytes, m.bytes), MovedTotals(b.totals, m.totals), MovedTiming(b.timing, m.timing))
  }

  lemma ThenAssociates(a: Moves, b: Moves, c: Moves)
    ensures Then(Then(a, b), c) == Then(a, Then(b, c)) && Then(NO_MOVES, a) == a && Then(a, NO_MOVES) == a
  {
  }

  lemma OneMorePicked(b: Baselines, received: bool, picked: seq<(Track, Stream)>, p: (Track, Stream), nowMs: real)
    ensures Stats(b, received, picked + [p], nowMs) ==
            Stats(b, received, picked, nowMs) + [StatOf(b, received, p, nowMs)]
    ensures AllMoves(received, picked + [p], nowMs) ==
            Then(AllMoves(received, picked, nowMs), MovesOf(received, p, nowMs))
  {
    assert (picked + [p])[..|picked|] == picked;
  }

  // ----- the reporter as code -----

  class ClientStatsReporter {
    var lastBytes: map<ByteKey, ByteSample>
    var lastTotals: map<StageKey, Total>
    var lastTiming: map<nat, nat>
    var pending: Moves

    function View(): Baselines
      reads this
    {
      Baselines(lastBytes, lastTotals, lastTiming)
    }

    constructor ()
      ensures View() == NO_BASELINES && pending == NO_MOVES
    {
      lastBytes, lastTotals, lastTiming, pending := map[], map[], map[], NO_MOVES;
    }

    /** The streams of one direction, in report order. */
    method Direction(received: bool, streams: seq<Stream>, tracks: seq<Track>, nowMs: real)
      returns (stats: seq<TrackStat>)
      modifies this`pending
      ensures var picked := Picked(tracks, received, streams);
              && stats == Stats(View(), received, picked, nowMs)
              && pending == Then(old(pending), AllMoves(received, picked, nowMs))
    {
      stats := [];
      var picked: seq<(Track, Stream)> := [];
      ThenAssociates(pending, NO_MOVES, NO_MOVES);
      for i := 0 to |streams|
        invariant picked == Picked(tracks, received, streams[..i])
        invariant stats == Stats(View(), received, picked, nowMs)
        invariant pending == Then(old(pending), AllMoves(received, picked, nowMs))
      {
        assert streams[..i + 1][..i] == streams[..i];
        var t := Resolve(tracks, received, streams[i]);
        if t.Some? && !Seen(picked, t.value.mid) {
          var p := (t.value, streams[i]);
          stats := stats + [StatOf(View(), received, p, nowMs)];
          pending := Then(pending, MovesOf(received, p, nowMs));
          OneMorePicked(View(), received, picked, p, nowMs);
          ThenAssociates(old(pending), AllMoves(received, picked, nowMs), MovesOf(received, p, nowMs));
          picked := picked + [p];
        }
      }
      assert streams[..|streams|] == streams;
    }

    method TrackStats(raw: Raw) returns (stats: seq<TrackStat>)
      modifies this`pending
      ensures stats == Batch(View(), raw) && pending == BatchMoves(raw)
    {
      pending := NO_MOVES;
      var received := Direction(true, raw.inbound, raw.tracks, raw.nowMs);
      var sent := Direction(false, raw.outbound, raw.tracks, raw.nowMs);
      stats := received + sent;
      ThenAssociates(AllMoves(true, Picked(raw.tracks, true, raw.inbound), raw.nowMs), NO_MOVES, NO_MOVES);
    }

    method Commit()
      modifies this
      ensures View() == Moved(old(View()), old(pending)) && pending == NO_MOVES
    {
      var moves := pending;
      for i := 0 to |moves.bytes|
        invariant lastBytes == MovedBytes(old(lastBytes), moves.bytes[..i])
        invariant lastTotals == old(lastTotals) && lastTiming == old(lastTiming)
      {
        assert moves.bytes[..i + 1][..i] == moves.bytes[..i];
        lastBytes := lastBytes[moves.bytes[i].0 := moves.bytes[i].1];
      }
      for i := 0 to |moves.totals|
        invariant lastTotals == MovedTotals(old(lastTotals), moves.totals[..i])
        invariant lastBytes == MovedBytes(old(lastBytes), moves.bytes[..|moves.bytes|]) && lastTiming == old(lastTiming)
      {
        assert moves.totals[..i + 1][..i] == moves.totals[..i];
        var (k, t) := moves.totals[i];
        lastTotals := if t.Some? then lastTotals[k := t.value] else lastTotals - {k};
      }
      for i := 0 to |moves.timing|
        invariant lastTiming == MovedTiming(old(lastTiming), moves.timing[..i])
        invariant lastBytes == MovedBytes(old(lastBytes), moves.bytes[..|moves.bytes|])
        invariant lastTotals == MovedTotals(old(lastTotals), moves.totals[..|moves.totals|])
      {
        assert moves.timing[..i + 1][..i] == moves.timing[..i];
        lastTiming := lastTiming[moves.timing[i].0 := moves.timing[i].1];
      }
      assert moves.bytes[..|moves.bytes|] == moves.bytes;
      assert moves.totals[..|moves.totals|] == moves.totals;
      assert moves.timing[..|moves.timing|] == moves.timing;
      pending := NO_MOVES;
    }
  }

  // ----- uncommitted batches are invisible -----

  datatype Reporter = Reporter(baselines: Baselines, pending: Moves)

  function Report(r: Reporter, raw: Raw): Reporter {
    r.(pending := BatchMoves(raw))
  }

  function Committed(r: Reporter): Reporter {
    Reporter(Moved(r.baselines, r.pending), NO_MOVES)
  }

  function ReportAll(r: Reporter, raws: seq<Raw>): Reporter
    decreases |raws|
  {
    if raws == [] then r else ReportAll(Report(r, raws[0]), raws[1..])
  }

  /**
   After any number of batches that did not go out, the next one carries exactly what it would have carried,
   and committing it leaves the same baselines.
   */
  lemma {:induction false} UncommittedInvisible(r: Reporter, raws: seq<Raw>, next: Raw)
    ensures Batch(ReportAll(r, raws).baselines, next) == Batch(r.baselines, next)
    ensures Committed(Report(ReportAll(r, raws), next)) == Committed(Report(r, next))
    decreases |raws|
  {
    if raws != [] {
      UncommittedInvisible(Report(r, raws[0]), raws[1..], next);
    }
  }

  // ----- what a batch reads and reports of one stream's stage -----

  /** The engine's running total of `key`'s stage, if this picked stream is the one it belongs to. */
  function ReadingAt(received: bool, p: (Track, Stream), key: StageKey): seq<(Float, nat)> {
    var (t, s) := p;
    if key.received != received || !t.video || s.ssrc != key.ssrc then []
    else if received && key.stage.JitterBuffer? then [(s.delaySeconds, s.delayFrames)]
    else if (received && key.stage.Decode?) || (!received && key.stage.Encode?) then [(s.codecSeconds, s.codecFrames)]
    else []
  }

  function ReadingsIn(received: bool, picked: seq<(Track, Stream)>, key: StageKey): seq<(Float, nat)> {
    if picked == [] then []
    else ReadingsIn(received, picked[..|picked| - 1], key) + ReadingAt(received, picked[|picked| - 1], key)
  }

  function Readings(raw: Raw, key: StageKey): seq<(Float, nat)> {
    ReadingsIn(true, Picked(raw.tracks, true, raw.inbound), key)
    + ReadingsIn(false, Picked(raw.tracks, false, raw.outbound), key)
  }

  function WindowFrames(w: seq<Stage>): nat {
    if w == [] then 0 else w[0].frames
  }

  function WindowMs(w: seq<Stage>): real {
    if w == [] then 0.0 else w[0].ms
  }

  /** What stages of one name add up to. */
  function FramesNamed(stages: seq<Stage>, name: StageName): nat {
    if stages == [] then 0
    else
      FramesNamed(stages[..|stages| - 1], name)
      + if stages[|stages| - 1].name == name then stages[|stages| - 1].frames else 0
  }

  function MsNamed(stages: seq<Stage>, name: StageName): real {
    if stages == [] then 0.0
    else
      MsNamed(stages[..|stages| - 1], name)
      + if stages[|stages| - 1].name == name then stages[|stages| - 1].ms else 0.0
  }

  /** The streams a batch's readings stand on, in its order. */
  function SourcesIn(received: bool, picked: seq<(Track, Stream)>): seq<ByteKey> {
    if picked == [] then []
    else SourcesIn(received, picked[..|picked| - 1]) + [ByteKey(received, picked[|picked| - 1].1.ssrc)]
  }

  function Sources(raw: Raw): seq<ByteKey> {
    SourcesIn(true, Picked(raw.tracks, true, raw.inbound)) + SourcesIn(false, Picked(raw.tracks, false, raw.outbound))
  }

  function StatFrames(stat: TrackStat, from: ByteKey, key: StageKey): nat {
    if from == ByteKey(key.received, key.ssrc) then FramesNamed(stat.stages, key.stage) else 0
  }

  function StatMs(stat: TrackStat, from: ByteKey, key: StageKey): real {
    if from == ByteKey(key.received, key.ssrc) then MsNamed(stat.stages, key.stage) else 0.0
  }

  /** What a batch reports of `key`: its stage's frames and time, summed over the readings of its stream. */
  function FramesOf(stats: seq<TrackStat>, from: seq<ByteKey>, key: StageKey): nat
    requires |stats| == |from|
  {
    if stats == [] then 0
    else
      var n := |stats| - 1;
      FramesOf(stats[..n], from[..n], key) + StatFrames(stats[n], from[n], key)
  }

  function MsOf(stats: seq<TrackStat>, from: seq<ByteKey>, key: StageKey): real
    requires |stats| == |from|
  {
    if stats == [] then 0.0
    else
      var n := |stats| - 1;
      MsOf(stats[..n], from[..n], key) + StatMs(stats[n], from[n], key)
  }

  /** The windows of a list of readings of `key`, added up. */
  function WindowsFrames(b: Baselines, key: StageKey, readings: seq<(Float, nat)>): nat {
    if readings == [] then 0
    else
      var (seconds, frames) := readings[|readings| - 1];
      WindowsFrames(b, key, readings[..|readings| - 1]) + WindowFrames(StageWindow(b, key, seconds, frames))
  }

  function WindowsMs(b: Baselines, key: StageKey, readings: seq<(Float, nat)>): real {
    if readings == [] then 0.0
    else
      var (seconds, frames) := readings[|readings| - 1];
      WindowsMs(b, key, readings[..|readings| - 1]) + WindowMs(StageWindow(b, key, seconds, frames))
  }

  /** The stages measured from running totals; the others come with a timing frame. */
  predicate FromTotals(name: StageName) {
    name.Encode? || name.JitterBuffer? || name.Decode?
  }

  predicate OneOrNone(w: seq<Stage>, name: StageName) {
    |w| <= 1 && (w != [] ==> w[0].name == name)
  }

  lemma {:induction false} NamedConcat(a: seq<Stage>, w: seq<Stage>, name: StageName, n: StageName)
    requires OneOrNone(w, n)
    ensures FramesNamed(a + w, name) == FramesNamed(a, name) + if n == name then WindowFrames(w) else 0
    ensures MsNamed(a + w, name) == MsNamed(a, name) + if n == name then WindowMs(w) else 0.0
  {
    if w == [] {
      assert a + w == a;
    } else {
      assert (a + w)[..|a|] == a;
    }
  }

  lemma {:induction false} NothingNamed(stages: seq<Stage>, name: StageName)
    requires forall i :: 0 <= i < |stages| ==> stages[i].name != name
    ensures FramesNamed(stages, name) == 0 && MsNamed(stages, name) == 0.0
    decreases |stages|
  {
    if stages != [] {
      NothingNamed(stages[..|stages| - 1], name);
    }
  }

  lemma TimingNames(b: Baselines, ssrc: nat, timing: Option<TimingFrame>, name: StageName)
    requires FromTotals(name)
    ensures FramesNamed(TimingWindow(b, ssrc, timing), name) == 0
    ensures MsNamed(TimingWindow(b, ssrc, timing), name) == 0.0
  {
    var w := TimingWindow(b, ssrc, timing);
    assert forall i :: 0 <= i < |w| ==> w[i].name != name;
    NothingNamed(w, name);
  }

  /** A reading carries, under a stage's name, exactly the window of that stage. */
  lemma StatReports(b: Baselines, received: bool, p: (Track, Stream), nowMs: real, key: StageKey)
    requires FromTotals(key.stage) && key.received == received && p.1.ssrc == key.ssrc
    ensures var stages, r := StatOf(b, received, p, nowMs).stages, ReadingAt(received, p, key);
            && FramesNamed(stages, key.stage) ==
               (if r == [] then 0 else WindowFrames(StageWindow(b, key, r[0].0, r[0].1)))
            && MsNamed(stages, key.stage) == (if r == [] then 0.0 else WindowMs(StageWindow(b, key, r[0].0, r[0].1)))
  {
    var (t, s) := p;
    if t.video && received {
      var timing := TimingWindow(b, s.ssrc, s.timing);
      var delay := StageWindow(b, StageKey(true, s.ssrc, JitterBuffer), s.delaySeconds, s.delayFrames);
      var decode := StageWindow(b, StageKey(true, s.ssrc, Decode), s.codecSeconds, s.codecFrames);
      TimingNames(b, s.ssrc, s.timing, key.stage);
      NamedConcat(timing, delay, key.stage, JitterBuffer);
      NamedConcat(timing + delay, decode, key.stage, Decode);
    } else if t.video {
      var encode := StageWindow(b, StageKey(false, s.ssrc, Encode), s.codecSeconds, s.codecFrames);
      NamedConcat([], encode, key.stage, Encode);
      assert [] + encode == encode;
    }
  }

  lemma PickReports(b: Baselines, received: bool, p: (Track, Stream), nowMs: real, key: StageKey)
    requires FromTotals(key.stage)
    ensures var stat, from := StatOf(b, received, p, nowMs), ByteKey(received, p.1.ssrc);
            && StatFrames(stat, from, key) == WindowsFrames(b, key, ReadingAt(received, p, key))
            && StatMs(stat, from, key) == WindowsMs(b, key, ReadingAt(received, p, key))
  {
    var r := ReadingAt(received, p, key);
    if r != [] {
      assert r[..0] == [];
      assert WindowsFrames(b, key, r) == WindowFrames(StageWindow(b, key, r[0].0, r[0].1));
      assert WindowsMs(b, key, r) == WindowMs(StageWindow(b, key, r[0].0, r[0].1));
    }
    if key.received == received && p.1.ssrc == key.ssrc {
      StatReports(b, received, p, nowMs, key);
    }
  }

  lemma OfSnoc(stats: seq<TrackStat>, from: seq<ByteKey>, stat: TrackStat, source: ByteKey, key: StageKey)
    requires |stats| == |from|
    ensures FramesOf(stats + [stat], from + [source], key) == FramesOf(stats, from, key) + StatFrames(stat, source, key)
    ensures MsOf(stats + [stat], from + [source], key) == MsOf(stats, from, key) + StatMs(stat, source, key)
  {
    assert (stats + [stat])[..|stats|] == stats && (from + [source])[..|stats|] == from;
  }

  lemma {:induction false} DirectionReports(b: Baselines, received: bool, picked: seq<(Track, Stream)>, nowMs: real,
                                            key: StageKey)
    requires FromTotals(key.stage)
    ensures var stats, from := Stats(b, received, picked, nowMs), SourcesIn(received, picked);
            && |stats| == |from|
            && FramesOf(stats, from, key) == WindowsFrames(b, key, ReadingsIn(received, picked, key))
            && MsOf(stats, from, key) == WindowsMs(b, key, ReadingsIn(received, picked, key))
    decreases |picked|
  {
    if picked != [] {
      var init, p := picked[..|picked| - 1], picked[|picked| - 1];
      DirectionReports(b, received, init, nowMs, key);
      PickReports(b, received, p, nowMs, key);
      OfSnoc(Stats(b, received, init, nowMs), SourcesIn(received, init),
             StatOf(b, received, p, nowMs), ByteKey(received, p.1.ssrc), key);
      WindowsConcat(b, key, ReadingsIn(received, init, key), ReadingAt(received, p, key));
    }
  }

  lemma {:induction false} WindowsConcat(b: Baselines, key: StageKey, x: seq<(Float, nat)>, y: seq<(Float, nat)>)
    ensures WindowsFrames(b, key, x + y) == WindowsFrames(b, key, x) + WindowsFrames(b, key, y)
    ensures WindowsMs(b, key, x + y) == WindowsMs(b, key, x) + WindowsMs(b, key, y)
    decreases |y|
  {
    if y == [] {
      assert x + y == x;
    } else {
      var n := |y| - 1;
      WindowsConcat(b, key, x, y[..n]);
      assert (x + y)[..|x + y| - 1] == x + y[..n];
    }
  }

  lemma {:induction false} OfConcat(x: seq<TrackStat>, fx: seq<ByteKey>, y: seq<TrackStat>, fy: seq<ByteKey>,
                                    key: StageKey)
    requires |x| == |fx| && |y| == |fy|
    ensures FramesOf(x + y, fx + fy, key) == FramesOf(x, fx, key) + FramesOf(y, fy, key)
    ensures MsOf(x + y, fx + fy, key) == MsOf(x, fx, key) + MsOf(y, fy, key)
    decreases |y|
  {
    if y == [] {
      assert x + y == x && fx + fy == fx;
    } else {
      var n := |y| - 1;
      OfConcat(x, fx, y[..n], fy[..n], key);
      assert (x + y)[..|x + y| - 1] == x + y[..n] && (fx + fy)[..|x + y| - 1] == fx + fy[..n];
    }
  }

  lemma {:induction false} StatsNameTracks(b: Baselines, received: bool, picked: seq<(Track, Stream)>, nowMs: real)
    ensures |Stats(b, received, picked, nowMs)| == |picked|
    ensures forall i :: 0 <= i < |picked| ==> Stats(b, received, picked, nowMs)[i].track == picked[i].0.name
    decreases |picked|
  {
    if picked != [] {
      StatsNameTracks(b, received, picked[..|picked| - 1], nowMs);
    }
  }

  /** A batch has one reading per stream that stands for a track, received ones first, under the track's name. */
  lemma BatchNamesTracks(b: Baselines, raw: Raw, i: nat)
    requires i < |Picked(raw.tracks, true, raw.inbound)| + |Picked(raw.tracks, false, raw.outbound)|
    ensures var received, sent := Picked(raw.tracks, true, raw.inbound), Picked(raw.tracks, false, raw.outbound);
            && |Batch(b, raw)| == |received| + |sent|
            && Batch(b, raw)[i].track == if i < |received| then received[i].0.name else sent[i - |received|].0.name
  {
    StatsNameTracks(b, true, Picked(raw.tracks, true, raw.inbound), raw.nowMs);
    StatsNameTracks(b, false, Picked(raw.tracks, false, raw.outbound), raw.nowMs);
  }

  /** A whole batch reports, under a stream's stage, exactly the windows of the engine's readings of it. */
  lemma BatchReports(b: Baselines, raw: Raw, key: StageKey)
    requires FromTotals(key.stage)
    ensures |Batch(b, raw)| == |Sources(raw)|
    ensures FramesOf(Batch(b, raw), Sources(raw), key) == WindowsFrames(b, key, Readings(raw, key))
    ensures MsOf(Batch(b, raw), Sources(raw), key) == WindowsMs(b, key, Readings(raw, key))
  {
    var received, sent := Picked(raw.tracks, true, raw.inbound), Picked(raw.tracks, false, raw.outbound);
    DirectionReports(b, true, received, raw.nowMs, key);
    DirectionReports(b, false, sent, raw.nowMs, key);
    OfConcat(Stats(b, true, received, raw.nowMs), SourcesIn(true, received),
             Stats(b, false, sent, raw.nowMs), SourcesIn(false, sent), key);
    WindowsConcat(b, key, ReadingsIn(true, received, key), ReadingsIn(false, sent, key));
  }

  /** The last thing a list of moves says about a key. */
  function LastMove(moves: seq<(StageKey, Option<Total>)>, key: StageKey): Option<Option<Total>> {
    if moves == [] then None
    else if moves[|moves| - 1].0 == key then Some(moves[|moves| - 1].1)
    else LastMove(moves[..|moves| - 1], key)
  }

  lemma {:induction false} MovedByLast(m: map<StageKey, Total>, moves: seq<(StageKey, Option<Total>)>, key: StageKey)
    ensures var m' := MovedTotals(m, moves);
            match LastMove(moves, key)
            case None => (key in m' <==> key in m) && (key in m ==> m'[key] == m[key])
            case Some(None) => key !in m'
            case Some(Some(t)) => key in m' && m'[key] == t
    decreases |moves|
  {
    if moves != [] {
      MovedByLast(m, moves[..|moves| - 1], key);
    }
  }

  lemma {:induction false} LastOfConcat(a: seq<(StageKey, Option<Total>)>, b: seq<(StageKey, Option<Total>)>,
                                        key: StageKey)
    ensures LastMove(a + b, key) == if LastMove(b, key).Some? then LastMove(b, key) else LastMove(a, key)
    decreases |b|
  {
    if b == [] {
      assert a + b == a;
    } else {
      LastOfConcat(a, b[..|b| - 1], key);
      assert (a + b)[..|a + b| - 1] == a + b[..|b| - 1];
    }
  }

  /** What the readings of a key make of its baseline. */
  function MoveOf(readings: seq<(Float, nat)>, key: StageKey): Option<Option<Total>> {
    if readings == [] then None
    else Some(TotalMove(key, readings[|readings| - 1].0, readings[|readings| - 1].1).1)
  }

  lemma LastOfShort(moves: seq<(StageKey, Option<Total>)>, key: StageKey)
    ensures |moves| == 1 ==> LastMove(moves, key) == if moves[0].0 == key then Some(moves[0].1) else None
    ensures |moves| == 2 ==>
              LastMove(moves, key) == if moves[1].0 == key then Some(moves[1].1)
                                      else if moves[0].0 == key then Some(moves[0].1) else None
  {
    if |moves| == 2 {
      assert moves[..1] == [moves[0]];
      assert LastMove([moves[0]], key) == if moves[0].0 == key then Some(moves[0].1) else None;
    }
  }

  lemma OneMoves(received: bool, p: (Track, Stream), nowMs: real, key: StageKey)
    ensures LastMove(MovesOf(received, p, nowMs).totals, key) == MoveOf(ReadingAt(received, p, key), key)
  {
    LastOfShort(MovesOf(received, p, nowMs).totals, key);
  }

  lemma {:induction false} PickedMoves(received: bool, picked: seq<(Track, Stream)>, nowMs: real, key: StageKey)
    ensures LastMove(AllMoves(received, picked, nowMs).totals, key) == MoveOf(ReadingsIn(received, picked, key), key)
    decreases |picked|
  {
    if picked != [] {
      var init, p := picked[..|picked| - 1], picked[|picked| - 1];
      PickedMoves(received, init, nowMs, key);
      OneMoves(received, p, nowMs, key);
      LastOfConcat(AllMoves(received, init, nowMs).totals, MovesOf(received, p, nowMs).totals, key);
    }
  }

  lemma BatchMovesByReadings(raw: Raw, key: StageKey)
    ensures LastMove(BatchMoves(raw).totals, key) == MoveOf(Readings(raw, key), key)
  {
    var received, sent := Picked(raw.tracks, true, raw.inbound), Picked(raw.tracks, false, raw.outbound);
    PickedMoves(true, received, raw.nowMs, key);
    PickedMoves(false, sent, raw.nowMs, key);
    LastOfConcat(AllMoves(true, received, raw.nowMs).totals, AllMoves(false, sent, raw.nowMs).totals, key);
  }

  // ----- telescoping over whole runs -----

  /** One batch: the report it was built from, and whether it went out. */
  datatype Tick = Tick(raw: Raw, out: bool)

  function Ticked(b: Baselines, t: Tick): Baselines {
    if t.out then Moved(b, BatchMoves(t.raw)) else b
  }

  function After(b: Baselines, ticks: seq<Tick>): Baselines
    decreases |ticks|
  {
    if ticks == [] then b else After(Ticked(b, ticks[0]), ticks[1..])
  }

  /** What the report gives for `key`: nothing, or one stream's total with a finite time. */
  predicate Reads(raw: Raw, key: StageKey, total: Option<Total>) {
    Readings(raw, key) == match total case None => [] case Some(t) => [(Finite(t.seconds), t.frames)]
  }

  predicate Grows(a: Total, b: Total) {
    a.seconds <= b.seconds && a.frames <= b.frames
  }

  /** The engine's totals of `key` along the run, none going backwards. */
  predicate Monotone(first: Total, totals: seq<Option<Total>>) {
    && (forall i :: 0 <= i < |totals| && totals[i].Some? ==> Grows(first, totals[i].value))
    && (forall i, j :: 0 <= i < j < |totals| && totals[i].Some? && totals[j].Some? ==>
          Grows(totals[i].value, totals[j].value))
  }

  predicate Follows(ticks: seq<Tick>, key: StageKey, totals: seq<Option<Total>>) {
    |totals| == |ticks| && forall i :: 0 <= i < |ticks| ==> Reads(ticks[i].raw, key, totals[i])
  }

  function BatchFrames(b: Baselines, raw: Raw, key: StageKey): nat
    requires FromTotals(key.stage)
  {
    BatchReports(b, raw, key);
    FramesOf(Batch(b, raw), Sources(raw), key)
  }

  function BatchMs(b: Baselines, raw: Raw, key: StageKey): real
    requires FromTotals(key.stage)
  {
    BatchReports(b, raw, key);
    MsOf(Batch(b, raw), Sources(raw), key)
  }

  /** What the batches that went out reported of `key`. */
  function FramesOut(b: Baselines, ticks: seq<Tick>, key: StageKey): nat
    requires FromTotals(key.stage)
    decreases |ticks|
  {
    if ticks == [] then 0
    else
      (if ticks[0].out then BatchFrames(b, ticks[0].raw, key) else 0)
      + FramesOut(Ticked(b, ticks[0]), ticks[1..], key)
  }

  function MsOut(b: Baselines, ticks: seq<Tick>, key: StageKey): real
    requires FromTotals(key.stage)
    decreases |ticks|
  {
    if ticks == [] then 0.0
    else (if ticks[0].out then BatchMs(b, ticks[0].raw, key) else 0.0) + MsOut(Ticked(b, ticks[0]), ticks[1..], key)
  }

  /** The baseline moves with a batch that went out and read the stream, and stays otherwise. */
  lemma TickMovesBaseline(b: Baselines, t: Tick, key: StageKey, total: Option<Total>)
    requires key in b.totals && Reads(t.raw, key, total)
    ensures key in Ticked(b, t).totals
    ensures Ticked(b, t).totals[key] == if t.out && total.Some? then total.value else b.totals[key]
  {
    BatchMovesByReadings(t.raw, key);
    MovedByLast(b.totals, BatchMoves(t.raw).totals, key);
  }

  /** A report whose time is not finite drops the baseline once its batch went out, and reports nothing against it. */
  lemma UnmeasuredDropsBaseline(b: Baselines, raw: Raw, key: StageKey, frames: nat)
    requires FromTotals(key.stage) && Readings(raw, key) == [(NotFinite, frames)]
    ensures key !in Ticked(b, Tick(raw, true)).totals
    ensures BatchFrames(b, raw, key) == 0 && BatchMs(b, raw, key) == 0.0
  {
    BatchMovesByReadings(raw, key);
    MovedByLast(b.totals, BatchMoves(raw).totals, key);
    BatchReports(b, raw, key);
    var readings: seq<(Float, nat)> := [(NotFinite, frames)];
    assert readings[..0] == [];
    assert WindowsFrames(b, key, readings) == WindowFrames(StageWindow(b, key, NotFinite, frames));
    assert WindowsMs(b, key, readings) == WindowMs(StageWindow(b, key, NotFinite, frames));
  }

  /** One batch reports the growth since the baseline, frames and time, or nothing where no frame went through. */
  lemma BatchReportsGrowth(b: Baselines, raw: Raw, key: StageKey, total: Option<Total>)
    requires FromTotals(key.stage) && key in b.totals && Reads(raw, key, total)
    requires total.Some? ==> Grows(b.totals[key], total.value)
    ensures BatchFrames(b, raw, key) == if total.None? then 0 else total.value.frames - b.totals[key].frames
    ensures BatchMs(b, raw, key) ==
            if BatchFrames(b, raw, key) == 0 then 0.0 else (total.value.seconds - b.totals[key].seconds) * 1000.0
  {
    BatchReports(b, raw, key);
    if total.Some? {
      var seconds, frames := Finite(total.value.seconds), total.value.frames;
      var readings: seq<(Float, nat)> := [(seconds, frames)];
      assert readings[..0] == [];
      assert WindowsFrames(b, key, readings) == WindowFrames(StageWindow(b, key, seconds, frames));
      assert WindowsMs(b, key, readings) == WindowMs(StageWindow(b, key, seconds, frames));
    }
  }

  lemma RestFollows(first: Total, ticks: seq<Tick>, key: StageKey, totals: seq<Option<Total>>)
    requires ticks != [] && Follows(ticks, key, totals) && Monotone(first, totals)
    ensures Follows(ticks[1..], key, totals[1..]) && Monotone(first, totals[1..])
    ensures totals[0].Some? ==> Monotone(totals[0].value, totals[1..])
  {
    assert forall i :: 0 <= i < |ticks| - 1 ==> totals[1..][i] == totals[i + 1] && ticks[1..][i] == ticks[i + 1];
  }

  /**
   Over any mix of batches that went out and did not, with the stream in the report or not, the frames reported for a
   stream's stage telescope exactly to the last committed total minus the first baseline, and the time reported
   never exceeds that growth.
   */
  lemma {:induction false} StageTelescopes(b: Baselines, ticks: seq<Tick>, key: StageKey, totals: seq<Option<Total>>)
    requires FromTotals(key.stage) && key in b.totals && Follows(ticks, key, totals) && Monotone(b.totals[key], totals)
    ensures var b' := After(b, ticks);
            && key in b'.totals && Grows(b.totals[key], b'.totals[key])
            && FramesOut(b, ticks, key) == b'.totals[key].frames - b.totals[key].frames
            && 0.0 <= MsOut(b, ticks, key) <= (b'.totals[key].seconds - b.totals[key].seconds) * 1000.0
    decreases |ticks|
  {
    if ticks != [] {
      TickMovesBaseline(b, ticks[0], key, totals[0]);
      BatchReportsGrowth(b, ticks[0].raw, key, totals[0]);
      RestFollows(b.totals[key], ticks, key, totals);
      StageTelescopes(Ticked(b, ticks[0]), ticks[1..], key, totals[1..]);
    }
  }

  // ----- bitrates -----

  /**
   A stream's bitrate is reported exactly when it has a baseline, time has passed since and its count has not gone
   backwards; it is then the bits since over the time since, to the nearest bit per second.
   */
  lemma BitrateIsRate(b: Baselines, received: bool, p: (Track, Stream), nowMs: real)
    ensures var key := ByteKey(received, p.1.ssrc);
            var rate := StatOf(b, received, p, nowMs).bitrate;
            && (rate.Some? <==> key in b.bytes && nowMs > b.bytes[key].atMs && p.1.bytes >= b.bytes[key].bytes)
            && (rate.Some? ==>
                  var elapsed, bits := nowMs - b.bytes[key].atMs, 8.0 * (p.1.bytes - b.bytes[key].bytes) as real;
                  -elapsed / 2.0 <= rate.value * elapsed - bits * 1000.0 <= elapsed / 2.0)
  {
    var key := ByteKey(received, p.1.ssrc);
    if StatOf(b, received, p, nowMs).bitrate.Some? {
      RoundedRate((p.1.bytes - b.bytes[key].bytes) as real * 8.0 * 1000.0, nowMs - b.bytes[key].atMs,
                  StatOf(b, received, p, nowMs).bitrate.value);
    }
  }

  lemma RoundedRate(amount: real, elapsed: real, rate: real)
    requires elapsed > 0.0 && rate == (amount / elapsed + 0.5).Floor as real
    ensures -elapsed / 2.0 <= rate * elapsed - amount <= elapsed / 2.0
  {
    var exact := amount / elapsed;
    Scaled(rate - exact, elapsed);
    Distributes(rate, exact, elapsed, amount);
  }

  lemma Distributes(rate: real, exact: real, elapsed: real, amount: real)
    requires exact * elapsed == amount
    ensures (rate - exact) * elapsed == rate * elapsed - amount
  {
  }

  lemma Scaled(off: real, elapsed: real)
    requires -0.5 <= off <= 0.5 && elapsed > 0.0
    ensures -elapsed / 2.0 <= off * elapsed <= elapsed / 2.0
  {
    assert (0.5 - off) * elapsed >= 0.0 && (off + 0.5) * elapsed >= 0.0;
  }

  /** The last move of a stream's byte count is where its baseline ends up. */
  lemma {:induction false} MovedBytesLast(m: map<ByteKey, ByteSample>, moves: seq<(ByteKey, ByteSample)>, i: nat)
    requires i < |moves| && forall j :: i < j < |moves| ==> moves[j].0 != moves[i].0
    ensures moves[i].0 in MovedBytes(m, moves) && MovedBytes(m, moves)[moves[i].0] == moves[i].1
    decreases |moves|
  {
    if i < |moves| - 1 {
      MovedBytesLast(m, moves[..|moves| - 1], i);
    }
  }

  lemma {:induction false} BytesOfPicked(received: bool, picked: seq<(Track, Stream)>, nowMs: real)
    ensures |AllMoves(received, picked, nowMs).bytes| == |picked|
    ensures forall i :: 0 <= i < |picked| ==>
              AllMoves(received, picked, nowMs).bytes[i] ==
              (ByteKey(received, picked[i].1.ssrc), ByteSample(picked[i].1.bytes, nowMs))
    decreases |picked|
  {
    if picked != [] {
      BytesOfPicked(received, picked[..|picked| - 1], nowMs);
    }
  }

  /** A batch that went out makes each received stream it stands on the baseline of its next bitrate. */
  lemma ReceivedBytesMove(b: Baselines, raw: Raw, i: nat)
    requires var picked := Picked(raw.tracks, true, raw.inbound);
             i < |picked| && forall j :: i < j < |picked| ==> picked[j].1.ssrc != picked[i].1.ssrc
    ensures var s := Picked(raw.tracks, true, raw.inbound)[i].1;
            && ByteKey(true, s.ssrc) in Moved(b, BatchMoves(raw)).bytes
            && Moved(b, BatchMoves(raw)).bytes[ByteKey(true, s.ssrc)] == ByteSample(s.bytes, raw.nowMs)
  {
    var received, sent := Picked(raw.tracks, true, raw.inbound), Picked(raw.tracks, false, raw.outbound);
    BytesOfPicked(true, received, raw.nowMs);
    BytesOfPicked(false, sent, raw.nowMs);
    MovedBytesLast(b.bytes, BatchMoves(raw).bytes, i);
  }

  /** And each sent one. */
  lemma SentBytesMove(b: Baselines, raw: Raw, i: nat)
    requires var picked := Picked(raw.tracks, false, raw.outbound);
             i < |picked| && forall j :: i < j < |picked| ==> picked[j].1.ssrc != picked[i].1.ssrc
    ensures var s := Picked(raw.tracks, false, raw.outbound)[i].1;
            && ByteKey(false, s.ssrc) in Moved(b, BatchMoves(raw)).bytes
            && Moved(b, BatchMoves(raw)).bytes[ByteKey(false, s.ssrc)] == ByteSample(s.bytes, raw.nowMs)
  {
    var received, sent := Picked(raw.tracks, true, raw.inbound), Picked(raw.tracks, false, raw.outbound);
    BytesOfPicked(true, received, raw.nowMs);
    BytesOfPicked(false, sent, raw.nowMs);
    MovedBytesLast(b.bytes, BatchMoves(raw).bytes, |received| + i);
  }

  // ----- timing frames -----

  function TimingMs(t: TimingFrame, name: StageName): Float
    requires !FromTotals(name)
  {
    match name
    case EncodeWait => t.encodeWaitMs
    case Packetize => t.packetizeMs
    case Pacer => t.pacerMs
  }

  /** A timing frame not reported before gives each of the sender's stages its time and one frame, if measured. */
  lemma TimingReports(b: Baselines, ssrc: nat, t: TimingFrame, name: StageName)
    requires !FromTotals(name) && !(ssrc in b.timing && b.timing[ssrc] == t.rtpTimestamp)
    ensures var w, ms := TimingWindow(b, ssrc, Some(t)), TimingMs(t, name);
            var measured := ms.Finite? && ms.value >= 0.0;
            && FramesNamed(w, name) == (if measured then 1 else 0)
            && MsNamed(w, name) == (if measured then ms.value else 0.0)
  {
    var wait, packetize, pacer :=
      TimingStage(EncodeWait, t.encodeWaitMs), TimingStage(Packetize, t.packetizeMs), TimingStage(Pacer, t.pacerMs);
    NamedConcat([], wait, name, EncodeWait);
    assert [] + wait == wait;
    NamedConcat(wait, packetize, name, Packetize);
    NamedConcat(wait + packetize, pacer, name, Pacer);
  }

  lemma {:induction false} MovedTimingHas(m: map<nat, nat>, moves: seq<(nat, nat)>, ssrc: nat, timestamp: nat)
    requires (ssrc, timestamp) in moves && forall mv :: mv in moves && mv.0 == ssrc ==> mv.1 == timestamp
    ensures ssrc in MovedTiming(m, moves) && MovedTiming(m, moves)[ssrc] == timestamp
    decreases |moves|
  {
    var n := |moves| - 1;
    assert moves == moves[..n] + [moves[n]];
    if moves[n].0 != ssrc {
      MovedTimingHas(m, moves[..n], ssrc, timestamp);
    } else {
      assert moves[n] in moves;
    }
  }

  /** The timing frames a batch reported are those of the received video streams it stands on. */
  lemma {:induction false} TimingOfPicked(picked: seq<(Track, Stream)>, nowMs: real, mv: (nat, nat))
    ensures mv in AllMoves(true, picked, nowMs).timing <==>
            exists i :: 0 <= i < |picked| && TimingAt(picked[i]) == Some(mv)
    decreases |picked|
  {
    if picked != [] {
      var n := |picked| - 1;
      var init := picked[..n];
      TimingOfPicked(init, nowMs, mv);
      assert forall i :: 0 <= i < n ==> init[i] == picked[i];
      if TimingAt(picked[n]) == Some(mv) {
        assert mv in MovesOf(true, picked[n], nowMs).timing;
      }
    }
  }

  function TimingAt(p: (Track, Stream)): Option<(nat, nat)> {
    if p.0.video && p.1.timing.Some? then Some((p.1.ssrc, p.1.timing.value.rtpTimestamp)) else None
  }

  lemma {:induction false} SentMovesNoTiming(picked: seq<(Track, Stream)>, nowMs: real)
    ensures AllMoves(false, picked, nowMs).timing == []
    decreases |picked|
  {
    if picked != [] {
      SentMovesNoTiming(picked[..|picked| - 1], nowMs);
    }
  }

  /** A timing frame counts once: after the batch that reported it went out, the same frame reports nothing. */
  lemma TimingReportedOnce(b: Baselines, raw: Raw, i: nat)
    requires var picked := Picked(raw.tracks, true, raw.inbound);
             && i < |picked| && TimingAt(picked[i]).Some?
             && forall j :: 0 <= j < |picked| && picked[j].1.ssrc == picked[i].1.ssrc ==> j == i
    ensures var s := Picked(raw.tracks, true, raw.inbound)[i].1;
            TimingWindow(Moved(b, BatchMoves(raw)), s.ssrc, s.timing) == []
  {
    var picked := Picked(raw.tracks, true, raw.inbound);
    var moves := BatchMoves(raw).timing;
    SentMovesNoTiming(Picked(raw.tracks, false, raw.outbound), raw.nowMs);
    assert moves == AllMoves(true, picked, raw.nowMs).timing;
    forall mv ensures mv in moves <==> exists k :: 0 <= k < |picked| && TimingAt(picked[k]) == Some(mv) {
      TimingOfPicked(picked, raw.nowMs, mv);
    }
    MovedTimingHas(b.timing, moves, picked[i].1.ssrc, picked[i].1.timing.value.rtpTimestamp);
  }

  // ----- which streams stand for a track -----

  /** Every codec the wire carries belongs to tracks of exactly one kind, and no other codec to any. */
  lemma CodecsHaveOneKind(c: Codec)
    ensures Carries(true, c) || Carries(false, c) <==> !c.OtherCodec?
    ensures !(Carries(true, c) && Carries(false, c)) && (Carries(false, c) <==> c.Opus?)
  {
  }

  /** A stream resolves exactly when it names a mid some track of its direction is on and its codec suits that track. */
  lemma ResolvesExactlyWhen(tracks: seq<Track>, received: bool, s: Stream, k: nat)
    requires s.mid.Some? && k < |tracks| && tracks[k].mid == s.mid.value && tracks[k].received == received
    requires forall j :: 0 <= j < k ==> !(tracks[j].mid == s.mid.value && tracks[j].received == received)
    ensures Resolve(tracks, received, s) ==
            if s.codec.Some? && Carries(tracks[k].video, s.codec.value) then Some(tracks[k]) else None
  {
    FirstTrackOn(tracks, received, s.mid.value, k);
  }

  lemma {:induction false} FirstTrackOn(tracks: seq<Track>, received: bool, mid: string, k: nat)
    requires k < |tracks| && tracks[k].mid == mid && tracks[k].received == received
    requires forall j :: 0 <= j < k ==> !(tracks[j].mid == mid && tracks[j].received == received)
    ensures TrackOn(tracks, received, mid) == Some(tracks[k])
  {
    if k > 0 {
      FirstTrackOn(tracks[1..], received, mid, k - 1);
    }
  }

  lemma {:induction false} TrackOnIsOn(tracks: seq<Track>, received: bool, mid: string)
    ensures TrackOn(tracks, received, mid).Some? ==> TrackOn(tracks, received, mid).value.mid == mid
  {
    if tracks != [] {
      TrackOnIsOn(tracks[1..], received, mid);
    }
  }

  predicate ResolvesOn(tracks: seq<Track>, received: bool, s: Stream, mid: string) {
    Resolve(tracks, received, s).Some? && Resolve(tracks, received, s).value.mid == mid
  }

  /** Stream `j` resolves on `mid`, and no earlier one does. */
  predicate FirstOn(tracks: seq<Track>, received: bool, streams: seq<Stream>, j: nat, mid: string) {
    && j < |streams| && ResolvesOn(tracks, received, streams[j], mid)
    && forall i :: 0 <= i < j ==> !ResolvesOn(tracks, received, streams[i], mid)
  }

  lemma SeenSnoc(picked: seq<(Track, Stream)>, p: (Track, Stream), mid: string)
    ensures Seen(picked + [p], mid) <==> Seen(picked, mid) || p.0.mid == mid
  {
    var all := picked + [p];
    assert all[|picked|] == p;
    if Seen(picked, mid) {
      var i :| 0 <= i < |picked| && picked[i].0.mid == mid;
      assert all[i] == picked[i];
    }
  }

  lemma {:induction false} SeenExactly(tracks: seq<Track>, received: bool, streams: seq<Stream>, mid: string)
    ensures Seen(Picked(tracks, received, streams), mid) <==>
            exists j :: 0 <= j < |streams| && ResolvesOn(tracks, received, streams[j], mid)
    decreases |streams|
  {
    if streams != [] {
      var n := |streams| - 1;
      var init, t := streams[..n], Resolve(tracks, received, streams[n]);
      SeenExactly(tracks, received, init, mid);
      assert forall j :: 0 <= j < n ==> init[j] == streams[j];
      if t.Some? {
        SeenSnoc(Picked(tracks, received, init), (t.value, streams[n]), mid);
        if t.value.mid == mid {
          assert ResolvesOn(tracks, received, streams[n], mid);
        }
      }
    }
  }

  /** The first stream to resolve on a mid is picked, and stands for the track it resolves to. */
  lemma {:induction false} FirstIsPicked(tracks: seq<Track>, received: bool, streams: seq<Stream>, j: nat, mid: string)
    requires FirstOn(tracks, received, streams, j, mid)
    ensures (Resolve(tracks, received, streams[j]).value, streams[j]) in Picked(tracks, received, streams)
    decreases |streams|
  {
    var n := |streams| - 1;
    var init := streams[..n];
    assert forall i :: 0 <= i < n ==> init[i] == streams[i];
    if j < n {
      FirstIsPicked(tracks, received, init, j, mid);
    } else {
      SeenExactly(tracks, received, init, mid);
    }
  }

  /** And nothing else is picked. */
  lemma {:induction false} PickedIsFirst(tracks: seq<Track>, received: bool, streams: seq<Stream>, p: (Track, Stream))
    returns (j: nat)
    requires p in Picked(tracks, received, streams)
    ensures FirstOn(tracks, received, streams, j, p.0.mid)
    ensures p == (Resolve(tracks, received, streams[j]).value, streams[j])
    decreases |streams|
  {
    var n := |streams| - 1;
    var init := streams[..n];
    assert forall i :: 0 <= i < n ==> init[i] == streams[i];
    if p in Picked(tracks, received, init) {
      j := PickedIsFirst(tracks, received, init, p);
    } else {
      j := n;
      SeenExactly(tracks, received, init, p.0.mid);
    }
  }
}
